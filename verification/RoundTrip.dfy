/**
  STOR then RETR of the same name through the same mapper, for any chunking on both sides and
  any restart offset: on its own, on the handle objects, and among other sessions.
 */
module RoundTrip {
  import opened Wrappers
  import opened GoPath
  import opened Mapper
  import TempNames
  import opened Remote
  import opened Gates
  import opened Uploads
  import opened UploadLaws
  import opened Downloads
  import P = Protocol
  import L = ProtocolLaws

  function Concat(chunks: seq<Bytes>): Bytes {
    if chunks == [] then [] else chunks[0] + Concat(chunks[1..])
  }

  /** The client sends the chunks, and the server stores them. */
  function Sends(chunks: seq<Bytes>): (acts: seq<Act>)
    ensures ActsOk(acts) && |acts| == |chunks|
    ensures acts != [] ==> acts[0] == Send(chunks[0], Stored) && acts[1..] == Sends(chunks[1..])
  {
    if chunks == [] then [] else [Send(chunks[0], Stored)] + Sends(chunks[1..])
  }

  predicate Fits(plan: Plan, size: int) {
    plan.maxSize > 0 ==> size <= plan.maxSize
  }

  lemma SendIsTaken(u: Upload, files: Files, c: Bytes)
    requires Fits(u.plan, u.log.written + |c|) || u.plan.maxSize <= 0
    ensures var log := Wrote(u, files, c, Stored).0.log;
      && log.failed == u.log.failed && log.written == u.log.written + |c|
      && Whole(log.calls) == Whole(u.log.calls) + c
  {
  }

  lemma DriveSends(u: Upload, files: Files, chunks: seq<Bytes>)
    requires chunks != []
    ensures var (u', files') := Wrote(u, files, chunks[0], Stored);
      Drive(u, files, Sends(chunks)) == Drive(u', files', Sends(chunks[1..]))
  {
  }

  lemma Assoc(a: Bytes, b: Bytes, c: Bytes)
    ensures (a + b) + c == a + (b + c)
  {
  }

  lemma {:induction false} SendsAreTaken(u: Upload, files: Files, chunks: seq<Bytes>)
    requires u.log.written >= 0 && !u.log.failed && Fits(u.plan, u.log.written + |Concat(chunks)|)
    ensures var log := Drive(u, files, Sends(chunks)).0.log;
      !log.failed && Whole(log.calls) == Whole(u.log.calls) + Concat(chunks)
    decreases |chunks|
  {
    if chunks != [] {
      var c := chunks[0];
      SendIsTaken(u, files, c);
      DriveSends(u, files, chunks);
      var (u', files') := Wrote(u, files, c, Stored);
      SendsAreTaken(u', files', chunks[1..]);
      Assoc(Whole(u.log.calls), c, Concat(chunks[1..]));
    }
  }

  /** NewUpload on a healthy server: a handle on an empty temporary file, unless the target exists and may
      not be replaced, in which case nothing has happened. */
  lemma OpensHealthy(target: Path, opts: Options, posix: bool, files: Files)
    ensures var u := Begun(target, opts, posix);
      var w := Settle(World(u, files, []));
      if opts.overwrite || target !in files then w == World(u.(stage := Streaming), files[u.plan.temp := []], [])
      else w == World(u.(stage := Refused(Conflict)), files, [])
  {
    var u := Begun(target, opts, posix);
    if !opts.overwrite { SettleLooking(u, files, []); }
    SettleCreating(u.(stage := Creating), files, []);
  }

  /** A commit with a healthy server and no conflict. */
  lemma CommitsHealthy(job: Job, files: Files)
    requires job.temp != job.target && job.temp in files && (job.overwrite || job.target !in files)
    ensures RunCommit(job, CheckLink, files, []).error.None?
  {
  }

  /** Close of an untroubled upload on a healthy server. */
  lemma ClosesHealthy(u: Upload, files: Files)
    requires Good(u, files) && u.stage.Streaming? && !u.log.failed
    requires u.plan.overwrite || u.plan.target !in files
    ensures ClosedRun(World(u, files, []))
      == World(Reported(u, Committed, None), ClosedRun(World(u, files, [])).files, [])
    ensures ClosedRun(World(u, files, [])).files == Moved(files, u.plan.temp, u.plan.target)
  {
    var u1 := FileClosed(u, Healthy);
    assert Advance(World(u, files, [])) == World(u1, files, []);
    FileCloseKeepsGood(u, files, Healthy);
    CommitsHealthy(u1.plan.Job(), files);
    PublishVerdict(u1, files, []);
    SettleCommit(u1, CheckLink, files, []);
    HealthyLeavesNoFaults(u1.plan.Job(), CheckLink, files);
  }

  lemma {:induction false} HealthyLeavesNoFaults(job: Job, pc: CommitPc, files: Files)
    ensures RunCommit(job, pc, files, []).faults == []
    decreases CommitRank(pc)
  {
  }

  /** The handle after all chunks have been sent. */
  lemma StreamsHealthy(target: Path, opts: Options, posix: bool, files: Files, chunks: seq<Bytes>)
    requires PlanOf(target, opts, posix).temp != target && Fits(PlanOf(target, opts, posix), |Concat(chunks)|)
    ensures var u := Begun(target, opts, posix).(stage := Streaming);
      var (u', files') := Drive(u, files[u.plan.temp := []], Sends(chunks));
      && Good(u', files') && u'.plan == u.plan && u'.stage.Streaming? && !u'.log.failed
      && Whole(u'.log.calls) == Concat(chunks) == u'.log.hashed
      && SameExcept(files, files', {u.plan.temp})
  {
    var u, files1 := Begun(target, opts, posix).(stage := Streaming), files[PlanOf(target, opts, posix).temp := []];
    assert Good(u, files1);
    DriveKeepsGood(u, files1, Sends(chunks));
    SendsAreTaken(u, files1, chunks);
    var (u', files') := Drive(u, files1, Sends(chunks));
    CleanIsTakenWhole(u'.log.calls);
    assert [] + Concat(chunks) == Concat(chunks);
  }

  /** A healthy upload ends in a commit that puts the chunks, in order, under the final name, and changes
      nothing else. */
  lemma HealthyUploadStores(target: Path, opts: Options, posix: bool, files: Files, chunks: seq<Bytes>)
    requires PlanOf(target, opts, posix).temp != target && (opts.overwrite || target !in files)
    requires Fits(PlanOf(target, opts, posix), |Concat(chunks)|)
    ensures var w := WholeRun(World(Begun(target, opts, posix), files, []), Sends(chunks));
      && w.u.stage == Finished(Report(|Concat(chunks)|, Committed, None,
                                      if opts.hashing then Some(Concat(chunks)) else None))
      && target in w.files && w.files[target] == Concat(chunks)
      && SameExcept(files, w.files, {target, w.u.plan.temp}) && w.u.plan.temp !in w.files && w.faults == []
  {
    var u := Begun(target, opts, posix);
    OpensHealthy(target, opts, posix, files);
    StreamsHealthy(target, opts, posix, files, chunks);
    var (u', files') := Drive(u.(stage := Streaming), files[u.plan.temp := []], Sends(chunks));
    ClosesHealthy(u', files');
    assert WholeRun(World(u, files, []), Sends(chunks)) == ClosedRun(World(u', files', []));
  }

  /** The same for a name that the mapper accepts. */
  lemma StoresWhole(m: Mapper, name: string, opts: Options, posix: bool, files: Files, chunks: seq<Bytes>)
    requires m.Valid() && RemotePath(m, name).Ok?
    requires NoSlash(opts.session) && NoSlash(opts.suffix)
    requires opts.overwrite || RemotePath(m, name).value !in files
    requires opts.maxSize > 0 ==> |Concat(chunks)| <= opts.maxSize
    ensures var p := RemotePath(m, name).value;
      var w := WholeRun(World(Begun(p, opts, posix), files, []), Sends(chunks));
      && p in w.files && w.files[p] == Concat(chunks) && w.faults == []
      && w.u.stage.Finished? && w.u.stage.report.error.None?
  {
    var p := RemotePath(m, name).value;
    RemoteIsConfined(m, ResolveVirtual(m, "/", name).value);
    TempNames.TempPathDiffers(p, opts.session, opts.suffix);
    HealthyUploadStores(p, opts, posix, files, chunks);
  }

  /** What a client stored under a name comes back under that name: whole from the start, and exactly the
      part from `offset` on after a restart there (section 5 of RFC 3659), however either transfer is cut. */
  lemma StoreThenRetrieve(m: Mapper, name: string, opts: Options, posix: bool, files: Files,
                          chunks: seq<Bytes>, offset: nat, requests: seq<ReadCall>)
    requires m.Valid() && RemotePath(m, name).Ok?
    requires NoSlash(opts.session) && NoSlash(opts.suffix)
    requires opts.overwrite || RemotePath(m, name).value !in files
    requires opts.maxSize > 0 ==> |Concat(chunks)| <= opts.maxSize
    ensures var p := RemotePath(m, name).value;
      var w := WholeRun(World(Begun(p, opts, posix), files, []), Sends(chunks));
      && p in w.files
      && (ReadsOk(Rest(w.files[p], offset), requests) && (exists r :: r in requests && r.outcome.Eof?) ==>
            Delivered(Rest(w.files[p], offset), requests) ==
              if offset <= |Concat(chunks)| then Concat(chunks)[offset..] else [])
  {
    StoresWhole(m, name, opts, posix, files, chunks);
    if ReadsOk(Rest(Concat(chunks), offset), requests) {
      ReadsDeliverInOrder(Rest(Concat(chunks), offset), requests);
    }
  }

  // ---------------------------------------------------------------- on the handle objects

  /** Writes and transfer errors on an open handle, in order. */
  method Perform(h: UploadHandle, acts: seq<Act>)
    requires h.Valid() && !h.closed && ActsOk(acts)
    modifies h, h.fs`files
    ensures h.Valid() && !h.closed
    ensures (h.View(), h.fs.files) == Drive(old(h.View()), old(h.fs.files), acts)
  {
    ghost var end := Drive(h.View(), h.fs.files, acts);
    for k := 0 to |acts|
      invariant h.Valid() && !h.closed
      invariant ActsOk(acts[k..]) && Drive(h.View(), h.fs.files, acts[k..]) == end
    {
      assert acts[k] in acts && acts[k..][1..] == acts[k + 1..];
      match acts[k] {
        case Send(chunk, o) => var n, error := h.Write(chunk, o);
        case Break(error) => h.TransferError(error);
      }
    }
  }

  /** A STOR that nobody interferes with, under any faults, is the machine's whole run; the reservation is released in
      any case. */
  method Store(fs: Client, target: Path, opts: Options, reservation: Reservation, acts: seq<Act>)
    returns (error: Option<Error>)
    requires ActsOk(acts) && !reservation.released
    modifies fs, reservation, reservation.gate, reservation.active
    ensures reservation.released
    ensures var w := WholeRun(World(Begun(target, opts, fs.posix), old(fs.files), old(fs.faults)), acts);
      && fs.files == w.files && fs.faults == w.faults
      && (w.u.stage.Refused? ==> error == Some(w.u.stage.reason))
      && (w.u.stage.Finished? ==> error == w.u.stage.report.error)
  {
    var r := NewUpload(fs, target, opts, reservation);
    if r.Err? {
      reservation.Release();
      return Some(r.error);
    }
    Perform(r.value, acts);
    error := r.value.Close();
  }

  /** STOR of a name on a healthy server. */
  method StoreName(fs: Client, m: Mapper, name: string, opts: Options, up: Reservation, chunks: seq<Bytes>)
    returns (error: Option<Error>)
    requires !up.released && fs.faults == [] && m.Valid() && RemotePath(m, name).Ok?
    requires NoSlash(opts.session) && NoSlash(opts.suffix)
    requires opts.overwrite || RemotePath(m, name).value !in fs.files
    requires opts.maxSize > 0 ==> |Concat(chunks)| <= opts.maxSize
    modifies fs, up, up.gate, up.active
    ensures error.None? && fs.faults == [] && up.released
    ensures var p := RemotePath(m, name).value; p in fs.files && fs.files[p] == Concat(chunks)
  {
    StoresWhole(m, name, opts, fs.posix, fs.files, chunks);
    error := Store(fs, RemotePath(m, name).value, opts, up, Sends(chunks));
  }

  /** The client of a healthy server is told that its STOR succeeded, and its RETR returns what it sent. */
  method StoreAndRetrieve(fs: Client, m: Mapper, name: string, opts: Options, chunks: seq<Bytes>,
                          offset: nat, requests: seq<ReadCall>, up: Reservation, down: Reservation)
    returns (stored: Option<Error>, r: Result<Bytes, Error>)
    requires !up.released && !down.released && up != down
    requires fs.faults == [] && m.Valid() && RemotePath(m, name).Ok?
    requires NoSlash(opts.session) && NoSlash(opts.suffix)
    requires opts.overwrite || RemotePath(m, name).value !in fs.files
    requires opts.maxSize > 0 ==> |Concat(chunks)| <= opts.maxSize
    requires ReadsOk(Rest(Concat(chunks), offset), requests) && exists q :: q in requests && q.outcome.Eof?
    modifies fs, up, up.gate, up.active, down, down.gate, down.active
    ensures stored.None? && up.released && down.released
    ensures r == Ok(if offset <= |Concat(chunks)| then Concat(chunks)[offset..] else [])
  {
    stored := StoreName(fs, m, name, opts, up, chunks);
    ReadsDeliverInOrder(Rest(Concat(chunks), offset), requests);
    r := Retrieve(fs, RemotePath(m, name).value, opts.hashing, down, offset, requests);
  }

  // ---------------------------------------------------------------- among other sessions

  /** What the client of upload `i` sends with one event. */
  function SentWith(s: P.State, e: P.Event, i: nat): seq<Bytes> {
    if P.Enabled(s, e) && e.Write? && e.i == i then [e.chunk] else []
  }

  /** The chunks that the client of upload `i` sends in the course of a run. */
  function SentTo(s: P.State, events: seq<P.Event>, i: nat): seq<Bytes>
    decreases |events|
  {
    if events == [] then []
    else SentWith(s, events[0], i) + SentTo(P.Apply(s, events[0]), events[1..], i)
  }

  lemma StepSendsNothing(u: Upload, files: Files, f: Fault)
    requires CanStep(u)
    ensures var u' := Step(u, files, f).0; u'.plan == u.plan && u'.log.calls == u.log.calls
  {
  }

  lemma EventAddsChunk(s: P.State, e: P.Event, i: nat)
    requires i < |s.uploads|
    ensures var s' := P.Apply(s, e);
      && i < |s'.uploads| && s'.uploads[i].plan == s.uploads[i].plan
      && Whole(s'.uploads[i].log.calls) == Whole(s.uploads[i].log.calls) + Concat(SentWith(s, e, i))
  {
    if P.Enabled(s, e) && e.Primitive? { StepSendsNothing(s.uploads[e.i], s.files, e.fault); }
    if SentWith(s, e, i) != [] { assert SentWith(s, e, i)[1..] == [] && e.chunk + [] == e.chunk; }
  }

  lemma ConcatFirst(head: seq<Bytes>, rest: seq<Bytes>)
    requires |head| <= 1
    ensures Concat(head + rest) == Concat(head) + Concat(rest)
  {
    if head == [] {
      assert head + rest == rest;
    } else {
      assert (head + rest)[1..] == rest && head[1..] == [];
      assert head[0] + [] == head[0];
    }
  }

  lemma {:induction false} RunAddsChunks(s: P.State, events: seq<P.Event>, i: nat)
    requires i < |s.uploads|
    ensures var s' := P.Run(s, events);
      && i < |s'.uploads| && s'.uploads[i].plan == s.uploads[i].plan
      && Whole(s'.uploads[i].log.calls) == Whole(s.uploads[i].log.calls) + Concat(SentTo(s, events, i))
    decreases |events|
  {
    if events != [] {
      var s', head := P.Apply(s, events[0]), SentWith(s, events[0], i);
      EventAddsChunk(s, events[0], i);
      RunAddsChunks(s', events[1..], i);
      ConcatFirst(head, SentTo(s', events[1..], i));
      Assoc(Whole(s.uploads[i].log.calls), Concat(head), Concat(SentTo(s', events[1..], i)));
    }
  }

  /** STOR then RETR while other sessions upload, delete and rename.  Upload `i` begins, receives its chunks in the
      course of `before`, and reports a commit; if nobody else aims at the path at that moment, and nothing mentions
      it afterwards, a RETR finds exactly those chunks, in order, and the rest of them after a restart. */
  lemma SharedStoreThenRetrieve(m: Mapper, name: string, s0: P.State, begin: P.Event, before: seq<P.Event>, f: Fault,
                                after: seq<P.Event>, offset: nat, requests: seq<ReadCall>)
    requires m.Valid() && RemotePath(m, name).Ok?
    requires P.UploadsOk(s0) && begin.Begin? && begin.target == RemotePath(m, name).value && P.Enabled(s0, begin)
    requires var s, i := P.Run(P.Apply(s0, begin), before), |s0.uploads|;
      && P.Enabled(s, P.Primitive(i, f)) && s.uploads[i].stage.Committing?
      && L.Commits(Step(s.uploads[i], s.files, f).0)
      && L.ClaimedOnlyBy(s, begin.target, {i})
    requires forall e :: e in after ==> !L.Mentions(e, begin.target)
    ensures var s, i, p := P.Run(P.Apply(s0, begin), before), |s0.uploads|, RemotePath(m, name).value;
      var files := P.Run(P.Apply(s, P.Primitive(i, f)), after).files;
      var stored := Concat(SentTo(P.Apply(s0, begin), before, i));
      && p in files && files[p] == stored
      && (ReadsOk(Rest(files[p], offset), requests) && (exists r :: r in requests && r.outcome.Eof?) ==>
            Delivered(Rest(files[p], offset), requests) == if offset <= |stored| then stored[offset..] else [])
  {
    var s1, i := P.Apply(s0, begin), |s0.uploads|;
    var s := P.Run(s1, before);
    P.ApplyKeepsUploads(s0, begin);
    P.RunKeepsUploads(s1, before);
    RunAddsChunks(s1, before, i);
    L.CommittedContentStays(s, i, f, after);
    var stored := Concat(SentTo(s1, before, i));
    assert [] + stored == stored;
    if ReadsOk(Rest(stored, offset), requests) {
      ReadsDeliverInOrder(Rest(stored, offset), requests);
    }
  }
}
