/**
  What holds of one upload: its counters and hash, the promise of Close, the frame of a failed
  upload, and the content a successful one publishes.
 */
module UploadLaws {
  import opened Wrappers
  import opened Remote
  import opened Uploads

  // ---------------------------------------------------------------- the caller's view of the calls

  /** No write failed and no transfer error was signalled. */
  predicate Untroubled(calls: seq<Call>) {
    forall c :: c in calls ==> c.Sent? && c.error.None?
  }

  /** Everything the caller asked to have written. */
  function Whole(calls: seq<Call>): Bytes {
    if calls == [] then []
    else
      var c := calls[|calls| - 1];
      Whole(calls[..|calls| - 1]) + if c.Sent? then c.chunk else []
  }

  /** The bytes the caller was told were taken. */
  function Taken(calls: seq<Call>): Bytes {
    if calls == [] then []
    else
      var c := calls[|calls| - 1];
      Taken(calls[..|calls| - 1]) + if c.Sent? && c.n <= |c.chunk| then c.chunk[..c.n] else []
  }

  predicate Counted(calls: seq<Call>) {
    forall c :: c in calls && c.Sent? ==> c.n <= |c.chunk| && (c.error.None? ==> c.n == |c.chunk|)
  }

  /** The only trouble was signalled without saying what it was. */
  predicate Silent(calls: seq<Call>) {
    !Untroubled(calls) && forall c :: c in calls ==> c.error.None?
  }

  lemma AppendCall(calls: seq<Call>, c: Call)
    ensures (calls + [c])[..|calls|] == calls
    ensures Untroubled(calls + [c]) <==> Untroubled(calls) && c.Sent? && c.error.None?
    ensures Counted(calls + [c])
      <==> Counted(calls) && (c.Sent? ==> c.n <= |c.chunk| && (c.error.None? ==> c.n == |c.chunk|))
    ensures Silent(calls + [c]) <==>
      c.error.None? && (Silent(calls) || (c.Broke? && Untroubled(calls)))
  {
    assert forall x :: x in calls + [c] <==> x in calls || x == c;
  }

  /** The mishaps of one more call, and the error kept then. */
  lemma AppendMishap(calls: seq<Call>, c: Call)
    ensures Kept(Mishaps(calls + [c])) ==
      match c
      case Sent(_, _, None) => Kept(Mishaps(calls))
      case Sent(_, _, Some(e)) => Some(e)
      case Broke(cause) => if Kept(Mishaps(calls)).Some? then Kept(Mishaps(calls)) else cause
  {
    assert (calls + [c])[..|calls|] == calls;
    match c
    case Sent(_, _, None) =>
    case Sent(_, _, Some(e)) => KeptAppend(Mishaps(calls), Request(e));
    case Broke(cause) => KeptAppend(Mishaps(calls), Signal(cause));
  }

  lemma {:induction false} CleanIsTakenWhole(calls: seq<Call>)
    requires Untroubled(calls) && Counted(calls)
    ensures Taken(calls) == Whole(calls)
    decreases |calls|
  {
    if calls != [] {
      var c := calls[|calls| - 1];
      assert c in calls;
      assert c.chunk[..c.n] == c.chunk;
      CleanIsTakenWhole(calls[..|calls| - 1]);
    }
  }

  // ---------------------------------------------------------------- the invariant of one upload

  predicate Opening(stage: Stage) {
    stage.Looking? || stage.Probing? || stage.Creating?
  }

  /** The counters and the hash agree with the calls. */
  predicate Tallied(log: Log, maxSize: int) {
    && log.hashed == Taken(log.calls) && log.written == |log.hashed|
    && (maxSize > 0 ==> log.written <= maxSize)
    && Counted(log.calls)
  }

  /** The failure flag is down only if there was no trouble. */
  predicate Flagged(log: Log) {
    !log.failed ==> log.failErr.None? && Untroubled(log.calls)
  }

  /** While the handle is open, the failure flag and the error kept say what the trouble was. */
  predicate Blamed(log: Log) {
    && (log.failed <==> !Untroubled(log.calls))
    && (log.failed && log.failErr.None? <==> Silent(log.calls))
    && log.failErr == Kept(Mishaps(log.calls))
  }

  predicate ReportOk(u: Upload, r: Report) {
    r == ReportOf(u, r.phase, r.error) && (r.phase.Committed? ==> !u.log.failed && r.error.None?)
  }

  predicate Staged(u: Upload) {
    && u.plan.temp != u.plan.target
    && Flagged(u.log)
    && (Opening(u.stage) ==> u.log == FRESH)
    && (u.stage.Streaming? ==> Blamed(u.log))
    && (u.stage.Committing? ==> !u.log.failed && CommitPcOk(u.plan.Job(), u.stage.pc) && !u.stage.pc.Ended?)
    && (u.stage.Finished? ==> ReportOk(u, u.stage.report))
  }

  /** While nothing has failed, the temporary file holds exactly what was written. */
  predicate InPlace(u: Upload, files: Files) {
    (u.stage.Streaming? || u.stage.Committing?) && !u.log.failed ==>
      u.plan.temp in files && files[u.plan.temp] == Whole(u.log.calls)
  }

  predicate Good(u: Upload, files: Files) {
    Tallied(u.log, u.plan.maxSize) && Staged(u) && InPlace(u, files)
  }

  lemma BegunIsGood(target: Path, opts: Options, posix: bool, files: Files)
    requires PlanOf(target, opts, posix).temp != target
    ensures Good(Begun(target, opts, posix), files)
  {
  }

  // ---------------------------------------------------------------- writes and transfer errors

  lemma WriteTallies(log: Log, maxSize: int, chunk: Bytes, o: WriteOutcome)
    requires Tallied(log, maxSize) && WriterContract(chunk, o)
    ensures maxSize <= 0 || log.written + |chunk| <= maxSize ==> Tallied(LogWritten(log, chunk, o), maxSize)
    ensures Tallied(LogTooLarge(log, chunk), maxSize)
  {
    AppendCall(log.calls, LogWritten(log, chunk, o).calls[|log.calls|]);
    AppendCall(log.calls, Sent(chunk, 0, Some(TooLarge)));
    assert chunk[..|chunk|] == chunk;
  }

  lemma WriteBlames(log: Log, chunk: Bytes, o: WriteOutcome)
    requires Flagged(log) && Blamed(log) && WriterContract(chunk, o)
    ensures Flagged(LogWritten(log, chunk, o)) && Blamed(LogWritten(log, chunk, o))
    ensures Flagged(LogTooLarge(log, chunk)) && Blamed(LogTooLarge(log, chunk))
  {
    AppendCall(log.calls, LogWritten(log, chunk, o).calls[|log.calls|]);
    AppendMishap(log.calls, LogWritten(log, chunk, o).calls[|log.calls|]);
    AppendCall(log.calls, Sent(chunk, 0, Some(TooLarge)));
    AppendMishap(log.calls, Sent(chunk, 0, Some(TooLarge)));
  }

  lemma ErrorBlames(log: Log, maxSize: int, error: Option<Error>)
    requires Flagged(log) && Blamed(log) && Tallied(log, maxSize)
    ensures Flagged(LogBroken(log, error)) && Blamed(LogBroken(log, error)) && Tallied(LogBroken(log, error), maxSize)
  {
    AppendCall(log.calls, Broke(error));
    AppendMishap(log.calls, Broke(error));
  }

  lemma WriteKeepsPlace(u: Upload, files: Files, chunk: Bytes, o: WriteOutcome)
    requires InPlace(u, files) && WriterContract(chunk, o)
    ensures var u' := u.(log := LogWritten(u.log, chunk, o));
      var files' := Extended(files, u.plan.temp, chunk, o);
      InPlace(u', files') && SameExcept(files, files', {u.plan.temp})
  {
    AppendCall(u.log.calls, Sent(chunk, |chunk|, None));
  }

  lemma LogKeepsStage(u: Upload, log: Log)
    requires Staged(u) && u.stage.Streaming? && Flagged(log) && Blamed(log)
    ensures Staged(u.(log := log))
  {
  }

  lemma WriteKeepsGood(u: Upload, files: Files, chunk: Bytes, o: WriteOutcome)
    requires Good(u, files) && u.stage.Streaming? && WriterContract(chunk, o)
    ensures var (u', files') := Wrote(u, files, chunk, o);
      Good(u', files') && SameExcept(files, files', {u.plan.temp})
  {
    WriteTallies(u.log, u.plan.maxSize, chunk, o);
    WriteBlames(u.log, chunk, o);
    LogKeepsStage(u, Wrote(u, files, chunk, o).0.log);
    if !Oversize(u, chunk) {
      WriteKeepsPlace(u, files, chunk, o);
    }
  }

  lemma ErrorKeepsGood(u: Upload, files: Files, error: Option<Error>)
    requires Good(u, files) && u.stage.Streaming?
    ensures Good(Errored(u, error), files)
  {
    ErrorBlames(u.log, u.plan.maxSize, error);
    LogKeepsStage(u, LogBroken(u.log, error));
  }

  // ---------------------------------------------------------------- remote steps

  /** What one step may do to the tree: touch two names, and if it changes what the target holds then
      remove it or, by the rename of the commit, publish the whole content of an upload without trouble. */
  ghost predicate StepEffect(u: Upload, files: Files, files': Files) {
    && SameExcept(files, files', {u.plan.temp, u.plan.target})
    && (u.plan.target in files' ==>
          (u.plan.target in files && files'[u.plan.target] == files[u.plan.target])
          || (u.stage == Committing(Publish) && Untroubled(u.log.calls) && files'[u.plan.target] == Whole(u.log.calls)))
  }

  /** A step keeps the plan and the history of calls. */
  predicate SameCalls(u: Upload, v: Upload) {
    u.plan == v.plan && u.log.calls == v.log.calls && u.log.hashed == v.log.hashed && u.log.written == v.log.written
  }

  lemma OpeningKeepsGood(u: Upload, files: Files, f: Fault)
    requires Good(u, files) && Opening(u.stage)
    ensures var (u', files') := Step(u, files, f);
      Good(u', files') && SameCalls(u, u') && StepEffect(u, files, files')
  {
  }

  lemma FileCloseKeepsGood(u: Upload, files: Files, f: Fault)
    requires Good(u, files) && u.stage.Streaming?
    ensures var (u', files') := Step(u, files, f);
      Good(u', files') && SameCalls(u, u') && StepEffect(u, files, files')
  {
  }

  lemma CleanUpKeepsGood(u: Upload, files: Files, f: Fault)
    requires Good(u, files) && (u.stage.Checking? || u.stage.Removing?)
    ensures var (u', files') := Step(u, files, f);
      Good(u', files') && SameCalls(u, u') && StepEffect(u, files, files')
  {
  }

  lemma CommitKeepsGood(u: Upload, files: Files, f: Fault)
    requires Good(u, files) && u.stage.Committing?
    ensures var (u', files') := Step(u, files, f);
      Good(u', files') && SameCalls(u, u') && StepEffect(u, files, files')
  {
    CommitEffect(u.plan.Job(), u.stage.pc, files, f);
  }

  lemma CommitEffect(job: Job, pc: CommitPc, files: Files, f: Fault)
    requires job.temp != job.target && job.temp in files && !pc.Ended? && CommitPcOk(job, pc)
    ensures var (files', pc') := CommitStep(job, pc, files, f);
      && SameExcept(files, files', {job.temp, job.target}) && CommitPcOk(job, pc')
      && (!pc'.Ended? ==> job.temp in files' && files'[job.temp] == files[job.temp])
      && (job.target in files' ==>
            (job.target in files && files'[job.target] == files[job.target])
            || (pc.Publish? && files'[job.target] == files[job.temp]))
  {
  }

  lemma StepKeepsGood(u: Upload, files: Files, f: Fault)
    requires Good(u, files) && CanStep(u)
    ensures var (u', files') := Step(u, files, f);
      Good(u', files') && SameCalls(u, u') && StepEffect(u, files, files')
  {
    if Opening(u.stage) {
      OpeningKeepsGood(u, files, f);
    } else if u.stage.Streaming? {
      FileCloseKeepsGood(u, files, f);
    } else if u.stage.Committing? {
      CommitKeepsGood(u, files, f);
    } else {
      CleanUpKeepsGood(u, files, f);
    }
  }

  // ---------------------------------------------------------------- what Close decides

  predicate AllHonest(faults: seq<Fault>) {
    forall f :: f in faults ==> f.Honest()
  }

  /** The tree after a failed upload: only the temporary name differs, or also, on a server without
      posix-rename, an overwritable target is gone. */
  ghost predicate FailureFrame(u: Upload, files: Files, files': Files) {
    SameExcept(files, files', {u.plan.temp})
    || (!u.plan.posix && u.plan.overwrite && u.plan.target !in files'
        && SameExcept(files, files', {u.plan.temp, u.plan.target}))
  }

  lemma CleanUpFrame(u: Upload, files: Files, faults: seq<Fault>)
    requires u.stage.Checking?
    ensures var w := Settle(World(u, files, faults));
      && w.u == Reported(u, Failed, u.stage.error)
      && SameExcept(files, w.files, {u.plan.temp})
      && (faults == [] ==> u.plan.temp !in w.files)
  {
    SettleCleanUp(u, files, faults);
  }

  /** The part of Close from the commit on, if the commit succeeds. */
  lemma PublishSucceeds(u: Upload, files: Files, faults: seq<Fault>)
    requires Good(u, files) && u.stage == Committing(CheckLink)
    requires RunCommit(u.plan.Job(), CheckLink, files, faults).error.None?
    ensures var w := Settle(World(u, files, faults));
      w.u == Reported(u, Committed, None) && w.files == Moved(files, u.plan.temp, u.plan.target)
  {
    SettleCommit(u, CheckLink, files, faults);
    CommitSuccess(u.plan.Job(), CheckLink, files, faults);
  }

  /** And if it fails, the clean-up follows. */
  lemma PublishFails(u: Upload, files: Files, faults: seq<Fault>)
    requires Good(u, files) && u.stage == Committing(CheckLink)
    requires RunCommit(u.plan.Job(), CheckLink, files, faults).error.Some?
    ensures var w := Settle(World(u, files, faults));
      var out := RunCommit(u.plan.Job(), CheckLink, files, faults);
      w.u == Reported(u, Failed, out.error) && SameExcept(out.files, w.files, {u.plan.temp})
  {
    var out := RunCommit(u.plan.Job(), CheckLink, files, faults);
    SettleCommit(u, CheckLink, files, faults);
    CleanUpFrame(u.(stage := Checking(out.error)), out.files, out.faults);
  }

  lemma FailedCommitFrame(u: Upload, files: Files, faults: seq<Fault>, files': Files)
    requires u.plan.temp != u.plan.target && AllHonest(faults)
    requires var out := RunCommit(u.plan.Job(), CheckLink, files, faults);
      out.error.Some? && SameExcept(out.files, files', {u.plan.temp})
    ensures FailureFrame(u, files, files')
  {
    CommitFrame(u.plan.Job(), CheckLink, files, faults);
  }

  /** The part of Close from the commit on. */
  lemma PublishVerdict(u: Upload, files: Files, faults: seq<Fault>)
    requires Good(u, files) && u.stage == Committing(CheckLink)
    ensures var w := Settle(World(u, files, faults));
      if RunCommit(u.plan.Job(), CheckLink, files, faults).error.None? then
        w.u == Reported(u, Committed, None) && w.files == Moved(files, u.plan.temp, u.plan.target)
      else
        && w.u == Reported(u, Failed, RunCommit(u.plan.Job(), CheckLink, files, faults).error)
        && (AllHonest(faults) ==> FailureFrame(u, files, w.files))
  {
    if RunCommit(u.plan.Job(), CheckLink, files, faults).error.None? {
      PublishSucceeds(u, files, faults);
    } else {
      PublishFails(u, files, faults);
      if AllHonest(faults) { FailedCommitFrame(u, files, faults, Settle(World(u, files, faults)).files); }
    }
  }

  /** Close of any open handle, under any faults.  It reports exactly the counted bytes and their hash;
      it returns nil exactly when it reports a commit, or when the only trouble was a transfer error
      signalled with a nil error; a commit happens only if nothing failed, and then the target holds
      the whole content; anything that failed before leaves the target alone.  The error is that of the last write
      that failed, or else the first cause signalled, or else that of the file close, or else that of the commit. */
  lemma CloseVerdict(w: World)
    requires w.u.stage.Streaming? && Good(w.u, w.files)
    ensures var w' := ClosedRun(w);
      && w'.u.stage.Finished? && w'.u.log.calls == w.u.log.calls && w'.u.log.hashed == w.u.log.hashed
      && var r := w'.u.stage.report;
      && r.bytes == |w.u.log.hashed| && r.hashed == (if w.u.plan.hashing then Some(w.u.log.hashed) else None)
      && (r.error.None? <==> r.phase.Committed? || (Silent(w.u.log.calls) && NextFault(w.faults).Healthy?))
      && r.error == (if Untroubled(w.u.log.calls) && NextFault(w.faults).Healthy?
                     then RunCommit(w.u.plan.Job(), CheckLink, w.files, LaterFaults(w.faults)).error
                     else if Kept(Mishaps(w.u.log.calls)).Some? then Kept(Mishaps(w.u.log.calls))
                     else if Silent(w.u.log.calls) && NextFault(w.faults).Healthy? then None
                     else Some(NextFault(w.faults).error))
      && (r.phase.Committed? ==>
            && Untroubled(w.u.log.calls) && w'.files == Moved(w.files, w.u.plan.temp, w.u.plan.target)
            && w'.files[w.u.plan.target] == Whole(w.u.log.calls))
      && (!Untroubled(w.u.log.calls) || NextFault(w.faults).Failing? ==>
            r.phase.Failed? && SameExcept(w.files, w'.files, {w.u.plan.temp}))
      && (r.phase.Failed? && AllHonest(w.faults) ==> FailureFrame(w.u, w.files, w'.files))
  {
    var f, later := NextFault(w.faults), LaterFaults(w.faults);
    var u1 := FileClosed(w.u, f);
    assert Advance(w) == World(u1, w.files, later);
    StepKeepsGood(w.u, w.files, f);
    if u1.log.failed {
      CleanUpFrame(u1, w.files, later);
    } else {
      PublishVerdict(u1, w.files, later);
    }
  }

  /** What the error kept is. */
  lemma {:induction false} KeptIs(ms: seq<Mishap>) returns (i: int)
    ensures Kept(ms).None? ==> forall j :: 0 <= j < |ms| ==> ms[j] == Signal(None)
    ensures Kept(ms).Some? ==>
      && 0 <= i < |ms|
      && (ms[i].Request? ==> Kept(ms) == Some(ms[i].error) && forall j :: i < j < |ms| ==> ms[j].Signal?)
      && (ms[i].Signal? ==> Kept(ms) == ms[i].cause && forall j :: 0 <= j < |ms| ==> ms[j].Signal?)
      && (ms[i].Signal? ==> forall j :: 0 <= j < i ==> ms[j] == Signal(None))
    decreases |ms|
  {
    if ms == [] {
      i := 0;
    } else {
      var before, m := ms[..|ms| - 1], ms[|ms| - 1];
      assert ms == before + [m];
      KeptAppend(before, m);
      i := KeptIs(before);
      assert forall j :: 0 <= j < |before| ==> ms[j] == before[j];
      if m.Request? || Kept(before).None? { i := |before|; }
    }
  }

  /** An upload that went over the limit is reported failed with that error, whatever is answered afterwards. */
  lemma OversizeIsReported(u: Upload, files: Files, chunk: Bytes, o: WriteOutcome, faults: seq<Fault>)
    requires Good(u, files) && u.stage.Streaming? && WriterContract(chunk, o)
    requires u.plan.maxSize > 0 && u.log.written + |chunk| > u.plan.maxSize
    ensures var (u', files') := Wrote(u, files, chunk, o);
      var end := ClosedRun(World(u', files', faults)).u.stage;
      end.Finished? && end.report.phase.Failed? && end.report.error == Some(TooLarge)
  {
    WriteKeepsGood(u, files, chunk, o);
    var (u', files') := Wrote(u, files, chunk, o);
    AppendCall(u.log.calls, Sent(chunk, 0, Some(TooLarge)));
    AppendMishap(u.log.calls, Sent(chunk, 0, Some(TooLarge)));
    CloseVerdict(World(u', files', faults));
  }

  /** And one whose last write was torn, with the error of that write. */
  lemma TornIsReported(u: Upload, files: Files, chunk: Bytes, o: WriteOutcome, faults: seq<Fault>)
    requires Good(u, files) && u.stage.Streaming? && WriterContract(chunk, o) && o.Torn?
    requires u.plan.maxSize <= 0 || u.log.written + |chunk| <= u.plan.maxSize
    ensures var (u', files') := Wrote(u, files, chunk, o);
      var end := ClosedRun(World(u', files', faults)).u.stage;
      end.Finished? && end.report.phase.Failed? && end.report.error == Some(o.error)
  {
    WriteKeepsGood(u, files, chunk, o);
    var (u', files') := Wrote(u, files, chunk, o);
    AppendCall(u.log.calls, Sent(chunk, o.n, Some(o.error)));
    AppendMishap(u.log.calls, Sent(chunk, o.n, Some(o.error)));
    CloseVerdict(World(u', files', faults));
  }

  /** If the file closes well but the symlink check of the commit meets an error other than "no such file", the upload
      is reported failed with that error, and only its temporary name may have changed. */
  lemma DeniedCheckFailsClose(w: World)
    requires w.u.stage.Streaming? && Good(w.u, w.files) && Untroubled(w.u.log.calls)
    requires |w.faults| >= 2 && w.faults[0].Healthy? && w.faults[1].Failing? && w.faults[1].error != NotFound
    ensures var w' := ClosedRun(w);
      && w'.u.stage.Finished? && w'.u.stage.report.phase.Failed? && w'.u.stage.report.error == Some(w.faults[1].error)
      && SameExcept(w.files, w'.files, {w.u.plan.temp})
  {
    var u1, later := FileClosed(w.u, Healthy), w.faults[1..];
    assert later[0] == w.faults[1];
    assert Advance(w) == World(u1, w.files, later);
    FileCloseKeepsGood(w.u, w.files, Healthy);
    SettleCommit(u1, CheckLink, w.files, later);
    CleanUpFrame(u1.(stage := Checking(Some(later[0].error))), w.files, later[1..]);
  }

  // ---------------------------------------------------------------- a whole upload

  /** What a caller does between NewUpload and Close. */
  datatype Act = Send(chunk: Bytes, outcome: WriteOutcome) | Break(error: Option<Error>)

  predicate ActsOk(acts: seq<Act>) {
    forall a :: a in acts && a.Send? ==> WriterContract(a.chunk, a.outcome)
  }

  predicate HonestActs(acts: seq<Act>) {
    forall a :: a in acts && a.Send? ==> a.outcome.Honest()
  }

  function Drive(u: Upload, files: Files, acts: seq<Act>): (r: (Upload, Files))
    requires ActsOk(acts)
    ensures r.0.stage == u.stage && r.0.plan == u.plan
    decreases |acts|
  {
    if acts == [] then (u, files)
    else
      assert acts[0] in acts;
      var (u', files') := match acts[0]
        case Send(chunk, o) => Wrote(u, files, chunk, o)
        case Break(error) => (Errored(u, error), files);
      Drive(u', files', acts[1..])
  }

  /** The hash has seen exactly the bytes of the temporary file. */
  predicate Mirrors(u: Upload, files: Files) {
    u.plan.temp in files && files[u.plan.temp] == u.log.hashed
  }

  lemma {:induction false} DriveKeepsGood(u: Upload, files: Files, acts: seq<Act>)
    requires Good(u, files) && u.stage.Streaming? && ActsOk(acts)
    ensures var (u', files') := Drive(u, files, acts);
      && Good(u', files') && u'.stage.Streaming? && SameExcept(files, files', {u.plan.temp})
      && u'.plan == u.plan && (u.log.failed ==> u'.log.failed)
      && (Mirrors(u, files) && HonestActs(acts) ==> Mirrors(u', files'))
    decreases |acts|
  {
    if acts != [] {
      assert acts[0] in acts;
      match acts[0] {
        case Send(chunk, o) =>
          WriteKeepsGood(u, files, chunk, o);
          var (u', files') := Wrote(u, files, chunk, o);
          DriveKeepsGood(u', files', acts[1..]);
        case Break(error) =>
          ErrorKeepsGood(u, files, error);
          DriveKeepsGood(Errored(u, error), files, acts[1..]);
      }
    }
  }

  /** NewUpload, the caller's acts, Close: `None` when there was no handle. */
  function WholeRun(w: World, acts: seq<Act>): World
    requires ActsOk(acts)
  {
    var ready := Settle(w);
    if !ready.u.stage.Streaming? then ready
    else
      var (u, files) := Drive(ready.u, ready.files, acts);
      ClosedRun(World(u, files, ready.faults))
  }

  lemma OpeningFrame(w: World)
    requires Good(w.u, w.files) && (w.u.stage.Looking? || w.u.stage.Creating?)
    ensures var w' := Settle(w);
      && Good(w'.u, w'.files) && SameExcept(w.files, w'.files, {w.u.plan.temp}) && SameCalls(w.u, w'.u)
      && (w'.u.stage.Streaming? || w'.u.stage.Refused?)
      && (w'.u.stage.Streaming? ==> Mirrors(w'.u, w'.files))
      && (AllHonest(w.faults) ==> AllHonest(w'.faults))
  {
    if w.u.stage.Looking? {
      SettleLooking(w.u, w.files, w.faults);
      var later := LaterFaults(LaterFaults(w.faults));
      SettleCreating(w.u.(stage := Creating), w.files, later);
    } else {
      SettleCreating(w.u, w.files, w.faults);
    }
  }

  /** Under any faults, NewUpload gives out a handle exactly if the creation succeeded and, where the target
      must not be replaced, the test for it succeeded too and found nothing; any doubt refuses, and this is the reason
      given. */
  lemma OpensExactly(target: Path, opts: Options, posix: bool, files: Files, faults: seq<Fault>)
    ensures var w := Settle(World(Begun(target, opts, posix), files, faults));
      var later := LaterFaults(faults);
      && (w.u.stage.Streaming? || w.u.stage.Refused?)
      && (w.u.stage.Streaming? <==>
            if opts.overwrite then NextFault(faults).Healthy?
            else
              && LinkCheck(NextFault(faults)).None?
              && StatReply(files, target, NextFault(later)) == Some(NotFound)
              && NextFault(LaterFaults(later)).Healthy?)
      && (w.u.stage.Refused? ==>
            var link, stat, create := NextFault(faults), NextFault(later), NextFault(LaterFaults(later));
            w.u.stage.reason == if opts.overwrite then link.error
                                else if link.Failing? && link.error != NotFound then link.error
                                else if stat.Healthy? && target in files then Conflict
                                else if stat.Failing? && stat.error != NotFound then stat.error
                                else create.error)
  {
    var u := Begun(target, opts, posix);
    if opts.overwrite {
      SettleCreating(u, files, faults);
    } else {
      SettleLooking(u, files, faults);
      SettleCreating(u.(stage := Creating), files, LaterFaults(LaterFaults(faults)));
    }
  }

  /** From an open handle to the end of Close. */
  lemma StreamedFrame(u: Upload, files: Files, faults: seq<Fault>, acts: seq<Act>)
    requires Good(u, files) && u.stage.Streaming? && ActsOk(acts) && AllHonest(faults)
    ensures var (u2, files2) := Drive(u, files, acts);
      var w := ClosedRun(World(u2, files2, faults));
      w.u.stage.Finished? && (w.u.stage.report.phase.Failed? ==> FailureFrame(u, files, w.files))
  {
    DriveKeepsGood(u, files, acts);
    var (u2, files2) := Drive(u, files, acts);
    CloseVerdict(World(u2, files2, faults));
  }

  /** From NewUpload to Close, with failures that have no effect: an upload that does not end in a
      commit leaves every name as it was, except its own temporary one and, on a server without
      posix-rename, an overwritable target that may have become absent. */
  lemma FailedUploadFrame(target: Path, opts: Options, posix: bool, files: Files, faults: seq<Fault>, acts: seq<Act>)
    requires ActsOk(acts) && AllHonest(faults) && PlanOf(target, opts, posix).temp != target
    ensures var u := Begun(target, opts, posix);
      var w := WholeRun(World(u, files, faults), acts);
      w.u.stage.Refused? || (w.u.stage.Finished? && w.u.stage.report.phase.Failed?) ==>
        FailureFrame(u, files, w.files)
  {
    var u := Begun(target, opts, posix);
    BegunIsGood(target, opts, posix, files);
    var ready := Settle(World(u, files, faults));
    OpeningFrame(World(u, files, faults));
    if ready.u.stage.Streaming? {
      StreamedFrame(ready.u, ready.files, ready.faults, acts);
    }
  }

  /** The hash reported by an upload whose failed writes stored what they admitted is the hash of the
      bytes that were in the temporary file when Close began. */
  lemma HashedIsStored(target: Path, opts: Options, posix: bool, files: Files, faults: seq<Fault>, acts: seq<Act>)
    requires ActsOk(acts) && HonestActs(acts) && PlanOf(target, opts, posix).temp != target
    ensures var ready := Settle(World(Begun(target, opts, posix), files, faults));
      ready.u.stage.Streaming? ==>
        var (u, files') := Drive(ready.u, ready.files, acts);
        var end := ClosedRun(World(u, files', ready.faults)).u.stage;
        && end.Finished? && var r := end.report;
        && u.plan.temp in files' && r.bytes == |files'[u.plan.temp]|
        && (opts.hashing ==> r.hashed == Some(files'[u.plan.temp]))
        && (opts.maxSize > 0 ==> r.bytes <= opts.maxSize)
  {
    var u := Begun(target, opts, posix);
    BegunIsGood(target, opts, posix, files);
    OpeningFrame(World(u, files, faults));
    var ready := Settle(World(u, files, faults));
    if ready.u.stage.Streaming? {
      DriveKeepsGood(ready.u, ready.files, acts);
      var (u2, files2) := Drive(ready.u, ready.files, acts);
      CloseVerdict(World(u2, files2, ready.faults));
    }
  }
}
