/**
  More about the interleaved uploads of `Protocol`: which temporary names exist, what a listing
  shows, when an existing target survives, and how long a committed content stays.
 */
module ProtocolLaws {
  import opened Wrappers
  import opened GoPath
  import opened TempNames
  import opened Remote
  import opened Uploads
  import opened UploadLaws
  import opened Protocol

  // ---------------------------------------------------------------- what the requests of a client do

  /** A remove request that takes effect removes exactly the name. */
  lemma DeleteRemoves(s: State, p: Path, f: Fault)
    requires MarkerFree(p, s.suffix)
    ensures var s' := Apply(s, Delete(p, f));
      s'.files == (if f.Failing? && !f.landed then s.files else s.files - {p}) && s'.uploads == s.uploads
  {
    assert p !in s.files ==> s.files - {p} == s.files;
  }

  /** A rename request that takes effect moves the content, and onto an existing name only with posix-rename. */
  lemma RenameMoves(s: State, a: Path, b: Path, f: Fault)
    requires MarkerFree(a, s.suffix) && MarkerFree(b, s.suffix)
    ensures var s' := Apply(s, Rename(a, b, f));
      && s'.uploads == s.uploads && s'.renamed
      && s'.files == if (f.Failing? && !f.landed) || a !in s.files || (b in s.files && !s.posix) then s.files
                     else (s.files - {a})[b := s.files[a]]
  {
  }

  /** A transfer error dooms an open upload: it is never published. */
  lemma BreakDooms(s: State, i: nat, error: Option<Error>)
    requires i < |s.uploads| && s.uploads[i].stage.Streaming?
    ensures var u := Apply(s, Event.Break(i, error)).uploads[i];
      u.stage.Streaming? && u.log.failed && forall q, bytes :: !Publisher(FileClosed(u, Healthy), q, bytes)
  {
  }

  // ---------------------------------------------------------------- temporary names

  /** The upload owns a temporary file that it has neither published nor given up. */
  predicate Holds(u: Upload) {
    Live(u) && !Opening(u.stage)
  }

  predicate Held(s: State, p: Path) {
    exists i :: 0 <= i < |s.uploads| && Holds(s.uploads[i]) && s.uploads[i].plan.temp == p
  }

  /** The temporary names on the server are those of open uploads and those of failed clean-ups. */
  ghost predicate TempsAccounted(s: State) {
    && (forall p :: !MarkerFree(p, s.suffix) ==> (p in s.files <==> p in s.orphans || Held(s, p)))
    && (forall i :: 0 <= i < |s.uploads| && Holds(s.uploads[i]) ==> s.uploads[i].plan.temp !in s.orphans)
  }

  /** Primitives that fail do so without effect. */
  predicate Honest(e: Event) {
    e.Primitive? ==> e.fault.Honest()
  }

  lemma HonestStepOnTemp(u: Upload, files: Files, f: Fault)
    requires Good(u, files) && CanStep(u) && f.Honest() && (Holds(u) ==> u.plan.temp in files)
    ensures var (u', files') := Step(u, files, f);
      var temp := u.plan.temp;
      && u'.plan == u.plan
      && (Holds(u') ==> temp in files')
      && (Opening(u.stage) && !Holds(u') ==> (temp in files' <==> temp in files))
      && (Holds(u) && !Holds(u') ==> (temp in files' <==> CleanUpFailed(u, f)))
      && (Holds(u) && Holds(u') ==> !CleanUpFailed(u, f))
      && (Holds(u') && !Holds(u) <==> u.stage.Creating? && u'.stage.Streaming?)
  {
    if u.stage.Committing? {
      HonestCommitOnTemp(u.plan.Job(), u.stage.pc, files, f);
    }
  }

  lemma HonestCommitOnTemp(job: Job, pc: CommitPc, files: Files, f: Fault)
    requires job.temp != job.target && job.temp in files && !pc.Ended? && f.Honest()
    ensures var (files', pc') := CommitStep(job, pc, files, f);
      job.temp in files' <==> pc' != Ended(None)
  {
  }

  /** Nobody else holds the temporary name of a live upload. */
  lemma SoleHolder(s: State, i: nat, u': Upload, p: Path)
    requires UploadsOk(s) && i < |s.uploads| && Live(s.uploads[i]) && u'.plan == s.uploads[i].plan
    ensures p != u'.plan.temp ==> (Held(s.(uploads := s.uploads[i := u']), p) <==> Held(s, p))
    ensures p == u'.plan.temp ==> (Held(s.(uploads := s.uploads[i := u']), p) <==> Holds(u'))
    ensures p == u'.plan.temp ==> (Held(s, p) <==> Holds(s.uploads[i]))
  {
    var s' := s.(uploads := s.uploads[i := u']);
    assert s'.uploads[i] == u';
    forall j | 0 <= j < |s.uploads| && j != i
      ensures s'.uploads[j] == s.uploads[j]
      ensures Live(s.uploads[j]) ==> s.uploads[j].plan.temp != u'.plan.temp
    {
      if Live(s.uploads[j]) { TempsDiffer(s, i, j); }
    }
  }

  lemma StepKeepsTempAt(s: State, e: Event, p: Path)
    requires UploadsOk(s) && TempsAccounted(s) && e.Primitive? && Enabled(s, e) && Honest(e) && !MarkerFree(p, s.suffix)
    ensures var s' := Apply(s, e); p in s'.files <==> p in s'.orphans || Held(s', p)
  {
    var i, s' := e.i, Apply(s, e);
    var u := s.uploads[i];
    TempIsMarked(s, u.plan);
    SoleHolder(s, i, u, u.plan.temp);
    HonestStepOnTemp(u, s.files, e.fault);
    StepKeepsGood(u, s.files, e.fault);
    SoleHolder(s, i, s'.uploads[i], p);
    assert Held(s', p) == Held(s.(uploads := s'.uploads), p);
  }

  /** A step orphans no name but its own upload's. */
  lemma OnlyOwnOrphan(s: State, e: Event, p: Path)
    requires e.Primitive? && Enabled(s, e) && p in Apply(s, e).orphans
    ensures p in s.orphans || (p == s.uploads[e.i].plan.temp && CleanUpFailed(s.uploads[e.i], e.fault))
    ensures s.uploads[e.i].stage.Creating? && Apply(s, e).uploads[e.i].stage.Streaming? ==>
      p != s.uploads[e.i].plan.temp
  {
  }

  lemma StepKeepsOrphansApart(s: State, e: Event, j: nat)
    requires UploadsOk(s) && TempsAccounted(s) && e.Primitive? && Enabled(s, e) && Honest(e)
    requires j < |s.uploads| && Holds(Apply(s, e).uploads[j])
    ensures Apply(s, e).uploads[j].plan.temp !in Apply(s, e).orphans
  {
    var u, s' := s.uploads[e.i], Apply(s, e);
    if s'.uploads[j].plan.temp in s'.orphans {
      OnlyOwnOrphan(s, e, s'.uploads[j].plan.temp);
      if j != e.i {
        TempsDiffer(s, e.i, j);
      } else {
        TempIsMarked(s, u.plan);
        SoleHolder(s, e.i, u, u.plan.temp);
        HonestStepOnTemp(u, s.files, e.fault);
      }
    }
  }

  lemma StepKeepsTemps(s: State, e: Event)
    requires UploadsOk(s) && TempsAccounted(s) && e.Primitive? && Enabled(s, e) && Honest(e)
    ensures TempsAccounted(Apply(s, e))
  {
    var s' := Apply(s, e);
    forall p | !MarkerFree(p, s.suffix)
      ensures p in s'.files <==> p in s'.orphans || Held(s', p)
    {
      StepKeepsTempAt(s, e, p);
    }
    forall j | 0 <= j < |s'.uploads| && Holds(s'.uploads[j])
      ensures s'.uploads[j].plan.temp !in s'.orphans
    {
      StepKeepsOrphansApart(s, e, j);
    }
  }

  /** Events that leave the marked names and the holders alone. */
  lemma QuietKeepsTemps(s: State, s': State)
    requires TempsAccounted(s) && s'.suffix == s.suffix && s'.orphans == s.orphans
    requires forall p :: !MarkerFree(p, s.suffix) ==> (p in s'.files <==> p in s.files)
    requires |s.uploads| <= |s'.uploads|
    requires forall i :: 0 <= i < |s.uploads| ==>
      s'.uploads[i].plan == s.uploads[i].plan && (Holds(s'.uploads[i]) <==> Holds(s.uploads[i]))
    requires forall i :: |s.uploads| <= i < |s'.uploads| ==> !Holds(s'.uploads[i])
    ensures TempsAccounted(s')
  {
    forall p
      ensures Held(s', p) <==> Held(s, p)
    {
      if Held(s, p) {
        var i :| 0 <= i < |s.uploads| && Holds(s.uploads[i]) && s.uploads[i].plan.temp == p;
        assert Holds(s'.uploads[i]);
      }
      if Held(s', p) {
        var i :| 0 <= i < |s'.uploads| && Holds(s'.uploads[i]) && s'.uploads[i].plan.temp == p;
        assert Holds(s.uploads[i]);
      }
    }
  }

  lemma CallKeepsTemps(s: State, e: Event)
    requires TempsAccounted(s) && (e.Begin? || e.Write? || e.Break?) && Enabled(s, e)
    ensures TempsAccounted(Apply(s, e))
  {
    QuietKeepsTemps(s, Apply(s, e));
  }

  lemma ClientKeepsMarked(s: State, e: Event, p: Path)
    requires (e.Delete? || e.Rename?) && Enabled(s, e) && !MarkerFree(p, s.suffix)
    ensures p in Apply(s, e).files <==> p in s.files
  {
  }

  lemma ClientKeepsTemps(s: State, e: Event)
    requires TempsAccounted(s) && (e.Delete? || e.Rename?) && Enabled(s, e)
    ensures TempsAccounted(Apply(s, e))
  {
    var s' := Apply(s, e);
    assert s'.uploads == s.uploads && s'.orphans == s.orphans;
    forall p | !MarkerFree(p, s.suffix)
      ensures p in s'.files <==> p in s.files
    {
      ClientKeepsMarked(s, e, p);
    }
    QuietKeepsTemps(s, s');
  }

  lemma ApplyKeepsTemps(s: State, e: Event)
    requires UploadsOk(s) && TempsAccounted(s) && Honest(e)
    ensures TempsAccounted(Apply(s, e))
  {
    if Enabled(s, e) {
      if e.Primitive? {
        StepKeepsTemps(s, e);
      } else if e.Begin? || e.Write? || e.Break? {
        CallKeepsTemps(s, e);
      } else {
        ClientKeepsTemps(s, e);
      }
    }
  }

  // ---------------------------------------------------------------- the gauge of pending temporary files

  function Open(uploads: seq<Upload>): nat {
    if uploads == [] then 0
    else Open(uploads[..|uploads| - 1]) + if Live(uploads[|uploads| - 1]) then 1 else 0
  }

  lemma {:induction false} OpenUpdate(uploads: seq<Upload>, i: nat, u': Upload)
    requires i < |uploads|
    ensures Open(uploads[i := u']) == Open(uploads) - (if Live(uploads[i]) then 1 else 0) + (if Live(u') then 1 else 0)
    decreases |uploads|
  {
    var n := |uploads| - 1;
    if i < n {
      assert uploads[i := u'][..n] == uploads[..n][i := u'];
      OpenUpdate(uploads[..n], i, u');
    } else {
      assert uploads[i := u'][..n] == uploads[..n];
    }
  }

  lemma StepKeepsGauge(s: State, e: Event)
    requires s.pending == Open(s.uploads) && e.Primitive? && Enabled(s, e)
    ensures Apply(s, e).pending == Open(Apply(s, e).uploads)
  {
    OpenUpdate(s.uploads, e.i, Apply(s, e).uploads[e.i]);
  }

  lemma CallKeepsGauge(s: State, e: Event)
    requires s.pending == Open(s.uploads) && (e.Write? || e.Break?) && Enabled(s, e)
    ensures Apply(s, e).pending == Open(Apply(s, e).uploads)
  {
    OpenUpdate(s.uploads, e.i, Apply(s, e).uploads[e.i]);
  }

  lemma BeginKeepsGauge(s: State, e: Event)
    requires s.pending == Open(s.uploads) && e.Begin? && Enabled(s, e)
    ensures Apply(s, e).pending == Open(Apply(s, e).uploads)
  {
    assert Apply(s, e).uploads[..|s.uploads|] == s.uploads;
  }

  lemma ClientKeepsGauge(s: State, e: Event)
    requires s.pending == Open(s.uploads) && (e.Delete? || e.Rename?)
    ensures Apply(s, e).pending == Open(Apply(s, e).uploads)
  {
  }

  lemma ApplyKeepsGauge(s: State, e: Event)
    requires s.pending == Open(s.uploads)
    ensures Apply(s, e).pending == Open(Apply(s, e).uploads)
  {
    if Enabled(s, e) {
      if e.Begin? {
        BeginKeepsGauge(s, e);
      } else if e.Primitive? {
        StepKeepsGauge(s, e);
      } else if e.Write? || e.Break? {
        CallKeepsGauge(s, e);
      } else {
        ClientKeepsGauge(s, e);
      }
    }
  }

  lemma {:induction false} RunKeepsAccounts(s: State, events: seq<Event>)
    requires UploadsOk(s) && TempsAccounted(s) && s.pending == Open(s.uploads)
    requires forall e :: e in events ==> Honest(e)
    ensures var s' := Run(s, events);
      UploadsOk(s') && TempsAccounted(s') && s'.pending == Open(s'.uploads)
    decreases |events|
  {
    if events != [] {
      assert events[0] in events;
      ApplyKeepsUploads(s, events[0]);
      ApplyKeepsTemps(s, events[0]);
      ApplyKeepsGauge(s, events[0]);
      RunKeepsAccounts(Apply(s, events[0]), events[1..]);
    }
  }

  /** In every reachable state where failing primitives had no effect, the temporary names present are
      exactly those of uploads between creation and the end of Close and those that a failed clean-up (or an
      earlier process) left and nobody has reused; and the gauge counts the open uploads. */
  lemma TemporaryFilesAreAccountedFor(init: Files, suffix: string, posix: bool, events: seq<Event>)
    requires NoSlash(suffix) && forall e :: e in events ==> Honest(e)
    ensures var s := Run(Start(init, suffix, posix), events);
      TempsAccounted(s) && s.pending == Open(s.uploads)
  {
    RunKeepsAccounts(Start(init, suffix, posix), events);
  }

  // ---------------------------------------------------------------- listings

  /** Whatever a listing shows in any reachable state is complete: in-flight names are filtered out, and
      the others are published names. */
  lemma ListedFilesAreComplete(init: Files, suffix: string, posix: bool, events: seq<Event>,
                               entries: seq<string>, p: Path)
    requires NoSlash(suffix)
    ensures var s := Run(Start(init, suffix, posix), events);
      && (p in s.files && Base(p) in Shown(entries, Marker(suffix)) ==> Complete(init, s, p))
      && (forall i :: 0 <= i < |s.uploads| ==> Base(s.uploads[i].plan.temp) !in Shown(entries, Marker(suffix)))
  {
    var s := Run(Start(init, suffix, posix), events);
    if Base(p) in Shown(entries, Marker(suffix)) {
      NoPartialContentIsEverVisible(init, suffix, posix, events, p);
    }
    RunKeepsInv(init, Start(init, suffix, posix), events);
    RunKeepsSuffix(Start(init, suffix, posix), events);
    forall i | 0 <= i < |s.uploads|
      ensures Base(s.uploads[i].plan.temp) !in Shown(entries, Marker(suffix))
    {
      TempsAreNeverListed(entries, s.uploads[i].plan.target, s.uploads[i].plan.session, suffix);
    }
  }

  lemma RunCons(s: State, e: Event, rest: seq<Event>)
    ensures Run(s, [e] + rest) == Run(Apply(s, e), rest)
  {
    assert ([e] + rest)[1..] == rest;
  }

  lemma FirstBegins(target: Path, session: string, suffix: string, posix: bool)
    requires IsCleanAbs(target) && MarkerFree(target, suffix) && SessionId(session)
    ensures var s := Apply(Start(map[], suffix, posix), Begin(target, session, true, 0, false));
      && s.uploads == [Begun(target, Options(session, true, 0, false, suffix), posix)]
      && s.files == map[] && s.suffix == suffix
  {
  }

  lemma CreatesAlone(s: State, u: Upload)
    requires s.uploads == [u] && u.stage.Creating? && s.files == map[]
    ensures var s' := Apply(s, Primitive(0, Healthy));
      s'.uploads == [u.(stage := Streaming)] && s'.files == map[u.plan.temp := []] && s'.suffix == s.suffix
  {
  }

  /** The first two steps of an upload that may overwrite, on an empty healthy server. */
  lemma BeginsAlone(target: Path, session: string, suffix: string, posix: bool)
    requires IsCleanAbs(target) && MarkerFree(target, suffix) && SessionId(session) && NoSlash(suffix)
    ensures var u := Begun(target, Options(session, true, 0, false, suffix), posix);
      var s := Apply(Apply(Start(map[], suffix, posix), Begin(target, session, true, 0, false)), Primitive(0, Healthy));
      s.uploads == [u.(stage := Streaming)] && s.files == map[u.plan.temp := []] && s.suffix == suffix
  {
    FirstBegins(target, session, suffix, posix);
    CreatesAlone(Apply(Start(map[], suffix, posix), Begin(target, session, true, 0, false)),
                 Begun(target, Options(session, true, 0, false, suffix), posix));
  }

  lemma WritesAlone(s: State, chunk: Bytes)
    requires |s.uploads| == 1 && s.uploads[0].stage.Streaming? && s.uploads[0].plan.maxSize == 0
    requires s.files == map[s.uploads[0].plan.temp := []]
    ensures var s' := Apply(s, Write(0, chunk, Stored));
      s'.files == map[s.uploads[0].plan.temp := chunk] && |s'.uploads| == 1 && s'.uploads[0].stage.Streaming?
  {
    assert [] + chunk == chunk;
  }

  /** An upload in the middle of its data: all there is on the server is the chunk under the temporary name. */
  lemma PartialUpload(target: Path, session: string, suffix: string, posix: bool, chunk: Bytes)
    requires IsCleanAbs(target) && MarkerFree(target, suffix) && SessionId(session) && NoSlash(suffix)
    ensures var events := [Begin(target, session, true, 0, false), Primitive(0, Healthy), Write(0, chunk, Stored)];
      var s := Run(Start(map[], suffix, posix), events);
      s.files == map[TempPath(target, session, suffix) := chunk] && |s.uploads| == 1 && s.uploads[0].stage.Streaming?
  {
    var b, c, w := Begin(target, session, true, 0, false), Primitive(0, Healthy), Write(0, chunk, Stored);
    var s0 := Start(map[], suffix, posix);
    RunCons(s0, b, [c, w]);
    RunCons(Apply(s0, b), c, [w]);
    var s2 := Apply(Apply(s0, b), c);
    RunCons(s2, w, []);
    BeginsAlone(target, session, suffix, posix);
    WritesAlone(s2, chunk);
  }

  lemma StreamingExplainsNothing(s: State, p: Path)
    requires |s.uploads| == 1 && s.uploads[0].stage.Streaming? && p in s.files
    ensures !Complete(map[], s, p)
  {
  }

  /** The guard on client names is needed: a client who asks for the name under which another session's
      upload is in flight sees its partial content, which no upload to that name explains. */
  lemma MarkedNamesShowPartialContent(target: Path, session: string, suffix: string, posix: bool, chunk: Bytes)
    requires IsCleanAbs(target) && MarkerFree(target, suffix) && SessionId(session) && NoSlash(suffix)
    ensures var events := [Begin(target, session, true, 0, false), Primitive(0, Healthy), Write(0, chunk, Stored)];
      var s := Run(Start(map[], suffix, posix), events);
      var p := TempPath(target, session, suffix);
      p in s.files && s.files[p] == chunk && !Complete(map[], s, p)
  {
    PartialUpload(target, session, suffix, posix, chunk);
    var events := [Begin(target, session, true, 0, false), Primitive(0, Healthy), Write(0, chunk, Stored)];
    StreamingExplainsNothing(Run(Start(map[], suffix, posix), events), TempPath(target, session, suffix));
  }

  /** And so is the guard on RNFR: moving the temporary name onto a published one puts the partial content
      there, on either kind of server. */
  lemma MovedTemporaryShowsPartialContent(target: Path, session: string, suffix: string, posix: bool,
                                          chunk: Bytes, q: Path)
    requires IsCleanAbs(target) && MarkerFree(target, suffix) && SessionId(session) && NoSlash(suffix)
    requires MarkerFree(q, suffix)
    ensures var events := [Begin(target, session, true, 0, false), Primitive(0, Healthy), Write(0, chunk, Stored)];
      var s := Run(Start(map[], suffix, posix), events);
      var temp := TempPath(target, session, suffix);
      var moved := (if posix then PosixRenameDone(s.files, temp, q) else RenameDone(s.files, temp, q)).files;
      var s' := s.(files := moved, renamed := true);
      q in s'.files && s'.files[q] == chunk && !Complete(map[], s', q)
  {
    PartialUpload(target, session, suffix, posix, chunk);
    TempPathIsMarked(target, session, suffix);
    var events := [Begin(target, session, true, 0, false), Primitive(0, Healthy), Write(0, chunk, Stored)];
    var s := Run(Start(map[], suffix, posix), events);
    StreamingExplainsNothing(s.(files := map[q := chunk], renamed := true), q);
  }

  // ---------------------------------------------------------------- existing targets

  predicate SameAt(a: Files, b: Files, p: Path) {
    (p in a <==> p in b) && (p in a ==> a[p] == b[p])
  }

  /** Before and after the commit, an upload does not touch its target. */
  lemma OnlyCommitsTouchTarget(u: Upload, files: Files, f: Fault)
    requires CanStep(u) && !u.stage.Committing? && u.plan.temp != u.plan.target
    ensures SameAt(files, Step(u, files, f).1, u.plan.target)
  {
  }

  /** No upload that could overwrite `p` is under way, or about to begin. */
  predicate NoOverwriter(s: State, p: Path) {
    forall i :: 0 <= i < |s.uploads| && Live(s.uploads[i]) && s.uploads[i].plan.target == p ==>
      !s.uploads[i].plan.overwrite
  }

  /** The client neither deletes nor moves `p`, nor uploads to it with overwrite.  Renaming onto it is not excluded. */
  predicate Spares(e: Event, p: Path) {
    match e
    case Begin(target, _, overwrite, _, _) => target == p ==> !overwrite
    case Delete(q, _) => q != p
    case Rename(a, _, _) => a != p
    case _ => true
  }

  lemma StepKeepsOverwriters(s: State, e: Event, p: Path)
    requires UploadsOk(s) && NoOverwriter(s, p) && e.Primitive? && Enabled(s, e)
    ensures NoOverwriter(Apply(s, e), p)
  {
    StepKeepsGood(s.uploads[e.i], s.files, e.fault);
  }

  lemma SparedKeepsOverwriters(s: State, e: Event, p: Path)
    requires UploadsOk(s) && NoOverwriter(s, p) && Spares(e, p)
    ensures NoOverwriter(Apply(s, e), p)
  {
    if Enabled(s, e) && e.Primitive? { StepKeepsOverwriters(s, e, p); }
  }

  lemma FallbackStepKeepsTarget(s: State, e: Event, p: Path)
    requires UploadsOk(s) && MarkerFree(p, s.suffix) && p in s.files && NoOverwriter(s, p)
    requires !s.posix && e.Primitive? && Enabled(s, e)
    ensures SameAt(s.files, Apply(s, e).files, p)
  {
    var u := s.uploads[e.i];
    assert Good(u, s.files) && PlanOk(s, u.plan);
    TempIsMarked(s, u.plan);
    if u.plan.target != p {
      StepKeepsGood(u, s.files, e.fault);
    } else if u.stage.Committing? {
      FallbackNeverReplaces(u.plan.Job(), u.stage.pc, s.files, e.fault);
    } else {
      OnlyCommitsTouchTarget(u, s.files, e.fault);
    }
  }

  lemma WriteKeepsPublished(s: State, e: Event, p: Path)
    requires UploadsOk(s) && MarkerFree(p, s.suffix) && e.Write? && Enabled(s, e)
    ensures SameAt(s.files, Apply(s, e).files, p)
  {
    WriteKeepsGood(s.uploads[e.i], s.files, e.chunk, e.outcome);
    TempIsMarked(s, s.uploads[e.i].plan);
  }

  /** A plain rename onto an existing name is refused. */
  lemma ClientSparesTarget(s: State, e: Event, p: Path)
    requires p in s.files && !s.posix && Spares(e, p) && (e.Delete? || e.Rename?) && Enabled(s, e)
    ensures SameAt(s.files, Apply(s, e).files, p)
  {
  }

  lemma FallbackKeepsTarget(s: State, e: Event, p: Path)
    requires UploadsOk(s) && MarkerFree(p, s.suffix) && p in s.files && NoOverwriter(s, p) && !s.posix && Spares(e, p)
    ensures SameAt(s.files, Apply(s, e).files, p)
  {
    if Enabled(s, e) {
      if e.Primitive? {
        FallbackStepKeepsTarget(s, e, p);
      } else if e.Write? {
        WriteKeepsPublished(s, e, p);
      } else if e.Delete? || e.Rename? {
        ClientSparesTarget(s, e, p);
      }
    }
  }

  /** On a server without posix-rename, in every run: an existing name is never changed or removed by uploads
      without overwrite, however many aim at it, nor by renames onto it, whatever else goes on and whatever fails. */
  lemma {:induction false} FallbackKeepsExistingTarget(s: State, events: seq<Event>, p: Path)
    requires UploadsOk(s) && !s.posix && MarkerFree(p, s.suffix) && p in s.files && NoOverwriter(s, p)
    requires forall e :: e in events ==> Spares(e, p)
    ensures SameAt(s.files, Run(s, events).files, p)
    decreases |events|
  {
    if events != [] {
      assert events[0] in events;
      FallbackKeepsTarget(s, events[0], p);
      SparedKeepsOverwriters(s, events[0], p);
      ApplyKeepsUploads(s, events[0]);
      ApplyKeepsSuffix(s, events[0]);
      FallbackKeepsExistingTarget(Apply(s, events[0]), events[1..], p);
    }
  }

  // ---------------------------------------------------------------- a committed content stays

  predicate Mentions(e: Event, p: Path) {
    match e
    case Begin(target, _, _, _, _) => target == p
    case Delete(q, _) => q == p
    case Rename(a, b, _) => a == p || b == p
    case _ => false
  }

  /** No live upload aims at `p`, except perhaps those in `mine`. */
  predicate ClaimedOnlyBy(s: State, p: Path, mine: set<nat>) {
    forall i: nat :: i < |s.uploads| && i !in mine && Live(s.uploads[i]) ==> s.uploads[i].plan.target != p
  }

  /** `e` does not mention `p`, and is no remote step of the uploads in `mine`. */
  predicate Elsewhere(e: Event, p: Path, mine: set<nat>) {
    !Mentions(e, p) && (e.Primitive? ==> e.i !in mine)
  }

  lemma StepKeepsName(s: State, e: Event, p: Path, mine: set<nat>)
    requires UploadsOk(s) && MarkerFree(p, s.suffix) && ClaimedOnlyBy(s, p, mine)
    requires e.Primitive? && e.i !in mine && Enabled(s, e)
    ensures SameAt(s.files, Apply(s, e).files, p) && ClaimedOnlyBy(Apply(s, e), p, mine)
  {
    StepKeepsGood(s.uploads[e.i], s.files, e.fault);
    TempIsMarked(s, s.uploads[e.i].plan);
  }

  lemma WriteKeepsName(s: State, e: Event, p: Path, mine: set<nat>)
    requires UploadsOk(s) && MarkerFree(p, s.suffix) && ClaimedOnlyBy(s, p, mine) && e.Write? && Enabled(s, e)
    ensures SameAt(s.files, Apply(s, e).files, p) && ClaimedOnlyBy(Apply(s, e), p, mine)
  {
    WriteKeepsPublished(s, e, p);
  }

  lemma CallKeepsName(s: State, e: Event, p: Path, mine: set<nat>)
    requires ClaimedOnlyBy(s, p, mine) && !Mentions(e, p) && (e.Begin? || e.Break?) && Enabled(s, e)
    ensures SameAt(s.files, Apply(s, e).files, p) && ClaimedOnlyBy(Apply(s, e), p, mine)
  {
  }

  lemma ClientKeepsName(s: State, e: Event, p: Path, mine: set<nat>)
    requires ClaimedOnlyBy(s, p, mine) && !Mentions(e, p) && (e.Delete? || e.Rename?) && Enabled(s, e)
    ensures SameAt(s.files, Apply(s, e).files, p) && ClaimedOnlyBy(Apply(s, e), p, mine)
  {
  }

  lemma UnmentionedIsKept(s: State, e: Event, p: Path, mine: set<nat>)
    requires UploadsOk(s) && MarkerFree(p, s.suffix) && ClaimedOnlyBy(s, p, mine) && Elsewhere(e, p, mine)
    ensures SameAt(s.files, Apply(s, e).files, p) && ClaimedOnlyBy(Apply(s, e), p, mine)
  {
    if Enabled(s, e) {
      if e.Primitive? {
        StepKeepsName(s, e, p, mine);
      } else if e.Write? {
        WriteKeepsName(s, e, p, mine);
      } else if e.Begin? || e.Break? {
        CallKeepsName(s, e, p, mine);
      } else {
        ClientKeepsName(s, e, p, mine);
      }
    }
  }

  /** Over any run, only what mentions a name or aims at it changes what the name holds. */
  lemma {:induction false} QuietNameIsKept(s: State, events: seq<Event>, p: Path, mine: set<nat>)
    requires UploadsOk(s) && MarkerFree(p, s.suffix) && ClaimedOnlyBy(s, p, mine)
    requires forall e :: e in events ==> Elsewhere(e, p, mine)
    ensures SameAt(s.files, Run(s, events).files, p) && ClaimedOnlyBy(Run(s, events), p, mine)
    decreases |events|
  {
    if events != [] {
      assert events[0] in events;
      UnmentionedIsKept(s, events[0], p, mine);
      ApplyKeepsUploads(s, events[0]);
      ApplyKeepsSuffix(s, events[0]);
      QuietNameIsKept(Apply(s, events[0]), events[1..], p, mine);
    }
  }

  predicate Commits(u: Upload) {
    u.stage.Finished? && u.stage.report.phase.Committed?
  }

  lemma CommitShowsWhole(u: Upload, files: Files, f: Fault)
    requires Good(u, files) && u.stage.Committing?
    ensures var (u', files') := Step(u, files, f);
      Commits(u') ==> u.plan.target in files' && files'[u.plan.target] == Whole(u.log.calls)
  {
  }

  /** When a step commits an upload and nobody else is aiming at its target, the target holds all that the
      upload was sent, and still does after any events that do not mention it. */
  lemma CommittedContentStays(s: State, i: nat, f: Fault, events: seq<Event>)
    requires UploadsOk(s) && Enabled(s, Primitive(i, f)) && s.uploads[i].stage.Committing?
    requires ClaimedOnlyBy(s, s.uploads[i].plan.target, {i})
    requires forall e :: e in events ==> !Mentions(e, s.uploads[i].plan.target)
    requires Commits(Step(s.uploads[i], s.files, f).0)
    ensures var u, files' := s.uploads[i], Run(Apply(s, Primitive(i, f)), events).files;
      u.plan.target in files' && files'[u.plan.target] == Whole(u.log.calls)
  {
    var u, s1 := s.uploads[i], Apply(s, Primitive(i, f));
    ApplyKeepsUploads(s, Primitive(i, f));
    CommitShowsWhole(u, s.files, f);
    ReleasesTarget(s, i, f);
    QuietNameIsKept(s1, events, u.plan.target, {});
  }

  lemma ReleasesTarget(s: State, i: nat, f: Fault)
    requires Enabled(s, Primitive(i, f)) && !Live(Step(s.uploads[i], s.files, f).0)
    requires ClaimedOnlyBy(s, s.uploads[i].plan.target, {i})
    ensures ClaimedOnlyBy(Apply(s, Primitive(i, f)), s.uploads[i].plan.target, {})
    ensures Apply(s, Primitive(i, f)).suffix == s.suffix
  {
  }

  // ---------------------------------------------------------------- commits without overwrite, between test and rename

  /** The request took effect on the server, whatever was answered. */
  predicate TakesEffect(f: Fault) {
    f.Healthy? || f.landed
  }

  /** An upload inside Close waits for its own remote steps. */
  lemma {:induction false} CommittingWaits(s: State, events: seq<Event>, i: nat)
    requires i < |s.uploads| && s.uploads[i].stage.Committing?
    requires forall e :: e in events && e.Primitive? ==> e.i != i
    ensures i < |Run(s, events).uploads| && Run(s, events).uploads[i] == s.uploads[i]
    decreases |events|
  {
    if events != [] {
      assert events[0] in events;
      CommittingWaits(Apply(s, events[0]), events[1..], i);
    }
  }

  lemma TestFindsNothing(s: State, i: nat)
    requires UploadsOk(s) && Enabled(s, Primitive(i, Healthy)) && s.uploads[i].stage == Committing(CheckTarget)
    requires s.uploads[i].plan.target !in s.files && ClaimedOnlyBy(s, s.uploads[i].plan.target, {i})
    ensures var s' := Apply(s, Primitive(i, Healthy));
      && s'.files == s.files && s'.uploads[i] == s.uploads[i].(stage := Committing(Publish))
      && ClaimedOnlyBy(s', s.uploads[i].plan.target, {i})
  {
  }

  /** After a test that found nothing, if nobody else aims at the target and nobody mentions it before the rename,
      it is still absent when the rename is sent: whatever else goes on in between, the commit replaces nothing. */
  lemma UndisturbedCommitReplacesNothing(s: State, i: nat, events: seq<Event>)
    requires UploadsOk(s) && Enabled(s, Primitive(i, Healthy)) && s.uploads[i].stage == Committing(CheckTarget)
    requires s.uploads[i].plan.target !in s.files && ClaimedOnlyBy(s, s.uploads[i].plan.target, {i})
    requires forall e :: e in events ==> Elsewhere(e, s.uploads[i].plan.target, {i})
    ensures var s' := Run(Apply(s, Primitive(i, Healthy)), events);
      && i < |s'.uploads| && s'.uploads[i] == s.uploads[i].(stage := Committing(Publish))
      && s.uploads[i].plan.target !in s'.files
  {
    var s1 := Apply(s, Primitive(i, Healthy));
    TestFindsNothing(s, i);
    ApplyKeepsUploads(s, Primitive(i, Healthy));
    ApplyKeepsSuffix(s, Primitive(i, Healthy));
    assert PlanOk(s, s.uploads[i].plan);
    QuietNameIsKept(s1, events, s.uploads[i].plan.target, {i});
    CommittingWaits(s1, events, i);
  }

  /** When the rename of a posix server is sent, the target gets the whole upload exactly if the request lands, and
      whatever it held is gone; otherwise nothing changes. */
  lemma PublishReplacesExactly(s: State, i: nat, f: Fault)
    requires UploadsOk(s) && s.posix && Enabled(s, Primitive(i, f)) && s.uploads[i].stage == Committing(Publish)
    ensures var u, files' := s.uploads[i], Apply(s, Primitive(i, f)).files;
      && u.plan.temp in s.files
      && files' == (if TakesEffect(f) then Moved(s.files, u.plan.temp, u.plan.target) else s.files)
      && (TakesEffect(f) ==> files'[u.plan.target] == Whole(u.log.calls))
  {
    assert Good(s.uploads[i], s.files) && PlanOk(s, s.uploads[i].plan);
  }

  // ---------------------------------------------------------------- existing targets on a posix server

  predicate NobodyPublishing(s: State, p: Path) {
    forall i :: 0 <= i < |s.uploads| && s.uploads[i].plan.target == p ==> s.uploads[i].stage != Committing(Publish)
  }

  /** `e` is not the existence test of a commit to `p`, or the test is answered. */
  predicate Answered(s: State, e: Event, p: Path) {
    e.Primitive? && Enabled(s, e) && s.uploads[e.i].plan.target == p && s.uploads[e.i].stage == Committing(CheckTarget)
    ==> e.fault.Healthy?
  }

  predicate TestsAnswered(s: State, events: seq<Event>, p: Path)
    decreases |events|
  {
    events == [] || (Answered(s, events[0], p) && TestsAnswered(Apply(s, events[0]), events[1..], p))
  }

  /** `e` is the rename of a commit to `p`, and lands. */
  predicate PublishesTo(s: State, e: Event, p: Path) {
    && e.Primitive? && Enabled(s, e) && s.uploads[e.i].plan.target == p
    && s.uploads[e.i].stage == Committing(Publish) && TakesEffect(e.fault)
  }

  lemma UnpublishedStepKeepsTarget(u: Upload, files: Files, f: Fault)
    requires Good(u, files) && CanStep(u) && u.plan.posix && !(u.stage == Committing(Publish) && TakesEffect(f))
    ensures SameAt(files, Step(u, files, f).1, u.plan.target)
  {
  }

  /** An upload that has not passed its test does not pass it over an existing target, if the test is answered. */
  lemma AnsweredTestStops(u: Upload, files: Files, f: Fault)
    requires CanStep(u) && !u.plan.overwrite && u.plan.target in files
    requires u.stage != Committing(Publish) && (u.stage == Committing(CheckTarget) ==> f.Healthy?)
    requires u.stage.Committing? ==> CommitPcOk(u.plan.Job(), u.stage.pc)
    ensures Step(u, files, f).0.stage != Committing(Publish)
  {
  }

  lemma PosixStepOnTarget(s: State, e: Event, p: Path)
    requires UploadsOk(s) && MarkerFree(p, s.suffix) && s.posix && e.Primitive? && Enabled(s, e)
    ensures if PublishesTo(s, e, p)
      then p in Apply(s, e).files && Apply(s, e).files[p] == Whole(s.uploads[e.i].log.calls)
      else SameAt(s.files, Apply(s, e).files, p)
  {
    var u := s.uploads[e.i];
    assert Good(u, s.files) && PlanOk(s, u.plan);
    if PublishesTo(s, e, p) {
      PublishReplacesExactly(s, e.i, e.fault);
    } else if u.plan.target == p {
      UnpublishedStepKeepsTarget(u, s.files, e.fault);
    } else {
      TempIsMarked(s, u.plan);
      StepKeepsGood(u, s.files, e.fault);
    }
  }

  lemma PosixStepPublishesNothing(s: State, e: Event, p: Path)
    requires UploadsOk(s) && p in s.files && NoOverwriter(s, p) && NobodyPublishing(s, p)
    requires e.Primitive? && Enabled(s, e) && Answered(s, e, p)
    ensures NobodyPublishing(Apply(s, e), p)
  {
    var u := s.uploads[e.i];
    assert Good(u, s.files);
    StepKeepsGood(u, s.files, e.fault);
    if u.plan.target == p { AnsweredTestStops(u, s.files, e.fault); }
  }

  lemma OtherEventPublishesNothing(s: State, e: Event, p: Path)
    requires NobodyPublishing(s, p) && !e.Primitive?
    ensures NobodyPublishing(Apply(s, e), p)
  {
  }

  /** `e` neither deletes `p`, nor moves it, nor renames onto it. */
  predicate LeavesAlone(e: Event, p: Path) {
    e.Begin? || !Mentions(e, p)
  }

  lemma ClientLeavesName(s: State, e: Event, p: Path)
    requires LeavesAlone(e, p) && (e.Delete? || e.Rename?)
    ensures SameAt(s.files, Apply(s, e).files, p)
  {
  }

  lemma OtherEventKeepsTarget(s: State, e: Event, p: Path)
    requires UploadsOk(s) && MarkerFree(p, s.suffix) && !e.Primitive? && LeavesAlone(e, p)
    ensures SameAt(s.files, Apply(s, e).files, p)
  {
    if e.Write? && Enabled(s, e) {
      WriteKeepsPublished(s, e, p);
    } else if e.Delete? || e.Rename? {
      ClientLeavesName(s, e, p);
    }
  }

  /** On a posix server, of all events that leave `p` alone otherwise, exactly those renames of commits to `p` that
      land change it, and they leave a whole upload there. */
  lemma OnlyPublishReplaces(s: State, e: Event, p: Path)
    requires UploadsOk(s) && s.posix && MarkerFree(p, s.suffix) && LeavesAlone(e, p)
    ensures if PublishesTo(s, e, p)
      then p in Apply(s, e).files && Apply(s, e).files[p] == Whole(s.uploads[e.i].log.calls)
      else SameAt(s.files, Apply(s, e).files, p)
  {
    if e.Primitive? && Enabled(s, e) {
      PosixStepOnTarget(s, e, p);
    } else if !e.Primitive? {
      OtherEventKeepsTarget(s, e, p);
    }
  }

  function HeldAt(files: Files, p: Path): Option<Bytes> {
    if p in files then Some(files[p]) else None
  }

  /** The content of the last upload in the run whose rename to `p` lands, or else `now`. */
  function LastPublished(s: State, events: seq<Event>, p: Path, now: Option<Bytes>): Option<Bytes>
    decreases |events|
  {
    if events == [] then now
    else
      var e := events[0];
      var next := if PublishesTo(s, e, p) then Some(Whole(s.uploads[e.i].log.calls)) else now;
      LastPublished(Apply(s, e), events[1..], p, next)
  }

  /** On a posix server, in every run that does not delete `p`, move it or rename onto it, whatever else interleaves
      and fails: `p` holds the whole of the last upload whose rename to it landed, and what it held before if there
      was none. */
  lemma {:induction false} LastPublicationDecides(s: State, events: seq<Event>, p: Path)
    requires UploadsOk(s) && s.posix && MarkerFree(p, s.suffix) && forall e :: e in events ==> LeavesAlone(e, p)
    ensures HeldAt(Run(s, events).files, p) == LastPublished(s, events, p, HeldAt(s.files, p))
    decreases |events|
  {
    if events != [] {
      assert events[0] in events;
      OnlyPublishReplaces(s, events[0], p);
      ApplyKeepsUploads(s, events[0]);
      ApplyKeepsSuffix(s, events[0]);
      LastPublicationDecides(Apply(s, events[0]), events[1..], p);
    }
  }

  /** While existence tests are answered and nobody was past them, no upload without overwrite publishes. */
  lemma {:induction false} AnsweredTestsPublishNothing(s: State, events: seq<Event>, p: Path, now: Option<Bytes>)
    requires UploadsOk(s) && s.posix && MarkerFree(p, s.suffix) && p in s.files
    requires NoOverwriter(s, p) && NobodyPublishing(s, p) && TestsAnswered(s, events, p)
    requires forall e :: e in events ==> Spares(e, p) && LeavesAlone(e, p)
    ensures LastPublished(s, events, p, now) == now
    decreases |events|
  {
    if events != [] {
      assert events[0] in events;
      OnlyPublishReplaces(s, events[0], p);
      if events[0].Primitive? && Enabled(s, events[0]) {
        PosixStepPublishesNothing(s, events[0], p);
      } else if !events[0].Primitive? {
        OtherEventPublishesNothing(s, events[0], p);
      }
      SparedKeepsOverwriters(s, events[0], p);
      ApplyKeepsUploads(s, events[0]);
      ApplyKeepsSuffix(s, events[0]);
      AnsweredTestsPublishNothing(Apply(s, events[0]), events[1..], p, now);
    }
  }

  /** On a posix server, in every run: an existing name survives all uploads without overwrite, however they
      interleave, if each existence test is answered and no upload had passed its test before. */
  lemma PosixKeepsExistingTarget(s: State, events: seq<Event>, p: Path)
    requires UploadsOk(s) && s.posix && MarkerFree(p, s.suffix) && p in s.files
    requires NoOverwriter(s, p) && NobodyPublishing(s, p) && TestsAnswered(s, events, p)
    requires forall e :: e in events ==> Spares(e, p) && LeavesAlone(e, p)
    ensures SameAt(s.files, Run(s, events).files, p)
  {
    LastPublicationDecides(s, events, p);
    AnsweredTestsPublishNothing(s, events, p, HeldAt(s.files, p));
  }
}
