/**
  Any number of sessions uploading at once, together with DELE and RNFR/RNTO requests, one
  remote primitive at a time, each of which may fail with or without effect: the promise that
  a published name never shows partial or mixed content, and the bookkeeping of temporary files.

  Assumptions that the code does not enforce are guards of the events: session ids are
  distinct while in use and have no dash or slash, a session has one upload open at a time, and
  names chosen by clients do not contain the temporary marker.
 */
module Protocol {
  import opened Wrappers
  import opened GoPath
  import opened TempNames
  import opened Remote
  import opened Uploads
  import opened UploadLaws

  /** The server and the gateway.  `pending` is the gauge TemporaryFilesPending; `orphans` records
      clean-ups that failed, `landed` the uploads whose final rename took effect, `renamed` whether a
      client rename ever ran. */
  datatype State = State(suffix: string, posix: bool, files: Files, uploads: seq<Upload>,
                         pending: int, orphans: set<Path>, landed: set<nat>, renamed: bool)

  datatype Event =
    | Begin(target: Path, session: string, overwrite: bool, maxSize: int, hashing: bool)
    | Primitive(i: nat, fault: Fault)                    // the next primitive of upload i
    | Write(i: nat, chunk: Bytes, outcome: WriteOutcome)
    | Break(i: nat, error: Option<Error>)           // TransferError
    | Delete(p: Path, fault: Fault)                 // the remove request of DELE or RNTO
    | Rename(a: Path, b: Path, fault: Fault)        // the rename request of RNTO

  predicate SessionBusy(s: State, session: string) {
    exists i :: 0 <= i < |s.uploads| && Live(s.uploads[i]) && s.uploads[i].plan.session == session
  }

  predicate Enabled(s: State, e: Event) {
    match e
    case Begin(target, session, _, _, _) =>
      IsCleanAbs(target) && MarkerFree(target, s.suffix) && SessionId(session) && !SessionBusy(s, session)
    case Primitive(i, _) => i < |s.uploads| && CanStep(s.uploads[i])
    case Write(i, chunk, o) => i < |s.uploads| && s.uploads[i].stage.Streaming? && WriterContract(chunk, o)
    case Break(i, _) => i < |s.uploads| && s.uploads[i].stage.Streaming?
    case Delete(p, _) => MarkerFree(p, s.suffix)
    case Rename(a, b, _) => MarkerFree(a, s.suffix) && MarkerFree(b, s.suffix)
  }

  /** Clean-up gave up on the temporary file. */
  predicate CleanUpFailed(u: Upload, f: Fault) {
    (u.stage.Checking? && LinkCheck(f).Some?) || (u.stage.Removing? && f.Failing?)
  }

  function Orphaned(s: State, u: Upload, u': Upload, f: Fault): set<Path> {
    if u.stage.Creating? && u'.stage.Streaming? then s.orphans - {u.plan.temp}
    else if CleanUpFailed(u, f) then s.orphans + {u.plan.temp}
    else s.orphans
  }

  /** This step of `u` is its final rename, and it takes effect. */
  predicate Lands(u: Upload, files: Files, f: Fault)
    requires CanStep(u)
  {
    u.stage == Committing(Publish) && Step(u, files, f).1 != files
  }

  /** An event that is not enabled does nothing. */
  function Apply(s: State, e: Event): State {
    if !Enabled(s, e) then s
    else match e
      case Begin(target, session, overwrite, maxSize, hashing) =>
        s.(uploads := s.uploads + [Begun(target, Options(session, overwrite, maxSize, hashing, s.suffix), s.posix)],
           pending := s.pending + 1)
      case Primitive(i, f) =>
        var (u', files') := Step(s.uploads[i], s.files, f);
        s.(files := files', uploads := s.uploads[i := u'],
           pending := if Live(u') then s.pending else s.pending - 1,
           orphans := Orphaned(s, s.uploads[i], u', f),
           landed := if Lands(s.uploads[i], s.files, f) then s.landed + {i} else s.landed)
      case Write(i, chunk, o) =>
        var (u', files') := Wrote(s.uploads[i], s.files, chunk, o);
        s.(files := files', uploads := s.uploads[i := u'])
      case Break(i, error) => s.(uploads := s.uploads[i := Errored(s.uploads[i], error)])
      case Delete(p, f) => s.(files := Answer(s.files, RemoveDone(s.files, p), f).files)
      case Rename(a, b, f) =>
        var done := if s.posix then PosixRenameDone(s.files, a, b) else RenameDone(s.files, a, b);
        s.(files := Answer(s.files, done, f).files, renamed := true)
  }

  function Run(s: State, events: seq<Event>): State
    decreases |events|
  {
    if events == [] then s else Run(Apply(s, events[0]), events[1..])
  }

  /** A server with some files, names of earlier runs among them. */
  function Start(files: Files, suffix: string, posix: bool): State {
    State(suffix, posix, files, [], 0, set p | p in files && !MarkerFree(p, suffix), {}, false)
  }

  // ---------------------------------------------------------------- published content

  /** The commit is over, with whatever result. */
  predicate PastCommit(stage: Stage) {
    stage.Checking? || stage.Removing? || stage.Finished?
  }

  /** `u` was an upload to `q` in which nothing failed up to its commit, and `bytes` is all it was sent. */
  predicate Publisher(u: Upload, q: Path, bytes: Bytes) {
    && u.plan.target == q && PastCommit(u.stage) && !u.log.failed
    && Untroubled(u.log.calls) && Whole(u.log.calls) == bytes
  }

  /** Some such upload's final rename took effect. */
  predicate Published(s: State, q: Path, bytes: Bytes) {
    exists i :: 0 <= i < |s.uploads| && i in s.landed && Publisher(s.uploads[i], q, bytes)
  }

  /** `bytes` is what `q` held at the start, or a whole upload that was renamed onto `q`. */
  predicate Explains(init: Files, s: State, q: Path, bytes: Bytes) {
    (q in init && init[q] == bytes) || Published(s, q, bytes)
  }

  ghost predicate Complete(init: Files, s: State, p: Path)
    requires p in s.files
  {
    Explains(init, s, p, s.files[p])
    || (s.renamed && exists q :: MarkerFree(q, s.suffix) && Explains(init, s, q, s.files[p]))
  }

  predicate PlanOk(s: State, plan: Plan) {
    && IsCleanAbs(plan.target) && MarkerFree(plan.target, s.suffix) && SessionId(plan.session)
    && plan.temp == TempPath(plan.target, plan.session, s.suffix) && plan.posix == s.posix
  }

  predicate UploadsOk(s: State) {
    && NoSlash(s.suffix)
    && (forall i :: 0 <= i < |s.uploads| ==> PlanOk(s, s.uploads[i].plan) && Good(s.uploads[i], s.files))
    && (forall i, j :: 0 <= i < j < |s.uploads| && Live(s.uploads[i]) && Live(s.uploads[j]) ==>
          s.uploads[i].plan.session != s.uploads[j].plan.session)
  }

  ghost predicate AllComplete(init: Files, s: State) {
    forall p :: p in s.files && MarkerFree(p, s.suffix) ==> Complete(init, s, p)
  }

  ghost predicate Inv(init: Files, s: State) {
    UploadsOk(s) && AllComplete(init, s)
  }

  // ---------------------------------------------------------------- temporary names do not meet

  lemma TempIsMarked(s: State, plan: Plan)
    requires NoSlash(s.suffix) && PlanOk(s, plan)
    ensures !MarkerFree(plan.temp, s.suffix)
  {
    TempPathIsMarked(plan.target, plan.session, s.suffix);
  }

  lemma TempsDiffer(s: State, i: nat, j: nat)
    requires UploadsOk(s) && i < |s.uploads| && j < |s.uploads| && i != j
    requires Live(s.uploads[i]) && Live(s.uploads[j])
    ensures s.uploads[i].plan.temp != s.uploads[j].plan.temp
  {
    var a, b := s.uploads[i].plan, s.uploads[j].plan;
    assert a.session != b.session;
    if a.temp == b.temp {
      TempPathInjective(a.target, a.session, b.target, b.session, s.suffix);
    }
  }

  lemma GoodElsewhere(u: Upload, files: Files, files': Files, names: set<Path>)
    requires Good(u, files) && SameExcept(files, files', names) && (Live(u) ==> u.plan.temp !in names)
    ensures Good(u, files')
  {
  }

  /** A change confined to the names of one live upload leaves every other one good. */
  lemma OthersStayGood(s: State, i: nat, files': Files, j: nat)
    requires UploadsOk(s) && i < |s.uploads| && j < |s.uploads| && i != j && Live(s.uploads[i])
    requires SameExcept(s.files, files', {s.uploads[i].plan.temp, s.uploads[i].plan.target})
    ensures Good(s.uploads[j], files')
  {
    var a, u := s.uploads[i].plan, s.uploads[j];
    assert Good(u, s.files) && PlanOk(s, u.plan) && PlanOk(s, a);
    if Live(u) {
      TempsDiffer(s, i, j);
      TempIsMarked(s, u.plan);
    }
    GoodElsewhere(u, s.files, files', {a.temp, a.target});
  }

  /** A change to names outside the temporary namespace leaves all uploads good. */
  lemma ClientsLeaveUploadsGood(s: State, files': Files, names: set<Path>)
    requires UploadsOk(s) && SameExcept(s.files, files', names)
    requires forall p :: p in names ==> MarkerFree(p, s.suffix)
    ensures UploadsOk(s.(files := files'))
    ensures UploadsOk(s.(files := files', renamed := true))
  {
    forall i | 0 <= i < |s.uploads|
      ensures Good(s.uploads[i], files')
    {
      TempIsMarked(s, s.uploads[i].plan);
      GoodElsewhere(s.uploads[i], s.files, files', names);
    }
  }

  // ---------------------------------------------------------------- every event keeps the uploads good

  /** Upload i moved on, with the tree changed only at its names. */
  lemma MovedOn(s: State, i: nat, u': Upload, files': Files, s': State)
    requires UploadsOk(s) && i < |s.uploads| && Live(s.uploads[i])
    requires u'.plan == s.uploads[i].plan && Good(u', files')
    requires SameExcept(s.files, files', {u'.plan.temp, u'.plan.target})
    requires s' == s.(files := files', uploads := s.uploads[i := u'],
                      pending := s'.pending, orphans := s'.orphans, landed := s'.landed)
    ensures UploadsOk(s')
  {
    forall j | 0 <= j < |s.uploads|
      ensures PlanOk(s', s'.uploads[j].plan) && Good(s'.uploads[j], files')
    {
      if j != i { OthersStayGood(s, i, files', j); }
    }
  }

  lemma StepKeepsUploads(s: State, e: Event)
    requires UploadsOk(s) && e.Primitive? && Enabled(s, e)
    ensures UploadsOk(Apply(s, e))
  {
    var s' := Apply(s, e);
    StepKeepsGood(s.uploads[e.i], s.files, e.fault);
    MovedOn(s, e.i, s'.uploads[e.i], s'.files, s');
  }

  lemma WriteKeepsUploads(s: State, e: Event)
    requires UploadsOk(s) && e.Write? && Enabled(s, e)
    ensures UploadsOk(Apply(s, e))
  {
    var s' := Apply(s, e);
    WriteKeepsGood(s.uploads[e.i], s.files, e.chunk, e.outcome);
    MovedOn(s, e.i, s'.uploads[e.i], s'.files, s');
  }

  lemma BreakKeepsUploads(s: State, e: Event)
    requires UploadsOk(s) && e.Break? && Enabled(s, e)
    ensures UploadsOk(Apply(s, e))
  {
    var s' := Apply(s, e);
    ErrorKeepsGood(s.uploads[e.i], s.files, e.error);
    MovedOn(s, e.i, s'.uploads[e.i], s'.files, s');
  }

  lemma ClientKeepsUploads(s: State, e: Event)
    requires UploadsOk(s) && (e.Delete? || e.Rename?) && Enabled(s, e)
    ensures UploadsOk(Apply(s, e))
  {
    ClientsLeaveUploadsGood(s, Apply(s, e).files, if e.Delete? then {e.p} else {e.a, e.b});
  }

  /** A session that is not busy has no live upload, so the new one shares its id with no live one. */
  lemma BegunJoins(s: State, u: Upload, s': State)
    requires UploadsOk(s) && PlanOk(s, u.plan) && Good(u, s.files) && !SessionBusy(s, u.plan.session)
    requires s' == s.(uploads := s.uploads + [u], pending := s'.pending)
    ensures UploadsOk(s')
  {
    forall i | 0 <= i < |s'.uploads|
      ensures PlanOk(s', s'.uploads[i].plan) && Good(s'.uploads[i], s'.files)
      ensures i < |s.uploads| && Live(s.uploads[i]) ==> s'.uploads[i].plan.session != u.plan.session
    {
      if i < |s.uploads| {
        assert s'.uploads[i] == s.uploads[i] && PlanOk(s, s.uploads[i].plan);
      } else {
        assert s'.uploads[i] == u;
      }
    }
  }

  lemma BeginKeepsUploads(s: State, e: Event)
    requires UploadsOk(s) && e.Begin? && Enabled(s, e)
    ensures UploadsOk(Apply(s, e))
  {
    var opts := Options(e.session, e.overwrite, e.maxSize, e.hashing, s.suffix);
    TempPathIsMarked(e.target, e.session, s.suffix);
    BegunIsGood(e.target, opts, s.posix, s.files);
    BegunJoins(s, Begun(e.target, opts, s.posix), Apply(s, e));
  }

  lemma ApplyKeepsUploads(s: State, e: Event)
    requires UploadsOk(s)
    ensures UploadsOk(Apply(s, e))
  {
    if Enabled(s, e) {
      match e
      case Begin(_, _, _, _, _) => BeginKeepsUploads(s, e);
      case Primitive(_, _) => StepKeepsUploads(s, e);
      case Write(_, _, _) => WriteKeepsUploads(s, e);
      case Break(_, _) => BreakKeepsUploads(s, e);
      case _ => ClientKeepsUploads(s, e);
    }
  }

  lemma {:induction false} RunKeepsUploads(s: State, events: seq<Event>)
    requires UploadsOk(s)
    ensures UploadsOk(Run(s, events))
    decreases |events|
  {
    if events != [] {
      ApplyKeepsUploads(s, events[0]);
      RunKeepsUploads(Apply(s, events[0]), events[1..]);
    }
  }

  // ---------------------------------------------------------------- and the published names complete

  /** A publisher takes no more calls, so only its own remote steps change it. */
  lemma PublisherStays(s: State, e: Event, i: nat, q: Path, bytes: Bytes)
    requires i < |s.uploads| && Publisher(s.uploads[i], q, bytes)
    ensures i < |Apply(s, e).uploads| && Publisher(Apply(s, e).uploads[i], q, bytes)
  {
    if Enabled(s, e) && e.Primitive? && e.i == i {
      CommitStaysPast(s.uploads[i], s.files, e.fault);
    }
  }

  lemma PublishedStays(s: State, e: Event, q: Path, bytes: Bytes)
    requires Published(s, q, bytes)
    ensures Published(Apply(s, e), q, bytes)
  {
    var i: nat :| i < |s.uploads| && i in s.landed && Publisher(s.uploads[i], q, bytes);
    PublisherStays(s, e, i, q, bytes);
    assert i in Apply(s, e).landed;
  }

  /** The commit is over with its rename, and for good. */
  lemma CommitStaysPast(u: Upload, files: Files, f: Fault)
    requires CanStep(u) && (PastCommit(u.stage) || u.stage == Committing(Publish))
    ensures var v := Step(u, files, f).0; PastCommit(v.stage) && v.plan == u.plan && v.log == u.log
  {
  }

  lemma ExplainsStays(init: Files, s: State, e: Event, q: Path, bytes: Bytes)
    requires Explains(init, s, q, bytes)
    ensures Explains(init, Apply(s, e), q, bytes)
  {
    if Published(s, q, bytes) { PublishedStays(s, e, q, bytes); }
  }

  /** Content that stays where it is stays explained. */
  lemma UnchangedStaysComplete(init: Files, s: State, e: Event, p: Path)
    requires UploadsOk(s) && p in s.files && Complete(init, s, p)
    requires p in Apply(s, e).files && Apply(s, e).files[p] == s.files[p]
    ensures Complete(init, Apply(s, e), p)
  {
    if Explains(init, s, p, s.files[p]) {
      ExplainsStays(init, s, e, p, s.files[p]);
    } else {
      var q :| MarkerFree(q, s.suffix) && Explains(init, s, q, s.files[p]);
      ExplainsStays(init, s, e, q, s.files[p]);
    }
  }

  /** Content that a client rename brought from `a` stays explained. */
  lemma RenamedIsComplete(init: Files, s: State, e: Event)
    requires UploadsOk(s) && e.Rename? && Enabled(s, e)
    requires e.a in s.files && Complete(init, s, e.a)
    requires e.b in Apply(s, e).files && Apply(s, e).files[e.b] == s.files[e.a]
    ensures Complete(init, Apply(s, e), e.b)
  {
  }

  /** Content that an upload's step published is that upload's, whole. */
  lemma StepPublishesWhole(s: State, i: nat, f: Fault)
    requires UploadsOk(s) && Enabled(s, Primitive(i, f))
    ensures var u, s' := s.uploads[i], Apply(s, Primitive(i, f));
      && SameExcept(s.files, s'.files, {u.plan.temp, u.plan.target})
      && (u.plan.target in s'.files ==>
            (u.plan.target in s.files && s'.files[u.plan.target] == s.files[u.plan.target])
            || Published(s', u.plan.target, s'.files[u.plan.target]))
  {
    var u, s' := s.uploads[i], Apply(s, Primitive(i, f));
    StepKeepsGood(u, s.files, f);
    if u.stage == Committing(Publish) {
      CommitStaysPast(u, s.files, f);
      var t := u.plan.target;
      if t in s'.files && !(t in s.files && s'.files[t] == s.files[t]) {
        assert i in s'.landed && Publisher(s'.uploads[i], t, s'.files[t]);
      }
    }
  }

  /** The content of `p` did not come about in this event. */
  predicate Untouched(s: State, s': State, p: Path) {
    p in s'.files ==> p in s.files && s'.files[p] == s.files[p]
  }

  lemma WriteTouchesTemp(s: State, e: Event, p: Path)
    requires UploadsOk(s) && MarkerFree(p, s.suffix) && e.Write?
    ensures Untouched(s, Apply(s, e), p)
  {
    if Enabled(s, e) {
      WriteKeepsGood(s.uploads[e.i], s.files, e.chunk, e.outcome);
      TempIsMarked(s, s.uploads[e.i].plan);
    }
  }

  lemma StepTouchesTarget(s: State, e: Event, p: Path)
    requires UploadsOk(s) && MarkerFree(p, s.suffix) && e.Primitive?
    ensures var s' := Apply(s, e); Untouched(s, s', p) || (p in s'.files && Published(s', p, s'.files[p]))
  {
    if Enabled(s, e) {
      var plan := s.uploads[e.i].plan;
      StepPublishesWhole(s, e.i, e.fault);
      TempIsMarked(s, plan);
      if p != plan.target { assert p !in {plan.temp, plan.target}; }
    }
  }

  /** `e` renamed the content of one client name onto `p`. */
  predicate BroughtBy(s: State, e: Event, p: Path) {
    && e.Rename? && p == e.b && Enabled(s, e) && e.a in s.files
    && p in Apply(s, e).files && Apply(s, e).files[p] == s.files[e.a]
  }

  lemma ClientBringsContent(s: State, e: Event, p: Path)
    requires e.Delete? || e.Rename?
    ensures Untouched(s, Apply(s, e), p) || BroughtBy(s, e, p)
  {
  }

  /** The only ways in which a client name gets new content. */
  lemma NewContent(s: State, e: Event, p: Path)
    requires UploadsOk(s) && MarkerFree(p, s.suffix) && p in Apply(s, e).files
    ensures Untouched(s, Apply(s, e), p) || Published(Apply(s, e), p, Apply(s, e).files[p]) || BroughtBy(s, e, p)
  {
    if e.Primitive? {
      StepTouchesTarget(s, e, p);
    } else if e.Write? {
      WriteTouchesTemp(s, e, p);
    } else if e.Delete? || e.Rename? {
      ClientBringsContent(s, e, p);
    }
  }

  lemma ApplyKeepsComplete(init: Files, s: State, e: Event, p: Path)
    requires UploadsOk(s) && MarkerFree(p, s.suffix) && p in Apply(s, e).files
    requires p in s.files ==> Complete(init, s, p)
    requires e.Rename? && Enabled(s, e) && e.a in s.files ==> Complete(init, s, e.a)
    ensures Complete(init, Apply(s, e), p)
  {
    NewContent(s, e, p);
    if Untouched(s, Apply(s, e), p) {
      UnchangedStaysComplete(init, s, e, p);
    } else if BroughtBy(s, e, p) {
      RenamedIsComplete(init, s, e);
    }
  }

  lemma ApplyKeepsAllComplete(init: Files, s: State, e: Event, s': State)
    requires UploadsOk(s) && AllComplete(init, s) && s' == Apply(s, e) && s'.suffix == s.suffix
    ensures AllComplete(init, s')
  {
    forall p | p in s'.files && MarkerFree(p, s'.suffix)
      ensures Complete(init, s', p)
    {
      ApplyKeepsComplete(init, s, e, p);
    }
  }

  lemma ApplyKeepsInv(init: Files, s: State, e: Event)
    requires Inv(init, s)
    ensures Inv(init, Apply(s, e))
  {
    ApplyKeepsUploads(s, e);
    ApplyKeepsSuffix(s, e);
    ApplyKeepsAllComplete(init, s, e, Apply(s, e));
  }

  lemma {:induction false} RunKeepsInv(init: Files, s: State, events: seq<Event>)
    requires Inv(init, s)
    ensures Inv(init, Run(s, events))
    decreases |events|
  {
    if events != [] {
      ApplyKeepsInv(init, s, events[0]);
      RunKeepsInv(init, Apply(s, events[0]), events[1..]);
    }
  }

  /** The central promise.  In every state reachable by any interleaving of uploads and client requests
      under any failures, each published name that exists holds a complete content: what some name held
      at the start or the whole of one upload in which nothing failed. */
  lemma NoPartialContentIsEverVisible(init: Files, suffix: string, posix: bool, events: seq<Event>, p: Path)
    requires NoSlash(suffix) && MarkerFree(p, suffix)
    ensures var s := Run(Start(init, suffix, posix), events);
      p in s.files ==> Complete(init, s, p)
  {
    RunKeepsInv(init, Start(init, suffix, posix), events);
    RunKeepsSuffix(Start(init, suffix, posix), events);
  }

  lemma ApplyKeepsSuffix(s: State, e: Event)
    ensures Apply(s, e).suffix == s.suffix && Apply(s, e).posix == s.posix
    ensures !e.Rename? ==> Apply(s, e).renamed == s.renamed
  {
  }

  lemma {:induction false} RunKeepsSuffix(s: State, events: seq<Event>)
    ensures Run(s, events).suffix == s.suffix && Run(s, events).posix == s.posix
    ensures (forall e :: e in events ==> !e.Rename?) ==> Run(s, events).renamed == s.renamed
    decreases |events|
  {
    if events != [] {
      assert events[0] in events;
      ApplyKeepsSuffix(s, events[0]);
      RunKeepsSuffix(Apply(s, events[0]), events[1..]);
    }
  }

  /** Without client renames, it is that very name's initial content or a whole upload to that very name. */
  lemma PublishedUnderItsOwnName(init: Files, suffix: string, posix: bool, events: seq<Event>, p: Path)
    requires NoSlash(suffix) && MarkerFree(p, suffix)
    requires forall e :: e in events ==> !e.Rename?
    ensures var s := Run(Start(init, suffix, posix), events);
      p in s.files ==> (p in init && s.files[p] == init[p]) || Published(s, p, s.files[p])
  {
    NoPartialContentIsEverVisible(init, suffix, posix, events, p);
    RunKeepsSuffix(Start(init, suffix, posix), events);
  }
}
