/**
  Users whose remote roots are not nested, over whole runs: whatever the others upload, delete and
  rename, nothing below a user's root changes, temporary names included.
 */
module Isolation {
  import opened GoPath
  import opened Mapper
  import opened TempNames
  import opened Remote
  import opened Uploads
  import opened UploadLaws
  import opened Protocol
  import opened ProtocolLaws

  /** Every name in the request lies below the remote root `a`, as all names that a user's mapper yields do. */
  predicate Concerns(a: Path, e: Event) {
    match e
    case Begin(target, _, _, _, _) => Below(a, target)
    case Delete(q, _) => Below(a, q)
    case Rename(x, y, _) => Below(a, x) && Below(a, y)
    case _ => true
  }

  /** `e` is a request of a user with one of these roots, or goes on with an upload.  An upload onto a root itself has
      its temporary name beside that root; here it is not `b`. */
  predicate ByOthers(roots: set<Path>, b: Path, suffix: string, e: Event) {
    && (exists a :: a in roots && Concerns(a, e))
    && (e.Begin? && e.target in roots ==> TempPath(e.target, e.session, suffix) != b)
  }

  predicate NoneNested(roots: set<Path>, b: Path) {
    forall a :: a in roots ==> IsCleanAbs(a) && !Comparable(a, b)
  }

  /** No upload under way has a name below `b`. */
  predicate AllOutside(s: State, b: Path) {
    forall i :: 0 <= i < |s.uploads| && Live(s.uploads[i]) ==>
      !Below(b, s.uploads[i].plan.target) && !Below(b, s.uploads[i].plan.temp)
  }

  lemma NotInBoth(a: Path, b: Path, p: Path)
    requires !Comparable(a, b) && Below(a, p)
    ensures !Below(b, p)
  {
    if Below(b, p) { PrefixesNest(Comps(a), Comps(b), Comps(p)); }
  }

  /** The temporary name of an upload below `a` is not below `b` either, unless it is `b`. */
  lemma TempStaysOutside(a: Path, b: Path, target: Path, id: string, suffix: string)
    requires IsCleanAbs(a) && IsCleanAbs(b) && IsCleanAbs(target) && !Comparable(a, b) && Below(a, target)
    requires NoSlash(id) && NoSlash(suffix) && (target == a ==> TempPath(target, id, suffix) != b)
    ensures !Below(b, TempPath(target, id, suffix))
  {
    TempPathStaysBelow(a, target, id, suffix);
    if Below(a, TempPath(target, id, suffix)) {
      NotInBoth(a, b, TempPath(target, id, suffix));
    } else {
      BesideRoot(a, b, id, suffix);
    }
  }

  /** Beside a root there is nothing of another user's but, perhaps, that user's root. */
  lemma BesideRoot(a: Path, b: Path, id: string, suffix: string)
    requires IsCleanAbs(a) && IsCleanAbs(b) && !Comparable(a, b) && NoSlash(id) && NoSlash(suffix)
    requires TempPath(a, id, suffix) != b
    ensures !Below(b, TempPath(a, id, suffix))
  {
    var ca, cb, temp := Comps(a), Comps(b), TempPath(a, id, suffix);
    var ct := Front(ca) + [TempName(ca, id, suffix)];
    CleanAbsForm(a);
    CleanAbsForm(b);
    CompsProper(a);
    TempPathForm(ca, id, suffix);
    CompsAbs(ct);
    assert Comps(temp) == ct;
    if cb <= ct && cb != ct { StrictPrefix(cb, ct); }
  }

  lemma BeginStaysOutside(s: State, roots: set<Path>, b: Path, e: Event)
    requires UploadsOk(s) && AllOutside(s, b) && IsCleanAbs(b) && NoneNested(roots, b)
    requires ByOthers(roots, b, s.suffix, e) && e.Begin? && Enabled(s, e)
    ensures AllOutside(Apply(s, e), b)
  {
    var a :| a in roots && Concerns(a, e);
    NotInBoth(a, b, e.target);
    TempStaysOutside(a, b, e.target, e.session, s.suffix);
  }

  lemma StepStaysOutside(s: State, b: Path, e: Event, p: Path)
    requires UploadsOk(s) && AllOutside(s, b) && Below(b, p) && e.Primitive? && Enabled(s, e)
    ensures SameAt(s.files, Apply(s, e).files, p) && AllOutside(Apply(s, e), b)
  {
    assert Good(s.uploads[e.i], s.files);
    StepKeepsGood(s.uploads[e.i], s.files, e.fault);
  }

  lemma WriteStaysOutside(s: State, b: Path, e: Event, p: Path)
    requires UploadsOk(s) && AllOutside(s, b) && Below(b, p) && e.Write? && Enabled(s, e)
    ensures SameAt(s.files, Apply(s, e).files, p) && AllOutside(Apply(s, e), b)
  {
    assert Good(s.uploads[e.i], s.files);
    WriteKeepsGood(s.uploads[e.i], s.files, e.chunk, e.outcome);
  }

  lemma BreakStaysOutside(s: State, b: Path, e: Event, p: Path)
    requires AllOutside(s, b) && e.Break? && Enabled(s, e)
    ensures SameAt(s.files, Apply(s, e).files, p) && AllOutside(Apply(s, e), b)
  {
  }

  lemma ClientStaysOutside(s: State, roots: set<Path>, b: Path, e: Event, p: Path)
    requires NoneNested(roots, b) && ByOthers(roots, b, s.suffix, e) && Below(b, p)
    requires (e.Delete? || e.Rename?) && Enabled(s, e)
    ensures SameAt(s.files, Apply(s, e).files, p)
  {
    var a :| a in roots && Concerns(a, e);
    if e.Delete? {
      NotInBoth(a, b, e.p);
    } else {
      NotInBoth(a, b, e.a);
      NotInBoth(a, b, e.b);
    }
    ClientLeavesName(s, e, p);
  }

  lemma OthersLeaveTree(s: State, roots: set<Path>, b: Path, e: Event, p: Path)
    requires UploadsOk(s) && AllOutside(s, b) && IsCleanAbs(b) && NoneNested(roots, b)
    requires ByOthers(roots, b, s.suffix, e) && Below(b, p)
    ensures SameAt(s.files, Apply(s, e).files, p) && AllOutside(Apply(s, e), b)
  {
    if Enabled(s, e) {
      if e.Begin? {
        BeginStaysOutside(s, roots, b, e);
      } else if e.Primitive? {
        StepStaysOutside(s, b, e, p);
      } else if e.Write? {
        WriteStaysOutside(s, b, e, p);
      } else if e.Break? {
        BreakStaysOutside(s, b, e, p);
      } else {
        ClientStaysOutside(s, roots, b, e, p);
      }
    }
  }

  /** In every run of requests of users with other roots, none nested with `b`, under all interleavings and failures,
      no name below `b` is created, changed or removed. */
  lemma {:induction false} UsersAreIsolated(s: State, roots: set<Path>, b: Path, events: seq<Event>, p: Path)
    requires UploadsOk(s) && AllOutside(s, b) && IsCleanAbs(b) && NoneNested(roots, b) && Below(b, p)
    requires forall e :: e in events ==> ByOthers(roots, b, s.suffix, e)
    ensures SameAt(s.files, Run(s, events).files, p)
    decreases |events|
  {
    if events != [] {
      assert events[0] in events;
      OthersLeaveTree(s, roots, b, events[0], p);
      ApplyKeepsUploads(s, events[0]);
      ApplyKeepsSuffix(s, events[0]);
      UsersAreIsolated(Apply(s, events[0]), roots, b, events[1..], p);
    }
  }

  /** The exception is real: an upload onto the root `a` itself creates the name beside it, which may be the root of
      a user who has nothing else to do with `a`. */
  lemma UploadOntoRootReachesAnother(a: Path, session: string, suffix: string, posix: bool, chunk: Bytes)
    requires IsCleanAbs(a) && a != "/" && MarkerFree(a, suffix) && SessionId(session) && NoSlash(suffix)
    ensures var b := TempPath(a, session, suffix);
      var events := [Begin(a, session, true, 0, false), Primitive(0, Healthy), Write(0, chunk, Stored)];
      !Comparable(a, b) && Concerns(a, events[0]) && b in Run(Start(map[], suffix, posix), events).files
  {
    PartialUpload(a, session, suffix, posix, chunk);
    var b := TempPath(a, session, suffix);
    TempPathStaysBelow(a, a, session, suffix);
    var ca := Comps(a);
    CleanAbsForm(a);
    CompsProper(a);
    TempPathForm(ca, session, suffix);
    CompsAbs(Front(ca) + [TempName(ca, session, suffix)]);
  }
}
