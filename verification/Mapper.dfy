/**
  internal/filesystem/mapper.go: virtual FTP paths, remote SFTP paths and the two roots a
  user is confined to.  The operations work on strings; the lemmas say what they mean on
  component lists.
 */
module Mapper {
  import opened Wrappers
  import opened GoPath

  const NUL := '\U{0000}'

  /** The messages behind errs.KindInvalidPath. */
  datatype PathError = NulByte | OutsideVirtualRoot | OutsideRemoteRoot

  datatype Mapper = Mapper(virtualRoot: string, remoteRoot: string) {
    /** What NewMapper establishes and nothing changes afterwards. */
    predicate Valid() {
      IsCleanAbs(virtualRoot) && IsCleanAbs(remoteRoot)
    }
  }

  function CleanRoot(p: string): string {
    Clean("/" + (if p == "" then "/" else p))
  }

  function NewMapper(virtualRoot: string, remoteRoot: string): (m: Mapper)
    ensures m.Valid()
    ensures Comps(m.virtualRoot) == Comps(virtualRoot) && Comps(m.remoteRoot) == Comps(remoteRoot)
  {
    CleanRootIsClean(virtualRoot);
    CleanRootIsClean(remoteRoot);
    Mapper(CleanRoot(virtualRoot), CleanRoot(remoteRoot))
  }

  predicate WithinRoot(root: string, p: string) {
    if root == "/" then IsAbs(p) else p == root || HasPrefix(p, root + "/")
  }

  function ResolveVirtual(m: Mapper, cwd: string, arg: string): Result<string, PathError> {
    if NUL in arg then Err(NulByte)
    else
      var dir := if cwd == "" then m.virtualRoot else cwd;
      var joined := if IsAbs(arg) then arg else Join(dir, arg);
      var resolved := Clean("/" + joined);
      if WithinRoot(m.virtualRoot, resolved) then Ok(resolved) else Err(OutsideVirtualRoot)
  }

  function ToRemote(m: Mapper, virtualPath: string): Result<string, PathError> {
    if !WithinRoot(m.virtualRoot, virtualPath) then Err(OutsideVirtualRoot)
    else
      var rel := TrimPrefix(TrimPrefix(virtualPath, m.virtualRoot), "/");
      var remote := Clean(Join(m.remoteRoot, rel));
      if WithinRoot(m.remoteRoot, remote) then Ok(remote) else Err(OutsideRemoteRoot)
  }

  function ToVirtual(m: Mapper, remotePath: string): Result<string, PathError> {
    var cleaned := Clean("/" + remotePath);
    if !WithinRoot(m.remoteRoot, cleaned) then Err(OutsideRemoteRoot)
    else
      var rel := TrimPrefix(TrimPrefix(cleaned, m.remoteRoot), "/");
      Ok(Clean(Join(m.virtualRoot, rel)))
  }

  /** clientDriver.remotePath: a raw driver path all the way to the remote server. */
  function RemotePath(m: Mapper, name: string): Result<string, PathError> {
    match ResolveVirtual(m, "/", name)
    case Err(e) => Err(e)
    case Ok(v) => ToRemote(m, v)
  }

  // ---------------------------------------------------------------- strings versus components

  /** `p` lies in the tree of `root`, on component lists. */
  predicate Below(root: string, p: string) {
    Comps(root) <= Comps(p)
  }

  lemma CleanRootIsClean(p: string)
    ensures IsCleanAbs(CleanRoot(p)) && Comps(CleanRoot(p)) == Comps(p)
  {
    CleanIsClean(if p == "" then "/" else p);
    if p == "" { NothingDenoted(); }
  }

  lemma CleanIsClean(p: string)
    ensures IsCleanAbs(Clean("/" + p)) && Comps(Clean("/" + p)) == Comps(p)
  {
    CleanRooted(p);
    CompsProper(p);
    CompsAbs(Comps(p));
    AbsIsClean(Comps(p));
  }

  /** The string test with HasPrefix is the component-prefix test. */
  lemma WithinRootIsPrefix(root: string, p: string)
    requires IsCleanAbs(root) && IsCleanAbs(p)
    ensures WithinRoot(root, p) <==> Below(root, p)
  {
    var r, q := Comps(root), Comps(p);
    CleanAbsForm(root);
    CleanAbsForm(p);
    CompsProper(root);
    CompsProper(p);
    if r == [] {
      assert root == "/";
    } else {
      NotRootIsLonger(r);
      if HasPrefix(p, root + "/") { StringPrefixBelow(r, q); }
      if r < q {
        BelowStringPrefix(r, q);
      } else if r <= q {
        assert r == q;
      }
    }
  }

  lemma StringPrefixBelow(r: seq<string>, q: seq<string>)
    requires Proper(r) && Proper(q) && r != [] && HasPrefix(Abs(q), Abs(r) + "/")
    ensures r <= q
  {
    var x := Abs(q)[|Abs(r)| + 1..];
    assert Abs(q) == Abs(r) + "/" + x;
    SplitAt(Abs(r), x);
    SplitAbs(r);
    SplitAbs(q);
    var shown := if q == [] then [""] else q;
    assert ([""] + shown)[1..] == shown;
    assert ([""] + r + Split(x))[1..] == r + Split(x);
  }

  lemma BelowStringPrefix(r: seq<string>, q: seq<string>)
    requires r != [] && r < q
    ensures HasPrefix(Abs(q), Abs(r) + "/")
  {
    var t := q[|r|..];
    assert q == r + t;
    AbsAppend(r, t);
  }

  lemma TrimAppended(a: string, b: string)
    ensures TrimPrefix(a + b, a) == b
  {
  }

  lemma TrimSlash(x: string)
    requires x != "" && x[0] != '/'
    ensures TrimPrefix("/" + x, "/") == x && TrimPrefix(x, "/") == x
  {
  }

  lemma TrimAll(a: string)
    ensures TrimPrefix(TrimPrefix(a, a), "/") == ""
  {
  }

  lemma SlashBetween(a: string, x: string)
    ensures a + "/" + x == a + ("/" + x)
  {
  }

  /** Trimming a root and a slash from a path below it leaves the remaining components. */
  lemma TrimRoot(r: seq<string>, t: seq<string>)
    requires Proper(r) && Proper(t)
    ensures TrimPrefix(TrimPrefix(Abs(r + t), Abs(r)), "/") == JoinSlash(t)
  {
    if t == [] {
      assert r + t == r;
      TrimAll(Abs(r));
    } else {
      AbsAppend(r, t);
      FirstIsNoSlash(t);
      TrimSlash(JoinSlash(t));
      if r == [] {
        TrimAppended("/", JoinSlash(t));
      } else {
        SlashBetween(Abs(r), JoinSlash(t));
        TrimAppended(Abs(r), "/" + JoinSlash(t));
      }
    }
  }

  lemma FirstIsNoSlash(t: seq<string>)
    requires Proper(t) && t != []
    ensures JoinSlash(t) != "" && JoinSlash(t)[0] != '/'
  {
    assert t[0] in t;
    JoinNonEmpty(t);
    assert t[0][0] in t[0];
  }

  lemma JoinBelow(r: seq<string>, t: seq<string>)
    requires Proper(r) && Proper(t)
    ensures Clean(Join(Abs(r), JoinSlash(t))) == Abs(r + t)
  {
    var joined := Join(Abs(r), JoinSlash(t));
    CompsJoin(Abs(r), JoinSlash(t));
    CompsAbs(r);
    WalkAlong(r, t);
    assert IsAbs(Abs(r) + "/" + JoinSlash(t));
    CleanAbsForm(Abs(r) + "/" + JoinSlash(t));
    CleanAbsForm(joined);
  }

  /** Both translations replace one root by the other and keep the components below it. */
  lemma ToRemoteSwapsRoots(m: Mapper, t: seq<string>)
    requires m.Valid() && Proper(t)
    ensures ToRemote(m, Abs(Comps(m.virtualRoot) + t)) == Ok(Abs(Comps(m.remoteRoot) + t))
  {
    SwapFacts(m, t);
    TrimRoot(Comps(m.virtualRoot), t);
    JoinBelow(Comps(m.remoteRoot), t);
  }

  lemma ToVirtualSwapsRoots(m: Mapper, t: seq<string>)
    requires m.Valid() && Proper(t)
    ensures ToVirtual(m, Abs(Comps(m.remoteRoot) + t)) == Ok(Abs(Comps(m.virtualRoot) + t))
  {
    SwapFacts(m, t);
    TrimRoot(Comps(m.remoteRoot), t);
    JoinBelow(Comps(m.virtualRoot), t);
    var rt := Comps(m.remoteRoot) + t;
    CleanRooted(Abs(rt));
  }

  lemma SwapFacts(m: Mapper, t: seq<string>)
    requires m.Valid() && Proper(t)
    ensures forall root :: root == m.virtualRoot || root == m.remoteRoot ==>
      && root == Abs(Comps(root)) && Proper(Comps(root)) && Proper(Comps(root) + t)
      && Comps(Abs(Comps(root) + t)) == Comps(root) + t
      && WithinRoot(root, Abs(Comps(root) + t))
  {
    forall root | root == m.virtualRoot || root == m.remoteRoot
      ensures root == Abs(Comps(root)) && Proper(Comps(root)) && Proper(Comps(root) + t)
      ensures Comps(Abs(Comps(root) + t)) == Comps(root) + t
      ensures WithinRoot(root, Abs(Comps(root) + t))
    {
      CleanAbsForm(root);
      CompsProper(root);
      CompsAbs(Comps(root) + t);
      AbsIsClean(Comps(root) + t);
      WithinRootIsPrefix(root, Abs(Comps(root) + t));
    }
  }

  /** A clean path below a root is the root's components followed by others. */
  lemma BelowSplits(root: string, p: string) returns (t: seq<string>)
    requires IsCleanAbs(p) && Below(root, p)
    ensures Proper(t) && p == Abs(Comps(root) + t)
  {
    t := Comps(p)[|Comps(root)|..];
    CleanAbsForm(p);
    CompsProper(p);
    assert Comps(root) + t == Comps(p);
  }

  // ---------------------------------------------------------------- the two translations are inverse bijections

  lemma VirtualRoundTrip(m: Mapper, v: string)
    requires m.Valid() && IsCleanAbs(v) && Below(m.virtualRoot, v)
    ensures ToRemote(m, v).Ok?
    ensures var r := ToRemote(m, v).value;
      IsCleanAbs(r) && Below(m.remoteRoot, r) && ToVirtual(m, r) == Ok(v)
  {
    var t := BelowSplits(m.virtualRoot, v);
    ToRemoteSwapsRoots(m, t);
    ToVirtualSwapsRoots(m, t);
    SwapFacts(m, t);
    AbsIsClean(Comps(m.remoteRoot) + t);
  }

  lemma RemoteRoundTrip(m: Mapper, r: string)
    requires m.Valid() && IsCleanAbs(r) && Below(m.remoteRoot, r)
    ensures ToVirtual(m, r).Ok?
    ensures var v := ToVirtual(m, r).value;
      IsCleanAbs(v) && Below(m.virtualRoot, v) && ToRemote(m, v) == Ok(r)
  {
    var t := BelowSplits(m.remoteRoot, r);
    ToVirtualSwapsRoots(m, t);
    ToRemoteSwapsRoots(m, t);
    SwapFacts(m, t);
    AbsIsClean(Comps(m.virtualRoot) + t);
  }

  // ---------------------------------------------------------------- confinement, for arbitrary strings

  /** The components an FTP path argument denotes, before the containment test. */
  function Denoted(m: Mapper, cwd: string, arg: string): seq<string> {
    if IsAbs(arg) then Comps(arg)
    else Walk(Comps(if cwd == "" then m.virtualRoot else cwd), true, Split(arg))
  }

  lemma ResolveDenotes(m: Mapper, cwd: string, arg: string)
    requires m.Valid() && NUL !in arg
    ensures Proper(Denoted(m, cwd, arg))
    ensures ResolveVirtual(m, cwd, arg) ==
      if Comps(m.virtualRoot) <= Denoted(m, cwd, arg) then Ok(Abs(Denoted(m, cwd, arg)))
      else Err(OutsideVirtualRoot)
  {
    var dir := if cwd == "" then m.virtualRoot else cwd;
    var joined := if IsAbs(arg) then arg else Join(dir, arg);
    if !IsAbs(arg) { CompsJoin(dir, arg); }
    assert Comps(joined) == Denoted(m, cwd, arg);
    CompsProper(joined);
    CleanRooted(joined);
    CleanIsClean(joined);
    WithinRootIsPrefix(m.virtualRoot, Clean("/" + joined));
  }

  /** Whatever the client sends, an accepted path is clean, in its root, and maps without error. */
  lemma ResolvedIsConfined(m: Mapper, cwd: string, arg: string)
    requires m.Valid() && ResolveVirtual(m, cwd, arg).Ok?
    ensures var v := ResolveVirtual(m, cwd, arg).value;
      IsCleanAbs(v) && Below(m.virtualRoot, v) && ToRemote(m, v).Ok?
  {
    ResolveDenotes(m, cwd, arg);
    var q := Denoted(m, cwd, arg);
    AbsIsClean(q);
    CompsAbs(q);
    VirtualRoundTrip(m, Abs(q));
  }

  /** ToRemote, given any string at all, answers with a clean path below the remote root or not at all. */
  lemma RemoteIsConfined(m: Mapper, v: string)
    requires m.Valid() && ToRemote(m, v).Ok?
    ensures IsCleanAbs(ToRemote(m, v).value) && Below(m.remoteRoot, ToRemote(m, v).value)
  {
    var rel := TrimPrefix(TrimPrefix(v, m.virtualRoot), "/");
    var long := m.remoteRoot + "/" + rel;
    assert IsAbs(long);
    CleanAbsForm(long);
    CompsProper(long);
    AbsIsClean(Comps(long));
    WithinRootIsPrefix(m.remoteRoot, ToRemote(m, v).value);
  }

  /** ToRemote answers exactly for the clean paths below the virtual root. */
  lemma ToRemoteExactly(m: Mapper, v: string)
    requires m.Valid() && IsCleanAbs(v)
    ensures ToRemote(m, v) ==
      if Comps(m.virtualRoot) <= Comps(v) then Ok(Abs(Comps(m.remoteRoot) + Comps(v)[|Comps(m.virtualRoot)|..]))
      else Err(OutsideVirtualRoot)
  {
    WithinRootIsPrefix(m.virtualRoot, v);
    if Below(m.virtualRoot, v) {
      var t := BelowSplits(m.virtualRoot, v);
      ToRemoteSwapsRoots(m, t);
      SwapFacts(m, t);
      assert Comps(v)[|Comps(m.virtualRoot)|..] == t;
    }
  }

  /** And ToVirtual exactly for the strings that denote a path below the remote root. */
  lemma ToVirtualExactly(m: Mapper, p: string)
    requires m.Valid()
    ensures ToVirtual(m, p) ==
      if Comps(m.remoteRoot) <= Comps(p) then Ok(Abs(Comps(m.virtualRoot) + Comps(p)[|Comps(m.remoteRoot)|..]))
      else Err(OutsideRemoteRoot)
  {
    var r := Clean("/" + p);
    CleanIsClean(p);
    CleanRooted(r);
    CleanIsClean(r);
    CleanAbsForm(r);
    CleanAbsForm(Clean("/" + r));
    WithinRootIsPrefix(m.remoteRoot, r);
    if Below(m.remoteRoot, r) {
      var t := BelowSplits(m.remoteRoot, r);
      ToVirtualSwapsRoots(m, t);
      SwapFacts(m, t);
      assert Comps(p)[|Comps(m.remoteRoot)|..] == t;
    }
  }

  /** What a user with these configured roots reaches under a name: the part of the name below the virtual root, put
      below the remote root; a name with a NUL byte or outside the virtual root reaches nothing. */
  lemma NamesReach(virtualRoot: string, remoteRoot: string, name: string)
    ensures RemotePath(NewMapper(virtualRoot, remoteRoot), name) ==
      if NUL in name then Err(NulByte)
      else if Comps(virtualRoot) <= Comps(name) then Ok(Abs(Comps(remoteRoot) + Comps(name)[|Comps(virtualRoot)|..]))
      else Err(OutsideVirtualRoot)
  {
    var m := NewMapper(virtualRoot, remoteRoot);
    if NUL !in name {
      ResolveDenotes(m, "/", name);
      NothingDenoted();
      CompsProper(name);
      if Comps(virtualRoot) <= Comps(name) {
        AbsIsClean(Comps(name));
        CompsAbs(Comps(name));
        ToRemoteExactly(m, Abs(Comps(name)));
      }
    }
  }

  /** So nothing outside the configured remote root is ever reached. */
  lemma NamesStayBelow(virtualRoot: string, remoteRoot: string, name: string)
    ensures var r := RemotePath(NewMapper(virtualRoot, remoteRoot), name);
      r.Ok? ==> IsCleanAbs(r.value) && Comps(remoteRoot) <= Comps(r.value)
  {
    NamesReach(virtualRoot, remoteRoot, name);
    CompsProper(remoteRoot);
    CompsProper(name);
    if NUL !in name && Comps(virtualRoot) <= Comps(name) {
      var cs := Comps(remoteRoot) + Comps(name)[|Comps(virtualRoot)|..];
      AbsIsClean(cs);
      CompsAbs(cs);
    }
  }

  lemma NothingDenoted()
    ensures Comps("/") == [] && Comps("") == []
  {
    CompsAbs([]);
  }

  predicate Comparable(a: string, b: string) {
    Below(a, b) || Below(b, a)
  }

  /** Users whose remote roots are not nested never reach the same remote path. */
  lemma UsersAreDisjoint(a: Mapper, b: Mapper, nameA: string, nameB: string)
    requires a.Valid() && b.Valid() && !Comparable(a.remoteRoot, b.remoteRoot)
    requires RemotePath(a, nameA).Ok? && RemotePath(b, nameB).Ok?
    ensures RemotePath(a, nameA) != RemotePath(b, nameB)
  {
    RemoteIsConfined(a, ResolveVirtual(a, "/", nameA).value);
    RemoteIsConfined(b, ResolveVirtual(b, "/", nameB).value);
    if RemotePath(a, nameA) == RemotePath(b, nameB) {
      PrefixesNest(Comps(a.remoteRoot), Comps(b.remoteRoot), Comps(RemotePath(a, nameA).value));
    }
  }

  lemma PrefixesNest(a: seq<string>, b: seq<string>, p: seq<string>)
    requires a <= p && b <= p
    ensures a <= b || b <= a
  {
  }

  /** Nested remote roots do overlap: the inner root is reachable by both users. */
  lemma NestedUsersMeet(a: Mapper, b: Mapper)
    requires a.Valid() && b.Valid() && Below(a.remoteRoot, b.remoteRoot)
    requires NUL !in a.virtualRoot && NUL !in b.virtualRoot && NUL !in b.remoteRoot
    ensures exists nameA, nameB :: RemotePath(a, nameA) == RemotePath(b, nameB) == Ok(b.remoteRoot)
  {
    var t := BelowSplits(a.remoteRoot, b.remoteRoot);
    var va := Comps(a.virtualRoot);
    var nameA := Abs(va + t);
    CleanAbsForm(a.virtualRoot);
    CleanAbsForm(b.virtualRoot);
    CleanAbsForm(b.remoteRoot);
    NoNulBelow(va, Comps(a.remoteRoot), t);
    assert Comps(b.virtualRoot) + [] == Comps(b.virtualRoot);
    assert Comps(b.remoteRoot) + [] == Comps(b.remoteRoot);
    ReachesItself(a, t);
    ReachesItself(b, []);
    ToRemoteSwapsRoots(a, t);
    ToRemoteSwapsRoots(b, []);
    assert RemotePath(a, nameA) == RemotePath(b, b.virtualRoot) == Ok(b.remoteRoot);
  }

  lemma NoNulBelow(v: seq<string>, r: seq<string>, t: seq<string>)
    requires NUL !in Abs(v) && NUL !in Abs(r + t)
    ensures NUL !in Abs(v + t)
  {
    if t == [] {
      assert v + t == v;
    } else {
      AbsAppend(v, t);
      AbsAppend(r, t);
    }
  }

  lemma ReachesItself(m: Mapper, t: seq<string>)
    requires m.Valid() && Proper(t) && NUL !in Abs(Comps(m.virtualRoot) + t)
    ensures ResolveVirtual(m, "/", Abs(Comps(m.virtualRoot) + t)) == Ok(Abs(Comps(m.virtualRoot) + t))
  {
    SwapFacts(m, t);
    ResolveDenotes(m, "/", Abs(Comps(m.virtualRoot) + t));
  }

  // ---------------------------------------------------------------- resolution is a walk

  /** Resolving a/b is resolving a and then b from there, whenever the first step is accepted. */
  lemma ResolveInTwoSteps(m: Mapper, cwd: string, a: string, b: string)
    requires m.Valid() && a != "" && !IsAbs(b)
    requires ResolveVirtual(m, cwd, a).Ok?
    ensures ResolveVirtual(m, cwd, a + "/" + b) == ResolveVirtual(m, ResolveVirtual(m, cwd, a).value, b)
  {
    if NUL in b {
      assert NUL in a + "/" + b;
    } else {
      assert NUL !in a + "/" + b;
      ResolveDenotes(m, cwd, a);
      var mid := Denoted(m, cwd, a);
      CompsAbs(mid);
      ResolveDenotes(m, cwd, a + "/" + b);
      ResolveDenotes(m, Abs(mid), b);
      SplitAt(a, b);
      WalkConcat([], true, Split(a), Split(b));
      WalkConcat(Comps(if cwd == "" then m.virtualRoot else cwd), true, Split(a), Split(b));
    }
  }

  /** An accepted path resolves to itself from everywhere. */
  lemma ResolveIsIdempotent(m: Mapper, cwd: string, arg: string, anywhere: string)
    requires m.Valid() && ResolveVirtual(m, cwd, arg).Ok? && NUL !in ResolveVirtual(m, cwd, arg).value
    ensures ResolveVirtual(m, anywhere, ResolveVirtual(m, cwd, arg).value) == ResolveVirtual(m, cwd, arg)
  {
    ResolveDenotes(m, cwd, arg);
    var q := Denoted(m, cwd, arg);
    CompsAbs(q);
    ResolveDenotes(m, anywhere, Abs(q));
  }
}
