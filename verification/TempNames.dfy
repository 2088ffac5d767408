/**
  internal/transfer/transfer.go, TempPath, and the LIST filter of
  internal/ftpserver/clientdriver.go: the temporary remote name of an upload, and why no
  two uploads, no published name and no listing ever meet it.
 */
module TempNames {
  import opened GoPath

  /** "<basename><suffix>-<sessionID>" in the directory of the final path. */
  function TempPath(finalPath: string, sessionId: string, suffix: string): string {
    Join(Dir(finalPath), Base(finalPath) + suffix + "-" + sessionId)
  }

  /** What the LIST filter looks for. */
  function Marker(suffix: string): string {
    suffix + "-"
  }

  /** The name of `p` lies outside the temporary namespace. */
  predicate MarkerFree(p: string, suffix: string) {
    !Contains(Base(p), Marker(suffix))
  }

  /** Correlation ids are hexadecimal, so they have neither a slash nor a dash. */
  predicate SessionId(id: string) {
    NoSlash(id) && '-' !in id
  }

  /** The last component of the temporary path: the root has no name of its own. */
  function TempName(cs: seq<string>, sessionId: string, suffix: string): string {
    (if cs == [] then "" else cs[|cs| - 1]) + suffix + "-" + sessionId
  }

  function Front(cs: seq<string>): seq<string> {
    if cs == [] then [] else cs[..|cs| - 1]
  }

  lemma TempNameProper(cs: seq<string>, sessionId: string, suffix: string)
    requires Proper(cs) && NoSlash(sessionId) && NoSlash(suffix)
    ensures ProperName(TempName(cs, sessionId, suffix))
  {
    var name := TempName(cs, sessionId, suffix);
    if cs != [] { assert cs[|cs| - 1] in cs; }
    assert '-' in name;
    assert '-' !in "." && '-' !in "..";
  }

  /** What is joined to the directory: the root's own name is a slash. */
  function Added(cs: seq<string>, name: string): string {
    if cs == [] then "/" + name else name
  }

  lemma TempPathJoins(cs: seq<string>, sessionId: string, suffix: string)
    requires Proper(cs)
    ensures TempPath(Abs(cs), sessionId, suffix) == Join(Abs(Front(cs)), Added(cs, TempName(cs, sessionId, suffix)))
  {
    if cs == [] {
      DirBaseRoot();
      assert Abs(cs) == "/";
      assert "/" + suffix + "-" + sessionId == "/" + TempName(cs, sessionId, suffix);
    } else {
      var last := cs[|cs| - 1];
      assert cs == Front(cs) + [last] && last in cs;
      DirBase(Front(cs), last);
    }
  }

  /** The elements of what is joined, walked from the directory. */
  lemma AddedWalks(cs: seq<string>, name: string)
    requires ProperName(name)
    ensures Walk(Front(cs), true, Split(Added(cs, name))) == Front(cs) + [name]
  {
    SplitPlain(name);
    WalkOne(Front(cs), name);
    if cs == [] {
      assert "/" + name == "" + "/" + name;
      SplitAt("", name);
      WalkConcat(Front(cs), true, [""], [name]);
      WalkOne(Front(cs), "");
    }
  }

  /** TempPath on component lists: same directory, extended last name. */
  lemma TempPathForm(cs: seq<string>, sessionId: string, suffix: string)
    requires Proper(cs) && NoSlash(sessionId) && NoSlash(suffix)
    ensures Proper(Front(cs) + [TempName(cs, sessionId, suffix)])
    ensures TempPath(Abs(cs), sessionId, suffix) == Abs(Front(cs) + [TempName(cs, sessionId, suffix)])
  {
    var front, name := Front(cs), TempName(cs, sessionId, suffix);
    TempNameProper(cs, sessionId, suffix);
    TempPathJoins(cs, sessionId, suffix);
    AddedWalks(cs, name);
    CompsJoin(Abs(front), Added(cs, name));
    CompsAbs(front);
    CleanAbsForm(Abs(front) + "/" + Added(cs, name));
    CompsOfClean(Abs(front) + "/" + Added(cs, name));
  }

  lemma DirOf(cs: seq<string>)
    requires Proper(cs)
    ensures Dir(Abs(cs)) == Abs(Front(cs))
  {
    if cs == [] {
      DirBaseRoot();
    } else {
      assert cs == Front(cs) + [cs[|cs| - 1]];
      assert cs[|cs| - 1] in cs;
      DirBase(Front(cs), cs[|cs| - 1]);
    }
  }

  /** The temporary path sits in the directory of the final one under a marked name. */
  lemma TempPathBase(finalPath: string, sessionId: string, suffix: string)
    requires IsCleanAbs(finalPath) && NoSlash(sessionId) && NoSlash(suffix)
    ensures IsCleanAbs(TempPath(finalPath, sessionId, suffix))
    ensures Base(TempPath(finalPath, sessionId, suffix)) == TempName(Comps(finalPath), sessionId, suffix)
    ensures Dir(TempPath(finalPath, sessionId, suffix)) == Dir(finalPath)
  {
    var cs := Comps(finalPath);
    CleanAbsForm(finalPath);
    CompsProper(finalPath);
    TempPathForm(cs, sessionId, suffix);
    TempNameProper(cs, sessionId, suffix);
    AbsIsClean(Front(cs) + [TempName(cs, sessionId, suffix)]);
    DirBase(Front(cs), TempName(cs, sessionId, suffix));
    DirOf(cs);
  }

  lemma TempNameIsMarked(cs: seq<string>, sessionId: string, suffix: string)
    ensures Contains(TempName(cs, sessionId, suffix), Marker(suffix))
  {
    var last := if cs == [] then "" else cs[|cs| - 1];
    var name := TempName(cs, sessionId, suffix);
    assert name == last + Marker(suffix) + sessionId;
    assert name[|last|..|last| + |Marker(suffix)|] == Marker(suffix);
    assert Occurs(name, Marker(suffix), |last|);
  }

  lemma TempPathIsMarked(finalPath: string, sessionId: string, suffix: string)
    requires IsCleanAbs(finalPath) && NoSlash(sessionId) && NoSlash(suffix)
    ensures !MarkerFree(TempPath(finalPath, sessionId, suffix), suffix)
  {
    TempPathBase(finalPath, sessionId, suffix);
    TempNameIsMarked(Comps(finalPath), sessionId, suffix);
  }

  /** The temporary path is never the final path itself. */
  lemma TempPathDiffers(finalPath: string, sessionId: string, suffix: string)
    requires IsCleanAbs(finalPath) && NoSlash(sessionId) && NoSlash(suffix)
    ensures TempPath(finalPath, sessionId, suffix) != finalPath
  {
    var cs := Comps(finalPath);
    CleanAbsForm(finalPath);
    CompsProper(finalPath);
    TempPathForm(cs, sessionId, suffix);
    CompsAbs(Front(cs) + [TempName(cs, sessionId, suffix)]);
    if cs != [] {
      assert |TempName(cs, sessionId, suffix)| > |cs[|cs| - 1]|;
    }
  }

  /** The part before the last dash is determined when nothing after it has one. */
  lemma DashSplits(x1: string, id1: string, x2: string, id2: string)
    requires '-' !in id1 && '-' !in id2
    requires x1 + "-" + id1 == x2 + "-" + id2
    ensures x1 == x2 && id1 == id2
  {
    var s := x1 + "-" + id1;
    AfterLastAt('-', x1, id1);
    AfterLastAt('-', x2, id2);
    assert x1 == s[..|x1|] && id1 == s[|x1| + 1..];
    assert x2 == s[..|x2|] && id2 == s[|x2| + 1..];
  }

  lemma TempNameInjective(c1: seq<string>, id1: string, c2: seq<string>, id2: string, suffix: string)
    requires Proper(c1) && Proper(c2) && SessionId(id1) && SessionId(id2)
    requires Front(c1) == Front(c2) && TempName(c1, id1, suffix) == TempName(c2, id2, suffix)
    ensures c1 == c2 && id1 == id2
  {
    var l1 := if c1 == [] then "" else c1[|c1| - 1];
    var l2 := if c2 == [] then "" else c2[|c2| - 1];
    DashSplits(l1 + suffix, id1, l2 + suffix, id2);
    assert l1 == (l1 + suffix)[..|l1|] && l2 == (l2 + suffix)[..|l2|];
    if c1 != [] { assert l1 in c1; assert c1 == Front(c1) + [l1]; }
    if c2 != [] { assert l2 in c2; assert c2 == Front(c2) + [l2]; }
  }

  /** Different final paths or different sessions use different temporary paths. */
  lemma TempPathInjective(f1: string, id1: string, f2: string, id2: string, suffix: string)
    requires IsCleanAbs(f1) && IsCleanAbs(f2) && SessionId(id1) && SessionId(id2) && NoSlash(suffix)
    requires TempPath(f1, id1, suffix) == TempPath(f2, id2, suffix)
    ensures f1 == f2 && id1 == id2
  {
    var c1, c2 := Comps(f1), Comps(f2);
    CleanAbsForm(f1);
    CleanAbsForm(f2);
    CompsProper(f1);
    CompsProper(f2);
    TempPathForm(c1, id1, suffix);
    TempPathForm(c2, id2, suffix);
    var a, n1 := Front(c1), TempName(c1, id1, suffix);
    var b, n2 := Front(c2), TempName(c2, id2, suffix);
    AbsInjective(a + [n1], b + [n2]);
    assert a == (a + [n1])[..|a|] && n1 == (a + [n1])[|a|];
    assert b == (b + [n2])[..|b|] && n2 == (b + [n2])[|b|];
    TempNameInjective(c1, id1, c2, id2, suffix);
  }

  /** For a final path below the remote root, the temporary path stays below it too, except
      that an upload onto a root other than "/" itself would land beside it. */
  lemma TempPathStaysBelow(root: string, finalPath: string, sessionId: string, suffix: string)
    requires IsCleanAbs(root) && IsCleanAbs(finalPath) && Comps(root) <= Comps(finalPath)
    requires NoSlash(sessionId) && NoSlash(suffix)
    ensures Comps(root) <= Comps(TempPath(finalPath, sessionId, suffix)) <==> finalPath != root || root == "/"
  {
    var r, cs := Comps(root), Comps(finalPath);
    CleanAbsForm(root);
    CleanAbsForm(finalPath);
    CompsProper(finalPath);
    CompsProper(root);
    TempPathForm(cs, sessionId, suffix);
    CompsAbs(Front(cs) + [TempName(cs, sessionId, suffix)]);
    if finalPath == root {
      if cs != [] {
        NotRootIsLonger(cs);
        assert |TempName(cs, sessionId, suffix)| > |cs[|cs| - 1]|;
      }
    } else {
      StrictPrefix(r, cs);
    }
  }

  lemma StrictPrefix(r: seq<string>, cs: seq<string>)
    requires r <= cs && r != cs
    ensures r <= Front(cs)
  {
  }

  // ---------------------------------------------------------------- the LIST filter

  /** The names of a listing that a client is shown, in the order of the listing. */
  function Shown(names: seq<string>, marker: string): (shown: seq<string>)
    ensures forall n :: n in shown <==> n in names && !Contains(n, marker)
  {
    if names == [] then []
    else
      var before := Shown(names[..|names| - 1], marker);
      var last := names[|names| - 1];
      assert names == names[..|names| - 1] + [last];
      if Contains(last, marker) then before else before + [last]
  }

  method ContainsAt(s: string, sub: string) returns (found: bool)
    ensures found <==> Contains(s, sub)
  {
    found := false;
    var i := 0;
    while i + |sub| <= |s| && !found
      invariant 0 <= i
      invariant found ==> Contains(s, sub)
      invariant !found ==> forall k :: 0 <= k < i && k + |sub| <= |s| ==> !Occurs(s, sub, k)
      decreases |s| - i + (if found then 0 else 1)
    {
      if s[i..i + |sub|] == sub {
        assert Occurs(s, sub, i);
        found := true;
      }
      i := i + 1;
    }
  }

  /** The loop of clientDriver.ReadDir. */
  method VisibleEntries(entries: seq<string>, suffix: string) returns (visible: seq<string>)
    ensures visible == Shown(entries, Marker(suffix))
    ensures forall n :: n in visible <==> n in entries && !Marked(n, suffix)
  {
    var marker := suffix + "-";
    visible := [];
    for k := 0 to |entries|
      invariant visible == Shown(entries[..k], marker)
    {
      assert entries[..k + 1][..k] == entries[..k];
      var hidden := ContainsAt(entries[k], marker);
      if !hidden {
        visible := visible + [entries[k]];
      }
    }
    assert entries[..|entries|] == entries;
    forall n | n in entries
      ensures n in visible <==> !Marked(n, suffix)
    {
      ContainsIsMarked(n, suffix);
    }
  }

  /** The name has the suffix and a dash somewhere inside it. */
  ghost predicate Marked(name: string, suffix: string) {
    exists x, y :: name == x + suffix + "-" + y
  }

  lemma ContainsIsMarked(name: string, suffix: string)
    ensures Contains(name, Marker(suffix)) <==> Marked(name, suffix)
  {
    var m := suffix + "-";
    if Contains(name, m) {
      var i :| 0 <= i <= |name| - |m| && Occurs(name, m, i);
      var x, y := name[..i], name[i + |m|..];
      assert name == x + name[i..i + |m|] + y;
      assert x + m == x + suffix + "-";
    }
    if Marked(name, suffix) {
      var x, y :| name == x + suffix + "-" + y;
      assert name == x + m + y;
      assert name[|x|..|x| + |m|] == m;
      assert Occurs(name, m, |x|);
    }
  }

  /** `picks` are the places of the shown names in the listing. */
  ghost predicate Picks(names: seq<string>, shown: seq<string>, suffix: string, picks: seq<nat>) {
    && |picks| == |shown|
    && (forall k :: 0 <= k < |picks| ==> picks[k] < |names| && shown[k] == names[picks[k]])
    && (forall j, k :: 0 <= j < k < |picks| ==> picks[j] < picks[k])
    && (forall i: nat :: i < |names| ==> (i in picks <==> !Marked(names[i], suffix)))
  }

  lemma PicksHidden(names: seq<string>, shown: seq<string>, suffix: string, picks: seq<nat>, name: string)
    requires Picks(names, shown, suffix, picks) && Marked(name, suffix)
    ensures Picks(names + [name], shown, suffix, picks)
  {
  }

  lemma PicksShown(names: seq<string>, shown: seq<string>, suffix: string, picks: seq<nat>, name: string)
    requires Picks(names, shown, suffix, picks) && !Marked(name, suffix)
    ensures Picks(names + [name], shown + [name], suffix, picks + [|names|])
  {
    var all, more := names + [name], picks + [|names|];
    forall i: nat | i < |all|
      ensures i in more <==> !Marked(all[i], suffix)
    {
      if i < |names| {
        assert i in more <==> i in picks;
      } else {
        assert more[|picks|] == i;
      }
    }
  }

  /** A client is shown exactly the unmarked names, each as often as it is listed, in the order of the listing. */
  lemma {:induction false} ShownInOrder(names: seq<string>, suffix: string) returns (picks: seq<nat>)
    ensures Picks(names, Shown(names, Marker(suffix)), suffix, picks)
    decreases |names|
  {
    picks := [];
    if names != [] {
      var n := |names| - 1;
      var shown := Shown(names[..n], Marker(suffix));
      picks := ShownInOrder(names[..n], suffix);
      assert names == names[..n] + [names[n]];
      ContainsIsMarked(names[n], suffix);
      if Contains(names[n], Marker(suffix)) {
        PicksHidden(names[..n], shown, suffix, picks, names[n]);
      } else {
        PicksShown(names[..n], shown, suffix, picks, names[n]);
        picks := picks + [n];
      }
    }
  }

  /** Whatever a directory holds, no upload's temporary name is shown. */
  lemma TempsAreNeverListed(entries: seq<string>, finalPath: string, sessionId: string, suffix: string)
    requires IsCleanAbs(finalPath) && NoSlash(sessionId) && NoSlash(suffix)
    ensures Base(TempPath(finalPath, sessionId, suffix)) !in Shown(entries, Marker(suffix))
  {
    TempPathIsMarked(finalPath, sessionId, suffix);
  }
}
