/**
  The part of Go's `path` and `strings` packages that the gateway uses, on strings as
  sequences of characters.  `Clean` follows the documented rules of `path.Clean`: split at
  slashes, drop empty and "." elements, let ".." cancel the element before it, drop a ".."
  at a root.  Clean absolute paths are then characterised by their component lists.
 */
module GoPath {

  const SLASH := '/'

  // ---------------------------------------------------------------- strings

  /** strings.HasPrefix */
  predicate HasPrefix(s: string, prefix: string) {
    prefix <= s
  }

  /** strings.TrimPrefix */
  function TrimPrefix(s: string, prefix: string): string {
    if prefix <= s then s[|prefix|..] else s
  }

  /** strings.Contains */
  predicate Contains(s: string, sub: string) {
    exists i :: 0 <= i <= |s| - |sub| && Occurs(s, sub, i)
  }

  predicate Occurs(s: string, sub: string, i: int)
    requires 0 <= i <= |s| - |sub|
  {
    s[i..i + |sub|] == sub
  }

  /** path.IsAbs */
  predicate IsAbs(p: string) {
    |p| > 0 && p[0] == SLASH
  }

  // ---------------------------------------------------------------- splitting and joining

  /** The elements of `s` between slashes; there is always at least one. */
  function Split(s: string): (parts: seq<string>)
    ensures |parts| > 0
  {
    if s == "" then [""]
    else if s[0] == SLASH then [""] + Split(s[1..])
    else var rest := Split(s[1..]); [[s[0]] + rest[0]] + rest[1..]
  }

  function JoinSlash(parts: seq<string>): string {
    if |parts| == 0 then ""
    else if |parts| == 1 then parts[0]
    else parts[0] + "/" + JoinSlash(parts[1..])
  }

  predicate NoSlash(s: string) {
    SLASH !in s
  }

  lemma {:induction false} SplitAt(a: string, b: string)
    ensures Split(a + "/" + b) == Split(a) + Split(b)
  {
    if a == "" {
      assert (a + "/" + b)[1..] == b;
    } else {
      assert (a + "/" + b)[1..] == a[1..] + "/" + b;
      SplitAt(a[1..], b);
    }
  }

  lemma {:induction false} SplitPlain(s: string)
    requires NoSlash(s)
    ensures Split(s) == [s]
  {
    if s != "" {
      SplitPlain(s[1..]);
      assert s == [s[0]] + s[1..];
    }
  }

  lemma {:induction false} SplitHasNoSlash(s: string)
    ensures forall c :: c in Split(s) ==> NoSlash(c)
  {
    if s != "" {
      SplitHasNoSlash(s[1..]);
      var rest := Split(s[1..]);
      assert rest[0] in rest;
    }
  }

  lemma {:induction false} SplitJoin(parts: seq<string>)
    requires |parts| > 0
    requires forall c :: c in parts ==> NoSlash(c)
    ensures Split(JoinSlash(parts)) == parts
  {
    SplitPlain(parts[0]);
    if |parts| > 1 {
      SplitJoin(parts[1..]);
      SplitAt(parts[0], JoinSlash(parts[1..]));
      assert [parts[0]] + parts[1..] == parts;
    } else {
      assert parts == [parts[0]];
    }
  }

  lemma {:induction false} JoinAppend(a: seq<string>, b: seq<string>)
    requires |a| > 0 && |b| > 0
    ensures JoinSlash(a + b) == JoinSlash(a) + "/" + JoinSlash(b)
  {
    if |a| == 1 {
      assert (a + b)[1..] == b;
    } else {
      assert (a + b)[1..] == a[1..] + b;
      JoinAppend(a[1..], b);
    }
  }

  // ---------------------------------------------------------------- Clean

  /** One element seen by Clean: the stack of kept elements before and after. */
  function Push(stack: seq<string>, rooted: bool, c: string): seq<string> {
    if c == "" || c == "." then stack
    else if c != ".." then stack + [c]
    else if |stack| > 0 && stack[|stack| - 1] != ".." then stack[..|stack| - 1]
    else if rooted then stack
    else stack + [".."]
  }

  function Walk(stack: seq<string>, rooted: bool, parts: seq<string>): seq<string>
    decreases |parts|
  {
    if |parts| == 0 then stack else Walk(Push(stack, rooted, parts[0]), rooted, parts[1..])
  }

  /** path.Clean */
  function Clean(p: string): string {
    var body := JoinSlash(Walk([], IsAbs(p), Split(p)));
    if IsAbs(p) then "/" + body else if body == "" then "." else body
  }

  /** path.Join of two elements */
  function Join(a: string, b: string): string {
    if a == "" && b == "" then "" else if a == "" then Clean(b) else Clean(a + "/" + b)
  }

  // ---------------------------------------------------------------- component lists

  /** A name that can stand between two slashes of a clean path. */
  predicate ProperName(c: string) {
    c != "" && c != "." && c != ".." && NoSlash(c)
  }

  predicate Proper(cs: seq<string>) {
    forall c :: c in cs ==> ProperName(c)
  }

  /** The clean absolute path with components `cs`. */
  function Abs(cs: seq<string>): string {
    "/" + JoinSlash(cs)
  }

  /** The components that `p` denotes when read from the root. */
  function Comps(p: string): seq<string> {
    Walk([], true, Split(p))
  }

  /** A string that Clean leaves alone and that starts at the root. */
  predicate IsCleanAbs(p: string) {
    IsAbs(p) && Clean(p) == p
  }

  lemma {:induction false} WalkConcat(stack: seq<string>, rooted: bool, a: seq<string>, b: seq<string>)
    ensures Walk(stack, rooted, a + b) == Walk(Walk(stack, rooted, a), rooted, b)
    decreases |a|
  {
    if |a| == 0 {
      assert a + b == b;
    } else {
      assert (a + b)[1..] == a[1..] + b;
      WalkConcat(Push(stack, rooted, a[0]), rooted, a[1..], b);
    }
  }

  lemma {:induction false} WalkProperAppends(stack: seq<string>, cs: seq<string>)
    requires Proper(cs)
    ensures Walk(stack, true, cs) == stack + cs
    decreases |cs|
  {
    if |cs| > 0 {
      assert cs[0] in cs;
      WalkProperAppends(stack + [cs[0]], cs[1..]);
      assert stack + [cs[0]] + cs[1..] == stack + cs;
    }
  }

  lemma {:induction false} WalkStaysProper(stack: seq<string>, parts: seq<string>)
    requires Proper(stack)
    requires forall c :: c in parts ==> NoSlash(c)
    ensures Proper(Walk(stack, true, parts))
    decreases |parts|
  {
    if |parts| > 0 {
      assert parts[0] in parts;
      WalkStaysProper(Push(stack, true, parts[0]), parts[1..]);
    }
  }

  lemma CompsProper(p: string)
    ensures Proper(Comps(p))
  {
    SplitHasNoSlash(p);
    WalkStaysProper([], Split(p));
  }

  /** Splitting "/" + joined components gives them back, behind one empty element. */
  lemma SplitAbs(cs: seq<string>)
    requires Proper(cs)
    ensures Split(Abs(cs)) == [""] + (if cs == [] then [""] else cs)
  {
    assert Abs(cs)[1..] == JoinSlash(cs);
    if cs != [] {
      SplitJoin(cs);
    }
  }

  /** Reading a rendered component list gives the list back, so rendering is injective. */
  lemma CompsAbs(cs: seq<string>)
    requires Proper(cs)
    ensures Comps(Abs(cs)) == cs
  {
    SplitAbs(cs);
    if cs != [] {
      assert ([""] + cs)[1..] == cs;
      WalkProperAppends([], cs);
      assert [] + cs == cs;
    } else {
      WalkConcat([], true, [""], [""]);
      WalkOne([], "");
    }
  }

  lemma AbsInjective(a: seq<string>, b: seq<string>)
    requires Proper(a) && Proper(b) && Abs(a) == Abs(b)
    ensures a == b
  {
    CompsAbs(a);
    CompsAbs(b);
  }

  /** Clean of a rooted string is the rendering of its components. */
  lemma CleanRooted(p: string)
    ensures Clean("/" + p) == Abs(Comps("/" + p))
    ensures Comps("/" + p) == Comps(p)
  {
  }

  /** The clean absolute strings are exactly the rendered component lists. */
  lemma CleanAbsForm(p: string)
    ensures IsCleanAbs(p) <==> p == Abs(Comps(p))
    ensures IsAbs(p) ==> Clean(p) == Abs(Comps(p))
  {
  }

  lemma AbsIsClean(cs: seq<string>)
    requires Proper(cs)
    ensures IsCleanAbs(Abs(cs))
  {
    CompsAbs(cs);
    CleanAbsForm(Abs(cs));
  }

  /** An unrooted walk keeps only proper names and "..". */
  predicate Kept(stack: seq<string>) {
    forall c :: c in stack ==> c == ".." || ProperName(c)
  }

  /** Re-reading the elements an unrooted walk kept, now from a root, gives the rooted walk. */
  lemma {:induction false} RerootWalk(stack: seq<string>, parts: seq<string>)
    requires Kept(stack)
    requires forall c :: c in parts ==> NoSlash(c)
    ensures Kept(Walk(stack, false, parts))
    ensures Walk([], true, Walk(stack, false, parts)) == Walk(Walk([], true, stack), true, parts)
    decreases |parts|
  {
    if |parts| > 0 {
      var c := parts[0];
      assert c in parts;
      RerootPush(stack, c);
      RerootWalk(Push(stack, false, c), parts[1..]);
    }
  }

  lemma RerootPush(stack: seq<string>, c: string)
    requires Kept(stack) && NoSlash(c)
    ensures Kept(Push(stack, false, c))
    ensures Walk([], true, Push(stack, false, c)) == Push(Walk([], true, stack), true, c)
  {
    var n := |stack|;
    if c == "" || c == "." {
    } else if c == ".." && n > 0 && stack[n - 1] != ".." {
      assert stack[n - 1] in stack;
      assert stack == stack[..n - 1] + [stack[n - 1]];
      WalkConcat([], true, stack[..n - 1], [stack[n - 1]]);
      WalkOne(Walk([], true, stack[..n - 1]), stack[n - 1]);
    } else {
      WalkConcat([], true, stack, [c]);
      WalkOne(Walk([], true, stack), c);
    }
  }

  lemma WalkOne(stack: seq<string>, c: string)
    ensures Walk(stack, true, [c]) == Push(stack, true, c)
  {
  }

  /** Cleaning a string, rooted or not, does not change what it denotes from the root. */
  lemma CompsOfClean(p: string)
    ensures Comps(Clean(p)) == Comps(p)
  {
    if IsAbs(p) {
      CleanAbsForm(p);
      CompsProper(p);
      CompsAbs(Comps(p));
    } else {
      SplitHasNoSlash(p);
      RerootWalk([], Split(p));
      var kept := Walk([], false, Split(p));
      if kept == [] {
        SplitPlain(".");
        WalkOne([], ".");
      } else {
        assert kept[0] in kept;
        JoinNonEmpty(kept);
        SplitJoin(kept);
      }
    }
  }

  lemma JoinNonEmpty(parts: seq<string>)
    requires |parts| > 0 && parts[0] != ""
    ensures JoinSlash(parts) != "" && JoinSlash(parts)[0] == parts[0][0]
  {
  }

  /** Appending "/b" to a string continues its walk with the elements of b. */
  lemma CompsConcat(a: string, b: string)
    ensures Comps(a + "/" + b) == Walk(Comps(a), true, Split(b))
  {
    SplitAt(a, b);
    WalkConcat([], true, Split(a), Split(b));
  }

  lemma CompsJoin(a: string, b: string)
    requires a != ""
    ensures Comps(Join(a, b)) == Walk(Comps(a), true, Split(b))
  {
    CompsOfClean(a + "/" + b);
    CompsConcat(a, b);
  }

  /** The documented rules of Clean, on a path extended by one element: a name is kept, an empty element
      and "." are dropped, ".." cancels the name before it and nothing at the root. */
  lemma CleanRules(p: string, name: string)
    requires ProperName(name)
    ensures Comps(p + "/" + name) == Comps(p) + [name]
    ensures Comps(p + "/") == Comps(p) && Comps(p + "/" + ".") == Comps(p)
    ensures Comps(p + "/" + name + "/" + "..") == Comps(p)
    ensures Comps(p) == [] ==> Comps(p + "/" + "..") == []
  {
    CompsConcat(p, name);
    CompsConcat(p, "");
    assert p + "/" == p + "/" + "";
    CompsConcat(p, ".");
    CompsConcat(p, "..");
    CompsConcat(p + "/" + name, "..");
    SplitPlain(name);
    SplitPlain(".");
    SplitPlain("..");
    WalkOne(Comps(p), name);
    WalkOne(Comps(p), "");
    WalkOne(Comps(p), ".");
    WalkOne(Comps(p), "..");
    WalkOne(Comps(p) + [name], "..");
  }

  /** Walking along rendered components appends them. */
  lemma WalkAlong(stack: seq<string>, cs: seq<string>)
    requires Proper(cs)
    ensures Walk(stack, true, Split(JoinSlash(cs))) == stack + cs
  {
    if cs == [] {
      WalkOne(stack, "");
      assert stack + cs == stack;
    } else {
      SplitJoin(cs);
      WalkProperAppends(stack, cs);
    }
  }

  lemma AbsAppend(a: seq<string>, b: seq<string>)
    requires |b| > 0
    ensures Abs(a + b) == if a == [] then "/" + JoinSlash(b) else Abs(a) + "/" + JoinSlash(b)
  {
    if a == [] {
      assert a + b == b;
    } else {
      JoinAppend(a, b);
      Regroup(JoinSlash(a), JoinSlash(b));
    }
  }

  lemma Regroup(x: string, y: string)
    ensures "/" + (x + "/" + y) == ("/" + x) + "/" + y
  {
  }

  lemma NotRootIsLonger(cs: seq<string>)
    requires Proper(cs) && cs != []
    ensures |Abs(cs)| > 1 && Abs(cs)[1] != SLASH
  {
    assert cs[0] in cs;
    JoinNonEmpty(cs);
    assert cs[0][0] in cs[0];
  }

  // ---------------------------------------------------------------- Dir and Base

  /** One past the last occurrence of `c`, 0 when there is none. */
  function AfterLast(c: char, p: string): (i: nat)
    ensures i <= |p|
    ensures i > 0 ==> p[i - 1] == c
  {
    if p == "" then 0
    else if p[|p| - 1] == c then |p|
    else AfterLast(c, p[..|p| - 1])
  }

  function StripSlashes(p: string): string {
    if p != "" && p[|p| - 1] == SLASH then StripSlashes(p[..|p| - 1]) else p
  }

  /** path.Dir */
  function Dir(p: string): string {
    Clean(p[..AfterLast(SLASH, p)])
  }

  /** path.Base */
  function Base(p: string): string {
    if p == "" then "."
    else
      var stripped := StripSlashes(p);
      var name := stripped[AfterLast(SLASH, stripped)..];
      if name == "" then "/" else name
  }

  lemma {:induction false} AfterLastAt(c: char, front: string, name: string)
    requires c !in name
    ensures AfterLast(c, front + [c] + name) == |front| + 1
    decreases |name|
  {
    var p := front + [c] + name;
    if name == "" {
      assert p[|p| - 1] == c;
    } else {
      var last := name[|name| - 1];
      assert last in name;
      assert p[..|p| - 1] == front + [c] + name[..|name| - 1];
      AfterLastAt(c, front, name[..|name| - 1]);
    }
  }

  /** Dir and Base take a clean path apart at its last component. */
  lemma DirBase(front: seq<string>, name: string)
    requires Proper(front) && ProperName(name)
    ensures Dir(Abs(front + [name])) == Abs(front)
    ensures Base(Abs(front + [name])) == name
  {
    var head := if front == [] then "" else Abs(front);
    var p := Abs(front + [name]);
    AbsAppend(front, [name]);
    assert p == head + "/" + name;
    AfterLastAt(SLASH, head, name);
    assert p[..|head| + 1] == head + "/";
    assert p[|head| + 1..] == name;
    assert name[|name| - 1] in name;
    assert p[|p| - 1] == name[|name| - 1];
    assert head + "/" == head + "/" + "";
    CompsConcat(head, "");
    WalkOne(Comps(head), "");
    CompsAbs(front);
    assert Comps(head) == front by {
      if front == [] { WalkOne([], ""); }
    }
    CleanAbsForm(head + "/");
  }

  lemma DirBaseRoot()
    ensures Dir("/") == "/" && Base("/") == "/"
  {
    assert "/"[..1] == "/";
    CompsAbs([]);
    CleanAbsForm("/");
    assert "/"[..0] == "";
    assert StripSlashes("/") == StripSlashes("");
  }
}
