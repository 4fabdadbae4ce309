/** Absolute host paths as the launcher handles them: as text for the ancestor
    test, and as lists of names for everything that walks them. */
module Paths {
  import opened Text

  type Names = seq<string>

  predicate IsAbs(path: string) {
    "/" <= path
  }

  /** A path component that names an entry. */
  predicate IsName(c: string) {
    c != "" && '/' !in c
  }

  predicate AreNames(cs: Names) {
    forall i :: 0 <= i < |cs| ==> IsName(cs[i])
  }

  /** Components with no "." and no ".." among them. */
  predicate IsPlain(cs: Names) {
    AreNames(cs) && "." !in cs && ".." !in cs
  }

  function Present(parts: seq<string>): (cs: Names)
    ensures (forall i :: 0 <= i < |parts| ==> '/' !in parts[i]) ==> AreNames(cs)
  {
    if parts == [] then []
    else
      var rest := Present(parts[1..]);
      if parts[0] == "" then rest else [parts[0]] + rest
  }

  /** splitComponents of internal/host/path.go. */
  method SplitComponents(path: string) returns (out: Names)
    ensures out == Components(path)
  {
    var parts := Split(path, '/');
    out := [];
    for i := 0 to |parts|
      invariant out + Present(parts[i..]) == Present(parts)
    {
      assert parts[i..][1..] == parts[i + 1..];
      if parts[i] != "" {
        out := out + [parts[i]];
      }
    }
    assert parts[|parts|..] == [];
  }

  function Components(path: string): (cs: Names)
    ensures AreNames(cs)
  {
    SplitFree(path, '/');
    Present(Split(path, '/'))
  }

  function Render(cs: Names): string {
    "/" + Join(cs, "/")
  }

  function Parent(cs: Names): Names {
    if cs == [] then [] else cs[..|cs| - 1]
  }

  /** One more component walked lexically. */
  function Walk(cs: Names, c: string): Names {
    if c == "" || c == "." then cs
    else if c == ".." then Parent(cs)
    else cs + [c]
  }

  function Normalize(cs: Names): Names {
    if cs == [] then [] else Walk(Normalize(cs[..|cs| - 1]), cs[|cs| - 1])
  }

  /** filepath.Clean of an absolute path. */
  function Clean(path: string): string {
    Render(Normalize(Components(path)))
  }

  /** The components of the cleaned path. */
  function CleanNames(path: string): Names {
    Normalize(Components(path))
  }

  /** filepath.Join of an absolute path and one more element: a slash between
      them, and cleaned. */
  function Joined(dir: string, name: string): string {
    Clean(dir + "/" + name)
  }

  /** filepath.Dir of an absolute path: what precedes the last slash, cleaned. */
  function Dir(path: string): string {
    var parts := Split(path, '/');
    Render(Normalize(Present(parts[..|parts| - 1])))
  }

  /** The clean absolute paths: what path resolution produces. */
  ghost predicate IsResolved(path: string) {
    exists cs :: IsPlain(cs) && path == Render(cs)
  }

  lemma {:induction false} PresentNames(cs: Names)
    requires AreNames(cs)
    ensures Present(cs) == cs
  {
    if cs != [] {
      PresentNames(cs[1..]);
    }
  }

  lemma {:induction false} SplitRender(cs: Names)
    requires AreNames(cs)
    ensures Split(Render(cs), '/') == [""] + if cs == [] then [""] else cs
    ensures Components(Render(cs)) == cs
  {
    SplitAt("", '/', Join(cs, "/"));
    assert "" + ['/'] + Join(cs, "/") == Render(cs);
    assert Present([""] + cs) == Present(cs) by { assert ([""] + cs)[1..] == cs; }
    if cs != [] {
      SplitJoin(cs, '/');
      PresentNames(cs);
    } else {
      assert ([""] + [""])[1..] == [""] && Present([""]) == [];
    }
  }

  lemma {:induction false} NormalizePlain(cs: Names)
    requires IsPlain(cs)
    ensures Normalize(cs) == cs
  {
    if cs != [] {
      NormalizePlain(cs[..|cs| - 1]);
      assert cs == cs[..|cs| - 1] + [cs[|cs| - 1]];
    }
  }

  lemma {:induction false} NormalizeIsPlain(cs: Names)
    requires AreNames(cs)
    ensures IsPlain(Normalize(cs))
  {
    if cs != [] {
      NormalizeIsPlain(cs[..|cs| - 1]);
    }
  }

  lemma {:induction false} CleanOfRender(cs: Names)
    requires IsPlain(cs)
    ensures Clean(Render(cs)) == Render(cs)
  {
    SplitRender(cs);
    NormalizePlain(cs);
  }

  lemma {:induction false} DirOfRender(cs: Names)
    requires IsPlain(cs)
    ensures Dir(Render(cs)) == Render(Parent(cs))
  {
    SplitRender(cs);
    var parts := Split(Render(cs), '/');
    var before := parts[..|parts| - 1];
    assert before == [""] + Parent(cs);
    assert before[1..] == Parent(cs);
    PresentNames(Parent(cs));
    NormalizePlain(Parent(cs));
  }

  lemma {:induction false} RenderInjective(a: Names, b: Names)
    requires AreNames(a) && AreNames(b) && Render(a) == Render(b)
    ensures a == b
  {
    SplitRender(a);
    SplitRender(b);
  }

  lemma {:induction false} SplitConcat(a: string, sep: char, b: string)
    ensures Split(a + [sep] + b, sep) == Split(a, sep) + Split(b, sep)
    decreases |a|
  {
    if sep in a {
      var i := FirstIndex(a, sep);
      var first, rest := a[..i], a[i + 1..];
      assert a == first + [sep] + rest && a + [sep] + b == first + [sep] + (rest + [sep] + b);
      SplitAt(first, sep, rest);
      SplitAt(first, sep, rest + [sep] + b);
      SplitConcat(rest, sep, b);
    } else {
      SplitWhole(a, sep);
      SplitAt(a, sep, b);
    }
  }

  lemma {:induction false} PresentConcat(a: seq<string>, b: seq<string>)
    ensures Present(a + b) == Present(a) + Present(b)
  {
    if a == [] {
      assert a + b == b;
    } else {
      assert (a + b)[0] == a[0] && (a + b)[1..] == a[1..] + b;
      PresentConcat(a[1..], b);
      if a[0] != "" {
        Reassociate([a[0]], Present(a[1..]), Present(b));
      }
    }
  }

  lemma {:induction false} ComponentsConcat(a: string, b: string)
    ensures Components(a + "/" + b) == Components(a) + Components(b)
  {
    SplitConcat(a, '/', b);
    PresentConcat(Split(a, '/'), Split(b, '/'));
  }

  /** Joining a proper name puts it below the cleaned directory. */
  lemma {:induction false} JoinedIs(dir: string, name: string)
    requires IsPlain([name])
    ensures IsPlain(CleanNames(dir) + [name])
    ensures Joined(dir, name) == Render(CleanNames(dir) + [name])
    ensures CleanNames(Joined(dir, name)) == CleanNames(dir) + [name]
  {
    var cs := Components(dir);
    assert IsName([name][0]) && [name][0] == name;
    assert name !in {".", ".."} by { assert [name][0] in [name]; }
    ComponentsConcat(dir, name);
    SplitWhole(name, '/');
    PresentNames([name]);
    assert (cs + [name])[..|cs|] == cs;
    NormalizeIsPlain(cs);
    SplitRender(CleanNames(dir) + [name]);
    NormalizePlain(CleanNames(dir) + [name]);
  }

  lemma {:induction false} NormalizeOneMore(cs: Names, c: string)
    ensures Normalize(cs + [c]) == Walk(Normalize(cs), c)
  {
    assert (cs + [c])[..|cs|] == cs;
  }

  lemma {:induction false} ComponentsOfOne(c: string)
    requires '/' !in c
    ensures Components(c) == if c == "" then [] else [c]
  {
    SplitWhole(c, '/');
    assert [c][1..] == [] && Present([c]) == if c == "" then [] else [c];
  }

  lemma {:induction false} CleanOneMore(dir: string, c: string)
    requires '/' !in c
    ensures Clean(dir + "/" + c) == Render(Walk(CleanNames(dir), c))
  {
    ComponentsOfOne(c);
    ComponentsConcat(dir, c);
    if c == "" {
      assert Components(dir) + [] == Components(dir);
    } else {
      NormalizeOneMore(Components(dir), c);
    }
  }

  /** What the special components of a path mean: "." and empty ones nothing, */
  lemma {:induction false} DotMeansNothing(dir: string)
    ensures Clean(dir + "/.") == Clean(dir)
    ensures Clean(dir + "/") == Clean(dir)
  {
    CleanOneMore(dir, ".");
    CleanOneMore(dir, "");
    assert dir + "/" + "." == dir + "/." && dir + "/" + "" == dir + "/";
  }

  /** and ".." the directory above, so that it undoes a proper name before it; */
  lemma {:induction false} ParentUndoesName(dir: string, name: string)
    requires IsPlain([name])
    ensures Clean(Joined(dir, name) + "/" + "..") == Clean(dir)
    ensures Clean(dir + "/" + name + "/" + "..") == Clean(dir)
  {
    var below := dir + "/" + name;
    JoinedIs(dir, name);
    assert Joined(dir, name) == Clean(below);
    CleanOneMore(Joined(dir, name), "..");
    CleanOneMore(below, "..");
    assert IsName([name][0]) && [name][0] == name;
    CleanNamesOf(below, CleanNames(dir) + [name]);
    assert Parent(CleanNames(dir) + [name]) == CleanNames(dir);
  }

  lemma {:induction false} CleanNamesOf(path: string, cs: Names)
    requires Clean(path) == Render(cs) && AreNames(cs)
    ensures CleanNames(path) == cs
  {
    NormalizeIsPlain(Components(path));
    RenderInjective(CleanNames(path), cs);
  }

  /** above the root there is only the root. */
  lemma {:induction false} RootIsItsOwnParent()
    ensures Clean("/..") == Clean("/") == "/"
  {
    ComponentsOfOne("");
    CleanOneMore("", "..");
    CleanOneMore("", "");
    assert "" + "/" + "" == "/" && "" + "/" + ".." == "/..";
    assert CleanNames("") == [];
  }

  // ---- The ancestor test -----------------------------------------------------------

  /** PathIsAtOrUnder of internal/host/worktree.go. */
  predicate PathIsAtOrUnder(path: string, parent: string) {
    var p, q := TrimSuffix(path, '/'), TrimSuffix(parent, '/');
    p == q || q + "/" <= p
  }

  function Mark(path: string): string {
    TrimSuffix(path, '/') + "/"
  }

  /** The text test is one prefix test, so it orders paths like a tree. */
  lemma {:induction false} AtOrUnderIsPrefix(path: string, parent: string)
    ensures PathIsAtOrUnder(path, parent) <==> Mark(parent) <= Mark(path)
  {
    var p, q := TrimSuffix(path, '/'), TrimSuffix(parent, '/');
    assert q == Mark(parent)[..|q|] && p == Mark(path)[..|p|];
    if q + "/" <= p {
      assert q + "/" == p[..|q| + 1] == Mark(path)[..|q| + 1];
    } else if Mark(parent) <= Mark(path) {
      assert q + "/" == Mark(path)[..|q| + 1];
    }
  }

  lemma {:induction false} AtOrUnderTransitive(a: string, b: string, c: string)
    requires PathIsAtOrUnder(a, b) && PathIsAtOrUnder(b, c)
    ensures PathIsAtOrUnder(a, c)
  {
    AtOrUnderIsPrefix(a, b);
    AtOrUnderIsPrefix(b, c);
    AtOrUnderIsPrefix(a, c);
  }

  /** Two paths above a third are above one another. */
  lemma {:induction false} AncestorsCompare(path: string, a: string, b: string)
    requires PathIsAtOrUnder(path, a) && PathIsAtOrUnder(path, b)
    ensures PathIsAtOrUnder(a, b) || PathIsAtOrUnder(b, a)
  {
    AtOrUnderIsPrefix(path, a);
    AtOrUnderIsPrefix(path, b);
    AtOrUnderIsPrefix(a, b);
    AtOrUnderIsPrefix(b, a);
  }

  function Slashed(cs: Names): string {
    if cs == [] then "/" else "/" + cs[0] + Slashed(cs[1..])
  }

  lemma {:induction false} MarkRender(cs: Names)
    requires AreNames(cs)
    ensures Mark(Render(cs)) == Slashed(cs)
  {
    if |cs| == 1 {
      assert Slashed(cs[1..]) == "/";
    } else if |cs| > 1 {
      MarkRender(cs[1..]);
      var rest := Render(cs[1..]);
      assert Render(cs) == "/" + cs[0] + rest;
      assert Render(cs)[..|Render(cs)| - 1] == "/" + cs[0] + rest[..|rest| - 1];
    }
  }

  lemma {:induction false} SlashedPrefix(a: Names, b: Names)
    requires AreNames(a) && AreNames(b)
    ensures Slashed(a) <= Slashed(b) <==> a <= b
  {
    if a == [] {
      assert Slashed(b)[0] == '/';
    } else if b != [] {
      SlashedPrefix(a[1..], b[1..]);
      var x, y := Slashed(a), Slashed(b);
      assert Slashed(a[1..])[0] == '/' && Slashed(b[1..])[0] == '/';
      if x <= y {
        FirstName(a[0], Slashed(a[1..]), b[0], Slashed(b[1..]));
      }
      assert a[0] == b[0] && a[1..] <= b[1..] ==> a == [a[0]] + a[1..] && b == [b[0]] + b[1..];
    }
  }

  lemma {:induction false} FirstName(c: string, x: string, d: string, y: string)
    requires '/' !in c && '/' !in d && "/" <= x && "/" <= y
    requires "/" + c + x <= "/" + d + y
    ensures c == d && x <= y
  {
    var s, t := "/" + c + x, "/" + d + y;
    assert s[|c| + 1] == t[|c| + 1] == '/' == t[|d| + 1];
    assert c == s[1..|c| + 1] == t[1..|d| + 1] == d;
    assert s[|c| + 1..] == x && t[|d| + 1..] == y;
  }

  lemma {:induction false} RenderedAtOrUnder(a: Names, b: Names)
    requires AreNames(a) && AreNames(b)
    ensures PathIsAtOrUnder(Render(a), Render(b)) <==> b <= a
  {
    AtOrUnderIsPrefix(Render(a), Render(b));
    MarkRender(a);
    MarkRender(b);
    SlashedPrefix(b, a);
  }
}
