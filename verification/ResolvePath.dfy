/** Tolerant symlink resolution (internal/host/path.go): a component queue with
    a hop budget, proved against a recursive definition of realpath. */
module ResolvePath {
  import opened Text
  import opened Paths

  const MAX_SYMLINK_HOPS := 40

  /** The symlinks of a host: the text each link holds, by the place it is at. */
  type Links = map<Names, string>

  function Start(base: Names, target: string): Names {
    if IsAbs(target) then [] else base
  }

  predicate IsDots(c: string) {
    c == "" || c == "." || c == ".."
  }

  function HopsLeft(hops: nat): nat {
    if hops < MAX_SYMLINK_HOPS then MAX_SYMLINK_HOPS - hops else 0
  }

  // ---- Two definitions ---------------------------------------------------------------

  /** What the queue loop computes from one of its states: the resolved names
      and the number of links met. */
  function Chase(links: Links, resolved: Names, queue: Names, hops: nat): (Names, nat)
    decreases HopsLeft(hops), |queue|
  {
    if queue == [] then (resolved, hops)
    else if IsDots(queue[0]) then Chase(links, Walk(resolved, queue[0]), queue[1..], hops)
    else
      var next := resolved + [queue[0]];
      if next !in links then Chase(links, next, queue[1..], hops)
      else if hops + 1 > MAX_SYMLINK_HOPS then Chase(links, next, queue[1..], hops + 1)
      else Chase(links, Start(resolved, links[next]), Components(links[next]) + queue[1..], hops + 1)
  }

  /** Tolerant realpath by recursion: each component is resolved completely, its
      link target and all, before the next one is looked at. None when more
      links than the budget are met; otherwise the path and what is left. */
  function RealPath(links: Links, base: Names, cs: Names, budget: nat): (r: Option<(Names, nat)>)
    ensures r.Some? ==> r.value.1 <= budget
    decreases budget, |cs|
  {
    if cs == [] then Some((base, budget))
    else if IsDots(cs[0]) then RealPath(links, Walk(base, cs[0]), cs[1..], budget)
    else
      var next := base + [cs[0]];
      if next !in links then RealPath(links, next, cs[1..], budget)
      else if budget == 0 then None
      else match RealPath(links, Start(base, links[next]), Components(links[next]), budget - 1)
        case None => None
        case Some((target, left)) => RealPath(links, target, cs[1..], left)
  }

  /** The path that the walk starts from. */
  function Anchored(path: string, base: Option<string>): string {
    var named := if path == "" then "." else path;
    if !IsAbs(named) && base.Some? then base.value + "/" + named else named
  }

  method ResolvePathFrom(links: Links, path: string, base: Option<string>) returns (r: string)
    ensures r == Render(Chase(links, [], Components(Anchored(path, base)), 0).0)
  {
    var anchored := Anchored(path, base);
    var resolved: Names := [];
    var queue := SplitComponents(anchored);
    var hops := 0;
    while queue != []
      invariant Chase(links, resolved, queue, hops) == Chase(links, [], Components(anchored), 0)
      decreases HopsLeft(hops), |queue|
    {
      var comp := queue[0];
      queue := queue[1..];
      if comp == "" || comp == "." {
        continue;
      }
      if comp == ".." {
        resolved := Parent(resolved);
        continue;
      }
      var next := resolved + [comp];
      if next !in links {
        resolved := next;
        continue;
      }
      hops := hops + 1;
      if hops > MAX_SYMLINK_HOPS {
        resolved := next;
        continue;
      }
      var target := links[next];
      if IsAbs(target) {
        resolved := [];
      }
      var parts := SplitComponents(target);
      queue := parts + queue;
    }
    r := Render(resolved);
  }

  // ---- The loop refines the recursion -------------------------------------------------

  /** Within the budget the loop gets exactly where the recursion gets, and
      carries on from there with whatever else is queued. */
  lemma {:induction false} ChaseFollowsRealPath(links: Links, base: Names, cs: Names, rest: Names, budget: nat)
    requires budget <= MAX_SYMLINK_HOPS
    ensures var hops := MAX_SYMLINK_HOPS - budget;
            match RealPath(links, base, cs, budget)
            case Some((path, left)) =>
              Chase(links, base, cs + rest, hops) == Chase(links, path, rest, MAX_SYMLINK_HOPS - left)
            case None =>
              Chase(links, base, cs + rest, hops).1 > MAX_SYMLINK_HOPS
    decreases budget, |cs|
  {
    var hops := MAX_SYMLINK_HOPS - budget;
    if cs == [] {
      assert cs + rest == rest;
    } else {
      var tail := cs[1..] + rest;
      assert (cs + rest)[1..] == tail;
      if IsDots(cs[0]) {
        ChaseFollowsRealPath(links, Walk(base, cs[0]), cs[1..], rest, budget);
      } else {
        var next := base + [cs[0]];
        if next !in links {
          ChaseFollowsRealPath(links, next, cs[1..], rest, budget);
        } else if budget == 0 {
          HopsOnlyGrow(links, next, tail, hops + 1);
        } else {
          var start, target := Start(base, links[next]), Components(links[next]);
          ChaseFollowsRealPath(links, start, target, tail, budget - 1);
          match RealPath(links, start, target, budget - 1)
          case None =>
          case Some((path, left)) => ChaseFollowsRealPath(links, path, cs[1..], rest, left);
        }
      }
    }
  }

  lemma {:induction false} HopsOnlyGrow(links: Links, resolved: Names, queue: Names, hops: nat)
    ensures Chase(links, resolved, queue, hops).1 >= hops
    decreases HopsLeft(hops), |queue|
  {
    if queue != [] {
      if IsDots(queue[0]) {
        HopsOnlyGrow(links, Walk(resolved, queue[0]), queue[1..], hops);
      } else {
        var next := resolved + [queue[0]];
        if next !in links {
          HopsOnlyGrow(links, next, queue[1..], hops);
        } else if hops + 1 > MAX_SYMLINK_HOPS {
          HopsOnlyGrow(links, next, queue[1..], hops + 1);
        } else {
          HopsOnlyGrow(links, Start(resolved, links[next]), Components(links[next]) + queue[1..], hops + 1);
        }
      }
    }
  }

  /** A larger budget changes nothing but what is left of it. */
  lemma {:induction false} RealPathMonotone(links: Links, base: Names, cs: Names, budget: nat, more: nat)
    requires RealPath(links, base, cs, budget).Some?
    ensures var (path, left) := RealPath(links, base, cs, budget).value;
            RealPath(links, base, cs, budget + more) == Some((path, left + more))
    decreases budget, |cs|
  {
    if cs != [] {
      if IsDots(cs[0]) {
        RealPathMonotone(links, Walk(base, cs[0]), cs[1..], budget, more);
      } else {
        var next := base + [cs[0]];
        if next !in links {
          RealPathMonotone(links, next, cs[1..], budget, more);
        } else {
          var start, target := Start(base, links[next]), Components(links[next]);
          RealPathMonotone(links, start, target, budget - 1, more);
          var (path, left) := RealPath(links, start, target, budget - 1).value;
          RealPathMonotone(links, path, cs[1..], left, more);
        }
      }
    }
  }

  /** A budget that suffices also suffices when cut down to what was used. */
  lemma {:induction false} RealPathTight(links: Links, base: Names, cs: Names, budget: nat, spare: nat)
    requires RealPath(links, base, cs, budget).Some? && spare <= RealPath(links, base, cs, budget).value.1
    ensures var (path, left) := RealPath(links, base, cs, budget).value;
            RealPath(links, base, cs, budget - spare) == Some((path, left - spare))
    decreases budget, |cs|
  {
    if cs != [] {
      if IsDots(cs[0]) {
        RealPathTight(links, Walk(base, cs[0]), cs[1..], budget, spare);
      } else {
        var next := base + [cs[0]];
        if next !in links {
          RealPathTight(links, next, cs[1..], budget, spare);
        } else {
          var start, target := Start(base, links[next]), Components(links[next]);
          var (path, left) := RealPath(links, start, target, budget - 1).value;
          RealPathTight(links, path, cs[1..], left, spare);
          RealPathTight(links, start, target, budget - 1, spare);
        }
      }
    }
  }

  /** Whenever realpath meets at most 40 links, the loop returns realpath. */
  lemma {:induction false} ResolvesLikeRealPath(links: Links, path: string, base: Option<string>, budget: nat)
    requires RealPath(links, [], Components(Anchored(path, base)), budget).Some?
    requires budget - RealPath(links, [], Components(Anchored(path, base)), budget).value.1 <= MAX_SYMLINK_HOPS
    ensures Chase(links, [], Components(Anchored(path, base)), 0).0
         == RealPath(links, [], Components(Anchored(path, base)), budget).value.0
    ensures Chase(links, [], Components(Anchored(path, base)), 0).1 <= MAX_SYMLINK_HOPS
  {
    var cs := Components(Anchored(path, base));
    var left := RealPath(links, [], cs, budget).value.1;
    RealPathTight(links, [], cs, budget, left);
    RealPathMonotone(links, [], cs, budget - left, MAX_SYMLINK_HOPS - (budget - left));
    ChaseFollowsRealPath(links, [], cs, [], MAX_SYMLINK_HOPS);
    assert cs + [] == cs;
  }

  /** The loop meets at most 40 links exactly when the recursion gets by with a
      budget of 40: how the loop queues its work makes no difference. */
  lemma {:induction false} WithinBudgetIff(links: Links, path: string, base: Option<string>)
    ensures Chase(links, [], Components(Anchored(path, base)), 0).1 <= MAX_SYMLINK_HOPS <==>
            RealPath(links, [], Components(Anchored(path, base)), MAX_SYMLINK_HOPS).Some?
  {
    var cs := Components(Anchored(path, base));
    ChaseFollowsRealPath(links, [], cs, [], MAX_SYMLINK_HOPS);
    assert cs + [] == cs;
  }

  // ---- What comes out ------------------------------------------------------------------

  ghost predicate NoPrefixIsLink(links: Links, path: Names) {
    forall k :: 0 < k <= |path| ==> path[..k] !in links
  }

  lemma {:induction false} ChaseIsPlain(links: Links, resolved: Names, queue: Names, hops: nat)
    requires IsPlain(resolved) && AreNames(queue)
    ensures IsPlain(Chase(links, resolved, queue, hops).0)
    decreases HopsLeft(hops), |queue|
  {
    if queue != [] {
      if IsDots(queue[0]) {
        ChaseIsPlain(links, Walk(resolved, queue[0]), queue[1..], hops);
      } else {
        var next := resolved + [queue[0]];
        if next !in links {
          ChaseIsPlain(links, next, queue[1..], hops);
        } else if hops + 1 > MAX_SYMLINK_HOPS {
          ChaseIsPlain(links, next, queue[1..], hops + 1);
        } else {
          ChaseIsPlain(links, Start(resolved, links[next]), Components(links[next]) + queue[1..], hops + 1);
        }
      }
    }
  }

  /** Whatever the links, loops included, the result is a clean absolute path. */
  lemma {:induction false} ResultIsResolved(links: Links, path: string, base: Option<string>)
    ensures IsResolved(Render(Chase(links, [], Components(Anchored(path, base)), 0).0))
  {
    ChaseIsPlain(links, [], Components(Anchored(path, base)), 0);
  }

  lemma {:induction false} ClearStep(links: Links, base: Names, c: string)
    requires NoPrefixIsLink(links, base)
    ensures NoPrefixIsLink(links, Parent(base))
    ensures base + [c] !in links ==> NoPrefixIsLink(links, base + [c])
  {
    forall k | 0 < k < |base|
      ensures Parent(base)[..k] !in links
    {
      assert Parent(base)[..k] == base[..k];
    }
    forall k | 0 < k <= |base| + 1
      ensures base + [c] !in links ==> (base + [c])[..k] !in links
    {
      if k <= |base| {
        assert (base + [c])[..k] == base[..k];
      } else {
        assert (base + [c])[..k] == base + [c];
      }
    }
  }

  lemma {:induction false} RealPathIsClear(links: Links, base: Names, cs: Names, budget: nat)
    requires NoPrefixIsLink(links, base) && RealPath(links, base, cs, budget).Some?
    ensures NoPrefixIsLink(links, RealPath(links, base, cs, budget).value.0)
    decreases budget, |cs|
  {
    if cs != [] {
      ClearStep(links, base, cs[0]);
      if IsDots(cs[0]) {
        RealPathIsClear(links, Walk(base, cs[0]), cs[1..], budget);
      } else {
        var next := base + [cs[0]];
        if next !in links {
          RealPathIsClear(links, next, cs[1..], budget);
        } else {
          var start, target := Start(base, links[next]), Components(links[next]);
          RealPathIsClear(links, start, target, budget - 1);
          var (path, left) := RealPath(links, start, target, budget - 1).value;
          RealPathIsClear(links, path, cs[1..], left);
        }
      }
    }
  }

  /** A path with no link on it resolves to itself, whatever the hop count. */
  lemma {:induction false} ClearPathIsFixed(links: Links, path: Names, n: nat, hops: nat)
    requires IsPlain(path) && NoPrefixIsLink(links, path) && n <= |path|
    ensures Chase(links, path[..n], path[n..], hops) == (path, hops)
    decreases |path| - n
  {
    if n == |path| {
      assert path[..n] == path && path[n..] == [];
    } else {
      assert path[..n] + [path[n]] == path[..n + 1];
      ClearPathIsFixed(links, path, n + 1, hops);
    }
  }

  /** When realpath gets by with 40 links, no prefix of the result is a link, and
      resolving the result again gives it back. */
  lemma {:induction false} ResolvingIsIdempotent(
    links: Links, path: string, base: Option<string>, base': Option<string>)
    requires RealPath(links, [], Components(Anchored(path, base)), MAX_SYMLINK_HOPS).Some?
    ensures var r := Chase(links, [], Components(Anchored(path, base)), 0).0;
            && NoPrefixIsLink(links, r)
            && Chase(links, [], Components(Anchored(Render(r), base')), 0) == (r, 0)
  {
    var cs := Components(Anchored(path, base));
    assert cs + [] == cs;
    ChaseFollowsRealPath(links, [], cs, [], MAX_SYMLINK_HOPS);
    RealPathIsClear(links, [], cs, MAX_SYMLINK_HOPS);
    ChaseIsPlain(links, [], cs, 0);
    var r := Chase(links, [], cs, 0).0;
    SplitRender(r);
    assert r[..0] == [] && r[0..] == r;
    ClearPathIsFixed(links, r, 0, 0);
  }

  /** The directory of a resolved path is resolved too. */
  lemma {:induction false} DirectoryOfResolvedIsFixed(
    links: Links, path: string, base: Option<string>, base': Option<string>)
    requires RealPath(links, [], Components(Anchored(path, base)), MAX_SYMLINK_HOPS).Some?
    ensures var r := Render(Chase(links, [], Components(Anchored(path, base)), 0).0);
            Render(Chase(links, [], Components(Anchored(Dir(r), base')), 0).0) == Dir(r)
  {
    ResolvingIsIdempotent(links, path, base, base');
    ChaseIsPlain(links, [], Components(Anchored(path, base)), 0);
    var r := Chase(links, [], Components(Anchored(path, base)), 0).0;
    DirOfRender(r);
    ClearStep(links, r, "");
    var d := Parent(r);
    SplitRender(d);
    assert d[..0] == [] && d[0..] == d;
    ClearPathIsFixed(links, d, 0, 0);
  }

  // ---- What a link means ------------------------------------------------------------------

  lemma {:induction false} RealPathConcat(links: Links, base: Names, a: Names, b: Names, budget: nat)
    ensures RealPath(links, base, a + b, budget) ==
              match RealPath(links, base, a, budget)
              case None => None
              case Some((path, left)) => RealPath(links, path, b, left)
    decreases budget, |a|
  {
    if a == [] {
      assert a + b == b;
    } else {
      assert (a + b)[1..] == a[1..] + b;
      if IsDots(a[0]) {
        RealPathConcat(links, Walk(base, a[0]), a[1..], b, budget);
      } else {
        var next := base + [a[0]];
        if next !in links {
          RealPathConcat(links, next, a[1..], b, budget);
        } else if budget > 0 {
          match RealPath(links, Start(base, links[next]), Components(links[next]), budget - 1)
          case None =>
          case Some((path, left)) => RealPathConcat(links, path, a[1..], b, left);
        }
      }
    }
  }

  /** A path with no link on it is walked to its end. */
  lemma {:induction false} ClearIsWalked(links: Links, path: Names, n: nat, budget: nat)
    requires IsPlain(path) && NoPrefixIsLink(links, path) && n <= |path|
    ensures RealPath(links, path[..n], path[n..], budget) == Some((path, budget))
    decreases |path| - n
  {
    if n == |path| {
      assert path[..n] == path && path[n..] == [];
    } else {
      assert path[..n] + [path[n]] == path[..n + 1];
      ClearIsWalked(links, path, n + 1, budget);
    }
  }

  lemma {:induction false} FromRoot(links: Links, path: Names, rest: Names, budget: nat)
    requires IsPlain(path) && NoPrefixIsLink(links, path)
    ensures RealPath(links, [], path + rest, budget) == RealPath(links, path, rest, budget)
  {
    assert path[..0] == [] && path[0..] == path;
    ClearIsWalked(links, path, 0, budget);
    RealPathConcat(links, [], path, rest, budget);
  }

  /** The text of a path in which the link's own path is replaced by what the
      link says: by itself where that is absolute, from the link's directory
      where it is relative. */
  function Substituted(dir: Names, target: string, rest: string): string {
    (if "/" <= target then target else Render(dir) + "/" + target) + "/" + rest
  }

  lemma {:induction false} SubstitutedComponents(dir: Names, target: string, rest: string)
    requires IsPlain(dir)
    ensures Components(Substituted(dir, target, rest))
         == (if "/" <= target then [] else dir) + Components(target) + Components(rest)
  {
    SplitRender(dir);
    if "/" <= target {
      ComponentsConcat(target, rest);
      assert [] + Components(target) == Components(target);
    } else {
      ComponentsConcat(Render(dir), target);
      ComponentsConcat(Render(dir) + "/" + target, rest);
    }
  }

  /** Going through a link is going where the substituted text goes, one link
      less. */
  lemma {:induction false} LinkIsSubstitution(links: Links, dir: Names, name: string, rest: string, budget: nat)
    requires IsPlain(dir) && IsPlain([name]) && NoPrefixIsLink(links, dir) && dir + [name] in links
    ensures RealPath(links, [], Components(Render(dir + [name]) + "/" + rest), budget + 1)
         == RealPath(links, [], Components(Substituted(dir, links[dir + [name]], rest)), budget)
  {
    var next, target := dir + [name], links[dir + [name]];
    var t, r, start := Components(target), Components(rest), if "/" <= target then [] else dir;
    assert IsName([name][0]) && [name][0] == name;
    assert !IsDots(name) by { assert [name][0] in [name]; }
    SplitRender(next);
    ComponentsConcat(Render(next), rest);
    SubstitutedComponents(dir, target, rest);
    Reassociate(dir, [name], r);
    Reassociate(start, t, r);
    FromRoot(links, dir, [name] + r, budget + 1);
    assert ([name] + r)[1..] == r;
    assert NoPrefixIsLink(links, []);
    FromRoot(links, start, t + r, budget);
    RealPathConcat(links, start, t, r, budget);
  }

  /** So the loop resolves a path through a link, whether the link is absolute
      or relative, to what it resolves the substituted text to. */
  lemma {:induction false} ResolvesThroughLinks(links: Links, dir: Names, name: string, rest: string)
    requires IsPlain(dir) && IsPlain([name]) && NoPrefixIsLink(links, dir) && dir + [name] in links
    requires RealPath(links, [], Components(Render(dir + [name]) + "/" + rest), MAX_SYMLINK_HOPS).Some?
    ensures Chase(links, [], Components(Render(dir + [name]) + "/" + rest), 0).0
         == Chase(links, [], Components(Substituted(dir, links[dir + [name]], rest)), 0).0
  {
    var through := Components(Render(dir + [name]) + "/" + rest);
    var direct := Components(Substituted(dir, links[dir + [name]], rest));
    LinkIsSubstitution(links, dir, name, rest, MAX_SYMLINK_HOPS - 1);
    RealPathMonotone(links, [], direct, MAX_SYMLINK_HOPS - 1, 1);
    ChaseFollowsRealPath(links, [], through, [], MAX_SYMLINK_HOPS);
    ChaseFollowsRealPath(links, [], direct, [], MAX_SYMLINK_HOPS);
    assert through + [] == through && direct + [] == direct;
  }

  /** And where there are no links at all, resolving is cleaning. */
  lemma {:induction false} NoLinksIsClean(path: string)
    ensures Render(Chase(map[], [], Components(path), 0).0) == Clean(path)
  {
    ChaseNormalizes([], Components(path), 0);
    assert [] + Components(path) == Components(path);
  }

  lemma {:induction false} ChaseNormalizes(done: Names, queue: Names, hops: nat)
    requires AreNames(queue)
    ensures Chase(map[], Normalize(done), queue, hops) == (Normalize(done + queue), hops)
    decreases |queue|
  {
    if queue == [] {
      assert done + queue == done;
    } else {
      NormalizeOneMore(done, queue[0]);
      assert done + [queue[0]] + queue[1..] == done + queue;
      ChaseNormalizes(done + [queue[0]], queue[1..], hops);
    }
  }

  /** Beyond 40 links the result can be a link: a link to itself. */
  lemma {:induction false} LoopIsLeftUnresolved(hops: nat)
    requires hops <= MAX_SYMLINK_HOPS
    ensures Chase(map[["a"] := "a"], [], ["a"], hops) == (["a"], MAX_SYMLINK_HOPS + 1)
    decreases MAX_SYMLINK_HOPS - hops
  {
    var links: Links := map[["a"] := "a"];
    assert [] + ["a"] == ["a"] && ["a"][1..] == [];
    SplitWhole("a", '/');
    PresentNames(["a"]);
    assert ["a"] + [] == ["a"];
    if hops < MAX_SYMLINK_HOPS {
      LoopIsLeftUnresolved(hops + 1);
    } else {
      assert Chase(links, ["a"], [], hops + 1) == (["a"], hops + 1);
    }
  }

  /** A path given relative to a base is resolved from where the base resolves
      to, so ".." in it means the parent of that place. */
  lemma {:induction false} RelativeToResolvedBase(links: Links, path: string, dir: string)
    requires path != "" && !IsAbs(path)
    requires RealPath(links, [], Components(dir), MAX_SYMLINK_HOPS).Some?
    ensures var (base, left) := RealPath(links, [], Components(dir), MAX_SYMLINK_HOPS).value;
            Chase(links, base, Components(path), MAX_SYMLINK_HOPS - left) ==
            Chase(links, [], Components(Anchored(path, Some(dir))), 0)
  {
    ComponentsConcat(dir, path);
    ChaseFollowsRealPath(links, [], Components(dir), Components(path), MAX_SYMLINK_HOPS);
  }
}
