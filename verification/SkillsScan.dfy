/** The symlink scan behind --share-skills (cmd/claude-contained/probe.go): a
    depth-first walk over a link graph that may be cyclic. */
module SkillsScan {
  import opened Text
  import opened Mounts
  import opened SharedSkills

  /** What a symlink resolves to. */
  datatype Target = Gone(path: string) | ToDir(path: string) | ToFile(path: string, parentDir: string)

  datatype Found = Found(path: string, target: Target)

  /** The host's directories by resolved path, each with the symlinks at or
      under it in the order the scan meets them. */
  type Dirs = map<string, seq<Found>>

  function AsLink(f: Found): Link {
    match f.target
    case Gone(p) => Link(f.path, p, true, false, "")
    case ToDir(p) => Link(f.path, p, false, true, "")
    case ToFile(p, parent) => Link(f.path, p, false, false, parent)
  }

  function Unscanned(dirs: Dirs, scanned: seq<string>): set<string> {
    dirs.Keys - set d | d in scanned
  }

  ghost predicate Distinct(scanned: seq<string>) {
    forall i, j :: 0 <= i < j < |scanned| ==> scanned[i] != scanned[j]
  }

  // ---- The walk ---------------------------------------------------------------------

  /** The links that one call reports, and the directories scanned by then, in
      order. */
  function Scan(dirs: Dirs, dir: string, scanned: seq<string>): (r: (seq<Link>, seq<string>))
    ensures scanned <= r.1
    decreases Unscanned(dirs, scanned), 0
  {
    if dir !in dirs || dir in scanned then ([], scanned)
    else
      assert dir in Unscanned(dirs, scanned) && dir !in Unscanned(dirs, scanned + [dir]);
      ScanFound(dirs, dirs[dir], scanned + [dir])
  }

  function ScanFound(dirs: Dirs, found: seq<Found>, scanned: seq<string>): (r: (seq<Link>, seq<string>))
    ensures scanned <= r.1
    decreases Unscanned(dirs, scanned), |found| + 1
  {
    if found == [] then ([], scanned)
    else if found[0].target.Gone? then ([AsLink(found[0])], scanned)
    else if found[0].target.ToFile? then
      var (rest, after) := ScanFound(dirs, found[1..], scanned);
      ([AsLink(found[0])] + rest, after)
    else
      var (below, mid) := Scan(dirs, found[0].target.path, scanned);
      assert Unscanned(dirs, mid) <= Unscanned(dirs, scanned);
      var (rest, after) := ScanFound(dirs, found[1..], mid);
      ([AsLink(found[0])] + below + rest, after)
  }

  class Scanner {
    const dirs: Dirs
    var seen: set<string>
    ghost var scanned: seq<string>

    constructor (dirs: Dirs)
      ensures this.dirs == dirs && seen == {} && scanned == []
    {
      this.dirs, seen, scanned := dirs, {}, [];
    }

    ghost predicate Valid()
      reads this
    {
      seen == set d | d in scanned
    }

    method ScanSkillSymlinkTree(dir: string) returns (out: seq<Link>)
      requires Valid()
      modifies this
      ensures Valid()
      ensures (out, scanned) == Scan(dirs, dir, old(scanned))
      decreases Unscanned(dirs, scanned)
    {
      if dir !in dirs || dir in seen {
        return [];
      }
      seen := seen + {dir};
      scanned := scanned + [dir];
      ghost var start := scanned;
      assert dir in Unscanned(dirs, old(scanned)) && dir !in Unscanned(dirs, start);
      var found := dirs[dir];
      out := [];
      assert found[0..] == found;
      for i := 0 to |found|
        invariant Valid() && start <= scanned
        invariant Resumes(ScanFound(dirs, found, start), out, ScanFound(dirs, found[i..], scanned))
      {
        ghost var before, sofar := scanned, out;
        var link := AsLink(found[i]);
        out := out + [link];
        if link.missing {
          EndsAtMissing(dirs, found, i, ScanFound(dirs, found, start), sofar, before);
          return;
        }
        ghost var under: seq<Link> := [];
        if link.isDir {
          ShrinksUnscanned(dirs, start, scanned);
          var below := ScanSkillSymlinkTree(link.resolved);
          out, under := out + below, below;
        }
        GoesOn(dirs, found, i, ScanFound(dirs, found, start), sofar, before, under, scanned);
      }
      assert found[|found|..] == [] && out + [] == out;
    }
  }

  lemma {:induction false} ShrinksUnscanned(dirs: Dirs, before: seq<string>, after: seq<string>)
    requires before <= after
    ensures Unscanned(dirs, after) <= Unscanned(dirs, before)
  {
  }

  /** Having reported `out`, what remains completes the whole. */
  ghost predicate Resumes(whole: (seq<Link>, seq<string>), out: seq<Link>, rest: (seq<Link>, seq<string>)) {
    whole.0 == out + rest.0 && whole.1 == rest.1
  }

  /** The walk of one directory ends at a missing target, */
  lemma {:induction false} EndsAtMissing(
    dirs: Dirs, found: seq<Found>, i: nat, whole: (seq<Link>, seq<string>), out: seq<Link>, scanned: seq<string>)
    requires i < |found| && found[i].target.Gone?
    requires Resumes(whole, out, ScanFound(dirs, found[i..], scanned))
    ensures whole == (out + [AsLink(found[i])], scanned)
  {
  }

  /** and goes on after anything else, with what is below it reported. */
  lemma {:induction false} GoesOn(
    dirs: Dirs, found: seq<Found>, i: nat, whole: (seq<Link>, seq<string>), out: seq<Link>, scanned: seq<string>,
    below: seq<Link>, after: seq<string>)
    requires i < |found| && !found[i].target.Gone?
    requires Resumes(whole, out, ScanFound(dirs, found[i..], scanned))
    requires (below, after)
          == if found[i].target.ToDir? then Scan(dirs, found[i].target.path, scanned) else ([], scanned)
    ensures Resumes(whole, out + [AsLink(found[i])] + below, ScanFound(dirs, found[i + 1..], after))
  {
    var link, rest := [AsLink(found[i])], ScanFound(dirs, found[i + 1..], after).0;
    assert found[i..][1..] == found[i + 1..];
    Reassociate(out, link + below, rest);
    Reassociate(out, link, below);
    assert link + [] == link && out + link + [] == out + link;
  }

  /** scanSharedSkills: Codex's system skills first, if there are any, and then
      the shared directory unless something was missing. */
  function ScanBoth(dirs: Dirs, systemDir: Option<string>, dir: string): seq<Link> {
    if systemDir.None? then Scan(dirs, dir, []).0
    else
      var (links, scanned) := Scan(dirs, systemDir.value, []);
      if AnyMissing(links) then links else links + Scan(dirs, dir, scanned).0
  }

  method ScanSharedSkills(dirs: Dirs, systemDir: Option<string>, dir: string) returns (links: seq<Link>)
    ensures links == ScanBoth(dirs, systemDir, dir)
  {
    var scanner := new Scanner(dirs);
    links := [];
    if systemDir.Some? {
      links := scanner.ScanSkillSymlinkTree(systemDir.value);
      if AnyMissing(links) {
        return;
      }
    }
    var more := scanner.ScanSkillSymlinkTree(dir);
    links := links + more;
  }

  // ---- Each directory once, and all of them -----------------------------------------------

  lemma {:induction false} ScansOnce(dirs: Dirs, dir: string, scanned: seq<string>)
    requires Distinct(scanned)
    ensures Distinct(Scan(dirs, dir, scanned).1)
    decreases Unscanned(dirs, scanned), 0
  {
    if dir in dirs && dir !in scanned {
      assert dir in Unscanned(dirs, scanned) && dir !in Unscanned(dirs, scanned + [dir]);
      FoundScansOnce(dirs, dirs[dir], scanned + [dir]);
    }
  }

  lemma {:induction false} FoundScansOnce(dirs: Dirs, found: seq<Found>, scanned: seq<string>)
    requires Distinct(scanned)
    ensures Distinct(ScanFound(dirs, found, scanned).1)
    decreases Unscanned(dirs, scanned), |found| + 1
  {
    if found != [] && !found[0].target.Gone? {
      if found[0].target.ToFile? {
        FoundScansOnce(dirs, found[1..], scanned);
      } else {
        ScansOnce(dirs, found[0].target.path, scanned);
        var mid := Scan(dirs, found[0].target.path, scanned).1;
        assert Unscanned(dirs, mid) <= Unscanned(dirs, scanned);
        FoundScansOnce(dirs, found[1..], mid);
      }
    }
  }

  /** Every link of the directory is reported and every directory it leads to
      is scanned. */
  ghost predicate Exhausted(dirs: Dirs, found: seq<Found>, links: seq<Link>, scanned: seq<string>) {
    forall i :: 0 <= i < |found| ==>
      && AsLink(found[i]) in links
      && (found[i].target.ToDir? && found[i].target.path in dirs ==> found[i].target.path in scanned)
  }

  ghost predicate AllExhausted(dirs: Dirs, links: seq<Link>, before: seq<string>, after: seq<string>) {
    forall d :: d in after && d !in before ==> d in dirs && Exhausted(dirs, dirs[d], links, after)
  }

  /** Unless a target is missing, the walk is complete: it scans the directory
      it is given and everything that links lead to from what it scans, and
      reports every link it finds there. */
  lemma {:induction false} ScanIsComplete(dirs: Dirs, dir: string, scanned: seq<string>)
    requires !AnyMissing(Scan(dirs, dir, scanned).0)
    ensures var (links, after) := Scan(dirs, dir, scanned);
            AllExhausted(dirs, links, scanned, after) && (dir in dirs ==> dir in after)
    decreases Unscanned(dirs, scanned), 0
  {
    if dir in dirs && dir !in scanned {
      assert dir in Unscanned(dirs, scanned) && dir !in Unscanned(dirs, scanned + [dir]);
      FoundIsComplete(dirs, dirs[dir], scanned + [dir]);
    }
  }

  lemma {:induction false} FoundIsComplete(dirs: Dirs, found: seq<Found>, scanned: seq<string>)
    requires !AnyMissing(ScanFound(dirs, found, scanned).0)
    ensures var (links, after) := ScanFound(dirs, found, scanned);
            AllExhausted(dirs, links, scanned, after) && Exhausted(dirs, found, links, after)
    decreases Unscanned(dirs, scanned), |found| + 1
  {
    if found != [] {
      var (links, after) := ScanFound(dirs, found, scanned);
      var link, target := AsLink(found[0]), found[0].target;
      assert links[0] == link;
      if target.ToFile? {
        var rest := ScanFound(dirs, found[1..], scanned).0;
        MissingSplits([link], rest);
        FoundIsComplete(dirs, found[1..], scanned);
      } else {
        var (below, mid) := Scan(dirs, target.path, scanned);
        var rest := ScanFound(dirs, found[1..], mid).0;
        assert Unscanned(dirs, mid) <= Unscanned(dirs, scanned);
        MissingSplits([link] + below, rest);
        MissingSplits([link], below);
        ScanIsComplete(dirs, target.path, scanned);
        FoundIsComplete(dirs, found[1..], mid);
      }
    }
  }

  lemma {:induction false} MissingSplits(a: seq<Link>, b: seq<Link>)
    ensures AnyMissing(a + b) <==> AnyMissing(a) || AnyMissing(b)
  {
    var ab := a + b;
    assert forall i :: 0 <= i < |a| ==> ab[i] == a[i];
    assert forall i :: 0 <= i < |b| ==> ab[|a| + i] == b[i];
    if AnyMissing(b) {
      var i :| 0 <= i < |b| && b[i].missing;
      assert ab[|a| + i].missing;
    }
  }

  /** What is reported of a symlink: where it is and where it leads, and what is
      there. */
  predicate Reports(link: Link, f: Found) {
    && link.path == f.path && link.resolved == f.target.path
    && (link.missing <==> f.target.Gone?)
    && (link.isDir <==> f.target.ToDir?)
    && (f.target.ToFile? ==> link.parentDir == f.target.parentDir)
  }

  ghost predicate IsReported(f: Found, links: seq<Link>) {
    exists i :: 0 <= i < |links| && Reports(links[i], f)
  }

  lemma {:induction false} ReportedHere(f: Found, links: seq<Link>)
    requires AsLink(f) in links
    ensures IsReported(f, links)
  {
    var i :| 0 <= i < |links| && links[i] == AsLink(f);
    assert Reports(links[i], f);
  }

  /** So, unless a target is missing, every symlink under a scanned directory is
      reported for what it is: with its own path, what it resolves to, and
      whether that is a directory or a file in some directory. */
  lemma {:induction false} EverySymlinkIsReported(dirs: Dirs, dir: string, d: string, i: nat)
    requires !AnyMissing(Scan(dirs, dir, []).0)
    requires d in Scan(dirs, dir, []).1 && d in dirs && i < |dirs[d]|
    ensures IsReported(dirs[d][i], Scan(dirs, dir, []).0)
    ensures !dirs[d][i].target.Gone?
  {
    var (links, after) := Scan(dirs, dir, []);
    ScanIsComplete(dirs, dir, []);
    assert Exhausted(dirs, dirs[d], links, after);
    ReportedHere(dirs[d][i], links);
    var k :| 0 <= k < |links| && Reports(links[k], dirs[d][i]);
    assert !links[k].missing;
  }

  // ---- Stopping everywhere at the first missing target ---------------------------------------

  /** The walk that ends altogether at a missing target, as the historical
      script did by exiting. */
  function Abort(dirs: Dirs, dir: string, scanned: seq<string>): (r: (seq<Link>, seq<string>, bool))
    ensures scanned <= r.1
    decreases Unscanned(dirs, scanned), 0
  {
    if dir !in dirs || dir in scanned then ([], scanned, false)
    else
      assert dir in Unscanned(dirs, scanned) && dir !in Unscanned(dirs, scanned + [dir]);
      AbortFound(dirs, dirs[dir], scanned + [dir])
  }

  function AbortFound(dirs: Dirs, found: seq<Found>, scanned: seq<string>): (r: (seq<Link>, seq<string>, bool))
    ensures scanned <= r.1
    decreases Unscanned(dirs, scanned), |found| + 1
  {
    if found == [] then ([], scanned, false)
    else if found[0].target.Gone? then ([AsLink(found[0])], scanned, true)
    else if found[0].target.ToFile? then
      var (rest, after, aborted) := AbortFound(dirs, found[1..], scanned);
      ([AsLink(found[0])] + rest, after, aborted)
    else
      var (below, mid, aborted) := Abort(dirs, found[0].target.path, scanned);
      if aborted then ([AsLink(found[0])] + below, mid, true)
      else
        assert Unscanned(dirs, mid) <= Unscanned(dirs, scanned);
        var (rest, after, abortedLater) := AbortFound(dirs, found[1..], mid);
        ([AsLink(found[0])] + below + rest, after, abortedLater)
  }

  function AbortBoth(dirs: Dirs, systemDir: Option<string>, dir: string): seq<Link> {
    if systemDir.None? then Abort(dirs, dir, []).0
    else
      var (links, scanned, aborted) := Abort(dirs, systemDir.value, []);
      if aborted then links else links + Abort(dirs, dir, scanned).0
  }

  /** The links up to and including the first missing one. */
  function UpToMissing(links: seq<Link>): seq<Link> {
    if links == [] then []
    else if links[0].missing then [links[0]]
    else [links[0]] + UpToMissing(links[1..])
  }

  lemma {:induction false} UpToMissingSplits(a: seq<Link>, b: seq<Link>)
    ensures UpToMissing(a + b) == if AnyMissing(a) then UpToMissing(a) else a + UpToMissing(b)
  {
    if a == [] {
      assert a + b == b;
    } else {
      assert (a + b)[1..] == a[1..] + b;
      assert a == [a[0]] + a[1..];
      MissingSplits([a[0]], a[1..]);
      UpToMissingSplits(a[1..], b);
      assert a[0].missing ==> AnyMissing(a) by { assert a[0].missing ==> a[0].missing; }
      if !a[0].missing {
        assert !AnyMissing([a[0]]);
      }
    }
  }

  ghost predicate Agree(scan: (seq<Link>, seq<string>), abort: (seq<Link>, seq<string>, bool)) {
    && UpToMissing(scan.0) == abort.0
    && (AnyMissing(scan.0) <==> abort.2)
    && (!abort.2 ==> scan.0 == abort.0 && scan.1 == abort.1)
  }

  /** Although outer frames carry on after a missing target in an inner one, the
      list up to the first missing entry is that of the aborting walk. */
  lemma {:induction false} ScanAgreesWithAbort(dirs: Dirs, dir: string, scanned: seq<string>)
    ensures Agree(Scan(dirs, dir, scanned), Abort(dirs, dir, scanned))
    decreases Unscanned(dirs, scanned), 0
  {
    if dir in dirs && dir !in scanned {
      assert dir in Unscanned(dirs, scanned) && dir !in Unscanned(dirs, scanned + [dir]);
      FoundAgrees(dirs, dirs[dir], scanned + [dir]);
    }
  }

  lemma {:induction false} FoundAgrees(dirs: Dirs, found: seq<Found>, scanned: seq<string>)
    ensures Agree(ScanFound(dirs, found, scanned), AbortFound(dirs, found, scanned))
    decreases Unscanned(dirs, scanned), |found| + 1
  {
    if found != [] {
      var link, target := AsLink(found[0]), found[0].target;
      if target.Gone? {
        assert [link][0].missing;
        assert UpToMissing([link]) == [link];
      } else if target.ToFile? {
        FoundAgrees(dirs, found[1..], scanned);
        var rest := ScanFound(dirs, found[1..], scanned).0;
        MissingSplits([link], rest);
        UpToMissingSplits([link], rest);
      } else {
        ScanAgreesWithAbort(dirs, target.path, scanned);
        var (below, mid) := Scan(dirs, target.path, scanned);
        assert Unscanned(dirs, mid) <= Unscanned(dirs, scanned);
        FoundAgrees(dirs, found[1..], mid);
        var rest := ScanFound(dirs, found[1..], mid).0;
        MissingSplits([link] + below, rest);
        MissingSplits([link], below);
        UpToMissingSplits([link] + below, rest);
        UpToMissingSplits([link], below);
      }
    }
  }

  lemma {:induction false} BothAgree(dirs: Dirs, systemDir: Option<string>, dir: string)
    ensures UpToMissing(ScanBoth(dirs, systemDir, dir)) == AbortBoth(dirs, systemDir, dir)
  {
    if systemDir.None? {
      ScanAgreesWithAbort(dirs, dir, []);
    } else {
      ScanAgreesWithAbort(dirs, systemDir.value, []);
      var (links, scanned) := Scan(dirs, systemDir.value, []);
      if !AnyMissing(links) {
        ScanAgreesWithAbort(dirs, dir, scanned);
        UpToMissingSplits(links, Scan(dirs, dir, scanned).0);
      }
    }
  }

  // ---- The planner cannot tell --------------------------------------------------------------

  lemma {:induction false} UpToMissingIsPrefix(links: seq<Link>)
    ensures UpToMissing(links) <= links
    ensures !AnyMissing(links) ==> UpToMissing(links) == links
    ensures AnyMissing(links) ==> UpToMissing(links) != [] && UpToMissing(links)[|UpToMissing(links)| - 1].missing
  {
    if links != [] {
      UpToMissingIsPrefix(links[1..]);
      assert links == [links[0]] + links[1..];
      MissingSplits([links[0]], links[1..]);
      if !links[0].missing {
        assert !AnyMissing([links[0]]);
      }
    }
  }

  /** With a missing link there is no target root, whatever the other links. */
  lemma {:induction false} MissingMeansNoRoot(
    reg: Registry, tools: seq<Tool>, codexDir: string, ss: Skills, links: seq<Link>)
    requires AnyMissing(ss.links) && AnyMissing(links)
    ensures BeforeReplay(reg, tools, codexDir, ss) == BeforeReplay(reg, tools, codexDir, ss.(links := links))
  {
    var tooled := AddTools(Plan(reg, [], [], None), ss.dir, tools);
    assert AddRoot(tooled, ss) == tooled == AddRoot(tooled, ss.(links := links));
  }

  lemma {:induction false} ReplayEndsAtMissing(p: Plan, links: seq<Link>, n: nat)
    requires 0 < n <= |links| && links[n - 1].missing
    ensures Replay(p, links) == Replay(p, links[..n])
  {
    assert Replay(p, links[..n]).error.Some?;
    ErrorEndsReplay(p, links, n);
  }

  /** What follows a missing link is inert. */
  lemma {:induction false} PlanIgnoresAfterMissing(
    reg: Registry, tools: seq<Tool>, codexDir: string, ss: Skills, remountNeedsMountpoint: bool)
    ensures Planned(reg, tools, codexDir, ss, remountNeedsMountpoint)
         == Planned(reg, tools, codexDir, ss.(links := UpToMissing(ss.links)), remountNeedsMountpoint)
  {
    var cut := UpToMissing(ss.links);
    UpToMissingIsPrefix(ss.links);
    if AnyMissing(ss.links) {
      assert cut[|cut| - 1].missing;
      MissingMeansNoRoot(reg, tools, codexDir, ss, cut);
      assert ss.links[..|cut|] == cut;
      ReplayEndsAtMissing(BeforeReplay(reg, tools, codexDir, ss), ss.links, |cut|);
    }
  }

  /** The planner gives the same result on both walks. */
  lemma {:induction false} PlannerCannotTell(
    reg: Registry, tools: seq<Tool>, codexDir: string, ss: Skills, remountNeedsMountpoint: bool,
    dirs: Dirs, systemDir: Option<string>)
    ensures Planned(reg, tools, codexDir, ss.(links := ScanBoth(dirs, systemDir, ss.dir)), remountNeedsMountpoint)
         == Planned(reg, tools, codexDir, ss.(links := AbortBoth(dirs, systemDir, ss.dir)), remountNeedsMountpoint)
  {
    BothAgree(dirs, systemDir, ss.dir);
    PlanIgnoresAfterMissing(
      reg, tools, codexDir, ss.(links := ScanBoth(dirs, systemDir, ss.dir)), remountNeedsMountpoint);
  }
}
