/** What the mounts of a whole run show: the target root of --share-skills
    against every mount that precedes it, registered or not (internal/plan/plan.go
    and internal/plan/sharedskills.go). */
module PlanVisibility {
  import opened Text
  import opened Paths
  import opened Mounts
  import opened Planner
  import opened SharedSkills
  import SharedSkillsLaws
  import PlannerLaws

  // ---- The mounts of a run, in order -----------------------------------------------------

  function RunMounts(args: seq<Arg>): seq<Mount> {
    if args == [] then []
    else
      var last := args[|args| - 1];
      RunMounts(args[..|args| - 1]) + if last.Mounted? then [last.mount] else []
  }

  lemma {:induction false} RunMountsConcat(a: seq<Arg>, b: seq<Arg>)
    ensures RunMounts(a + b) == RunMounts(a) + RunMounts(b)
    decreases |b|
  {
    if b == [] {
      assert a + b == a;
    } else {
      RunMountsConcat(a, b[..|b| - 1]);
      assert (a + b)[..|a + b| - 1] == a + b[..|b| - 1];
    }
  }

  lemma {:induction false} RunMountsOfMounts(mounts: seq<Mount>)
    ensures RunMounts(MountArgs(mounts)) == mounts
  {
    if mounts != [] {
      var args := MountArgs(mounts);
      RunMountsOfMounts(mounts[..|mounts| - 1]);
      assert args[..|args| - 1] == MountArgs(mounts[..|mounts| - 1]);
    }
  }

  // ---- Where the root is among them ----------------------------------------------------------

  lemma {:induction false} AddOnlyAppends(p: Plan, src: string, dst: string, allowCover: bool, what: string)
    ensures p.args <= Add(p, src, dst, allowCover, what).args
  {
  }

  lemma {:induction false} ReplayOnlyAppends(p: Plan, links: seq<Link>)
    ensures p.args <= Replay(p, links).args
  {
    if links != [] {
      ReplayOnlyAppends(p, links[..|links| - 1]);
    }
  }

  /** The root is mounted: the skills plan gets as far, and its guards pass. */
  ghost predicate MountsRoot(reg: Registry, tools: seq<Tool>, ss: Skills) {
    && TargetRoot(ss) != "" && SharedSkillsLaws.Tooled(reg, tools, ss).error.None?
    && Safe(SharedSkillsLaws.Tooled(reg, tools, ss).reg, TargetRoot(ss))
  }

  function RootMount(ss: Skills): Mount {
    Mount(TargetRoot(ss), TargetRoot(ss), ReadOnly)
  }

  lemma {:induction false} RootFollowsTools(
    reg: Registry, tools: seq<Tool>, codexDir: string, ss: Skills, remountNeedsMountpoint: bool)
    requires Consistent(reg) && WritableAreParity(reg) && MountsRoot(reg, tools, ss)
    requires Planned(reg, tools, codexDir, ss, remountNeedsMountpoint).error.None?
    ensures SharedSkillsLaws.Tooled(reg, tools, ss).args + [RootMount(ss)]
            <= Planned(reg, tools, codexDir, ss, remountNeedsMountpoint).args
  {
    SharedSkillsLaws.TargetRootIsMounted(reg, tools, ss);
    var rooted := AddRoot(SharedSkillsLaws.Tooled(reg, tools, ss), ss);
    var source := Add(rooted, ss.dir, ss.dir, true, "shared skills source");
    AddOnlyAppends(rooted, ss.dir, ss.dir, true, "shared skills source");
    AddOnlyAppends(source, SystemDir(codexDir), SystemDir(codexDir), false, "Codex system skills");
    ReplayOnlyAppends(BeforeReplay(reg, tools, codexDir, ss), ss.links);
  }

  /** The repository whose .git a plan with these answers mounts. */
  function RepoOf(parts: Parts, ans: Answers): string {
    if parts.worktreeMode || (WorktreeGit in ans && ans[WorktreeGit]) then parts.worktreeRepo else ""
  }

  lemma {:induction false} ArgsOfRun(parts: Parts, ans: Answers)
    requires Asked(parts, ans).run.Some?
    ensures parts.shared.error.None?
    ensures parts.argsFor(RepoOf(parts, ans)) + MountArgs(parts.shared.args) <= Asked(parts, ans).run.value.args
  {
  }

  /** The mounts of a run that precede the root. */
  function MountsBefore(q: Request, paths: HostPaths, repo: string): seq<Mount> {
    RunMounts(FirstArgs(q, paths, repo)) + UserMounts(q.facts.extras)
    + SharedSkillsLaws.Tooled(Registered(q), SkillTools(paths), q.facts.skills).args
  }

  /** The same with the mounts split at the root. */
  lemma {:induction false} RunMountsBegin(q: Request, ans: Answers)
    requires q.facts.skills.dir != "" && Built(q, ans).run.Some?
    requires MountsRoot(Registered(q), SkillTools(NewHostPaths(q.home, q.cfg.shareHostClaude)), q.facts.skills)
    ensures MountsBefore(q, NewHostPaths(q.home, q.cfg.shareHostClaude), RepoOf(PartsOf(q), ans))
            + [RootMount(q.facts.skills)] <= RunMounts(Built(q, ans).run.value.args)
  {
    var paths, parts := NewHostPaths(q.home, q.cfg.shareHostClaude), PartsOf(q);
    ArgsOfRun(parts, ans);
    PlannerLaws.RegisteredIsReachable(q);
    RootFollowsTools(
      Registered(q), SkillTools(paths), paths.codexDir, q.facts.skills, q.remountNeedsMountpoint);
    assert parts.argsFor(RepoOf(parts, ans))
        == FirstArgs(q, paths, RepoOf(parts, ans)) + MountArgs(UserMounts(q.facts.extras));
    SplitAtRoot(
      FirstArgs(q, paths, RepoOf(parts, ans)), UserMounts(q.facts.extras),
      SharedSkillsLaws.Tooled(Registered(q), SkillTools(paths), q.facts.skills).args, RootMount(q.facts.skills),
      parts.shared.args, Built(q, ans).run.value.args);
  }

  lemma {:induction false} SplitAtRoot(
    first: seq<Arg>, users: seq<Mount>, tools: seq<Mount>, root: Mount, shared: seq<Mount>, args: seq<Arg>)
    requires tools + [root] <= shared && first + MountArgs(users) + MountArgs(shared) <= args
    ensures RunMounts(first) + users + tools + [root] <= RunMounts(args)
  {
    var front := first + MountArgs(users) + MountArgs(shared);
    RunMountsConcat(front, args[|front|..]);
    assert front + args[|front|..] == args;
    RunMountsConcat(first + MountArgs(users), MountArgs(shared));
    RunMountsConcat(first, MountArgs(users));
    RunMountsOfMounts(users);
    RunMountsOfMounts(shared);
    assert tools + [root] + shared[|tools| + 1..] == shared;
  }

  // ---- What the root leaves visible ------------------------------------------------------------

  lemma {:induction false} SinceConcat(a: seq<Mount>, b: seq<Mount>, m: Mount)
    requires m !in b
    ensures Since(a + b, m) == Since(a, m) + b
    decreases |b|
  {
    if b == [] {
      assert a + b == a;
    } else {
      SinceConcat(a, b[..|b| - 1], m);
      assert (a + b)[..|a + b| - 1] == a + b[..|b| - 1];
      assert (a + b)[|a + b| - 1] == b[|b| - 1];
    }
  }

  lemma {:induction false} RootKeepsIff(first: seq<Mount>, registered: seq<Mount>, m: Mount)
    requires Apart(registered, m.dst)
    ensures KeepsMounted(first + registered, first + registered + [m]) <==> Apart(Since(first, m), m.dst)
  {
    AtOrUnderIsPrefix(m.dst, m.dst);
    assert Comparable(m.dst, m.dst);
    SinceConcat(first, registered, m);
    AppendingKeepsMountedIff(first + registered, m);
  }

  /** In the run of a whole plan, whatever the answers: a root past its guards
      leaves what all earlier mounts show unchanged if and only if it is
      incomparable with those that planning makes without registering them. */
  lemma {:induction false} RootHidesNothingIff(q: Request, ans: Answers)
    requires q.facts.skills.dir != "" && Built(q, ans).run.Some?
    requires MountsRoot(Registered(q), SkillTools(NewHostPaths(q.home, q.cfg.shareHostClaude)), q.facts.skills)
    ensures var paths, repo, root :=
              NewHostPaths(q.home, q.cfg.shareHostClaude), RepoOf(PartsOf(q), ans), RootMount(q.facts.skills);
            && MountsBefore(q, paths, repo) + [root] <= RunMounts(Built(q, ans).run.value.args)
            && (KeepsMounted(MountsBefore(q, paths, repo), MountsBefore(q, paths, repo) + [root]) <==>
                Apart(Since(RunMounts(FirstArgs(q, paths, repo)), root), root.dst))
  {
    var paths, repo := NewHostPaths(q.home, q.cfg.shareHostClaude), RepoOf(PartsOf(q), ans);
    RunMountsBegin(q, ans);
    RegisteredIsApart(q, paths);
    var first, users := RunMounts(FirstArgs(q, paths, repo)), UserMounts(q.facts.extras);
    var tools := SharedSkillsLaws.Tooled(Registered(q), SkillTools(paths), q.facts.skills).args;
    Reassociate(first, users, tools);
    RootKeepsIff(first, users + tools, RootMount(q.facts.skills));
  }

  lemma {:induction false} RegisteredIsApart(q: Request, paths: HostPaths)
    requires MountsRoot(Registered(q), SkillTools(paths), q.facts.skills)
    ensures Apart(
              UserMounts(q.facts.extras)
              + SharedSkillsLaws.Tooled(Registered(q), SkillTools(paths), q.facts.skills).args,
              TargetRoot(q.facts.skills))
  {
    var reg, tools, ss := Registered(q), SkillTools(paths), q.facts.skills;
    PlannerLaws.RegisteredIsReachable(q);
    SharedSkillsLaws.TargetRootIsMounted(reg, tools, ss);
    assert reg.shared + [] == reg.shared;
    SharedSkillsLaws.ToolsKeepInStep(reg, Plan(reg, [], [], None), ss.dir, tools);
    var tooled := SharedSkillsLaws.Tooled(reg, tools, ss);
    assert forall rec :: rec in UserMounts(q.facts.extras) || rec in tooled.args ==> rec in tooled.reg.All();
  }

  // ---- A root that hides the shared directory -------------------------------------------------------

  /** The shared directory's own mount is never registered, so that a root at the
      same place replaces the writable mount by a read-only one. */
  lemma {:induction false} RootAtSharedDirectory(q: Request, paths: HostPaths, repo: string)
    requires TargetRoot(q.facts.skills) == paths.claudeContained
    ensures !Apart(Since(RunMounts(FirstArgs(q, paths, repo)), RootMount(q.facts.skills)), paths.claudeContained)
  {
    var args, contained := FirstArgs(q, paths, repo), Mount(paths.claudeContained, paths.claudeContained, ReadWrite);
    assert args[|args| - 1] == Mounted(contained);
    var mounts := RunMounts(args);
    assert mounts[|mounts| - 1] == contained;
    AtOrUnderIsPrefix(contained.dst, contained.dst);
    assert contained in Since(mounts, RootMount(q.facts.skills));
    assert Comparable(contained.dst, paths.claudeContained);
  }

  const TOOL_NAMES := [".claude", ".codex", ".agents", ".copilot", ".gemini", ".vibe"]

  /** The six tools, by their names below the home directory. */
  ghost predicate ToolsOf(home: string, codexDir: string, tools: seq<Tool>) {
    && |tools| == |TOOL_NAMES| && tools[1].dst == codexDir + "/skills"
    && forall i :: 0 <= i < |tools| ==> tools[i].dst == Joined(home, TOOL_NAMES[i]) + "/skills"
  }

  lemma {:induction false} ToolsAre(home: string, shareHostClaude: bool)
    ensures var paths := NewHostPaths(home, shareHostClaude); ToolsOf(home, paths.codexDir, SkillTools(paths))
    ensures NewHostPaths(home, shareHostClaude).claudeContained == Joined(home, ".claude-contained")
  {
  }

  lemma {:induction false} ToolNamesDiffer(i: nat, j: nat)
    requires i < |TOOL_NAMES| && j < |TOOL_NAMES| && i != j
    ensures TOOL_NAMES[i] != TOOL_NAMES[j]
  {
  }

  lemma {:induction false} ToolNamePlain(i: nat)
    requires i < |TOOL_NAMES|
    ensures IsPlain([TOOL_NAMES[i]]) && TOOL_NAMES[i] != ".claude-contained"
  {
  }

  lemma {:induction false} HomeNames(hs: Paths.Names)
    requires IsPlain(hs)
    ensures CleanNames(Render(hs)) == hs
  {
    SplitRender(hs);
    NormalizePlain(hs);
  }

  lemma {:induction false} PrefixOfEqualLength(a: Paths.Names, x: string, b: Paths.Names, y: string)
    requires a + [x] <= b + [y] && |a| == |b|
    ensures a == b && x == y
  {
    assert a + [x] == b + [y];
    assert a == (a + [x])[..|a|] == b;
  }

  /** The places below two different names of one directory are incomparable. */
  lemma {:induction false} SiblingsAreApart(hs: Paths.Names, x: string, y: string)
    requires IsPlain(hs) && IsPlain([x]) && IsPlain([y]) && x != y
    ensures !Comparable(Joined(Render(hs), x), Joined(Render(hs), y))
  {
    HomeNames(hs);
    JoinedIs(Render(hs), x);
    JoinedIs(Render(hs), y);
    RenderedAtOrUnder(hs + [x], hs + [y]);
    RenderedAtOrUnder(hs + [y], hs + [x]);
    if hs + [x] <= hs + [y] {
      PrefixOfEqualLength(hs, x, hs, y);
    }
    if hs + [y] <= hs + [x] {
      PrefixOfEqualLength(hs, y, hs, x);
    }
  }

  lemma {:induction false} DifferentTopsAreApart(a: Paths.Names, b: Paths.Names)
    requires AreNames(a) && AreNames(b) && a != [] && b != [] && a[0] != b[0]
    ensures !Comparable(Render(a), Render(b))
  {
    RenderedAtOrUnder(a, b);
    RenderedAtOrUnder(b, a);
  }

  /** A tool's skills directory is apart from whatever the tool's is. */
  lemma {:induction false} SkillsOfToolApart(tool: string, other: string)
    requires !Comparable(tool, other)
    ensures !Comparable(tool + "/skills", other) && tool + "/skills" != other
  {
    var dst := tool + "/skills";
    AtOrUnderIsPrefix(dst, tool);
    assert PathIsAtOrUnder(dst, tool) by {
      assert dst[|dst| - 1] == 's';
      assert dst == tool + "/" + "skills";
      if tool != "" && tool[|tool| - 1] == '/' {
        assert tool == tool[..|tool| - 1] + "/";
      }
    }
    SharedSkillsLaws.BelowApart(dst, tool, other);
    AtOrUnderIsPrefix(other, other);
    assert Comparable(other, other);
  }

  /** Tools whose destinations are new and distinct are all added. */
  lemma {:induction false} ToolsFit(p: Plan, dir: string, tools: seq<Tool>)
    requires p.error.None?
    requires forall rec, i :: rec in p.reg.All() && 0 <= i < |tools| ==> rec.dst != tools[i].dst
    requires forall i, j :: 0 <= i < j < |tools| ==> tools[i].dst != tools[j].dst
    ensures AddTools(p, dir, tools).error.None?
    ensures forall rec :: rec in AddTools(p, dir, tools).reg.All() ==>
              rec in p.reg.All() || exists i :: 0 <= i < |tools| && rec.dst == tools[i].dst
  {
    if tools != [] {
      var n := |tools| - 1;
      var before, after := AddTools(p, dir, tools[..n]), AddTools(p, dir, tools);
      ToolsFit(p, dir, tools[..n]);
      forall rec | rec in before.reg.user || rec in before.reg.shared
        ensures rec.dst != tools[n].dst
      {
        assert rec in before.reg.All();
        if rec !in p.reg.All() {
          var i :| 0 <= i < n && rec.dst == tools[..n][i].dst;
        }
      }
      forall rec | rec in after.reg.All() && rec !in p.reg.All()
        ensures exists i :: 0 <= i < |tools| && rec.dst == tools[i].dst
      {
        if rec in before.reg.All() {
          var i :| 0 <= i < n && rec.dst == tools[..n][i].dst;
          assert rec.dst == tools[i].dst;
        } else {
          assert rec.dst == tools[n].dst;
        }
      }
    }
  }

  lemma {:induction false} CommonPrefixOfFork(c: Paths.Names, x: string, y: string)
    requires x != y
    ensures CommonPrefix(c + [x], c + [y]) == c
  {
    if c != [] {
      CommonPrefixOfFork(c[1..], x, y);
      assert (c + [x])[1..] == c[1..] + [x] && (c + [y])[1..] == c[1..] + [y];
    }
  }

  /** Two skills directories side by side have their parent for a root. */
  lemma {:induction false} RootOfSiblings(ss: Skills, c: Paths.Names, link: Link)
    requires IsPlain(c) && c != [] && ss.dir == Render(c + ["skills"])
    requires ss.links == [link] && !link.missing && link.resolved == Render(c + ["more"])
    ensures TargetRoot(ss) == Render(c)
  {
    var before: seq<Link> := [];
    CommonPrefixOfFork(c, "skills", "more");
    CommonAncestorOfRender(c + ["skills"], c + ["more"]);
    RenderedAtOrUnder(c + ["more"], c + ["skills"]);
    assert (c + ["more"])[|c|] == "more" && (c + ["skills"])[|c|] == "skills";
    assert ss.links[0] == link && ss.links[..0] == before && Candidate(ss.dir, before) == ss.dir;
    assert Candidate(ss.dir, ss.links) == Render(c);
    CleanOfRender(c);
    DirOfRender(c);
    if Render(Parent(c)) == Render(c) {
      RenderInjective(Parent(c), c);
    }
    assert Render(c) != "";
  }

  /** A request with nothing to ask: home and project are in different places;
      the skills are a directory inside the shared directory, with one link to a
      directory next to it. */
  ghost predicate SkillsInSharedDirectory(q: Request, hs: Paths.Names, ps: Paths.Names, link: Link) {
    && IsPlain(hs) && IsPlain(ps) && hs != [] && ps != [] && hs[0] != ps[0]
    && q.home == Render(hs) && q.facts.projectDir == Render(ps) && q.facts.extras == []
    && q.facts.worktreeMainRepo == "" && q.facts.locks.repo == "" && q.facts.overlayDirs == []
    && q.facts.skills.dir == Render(hs + [".claude-contained"] + ["skills"])
    && !q.facts.skills.codexSystemDir && q.facts.skills.links == [link]
    && !link.missing && link.isDir && link.resolved == Render(hs + [".claude-contained"] + ["more"])
  }

  lemma {:induction false} SharedDirectoryIs(q: Request, hs: Paths.Names, ps: Paths.Names, link: Link)
    requires SkillsInSharedDirectory(q, hs, ps, link)
    ensures TargetRoot(q.facts.skills) == Render(hs + [".claude-contained"]) != ""
    ensures !Comparable(Render(hs + [".claude-contained"]), q.facts.projectDir)
  {
    var c := hs + [".claude-contained"];
    PlainAppend(hs, ".claude-contained");
    RootOfSiblings(q.facts.skills, c, link);
    DifferentTopsAreApart(c, ps);
  }

  lemma {:induction false} SharedDirectoryName(hs: Paths.Names)
    requires IsPlain(hs)
    ensures Joined(Render(hs), ".claude-contained") == Render(hs + [".claude-contained"])
  {
    HomeNames(hs);
    PlainAppend(hs, ".claude-contained");
    JoinedIs(Render(hs), ".claude-contained");
  }

  lemma {:induction false} PlainAppend(cs: Paths.Names, name: string)
    requires IsPlain(cs) && name != "" && name != "." && name != ".." && '/' !in name
    ensures IsPlain(cs + [name]) && IsPlain([name])
  {
  }

  lemma {:induction false} OneLinkIsProbed(ss: Skills, dir: Paths.Names, link: Link, target: Paths.Names)
    requires IsPlain(dir) && ss.dir == Render(dir) && ss.links == [link]
    requires IsPlain(target) && link.resolved == Render(target) && link.isDir
    ensures WellProbed(ss)
  {
  }

  lemma {:induction false} SkillsAreProbed(q: Request, hs: Paths.Names, ps: Paths.Names, link: Link)
    requires SkillsInSharedDirectory(q, hs, ps, link)
    ensures WellProbed(q.facts.skills)
  {
    var c := hs + [".claude-contained"];
    PlainAppend(hs, ".claude-contained");
    PlainAppend(c, "skills");
    PlainAppend(c, "more");
    OneLinkIsProbed(q.facts.skills, c + ["skills"], link, c + ["more"]);
  }

  /** One tool's skills directory in such a request. */
  lemma {:induction false} ToolIsApart(q: Request, hs: Paths.Names, ps: Paths.Names, link: Link, i: nat)
    requires SkillsInSharedDirectory(q, hs, ps, link) && i < |TOOL_NAMES|
    ensures Joined(q.home, TOOL_NAMES[i]) + "/skills" != q.facts.projectDir
    ensures !Comparable(Joined(q.home, TOOL_NAMES[i]) + "/skills", Joined(q.home, ".claude-contained"))
  {
    var name := TOOL_NAMES[i];
    ToolNamePlain(i);
    HomeNames(hs);
    JoinedIs(q.home, name);
    DifferentTopsAreApart(hs + [name], ps);
    SkillsOfToolApart(Joined(q.home, name), q.facts.projectDir);
    SiblingsAreApart(hs, name, ".claude-contained");
    SkillsOfToolApart(Joined(q.home, name), Joined(q.home, ".claude-contained"));
  }

  lemma {:induction false} ToolsAreApart(home: string, hs: Paths.Names, i: nat, j: nat)
    requires IsPlain(hs) && home == Render(hs) && i < |TOOL_NAMES| && j < |TOOL_NAMES| && i != j
    ensures Joined(home, TOOL_NAMES[i]) + "/skills" != Joined(home, TOOL_NAMES[j]) + "/skills"
  {
    var a, b := Joined(home, TOOL_NAMES[i]), Joined(home, TOOL_NAMES[j]);
    ToolNamePlain(i);
    ToolNamePlain(j);
    ToolNamesDiffer(i, j);
    SiblingsAreApart(hs, TOOL_NAMES[i], TOOL_NAMES[j]);
    AtOrUnderIsPrefix(a, a);
    assert (a + "/skills")[..|a|] == a && (b + "/skills")[..|b|] == b;
    assert a != b && (a + "/skills" == b + "/skills" ==> |a| == |b|);
  }

  lemma {:induction false} ToolsAreDistinct(q: Request, hs: Paths.Names, codexDir: string, tools: seq<Tool>)
    requires IsPlain(hs) && q.home == Render(hs) && ToolsOf(q.home, codexDir, tools)
    ensures forall i, j :: 0 <= i < j < |tools| ==> tools[i].dst != tools[j].dst
  {
    forall i, j | 0 <= i < j < |tools|
      ensures tools[i].dst != tools[j].dst
    {
      ToolsAreApart(q.home, hs, i, j);
    }
  }

  /** The registry there: the project and the tools, all apart from the root. */
  lemma {:induction false} GuardsPass(
    q: Request, codexDir: string, tools: seq<Tool>, hs: Paths.Names, ps: Paths.Names, link: Link)
    requires SkillsInSharedDirectory(q, hs, ps, link) && ToolsOf(q.home, codexDir, tools)
    ensures MountsRoot(Registered(q), tools, q.facts.skills)
  {
    var reg, ss, root := Registered(q), q.facts.skills, Joined(q.home, ".claude-contained");
    SharedDirectoryIs(q, hs, ps, link);
    SharedDirectoryName(hs);
    assert reg.All() == [Mount(q.facts.projectDir, q.facts.projectDir, ReadWrite)];
    forall i | 0 <= i < |tools|
      ensures tools[i].dst != q.facts.projectDir && !Comparable(tools[i].dst, root)
    {
      ToolIsApart(q, hs, ps, link, i);
    }
    ToolsAreDistinct(q, hs, codexDir, tools);
    ToolsFit(Plan(reg, [], [], None), ss.dir, tools);
    PlannerLaws.RegisteredIsReachable(q);
    SharedSkillsLaws.ToolsKeepParity(Plan(reg, [], [], None), ss.dir, tools);
    GuardsMeanApart(SharedSkillsLaws.Tooled(reg, tools, ss).reg, root);
  }

  /** With the root mounted and no system skills, nothing is left to fail. */
  lemma {:induction false} RootedPlanSucceeds(
    reg: Registry, tools: seq<Tool>, codexDir: string, ss: Skills, remountNeedsMountpoint: bool, k: nat)
    requires Consistent(reg) && WritableAreParity(reg) && WellProbed(ss) && MountsRoot(reg, tools, ss)
    requires k < |tools| && tools[k].dst == codexDir + "/skills" && !ss.codexSystemDir
    ensures Planned(reg, tools, codexDir, ss, remountNeedsMountpoint).error.None?
  {
    SharedSkillsLaws.TargetRootIsMounted(reg, tools, ss);
    SharedSkillsLaws.TargetRootCarriesTheReplay(reg, tools, codexDir, ss, k);
  }

  lemma {:induction false} SkillsPlanSucceeds(
    q: Request, codexDir: string, tools: seq<Tool>, hs: Paths.Names, ps: Paths.Names, link: Link)
    requires SkillsInSharedDirectory(q, hs, ps, link) && ToolsOf(q.home, codexDir, tools)
    ensures Planned(Registered(q), tools, codexDir, q.facts.skills, q.remountNeedsMountpoint).error.None?
  {
    SkillsAreProbed(q, hs, ps, link);
    GuardsPass(q, codexDir, tools, hs, ps, link);
    PlannerLaws.RegisteredIsReachable(q);
    RootedPlanSucceeds(Registered(q), tools, codexDir, q.facts.skills, q.remountNeedsMountpoint, 1);
  }

  lemma {:induction false} NothingToAsk(parts: Parts, ans: Answers)
    requires parts.worktreeRepo == "" && parts.locks.repo == "" && !parts.hasOverlays && parts.shared.error.None?
    ensures Asked(parts, ans).run.Some?
  {
  }

  lemma {:induction false} RunsWithRoot(
    q: Request, ans: Answers, paths: HostPaths, hs: Paths.Names, ps: Paths.Names, link: Link)
    requires SkillsInSharedDirectory(q, hs, ps, link) && ToolsOf(q.home, paths.codexDir, SkillTools(paths))
    requires PartsOf(q).shared == SkillsPlan(q, paths)
    ensures Built(q, ans).run.Some? && RepoOf(PartsOf(q), ans) == ""
  {
    SkillsPlanSucceeds(q, paths.codexDir, SkillTools(paths), hs, ps, link);
    NothingToAsk(PartsOf(q), ans);
  }

  /** The guards of the registry say nothing of mounts that are not registered:
      with the skills inside the shared directory they let the root through, and
      it replaces the writable mount of the whole shared directory by a
      read-only one in the run that planning returns. */
  lemma {:induction false} CoverageIsNotVisibility(
    q: Request, ans: Answers, hs: Paths.Names, ps: Paths.Names, link: Link)
    requires SkillsInSharedDirectory(q, hs, ps, link)
    ensures Built(q, ans).run.Some?
    ensures var paths := NewHostPaths(q.home, q.cfg.shareHostClaude);
            var before := MountsBefore(q, paths, "");
            var root := Mount(paths.claudeContained, paths.claudeContained, ReadOnly);
            && MountsRoot(Registered(q), SkillTools(paths), q.facts.skills)
            && before + [root] <= RunMounts(Built(q, ans).run.value.args)
            && !KeepsMounted(before, before + [root])
  {
    var paths := NewHostPaths(q.home, q.cfg.shareHostClaude);
    SharedDirectoryIs(q, hs, ps, link);
    SharedDirectoryName(hs);
    ToolsAre(q.home, q.cfg.shareHostClaude);
    GuardsPass(q, paths.codexDir, SkillTools(paths), hs, ps, link);
    RunsWithRoot(q, ans, paths, hs, ps, link);
    RootHidesNothingIff(q, ans);
    RootAtSharedDirectory(q, paths, "");
  }
}
