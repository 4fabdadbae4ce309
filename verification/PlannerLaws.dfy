/** What planning with more answers, and running a plan up to a crash, keeps. */
module PlannerLaws {
  import opened Text
  import opened Paths
  import opened Mounts
  import opened HostFiles
  import opened Planner
  import AccountState
  import SharedSkills
  import SharedSkillsLaws

  // ---- More answers only extend the plan -----------------------------------------------------

  ghost predicate Extends(ans: Answers, more: Answers) {
    forall k :: k in ans ==> k in more && more[k] == ans[k]
  }

  /** The later plan continues the earlier one, and is the same one unless that
      was waiting for an answer. */
  ghost predicate Continues(p: Program, later: Program) {
    p.steps <= later.steps && (p.pending.None? ==> later == p)
  }

  lemma {:induction false} MountsContinue(parts: Parts, ans: Answers, more: Answers, done: seq<Step>, args: seq<Arg>)
    requires Extends(ans, more)
    ensures Continues(AfterMounts(parts, ans, done, args), AfterMounts(parts, more, done, args))
    ensures done <= AfterMounts(parts, more, done, args).steps
  {
  }

  lemma {:induction false} LocksContinue(parts: Parts, ans: Answers, more: Answers, done: seq<Step>, repo: string)
    requires Extends(ans, more)
    ensures Continues(AfterLocks(parts, ans, done, repo), AfterLocks(parts, more, done, repo))
    ensures done <= AfterLocks(parts, more, done, repo).steps
  {
    var steps := done + parts.forwards + parts.account + parts.shared.steps;
    MountsContinue(parts, ans, more, steps, parts.argsFor(repo) + MountArgs(parts.shared.args));
  }

  lemma {:induction false} GitContinues(parts: Parts, ans: Answers, more: Answers, done: seq<Step>, repo: string)
    requires Extends(ans, more)
    ensures Continues(AfterGit(parts, ans, done, repo), AfterGit(parts, more, done, repo))
  {
    var steps, c := done + parts.names, LockCandidates(parts, repo);
    if c.repo == "" || c.hidden == [] {
      LocksContinue(parts, ans, more, steps, repo);
    } else {
      var noted := steps + [Print(HiddenFound(|c.hidden|, c.repo), false)];
      LocksContinue(parts, ans, more, noted, repo);
      LocksContinue(parts, ans, more, noted + [WorktreeAutoLock(c.repo, c.hidden, parts.owner)], repo);
    }
  }

  lemma {:induction false} GitKeepsDone(parts: Parts, ans: Answers, done: seq<Step>, repo: string)
    ensures done <= AfterGit(parts, ans, done, repo).steps
  {
    var steps, c := done + parts.names, LockCandidates(parts, repo);
    var noted := steps + [Print(HiddenFound(|c.hidden|, c.repo), false)];
    LocksContinue(parts, ans, ans, steps, repo);
    LocksContinue(parts, ans, ans, noted, repo);
    LocksContinue(parts, ans, ans, noted + [WorktreeAutoLock(c.repo, c.hidden, parts.owner)], repo);
  }

  lemma {:induction false} PartsContinue(parts: Parts, ans: Answers, more: Answers)
    requires Extends(ans, more)
    ensures Continues(Asked(parts, ans), Asked(parts, more))
  {
    var repo := parts.worktreeRepo;
    if repo == "" {
      GitContinues(parts, ans, more, [], "");
    } else if parts.worktreeMode {
      GitContinues(parts, ans, more, [Print(WorktreeMounted(repo), false)], repo);
    } else if WorktreeGit in more {
      var found, mounted := [Print(WorktreeFound(repo), false)], if more[WorktreeGit] then repo else "";
      GitContinues(parts, ans, more, found, mounted);
      GitKeepsDone(parts, more, found, mounted);
    }
  }

  /** Build with more answers re-emits the same steps and goes on from there. */
  lemma {:induction false} MoreAnswersContinue(q: Request, ans: Answers, more: Answers)
    requires Extends(ans, more)
    ensures Continues(Built(q, ans), Built(q, more))
  {
    PartsContinue(PartsOf(q), ans, more);
  }

  /** How a plan ends: waiting for an answer that is not there yet, with a run,
      or with the error of the skills plan. */
  ghost predicate WellEnded(error: Option<SharedSkills.Error>, ans: Answers, p: Program) {
    && (p.pending.Some? ==> p.pending.value !in ans && p.run.None? && p.error.None?)
    && (p.pending.None? ==> (p.run.Some? <==> p.error.None?))
    && (p.error.Some? ==> p.error == error)
  }

  lemma {:induction false} PartsEndWell(parts: Parts, ans: Answers)
    ensures WellEnded(parts.shared.error, ans, Asked(parts, ans))
  {
  }

  /** Build ends in exactly one of three ways, and asks only what is not yet
      answered. */
  lemma {:induction false} BuildEndsWell(q: Request, ans: Answers)
    ensures WellEnded(SkillsPlan(q, NewHostPaths(q.home, q.cfg.shareHostClaude)).error, ans, Built(q, ans))
  {
    PartsEndWell(PartsOf(q), ans);
  }

  // ---- No step but the account's own touches the account ------------------------------------------

  const ACCOUNT_FILE := ".claude.json"

  /** Neither account path is at or above the directory. */
  ghost predicate Clear(h: AccountState.Home, dir: string) {
    h.claudeJSON !in Above(dir) && h.sharedClaudeJSON !in Above(dir)
  }

  /** A directory outside the account file. */
  ghost predicate AwayFrom(h: AccountState.Home, dir: string) {
    !PathIsAtOrUnder(Clean(dir), h.claudeJSON) && !PathIsAtOrUnder(Clean(dir), h.sharedClaudeJSON)
  }

  lemma {:induction false} AboveIsPrefix(cs: Paths.Names, x: string)
    requires IsPlain(cs) && x in Above(Render(cs))
    ensures exists k :: 0 <= k <= |cs| && x == Render(cs[..k])
  {
    if x == Render(cs) {
      assert cs[..|cs|] == cs;
    } else {
      DirOfRender(cs);
      AboveIsPrefix(Parent(cs), x);
      var k :| 0 <= k <= |Parent(cs)| && x == Render(Parent(cs)[..k]);
      assert Parent(cs)[..k] == cs[..k];
    }
  }

  lemma {:induction false} LastComponent(file: Paths.Names, base: Paths.Names, further: Paths.Names)
    requires file != [] && file <= base + further
    ensures file <= base || file[|file| - 1] in further
  {
    var n := |file| - 1;
    if n < |base| {
      assert file == (base + further)[..n + 1] == base[..n + 1];
    } else {
      assert file[n] == (base + further)[n] == further[n - |base|];
    }
  }

  /** The account file below `top` is not above a directory below `base` unless
      it is above `base`, if no further component has its name. */
  lemma {:induction false} FileNotAbove(top: Paths.Names, base: Paths.Names, further: Paths.Names)
    requires IsPlain(top + [ACCOUNT_FILE]) && IsPlain(base + further)
    requires ACCOUNT_FILE !in further && !(top + [ACCOUNT_FILE] <= base)
    ensures Render(top + [ACCOUNT_FILE]) !in Above(Render(base + further))
  {
    var file, dir := top + [ACCOUNT_FILE], base + further;
    if Render(file) in Above(Render(dir)) {
      AboveIsPrefix(dir, Render(file));
      var k :| 0 <= k <= |dir| && Render(file) == Render(dir[..k]);
      assert AreNames(dir[..k]);
      RenderInjective(file, dir[..k]);
      LastComponent(file, base, further);
    }
  }

  /** Where the account is, by components below the home directory. */
  ghost predicate AccountAt(h: AccountState.Home, home: Paths.Names) {
    && IsPlain(home + [ACCOUNT_FILE]) && IsPlain(home + [".claude-contained"] + [ACCOUNT_FILE])
    && h.claudeJSON == Render(home + [ACCOUNT_FILE])
    && h.sharedClaudeJSON == Render(home + [".claude-contained"] + [ACCOUNT_FILE])
  }

  lemma {:induction false} AccountPaths(home: string, shareHostClaude: bool)
    ensures AccountAt(NewHostPaths(home, shareHostClaude).account, CleanNames(home))
  {
    JoinedIs(home, ACCOUNT_FILE);
    JoinedIs(home, ".claude-contained");
    JoinedIs(Joined(home, ".claude-contained"), ACCOUNT_FILE);
  }

  lemma {:induction false} BelowHomeIsClear(h: AccountState.Home, home: Paths.Names, further: Paths.Names)
    requires AccountAt(h, home) && IsPlain(home + further) && ACCOUNT_FILE !in further
    ensures Clear(h, Render(home + further))
  {
    FileNotAbove(home, home, further);
    FileNotAbove(home + [".claude-contained"], home, further);
  }

  lemma {:induction false} BelowPlaceIsClear(
    h: AccountState.Home, home: Paths.Names, place: string, further: Paths.Names)
    requires AccountAt(h, home) && AwayFrom(h, place)
    requires IsPlain(CleanNames(place) + further) && ACCOUNT_FILE !in further
    ensures Clear(h, Render(CleanNames(place) + further))
  {
    var base := CleanNames(place);
    NormalizeIsPlain(Components(place));
    RenderedAtOrUnder(base, home + [ACCOUNT_FILE]);
    RenderedAtOrUnder(base, home + [".claude-contained"] + [ACCOUNT_FILE]);
    FileNotAbove(home, base, further);
    FileNotAbove(home + [".claude-contained"], base, further);
  }

  predicate OtherName(name: string) {
    IsPlain([name]) && name != ACCOUNT_FILE
  }

  lemma {:induction false} TwoBelow(place: string, name: string, below: string)
    requires IsPlain([name]) && IsPlain([below])
    ensures IsPlain(CleanNames(place) + [name, below])
    ensures Joined(Joined(place, name), below) == Render(CleanNames(place) + [name, below])
    ensures CleanNames(Joined(Joined(place, name), below)) == CleanNames(place) + [name, below]
  {
    JoinedIs(place, name);
    JoinedIs(Joined(place, name), below);
    assert CleanNames(place) + [name] + [below] == CleanNames(place) + [name, below];
  }

  lemma {:induction false} OneBelowHome(h: AccountState.Home, home: string, name: string)
    requires AccountAt(h, CleanNames(home)) && OtherName(name)
    ensures Clear(h, Joined(home, name))
  {
    JoinedIs(home, name);
    BelowHomeIsClear(h, CleanNames(home), [name]);
  }

  lemma {:induction false} TwoBelowHome(h: AccountState.Home, home: string, name: string, below: string)
    requires AccountAt(h, CleanNames(home)) && OtherName(name) && OtherName(below)
    ensures Clear(h, Joined(Joined(home, name), below))
  {
    TwoBelow(home, name, below);
    BelowHomeIsClear(h, CleanNames(home), [name, below]);
  }

  lemma {:induction false} ThreeBelow(place: string, a: string, b: string, c: string)
    requires IsPlain([a]) && IsPlain([b]) && IsPlain([c])
    ensures IsPlain(CleanNames(place) + [a, b, c])
    ensures Joined(Joined(Joined(place, a), b), c) == Render(CleanNames(place) + [a, b, c])
  {
    TwoBelow(place, a, b);
    JoinedIs(Joined(Joined(place, a), b), c);
    assert CleanNames(place) + [a, b] + [c] == CleanNames(place) + [a, b, c];
  }

  lemma {:induction false} ThreeBelowHome(h: AccountState.Home, home: string, a: string, b: string, c: string)
    requires AccountAt(h, CleanNames(home)) && OtherName(a) && OtherName(b) && OtherName(c)
    ensures Clear(h, Joined(Joined(Joined(home, a), b), c))
  {
    ThreeBelow(home, a, b, c);
    BelowHomeIsClear(h, CleanNames(home), [a, b, c]);
  }

  lemma {:induction false} TwoBelowPlace(
    h: AccountState.Home, home: Paths.Names, place: string, name: string, below: string)
    requires AccountAt(h, home) && AwayFrom(h, place) && OtherName(name) && OtherName(below)
    ensures Clear(h, Joined(Joined(place, name), below))
  {
    TwoBelow(place, name, below);
    BelowPlaceIsClear(h, home, place, [name, below]);
  }

  lemma {:induction false} ThreeBelowPlace(
    h: AccountState.Home, home: Paths.Names, place: string, a: string, b: string, c: string)
    requires AccountAt(h, home) && AwayFrom(h, place) && OtherName(a) && OtherName(b) && OtherName(c)
    ensures Clear(h, Joined(Joined(Joined(place, a), b), c))
  {
    ThreeBelow(place, a, b, c);
    BelowPlaceIsClear(h, home, place, [a, b, c]);
  }

  ghost predicate HomePathsClear(h: AccountState.Home, paths: HostPaths) {
    ClaudePathsClear(h, paths) && ToolPathsClear(h, paths)
  }

  ghost predicate ClaudePathsClear(h: AccountState.Home, paths: HostPaths) {
    Clear(h, paths.claudeDir) && Clear(h, paths.claudeContained) && Clear(h, paths.claudeProfileDir)
  }

  ghost predicate ToolPathsClear(h: AccountState.Home, paths: HostPaths) {
    && Clear(h, paths.codexDir) && Clear(h, paths.geminiDir) && Clear(h, paths.copilotDir)
    && Clear(h, paths.vibeDir) && Clear(h, paths.agentsDir)
  }

  ghost predicate ResourcePathsClear(h: AccountState.Home, paths: HostPaths) {
    forall r :: r in RESOURCES ==> ResourcePathClear(h, paths, r)
  }

  ghost predicate ResourcePathClear(h: AccountState.Home, paths: HostPaths, r: string) {
    Clear(h, Joined(paths.claudeDir, r)) && Clear(h, Joined(paths.claudeProfileDir, r))
  }

  ghost predicate PlacePathsClear(h: AccountState.Home, q: Request) {
    && Clear(h, Joined(ZellijRoot(q), "data")) && Clear(h, Joined(ZellijRoot(q), "cache"))
    && (forall dir :: dir in q.facts.overlayDirs ==> Clear(h, OverlayDir(q, dir)))
  }

  /** Every directory that a plan can ask for is clear of the account. */
  ghost predicate PathsClear(q: Request, paths: HostPaths) {
    && HomePathsClear(paths.account, paths)
    && ResourcePathsClear(paths.account, paths)
    && PlacePathsClear(paths.account, q)
  }

  /** The directories that the user chose are not inside the account file. */
  ghost predicate PlacesAreDirectories(q: Request) {
    var h := NewHostPaths(q.home, q.cfg.shareHostClaude).account;
    && AwayFrom(h, q.facts.projectDir)
    && (forall dir :: dir in q.facts.overlayDirs ==> AwayFrom(h, dir))
    && '/' !in q.arch
  }

  lemma {:induction false} ResourceNames(r: string)
    requires r in RESOURCES
    ensures OtherName(r)
  {
    assert r in {"skills", "agents", "commands", "plugins"};
  }

  lemma {:induction false} ClaudeDirsClear(h: AccountState.Home, home: string, shareHostClaude: bool)
    requires AccountAt(h, CleanNames(home))
    ensures ClaudePathsClear(h, NewHostPaths(home, shareHostClaude))
  {
    OneBelowHome(h, home, ".claude");
    OneBelowHome(h, home, ".claude-contained");
    TwoBelowHome(h, home, ".claude-contained", "claude");
  }

  lemma {:induction false} ToolDirsClear(h: AccountState.Home, home: string, shareHostClaude: bool)
    requires AccountAt(h, CleanNames(home))
    ensures ToolPathsClear(h, NewHostPaths(home, shareHostClaude))
  {
    OneBelowHome(h, home, ".codex");
    OneBelowHome(h, home, ".gemini");
    OneBelowHome(h, home, ".copilot");
    OneBelowHome(h, home, ".vibe");
    OneBelowHome(h, home, ".agents");
  }

  lemma {:induction false} ResourceDirClear(h: AccountState.Home, home: string, shareHostClaude: bool, r: string)
    requires AccountAt(h, CleanNames(home)) && OtherName(r)
    ensures ResourcePathClear(h, NewHostPaths(home, shareHostClaude), r)
  {
    FixedNames();
    TwoBelowHome(h, home, ".claude", r);
    ThreeBelowHome(h, home, ".claude-contained", "claude", r);
  }

  lemma {:induction false} ResourceDirsClear(h: AccountState.Home, home: string, shareHostClaude: bool)
    requires AccountAt(h, CleanNames(home))
    ensures ResourcePathsClear(h, NewHostPaths(home, shareHostClaude))
  {
    forall r | r in RESOURCES
      ensures ResourcePathClear(h, NewHostPaths(home, shareHostClaude), r)
    {
      ResourceNames(r);
      ResourceDirClear(h, home, shareHostClaude, r);
    }
  }

  lemma {:induction false} FixedNames()
    ensures OtherName(".claude") && OtherName(".claude-contained") && OtherName("claude")
    ensures OtherName("zellij") && OtherName("data") && OtherName("cache")
  {
  }

  lemma {:induction false} OverlayNameIsOther(arch: string)
    requires '/' !in arch
    ensures OtherName("node_modules-linux-" + arch)
  {
    var name := "node_modules-linux-" + arch;
    assert name[0] == 'n';
    assert name != "." && name != "..";
  }

  lemma {:induction false} ZellijClear(h: AccountState.Home, home: Paths.Names, q: Request, below: string)
    requires AccountAt(h, home) && AwayFrom(h, q.facts.projectDir) && OtherName(below)
    ensures Clear(h, Joined(ZellijRoot(q), below))
  {
    FixedNames();
    ThreeBelowPlace(h, home, q.facts.projectDir, ".claude-contained", "zellij", below);
  }

  lemma {:induction false} OverlayClear(h: AccountState.Home, home: Paths.Names, q: Request, dir: string)
    requires AccountAt(h, home) && AwayFrom(h, dir) && '/' !in q.arch
    ensures Clear(h, OverlayDir(q, dir))
  {
    FixedNames();
    OverlayNameIsOther(q.arch);
    TwoBelowPlace(h, home, dir, ".claude-contained", "node_modules-linux-" + q.arch);
  }

  lemma {:induction false} PlacesClear(h: AccountState.Home, home: Paths.Names, q: Request)
    requires AccountAt(h, home) && AwayFrom(h, q.facts.projectDir) && '/' !in q.arch
    requires forall dir :: dir in q.facts.overlayDirs ==> AwayFrom(h, dir)
    ensures PlacePathsClear(h, q)
  {
    FixedNames();
    ZellijClear(h, home, q, "data");
    ZellijClear(h, home, q, "cache");
    forall dir | dir in q.facts.overlayDirs
      ensures Clear(h, OverlayDir(q, dir))
    {
      OverlayClear(h, home, q, dir);
    }
  }

  lemma {:induction false} AllPathsClear(q: Request)
    requires PlacesAreDirectories(q)
    ensures PathsClear(q, NewHostPaths(q.home, q.cfg.shareHostClaude))
  {
    var h := NewHostPaths(q.home, q.cfg.shareHostClaude).account;
    AccountPaths(q.home, q.cfg.shareHostClaude);
    ClaudeDirsClear(h, q.home, q.cfg.shareHostClaude);
    ToolDirsClear(h, q.home, q.cfg.shareHostClaude);
    ResourceDirsClear(h, q.home, q.cfg.shareHostClaude);
    PlacesClear(h, CleanNames(q.home), q);
  }

  // ---- The shape of a plan, and what stopping it anywhere keeps -------------------------------------

  /** A step that prints or makes a directory, which, if `clear` is asked for,
      is clear of the account. */
  ghost predicate StepQuiet(h: AccountState.Home, clear: bool, step: Step) {
    step.Print? || (step.MkdirAll? && (clear ==> Clear(h, step.path)))
  }

  ghost predicate Quiet(h: AccountState.Home, clear: bool, steps: seq<Step>) {
    forall i :: 0 <= i < |steps| ==> StepQuiet(h, clear, steps[i])
  }

  lemma {:induction false} QuietAppend(h: AccountState.Home, clear: bool, a: seq<Step>, b: seq<Step>)
    requires Quiet(h, clear, a) && Quiet(h, clear, b)
    ensures Quiet(h, clear, a + b)
  {
  }

  lemma {:induction false} ResourcesQuiet(h: AccountState.Home, clear: bool, paths: HostPaths, resources: seq<string>)
    requires clear ==> forall r :: r in resources ==> ResourcePathClear(h, paths, r)
    ensures Quiet(h, clear, ResourceDirs(paths, resources))
  {
    if resources != [] {
      ResourcesQuiet(h, clear, paths, resources[..|resources| - 1]);
      assert clear ==> ResourcePathClear(h, paths, resources[|resources| - 1]);
    }
  }

  lemma {:induction false} HomeStepsQuiet(h: AccountState.Home, clear: bool, paths: HostPaths)
    requires clear ==> HomePathsClear(h, paths)
    ensures Quiet(h, clear, HomeDirs(paths))
  {
  }

  lemma {:induction false} ZellijStepsQuiet(h: AccountState.Home, clear: bool, q: Request)
    requires clear ==> PlacePathsClear(h, q)
    ensures Quiet(h, clear, ZellijDirs(q))
  {
  }

  lemma {:induction false} DirectoriesQuiet(q: Request, clear: bool, paths: HostPaths)
    requires clear ==> PathsClear(q, paths)
    ensures Quiet(paths.account, clear, Directories(q, paths))
  {
    var h := paths.account;
    ResourcesQuiet(h, clear, paths, RESOURCES);
    HomeStepsQuiet(h, clear, paths);
    ZellijStepsQuiet(h, clear, q);
    QuietAppend(h, clear, HomeDirs(paths), ZellijDirs(q));
    QuietAppend(h, clear, HomeDirs(paths) + ZellijDirs(q), ResourceDirs(paths, RESOURCES));
  }

  lemma {:induction false} ForwardsQuiet(h: AccountState.Home, clear: bool, q: Request, lines: seq<string>)
    ensures Quiet(h, clear, Forwards(q, lines))
  {
    if lines != [] && q.cfg.forwardsHostPorts {
      ForwardsQuiet(h, clear, q, lines[..|lines| - 1]);
    }
  }

  lemma {:induction false} OverlaysQuiet(h: AccountState.Home, clear: bool, q: Request, dirs: seq<string>)
    requires clear ==> forall dir :: dir in dirs ==> Clear(h, OverlayDir(q, dir))
    ensures Quiet(h, clear, OverlaySteps(q, dirs))
  {
    if dirs != [] {
      OverlaysQuiet(h, clear, q, dirs[..|dirs| - 1]);
    }
  }

  lemma {:induction false} AddQuiet(
    h: AccountState.Home, clear: bool, p: SharedSkills.Plan, src: string, dst: string, allowCover: bool, what: string)
    requires Quiet(h, clear, p.steps)
    ensures Quiet(h, clear, SharedSkills.Add(p, src, dst, allowCover, what).steps)
  {
  }

  lemma {:induction false} ToolsQuiet(
    h: AccountState.Home, clear: bool, p: SharedSkills.Plan, dir: string, tools: seq<SharedSkills.Tool>)
    requires Quiet(h, clear, p.steps)
    requires clear ==> forall i :: 0 <= i < |tools| ==> Clear(h, tools[i].dstParent)
    ensures Quiet(h, clear, SharedSkills.AddTools(p, dir, tools).steps)
  {
    if tools != [] {
      var before, tool := SharedSkills.AddTools(p, dir, tools[..|tools| - 1]), tools[|tools| - 1];
      ToolsQuiet(h, clear, p, dir, tools[..|tools| - 1]);
      if before.error.None? {
        AddQuiet(h, clear, before.(steps := before.steps + [MkdirAll(tool.dstParent)]), dir, tool.dst, false, "skills");
      }
    }
  }

  lemma {:induction false} ReplayQuiet(
    h: AccountState.Home, clear: bool, p: SharedSkills.Plan, links: seq<SharedSkills.Link>)
    requires Quiet(h, clear, p.steps)
    ensures Quiet(h, clear, SharedSkills.Replay(p, links).steps)
  {
    if links != [] {
      var before, link := SharedSkills.Replay(p, links[..|links| - 1]), links[|links| - 1];
      ReplayQuiet(h, clear, p, links[..|links| - 1]);
      AddQuiet(
        h, clear, before, SharedSkills.MountPath(link), SharedSkills.MountPath(link), true, SharedSkills.Label(link));
    }
  }

  lemma {:induction false} BeforeReplayQuiet(
    h: AccountState.Home, clear: bool, reg: Registry, tools: seq<SharedSkills.Tool>, codexDir: string,
    ss: SharedSkills.Skills)
    requires clear ==> forall i :: 0 <= i < |tools| ==> Clear(h, tools[i].dstParent)
    ensures Quiet(h, clear, SharedSkills.BeforeReplay(reg, tools, codexDir, ss).steps)
  {
    var p0 := SharedSkills.Plan(reg, [], [], None);
    ToolsQuiet(h, clear, p0, ss.dir, tools);
    var p1, root := SharedSkills.AddTools(p0, ss.dir, tools), SharedSkills.TargetRoot(ss);
    AddQuiet(h, clear, p1, root, root, true, "shared skills target root");
    var p2 := SharedSkills.AddRoot(p1, ss);
    AddQuiet(h, clear, p2, ss.dir, ss.dir, true, "shared skills source");
    var p3 := SharedSkills.Add(p2, ss.dir, ss.dir, true, "shared skills source");
    var system := SharedSkills.SystemDir(codexDir);
    AddQuiet(h, clear, p3, system, system, false, "Codex system skills");
  }

  lemma {:induction false} PlannedQuiet(
    h: AccountState.Home, clear: bool, reg: Registry, tools: seq<SharedSkills.Tool>, codexDir: string,
    ss: SharedSkills.Skills, remountNeedsMountpoint: bool)
    requires clear ==> forall i :: 0 <= i < |tools| ==> Clear(h, tools[i].dstParent)
    ensures Quiet(h, clear, SharedSkills.Planned(reg, tools, codexDir, ss, remountNeedsMountpoint).steps)
  {
    BeforeReplayQuiet(h, clear, reg, tools, codexDir, ss);
    ReplayQuiet(h, clear, SharedSkills.BeforeReplay(reg, tools, codexDir, ss), ss.links);
  }

  lemma {:induction false} SkillsQuiet(q: Request, clear: bool, paths: HostPaths)
    requires clear ==> PathsClear(q, paths)
    ensures Quiet(paths.account, clear, SkillsPlan(q, paths).steps)
  {
    ToolParentsClear(paths.account, clear, paths);
    PlannedQuiet(
      paths.account, clear, Registered(q), SkillTools(paths), paths.codexDir, q.facts.skills, q.remountNeedsMountpoint);
  }

  lemma {:induction false} ToolParentsClear(h: AccountState.Home, clear: bool, paths: HostPaths)
    requires clear ==> HomePathsClear(h, paths)
    ensures clear ==> forall i :: 0 <= i < |SkillTools(paths)| ==> Clear(h, SkillTools(paths)[i].dstParent)
  {
  }

  /** All parts of a plan but the account's are quiet. */
  ghost predicate PartsQuiet(h: AccountState.Home, clear: bool, parts: Parts) {
    && Quiet(h, clear, parts.names) && Quiet(h, clear, parts.forwards)
    && Quiet(h, clear, parts.shared.steps) && Quiet(h, clear, parts.overlays)
  }

  lemma {:induction false} PartsOfAreQuiet(q: Request, clear: bool, paths: HostPaths)
    requires paths == NewHostPaths(q.home, q.cfg.shareHostClaude) && (clear ==> PathsClear(q, paths))
    ensures PartsQuiet(paths.account, clear, PartsOf(q))
  {
    var h := paths.account;
    DirectoriesQuiet(q, clear, paths);
    QuietAppend(h, clear, Directories(q, paths), NameNotice(q));
    ForwardsQuiet(h, clear, q, q.hostForwardNotice);
    SkillsQuiet(q, clear, paths);
    OverlaysQuiet(h, clear, q, q.facts.overlayDirs);
  }

  /** The lock step that a plan can contain. */
  ghost predicate LocksHidden(parts: Parts, step: Step) {
    && step.WorktreeAutoLock? && step.repo != "" && step.owner == parts.owner
    && (step.worktrees == parts.locks.hidden || step.worktrees == parts.locksWithGitMount.hidden)
  }

  /** A plan's steps: quiet ones, then, unless planning stops before it, at most
      one lock step, the host-forward notices, the account's steps, and quiet
      ones again. */
  ghost predicate Shaped(
    h: AccountState.Home, clear: bool, parts: Parts, steps: seq<Step>,
    first: seq<Step>, locks: seq<Step>, rest: seq<Step>)
  {
    && Quiet(h, clear, first) && Quiet(h, clear, rest)
    && |locks| <= 1 && (locks != [] ==> LocksHidden(parts, locks[0]))
    && (steps == first || steps == first + locks + parts.forwards + parts.account + rest)
  }

  /** The plan has come past the lock offer, and so to the account's steps. */
  predicate PastLocks(p: Program) {
    p.pending.None? || p.pending == Some(NodeModules)
  }

  lemma {:induction false} ShapeAfterLocks(
    h: AccountState.Home, clear: bool, parts: Parts, ans: Answers, done: seq<Step>, repo: string)
    returns (rest: seq<Step>)
    requires PartsQuiet(h, clear, parts)
    ensures Quiet(h, clear, rest)
    ensures AfterLocks(parts, ans, done, repo).steps == done + parts.forwards + parts.account + rest
  {
    var base, shared := done + parts.forwards + parts.account, parts.shared.steps;
    QuietAppend(h, clear, shared, parts.overlays);
    Reassociate(base, shared, parts.overlays);
    rest := if AfterLocks(parts, ans, done, repo).steps == base + shared then shared else shared + parts.overlays;
  }

  lemma {:induction false} ShapeAfterGit(
    h: AccountState.Home, clear: bool, parts: Parts, ans: Answers, done: seq<Step>, repo: string)
    returns (first: seq<Step>, locks: seq<Step>, rest: seq<Step>)
    requires PartsQuiet(h, clear, parts) && Quiet(h, clear, done)
    ensures Shaped(h, clear, parts, AfterGit(parts, ans, done, repo).steps, first, locks, rest)
    ensures PastLocks(AfterGit(parts, ans, done, repo)) ==>
              AfterGit(parts, ans, done, repo).steps == first + locks + parts.forwards + parts.account + rest
  {
    QuietAppend(h, clear, done, parts.names);
    var c := LockCandidates(parts, repo);
    first, locks, rest := done + parts.names, [], [];
    if c.repo == "" || c.hidden == [] {
      assert first + locks == first;
      rest := ShapeAfterLocks(h, clear, parts, ans, first, repo);
    } else {
      first := first + [Print(HiddenFound(|c.hidden|, c.repo), false)];
      if parts.locksUnasked || WorktreeLocks in ans {
        if parts.locksUnasked || ans[WorktreeLocks] {
          locks := [WorktreeAutoLock(c.repo, c.hidden, parts.owner)];
        }
        assert locks == [] ==> first + locks == first;
        rest := ShapeAfterLocks(h, clear, parts, ans, first + locks, repo);
      }
    }
  }

  lemma {:induction false} ShapeOfPlan(h: AccountState.Home, clear: bool, parts: Parts, ans: Answers)
    returns (first: seq<Step>, locks: seq<Step>, rest: seq<Step>)
    requires PartsQuiet(h, clear, parts)
    ensures Shaped(h, clear, parts, Asked(parts, ans).steps, first, locks, rest)
    ensures PastLocks(Asked(parts, ans)) ==>
              Asked(parts, ans).steps == first + locks + parts.forwards + parts.account + rest
  {
    var repo := parts.worktreeRepo;
    if repo == "" {
      first, locks, rest := ShapeAfterGit(h, clear, parts, ans, [], "");
    } else if parts.worktreeMode {
      first, locks, rest := ShapeAfterGit(h, clear, parts, ans, [Print(WorktreeMounted(repo), false)], repo);
    } else if WorktreeGit !in ans {
      first, locks, rest := [Print(WorktreeFound(repo), false)], [], [];
    } else {
      first, locks, rest :=
        ShapeAfterGit(h, clear, parts, ans, [Print(WorktreeFound(repo), false)], if ans[WorktreeGit] then repo else "");
    }
  }

  /** What the account needs to be moved safely, at the time of the probe. */
  ghost predicate Movable(q: Request, fs: Files) {
    var home := NewHostPaths(q.home, q.cfg.shareHostClaude).account;
    && AccountState.Standard(fs, home)
    && (q.facts.gitConfigExists ==> AccountState.ConfigElsewhere(fs, home))
    && q.facts.account == AccountState.Probe(fs, home)
  }

  /** Wherever a run of any plan stops, at a question, a failing step or a
      crash, the account is at one of its two paths. */
  lemma {:induction false} PlanIsCrashSafe(q: Request, ans: Answers, fs: Files, k: nat)
    requires PlacesAreDirectories(q) && Movable(q, fs)
    requires k <= |Built(q, ans).steps|
    ensures AccountState.Kept(
              fs, Performed(fs, Built(q, ans).steps[..k]).0, NewHostPaths(q.home, q.cfg.shareHostClaude).account)
  {
    var paths := NewHostPaths(q.home, q.cfg.shareHostClaude);
    AllPathsClear(q);
    PartsOfAreQuiet(q, true, paths);
    PartsAreCrashSafe(paths.account, PartsOf(q), q.facts.gitConfigExists, ans, fs, k);
  }

  lemma {:induction false} PartsAreCrashSafe(
    home: AccountState.Home, parts: Parts, gitConfigExists: bool, ans: Answers, fs: Files, k: nat)
    requires PartsQuiet(home, true, parts) && k <= |Asked(parts, ans).steps|
    requires parts.account == AccountState.AccountSteps(home, gitConfigExists, AccountState.Probe(fs, home))
    requires AccountState.Standard(fs, home) && (gitConfigExists ==> AccountState.ConfigElsewhere(fs, home))
    ensures AccountState.Kept(fs, Performed(fs, Asked(parts, ans).steps[..k]).0, home)
  {
    var first, locks, rest := ShapeOfPlan(home, true, parts, ans);
    ShapeIsCrashSafe(home, parts, gitConfigExists, Asked(parts, ans).steps, first, locks, rest, fs, k);
  }

  lemma {:induction false} ShapeIsCrashSafe(
    home: AccountState.Home, parts: Parts, gitConfigExists: bool, steps: seq<Step>, first: seq<Step>, locks: seq<Step>,
    rest: seq<Step>, fs: Files, k: nat)
    requires Quiet(home, true, parts.forwards) && Shaped(home, true, parts, steps, first, locks, rest) && k <= |steps|
    requires parts.account == AccountState.AccountSteps(home, gitConfigExists, AccountState.Probe(fs, home))
    requires AccountState.Standard(fs, home) && (gitConfigExists ==> AccountState.ConfigElsewhere(fs, home))
    ensures AccountState.Kept(fs, Performed(fs, steps[..k]).0, home)
  {
    QuietElsewhere(home, first);
    QuietElsewhere(home, rest);
    QuietElsewhere(home, parts.forwards);
    if steps == first {
      AccountState.ElsewhereKeeps(fs, home, first[..k]);
    } else {
      var before := first + locks + parts.forwards;
      Reassociate(before, parts.account, rest);
      AccountState.CrashSafeInPlan(fs, home, gitConfigExists, before, parts.account, rest, k);
    }
  }

  lemma {:induction false} PartsSettle(
    home: AccountState.Home, parts: Parts, gitConfigExists: bool, ans: Answers, fs: Files)
    requires PartsQuiet(home, true, parts) && PastLocks(Asked(parts, ans))
    requires parts.account == AccountState.AccountSteps(home, gitConfigExists, AccountState.Probe(fs, home))
    requires AccountState.Standard(fs, home) && (gitConfigExists ==> AccountState.ConfigElsewhere(fs, home))
    requires Performed(fs, Asked(parts, ans).steps).1 == |Asked(parts, ans).steps|
    ensures AccountState.Settled(
              Performed(fs, Asked(parts, ans).steps).0, home, AccountState.Account(fs, home))
  {
    var first, locks, rest := ShapeOfPlan(home, true, parts, ans);
    QuietElsewhere(home, first);
    QuietElsewhere(home, rest);
    QuietElsewhere(home, parts.forwards);
    Reassociate(first + locks + parts.forwards, parts.account, rest);
    AccountState.SettlesInPlan(fs, home, gitConfigExists, first + locks + parts.forwards, parts.account, rest);
  }

  /** A run of any plan that comes to the end of its steps leaves the original
      path reading the account, and nothing for the next plan to migrate. */
  lemma {:induction false} PlanConverges(q: Request, ans: Answers, fs: Files)
    requires PlacesAreDirectories(q) && Movable(q, fs)
    requires PastLocks(Built(q, ans)) && Performed(fs, Built(q, ans).steps).1 == |Built(q, ans).steps|
    ensures var home := NewHostPaths(q.home, q.cfg.shareHostClaude).account;
            AccountState.Settled(Performed(fs, Built(q, ans).steps).0, home, AccountState.Account(fs, home))
  {
    var paths := NewHostPaths(q.home, q.cfg.shareHostClaude);
    AllPathsClear(q);
    PartsOfAreQuiet(q, true, paths);
    PartsSettle(paths.account, PartsOf(q), q.facts.gitConfigExists, ans, fs);
  }

  /** Stop the run of any plan anywhere, probe again, plan again, for whatever
      else has changed, and run that to its end: the original path reads the
      account that was there at first. */
  lemma {:induction false} PlanCrashThenRunAgain(
    q: Request, ans: Answers, fs: Files, k: nat, crashed: Files, q': Request, ans': Answers)
    requires PlacesAreDirectories(q) && Movable(q, fs)
    requires k <= |Built(q, ans).steps| && crashed == Performed(fs, Built(q, ans).steps[..k]).0
    requires PlacesAreDirectories(q') && q'.home == q.home
    requires var home := NewHostPaths(q.home, q.cfg.shareHostClaude).account;
             && q'.facts.account == AccountState.Probe(crashed, home)
             && (q'.facts.gitConfigExists ==> AccountState.ConfigElsewhere(fs, home))
    requires PastLocks(Built(q', ans')) && Performed(crashed, Built(q', ans').steps).1 == |Built(q', ans').steps|
    ensures var home := NewHostPaths(q.home, q.cfg.shareHostClaude).account;
            AccountState.Settled(Performed(crashed, Built(q', ans').steps).0, home, AccountState.Account(fs, home))
  {
    PlanIsCrashSafe(q, ans, fs, k);
    SameAccount(q.home, q.cfg.shareHostClaude, q'.cfg.shareHostClaude);
    PlanConverges(q', ans', crashed);
  }

  lemma {:induction false} SameAccount(home: string, one: bool, other: bool)
    ensures NewHostPaths(home, one).account == NewHostPaths(home, other).account
  {
  }

  lemma {:induction false} QuietElsewhere(home: AccountState.Home, steps: seq<Step>)
    requires Quiet(home, true, steps)
    ensures forall i :: 0 <= i < |steps| ==> AccountState.Elsewhere(steps[i], home)
  {
    forall i | 0 <= i < |steps|
      ensures AccountState.Elsewhere(steps[i], home)
    {
      assert StepQuiet(home, true, steps[i]);
    }
  }

  /** At most one lock step, by this owner and on one of these lists. */
  ghost predicate LockOnlyOnce(steps: seq<Step>, owner: string, list: seq<string>, other: seq<string>) {
    && (forall i :: 0 <= i < |steps| && steps[i].WorktreeAutoLock? ==>
          && steps[i].repo != "" && steps[i].owner == owner
          && (steps[i].worktrees == list || steps[i].worktrees == other))
    && (forall i, j :: 0 <= i < j < |steps| ==> !(steps[i].WorktreeAutoLock? && steps[j].WorktreeAutoLock?))
  }

  lemma {:induction false} PartsLockOnce(h: AccountState.Home, parts: Parts, ans: Answers)
    requires PartsQuiet(h, false, parts)
    requires forall i :: 0 <= i < |parts.account| ==> !parts.account[i].WorktreeAutoLock?
    ensures LockOnlyOnce(Asked(parts, ans).steps, parts.owner, parts.locks.hidden, parts.locksWithGitMount.hidden)
  {
    var first, locks, rest := ShapeOfPlan(h, false, parts, ans);
    ShapeLocksOnce(h, parts, Asked(parts, ans).steps, first, locks, rest);
  }

  lemma {:induction false} ShapeLocksOnce(
    h: AccountState.Home, parts: Parts, steps: seq<Step>, first: seq<Step>, locks: seq<Step>, rest: seq<Step>)
    requires Quiet(h, false, parts.forwards) && Shaped(h, false, parts, steps, first, locks, rest)
    requires forall i :: 0 <= i < |parts.account| ==> !parts.account[i].WorktreeAutoLock?
    ensures LockOnlyOnce(steps, parts.owner, parts.locks.hidden, parts.locksWithGitMount.hidden)
  {
    QuietLocksNothing(h, first);
    QuietLocksNothing(h, parts.forwards);
    QuietLocksNothing(h, rest);
    assert forall i :: 0 <= i < |steps| && steps[i].WorktreeAutoLock? ==> i == |first| && steps[i] == locks[0];
  }

  lemma {:induction false} QuietLocksNothing(h: AccountState.Home, steps: seq<Step>)
    requires Quiet(h, false, steps)
    ensures forall i :: 0 <= i < |steps| ==> !steps[i].WorktreeAutoLock?
  {
    forall i | 0 <= i < |steps|
      ensures !steps[i].WorktreeAutoLock?
    {
      assert StepQuiet(h, false, steps[i]);
    }
  }

  lemma {:induction false} AccountLocksNothing(home: AccountState.Home, gitConfigExists: bool, a: AccountState.Facts)
    ensures forall i :: 0 <= i < |AccountState.AccountSteps(home, gitConfigExists, a)| ==>
              !AccountState.AccountSteps(home, gitConfigExists, a)[i].WorktreeAutoLock?
  {
  }

  /** A plan locks at most once, one of the two candidate sets, in the name of
      the container it runs. */
  lemma {:induction false} LocksOnce(q: Request, ans: Answers)
    ensures LockOnlyOnce(
              Built(q, ans).steps, ContainerName(q), q.facts.locks.hidden, q.facts.locksWithGitMount.hidden)
  {
    var paths, parts := NewHostPaths(q.home, q.cfg.shareHostClaude), PartsOf(q);
    PartsOfAreQuiet(q, false, paths);
    AccountLocksNothing(paths.account, q.facts.gitConfigExists, q.facts.account);
    PartsLockOnce(paths.account, parts, ans);
  }

  // ---- The registry a plan reaches -------------------------------------------------------------------

  /** The registry that --share-skills is checked against satisfies what the
      laws of the skills planner ask of it. */
  lemma {:induction false} RegisteredIsReachable(q: Request)
    ensures Consistent(Registered(q)) && WritableAreParity(Registered(q))
  {
    UserMountsAreParity(q.facts.extras);
    forall rec | rec in Registered(q).All()
      ensures Parity(rec)
    {
      assert rec in UserMounts(q.facts.extras) || rec == Mount(q.facts.projectDir, q.facts.projectDir, ReadWrite);
    }
  }

  lemma {:induction false} UserMountsAreParity(extras: seq<Extra>)
    ensures forall rec :: rec in UserMounts(extras) ==> Parity(rec)
  {
    if extras != [] {
      UserMountsAreParity(extras[..|extras| - 1]);
    }
  }

  lemma {:induction false} MountArgsHold(mounts: seq<Mount>)
    ensures forall m :: m in mounts ==> Mounted(m) in MountArgs(mounts)
  {
    if mounts != [] {
      MountArgsHold(mounts[..|mounts| - 1]);
    }
  }

  /** What the registry believes to be mounted is mounted: every record of the
      final registry is an argument of the run. */
  ghost predicate Emits(run: RunSpec, reg: Registry) {
    forall rec :: rec in reg.All() ==> Mounted(rec) in run.args
  }

  /** Whatever is registered before the shared skills is among the arguments. */
  ghost predicate EmitsUsers(parts: Parts, users: seq<Mount>) {
    forall repo, rec :: rec in users ==> Mounted(rec) in parts.argsFor(repo)
  }

  lemma {:induction false} PartsEmit(parts: Parts, users: seq<Mount>, ans: Answers)
    requires parts.shared.reg == Registry(users, parts.shared.args) && EmitsUsers(parts, users)
    ensures var p := Asked(parts, ans); p.run.Some? ==> Emits(p.run.value, parts.shared.reg)
  {
    MountArgsHold(parts.shared.args);
    var p, git := Asked(parts, ans), WorktreeGit in ans && ans[WorktreeGit];
    var repo := if parts.worktreeMode || git then parts.worktreeRepo else "";
    var args := parts.argsFor(repo) + MountArgs(parts.shared.args);
    assert p.run.Some? ==> args <= p.run.value.args;
  }

  lemma {:induction false} SkillsPlanRegisters(q: Request, paths: HostPaths)
    ensures var shared := SkillsPlan(q, paths); shared.reg == Registry(Registered(q).user, shared.args)
  {
    RegisteredIsReachable(q);
    SharedSkillsLaws.RunIsConsistent(
      Registered(q), SkillTools(paths), paths.codexDir, q.facts.skills, q.remountNeedsMountpoint);
    var shared := SkillsPlan(q, paths);
    assert [] + shared.args == shared.args;
  }

  lemma {:induction false} UsersAreEmitted(q: Request)
    ensures EmitsUsers(PartsOf(q), Registered(q).user)
  {
    var paths, parts := NewHostPaths(q.home, q.cfg.shareHostClaude), PartsOf(q);
    MountArgsHold(UserMounts(q.facts.extras));
    forall repo, rec | rec in Registered(q).user
      ensures Mounted(rec) in parts.argsFor(repo)
    {
      assert parts.argsFor(repo) == FirstArgs(q, paths, repo) + MountArgs(UserMounts(q.facts.extras));
      assert AtParity(q.facts.projectDir) in FirstArgs(q, paths, repo);
    }
  }

  /** The registry is only bookkeeping, but it is right: whatever the answers,
      each mount it holds at the end of planning is a mount of the run. */
  lemma {:induction false} RegisteredIsMounted(q: Request, ans: Answers)
    ensures var p, reg := Built(q, ans), SkillsPlan(q, NewHostPaths(q.home, q.cfg.shareHostClaude)).reg;
            p.run.Some? ==> Emits(p.run.value, reg)
  {
    SkillsPlanRegisters(q, NewHostPaths(q.home, q.cfg.shareHostClaude));
    UsersAreEmitted(q);
    PartsEmit(PartsOf(q), Registered(q).user, ans);
  }
}
