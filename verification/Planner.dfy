/** The resumable planner (Build in internal/plan/plan.go). */
module Planner {
  import opened Text
  import opened Paths
  import opened Mounts
  import opened HostFiles
  import AccountState
  import EnvStore
  import Names
  import SharedSkills

  // ---- What a plan is made from -------------------------------------------------------

  datatype Question = WorktreeGit | WorktreeLocks | NodeModules

  type Answers = map<Question, bool>

  datatype Config = Config(
    worktreeMode: bool, shareHostClaude: bool, sharesSkills: bool, lockWorktrees: bool, containedNodeModules: bool,
    customContainerName: string, forwardsHostPorts: bool)

  datatype Candidates = Candidates(repo: string, hidden: seq<string>)

  datatype Extra = Extra(path: string, mode: Mode)

  datatype Facts = Facts(
    projectDir: string, extras: seq<Extra>, worktreeMainRepo: string,
    gitConfigExists: bool, account: AccountState.Facts,
    overlayDirs: seq<string>, overlayEmpty: set<string>, running: seq<string>, env: seq<EnvStore.Pair>,
    skills: SharedSkills.Skills, locks: Candidates, locksWithGitMount: Candidates, zellijSession: string,
    derivedImage: string, claudeContainedExists: bool)

  datatype Request = Request(
    cfg: Config, home: string, arch: string, hourMinute: string, facts: Facts,
    hostForwardNotice: seq<string>, remountNeedsMountpoint: bool)

  datatype Arg = Named(name: string) | Mounted(mount: Mount) | Env(key: string, value: string)

  datatype RunSpec = RunSpec(args: seq<Arg>, image: string)

  datatype Program = Program(
    steps: seq<Step>, pending: Option<Question>, run: Option<RunSpec>, error: Option<SharedSkills.Error>)

  const IMAGE := "claude-contained:latest"
  const EXPLICIT_KEYS_MARKER := "CLAUDE_CONTAINED_EXPLICIT_ENV_KEYS"
  const RESOURCES := ["skills", "agents", "commands", "plugins"]

  // ---- Host paths ------------------------------------------------------------------------

  /** The host locations that a plan mounts or changes. */
  datatype HostPaths = HostPaths(
    claudeContained: string, claudeDir: string, claudeProfileDir: string, containerClaudeDir: string,
    codexDir: string, geminiDir: string, copilotDir: string, vibeDir: string, agentsDir: string,
    account: AccountState.Home)

  function NewHostPaths(home: string, shareHostClaude: bool): HostPaths {
    var contained, claudeDir := Joined(home, ".claude-contained"), Joined(home, ".claude");
    HostPaths(
      contained, claudeDir, if shareHostClaude then claudeDir else Joined(contained, "claude"), claudeDir,
      Joined(home, ".codex"), Joined(home, ".gemini"), Joined(home, ".copilot"), Joined(home, ".vibe"),
      Joined(home, ".agents"),
      AccountState.Home(
        Joined(home, ".gitconfig"), Joined(contained, ".gitconfig"),
        Joined(home, ".claude.json"), Joined(contained, ".claude.json")))
  }

  function ZellijRoot(q: Request): string {
    Joined(Joined(q.facts.projectDir, ".claude-contained"), "zellij")
  }

  function ContainerName(q: Request): string {
    var custom := q.cfg.customContainerName;
    Names.FreeName(
      if custom != "" then custom else Names.GeneratedName(q.facts.projectDir, q.hourMinute), q.facts.running)
  }

  function SkillTools(paths: HostPaths): seq<SharedSkills.Tool> {
    [SharedSkills.Tool(paths.containerClaudeDir + "/skills", paths.claudeProfileDir),
     SharedSkills.Tool(paths.codexDir + "/skills", paths.codexDir),
     SharedSkills.Tool(paths.agentsDir + "/skills", paths.agentsDir),
     SharedSkills.Tool(paths.copilotDir + "/skills", paths.copilotDir),
     SharedSkills.Tool(paths.geminiDir + "/skills", paths.geminiDir),
     SharedSkills.Tool(paths.vibeDir + "/skills", paths.vibeDir)]
  }

  function UserMounts(extras: seq<Extra>): seq<Mount> {
    if extras == [] then []
    else
      var last := extras[|extras| - 1];
      UserMounts(extras[..|extras| - 1]) + [Mount(last.path, last.path, last.mode)]
  }

  /** The registry as --share-skills meets it. */
  function Registered(q: Request): Registry {
    Registry([Mount(q.facts.projectDir, q.facts.projectDir, ReadWrite)] + UserMounts(q.facts.extras), [])
  }

  function SkillsPlan(q: Request, paths: HostPaths): SharedSkills.Plan {
    if q.facts.skills.dir == "" then SharedSkills.Plan(Registered(q), [], [], None)
    else
      SharedSkills.Planned(Registered(q), SkillTools(paths), paths.codexDir, q.facts.skills, q.remountNeedsMountpoint)
  }

  // ---- The steps ----------------------------------------------------------------------------

  function ResourceDirs(paths: HostPaths, resources: seq<string>): seq<Step> {
    if resources == [] then []
    else
      var last := resources[|resources| - 1];
      ResourceDirs(paths, resources[..|resources| - 1])
      + [MkdirAll(Joined(paths.claudeDir, last)), MkdirAll(Joined(paths.claudeProfileDir, last))]
  }

  function HomeDirs(paths: HostPaths): seq<Step> {
    [MkdirAll(paths.claudeDir), MkdirAll(paths.claudeContained), MkdirAll(paths.claudeProfileDir),
     MkdirAll(paths.codexDir), MkdirAll(paths.copilotDir), MkdirAll(paths.geminiDir), MkdirAll(paths.vibeDir)]
  }

  function ZellijDirs(q: Request): seq<Step> {
    if q.facts.zellijSession == "" then []
    else [MkdirAll(Joined(ZellijRoot(q), "data")), MkdirAll(Joined(ZellijRoot(q), "cache"))]
  }

  function Directories(q: Request, paths: HostPaths): seq<Step> {
    HomeDirs(paths) + ZellijDirs(q) + if q.cfg.shareHostClaude then [] else ResourceDirs(paths, RESOURCES)
  }

  function NameNotice(q: Request): seq<Step> {
    var custom := q.cfg.customContainerName;
    if custom == "" then [] else [Print(CreatingNamed(TrimPrefix(custom, "aic-")), false)]
  }

  function Forwards(q: Request, lines: seq<string>): seq<Step> {
    if lines == [] || !q.cfg.forwardsHostPorts then []
    else Forwards(q, lines[..|lines| - 1]) + [Print(HostForward(lines[|lines| - 1]), true)]
  }

  function OverlayDir(q: Request, dir: string): string {
    Joined(Joined(dir, ".claude-contained"), "node_modules-linux-" + q.arch)
  }

  function OverlaySteps(q: Request, dirs: seq<string>): seq<Step> {
    if dirs == [] then []
    else
      var dir := dirs[|dirs| - 1];
      OverlaySteps(q, dirs[..|dirs| - 1]) + [MkdirAll(OverlayDir(q, dir))]
      + if dir in q.facts.overlayEmpty
        then [Print(OverlayCreated(OverlayDir(q, dir)), true), Print(OverlayHint, true)] else []
  }

  // ---- The arguments --------------------------------------------------------------------------

  function AtParity(path: string): Arg { Mounted(Mount(path, path, ReadWrite)) }

  function EnvArgs(env: seq<EnvStore.Pair>): seq<Arg> {
    if env == [] then [] else EnvArgs(env[..|env| - 1]) + [Env(env[|env| - 1].key, env[|env| - 1].value)]
  }

  function ResourceMounts(q: Request, paths: HostPaths, resources: seq<string>): seq<Arg> {
    if resources == [] then []
    else
      var before, last := ResourceMounts(q, paths, resources[..|resources| - 1]), resources[|resources| - 1];
      if last == "skills" && q.cfg.sharesSkills then before
      else before + [Mounted(Mount(Joined(paths.claudeDir, last), Joined(paths.containerClaudeDir, last), ReadWrite))]
  }

  function ExtraPaths(extras: seq<Extra>): seq<string> {
    if extras == [] then [] else ExtraPaths(extras[..|extras| - 1]) + [extras[|extras| - 1].path]
  }

  function MountArgs(mounts: seq<Mount>): seq<Arg> {
    if mounts == [] then [] else MountArgs(mounts[..|mounts| - 1]) + [Mounted(mounts[|mounts| - 1])]
  }

  /** Everything up to the shared-directory mount. */
  function FirstArgs(q: Request, paths: HostPaths, repo: string): seq<Arg> {
    var contained := Joined(q.facts.projectDir, ".claude-contained");
    [Named(ContainerName(q)), Mounted(Mount(paths.claudeProfileDir, paths.containerClaudeDir, ReadWrite)),
     AtParity(paths.codexDir), AtParity(paths.copilotDir), AtParity(paths.geminiDir), AtParity(paths.vibeDir),
     AtParity(q.facts.projectDir)]
    + (if q.facts.claudeContainedExists then [Mounted(Mount(contained, contained, ReadOnly))] else [])
    + (if q.facts.zellijSession != "" then [AtParity(ZellijRoot(q))] else [])
    + EnvArgs(q.facts.env) + [Env(EXPLICIT_KEYS_MARKER, EnvStore.ExplicitKeysValue(q.facts.env))]
    + (if q.cfg.shareHostClaude then [] else ResourceMounts(q, paths, RESOURCES))
    + (if repo == "" then [] else [AtParity(Joined(repo, ".git"))])
    + [Env("GIT_PROTECT_DIRS",
           Join([q.facts.projectDir] + ExtraPaths(q.facts.extras) + (if repo == "" then [] else [repo]), ":")),
       AtParity(paths.claudeContained)]
  }

  function OverlayMounts(q: Request, dirs: seq<string>): seq<Arg> {
    if dirs == [] then []
    else
      var dir := dirs[|dirs| - 1];
      OverlayMounts(q, dirs[..|dirs| - 1])
      + [Mounted(Mount(OverlayDir(q, dir), Joined(dir, "node_modules"), ReadWrite))]
  }

  // ---- The plan, question by question -------------------------------------------------------------

  /** What a plan consists of apart from its questions. */
  datatype Parts = Parts(
    worktreeRepo: string, worktreeMode: bool, locksUnasked: bool, overlaysUnasked: bool,
    names: seq<Step>, locks: Candidates, locksWithGitMount: Candidates, owner: string,
    forwards: seq<Step>, account: seq<Step>, shared: SharedSkills.Plan, argsFor: string -> seq<Arg>,
    hasOverlays: bool, overlays: seq<Step>, overlayMounts: seq<Arg>, image: string)

  function AccountStepsOf(q: Request, paths: HostPaths): seq<Step> {
    AccountState.AccountSteps(paths.account, q.facts.gitConfigExists, q.facts.account)
  }

  function PartsOf(q: Request): Parts {
    var paths := NewHostPaths(q.home, q.cfg.shareHostClaude);
    Parts(
      q.facts.worktreeMainRepo, q.cfg.worktreeMode, q.cfg.lockWorktrees, q.cfg.containedNodeModules,
      Directories(q, paths) + NameNotice(q), q.facts.locks, q.facts.locksWithGitMount, ContainerName(q),
      Forwards(q, q.hostForwardNotice), AccountStepsOf(q, paths), SkillsPlan(q, paths),
      (repo: string) => FirstArgs(q, paths, repo) + MountArgs(UserMounts(q.facts.extras)),
      q.facts.overlayDirs != [], OverlaySteps(q, q.facts.overlayDirs), OverlayMounts(q, q.facts.overlayDirs),
      if q.facts.derivedImage != "" then q.facts.derivedImage else IMAGE)
  }

  /** From the node_modules question on. */
  function AfterMounts(parts: Parts, ans: Answers, done: seq<Step>, args: seq<Arg>): Program {
    if !parts.hasOverlays then Program(done, None, Some(RunSpec(args, parts.image)), None)
    else if !parts.overlaysUnasked && NodeModules !in ans then Program(done, Some(NodeModules), None, None)
    else if parts.overlaysUnasked || ans[NodeModules] then
      Program(done + parts.overlays, None, Some(RunSpec(args + parts.overlayMounts, parts.image)), None)
    else Program(done, None, Some(RunSpec(args, parts.image)), None)
  }

  /** From the assembly of the run on. */
  function AfterLocks(parts: Parts, ans: Answers, done: seq<Step>, repo: string): Program {
    var steps := done + parts.forwards + parts.account + parts.shared.steps;
    if parts.shared.error.Some? then Program(steps, None, None, parts.shared.error)
    else AfterMounts(parts, ans, steps, parts.argsFor(repo) + MountArgs(parts.shared.args))
  }

  function LockCandidates(parts: Parts, repo: string): Candidates {
    if repo != "" then parts.locksWithGitMount else parts.locks
  }

  /** From the worktree answer on; `repo` is the repository whose .git is mounted. */
  function AfterGit(parts: Parts, ans: Answers, done: seq<Step>, repo: string): Program {
    var steps, c := done + parts.names, LockCandidates(parts, repo);
    if c.repo == "" || c.hidden == [] then AfterLocks(parts, ans, steps, repo)
    else
      var noted := steps + [Print(HiddenFound(|c.hidden|, c.repo), false)];
      if !parts.locksUnasked && WorktreeLocks !in ans then Program(noted, Some(WorktreeLocks), None, None)
      else if parts.locksUnasked || ans[WorktreeLocks] then
        AfterLocks(parts, ans, noted + [WorktreeAutoLock(c.repo, c.hidden, parts.owner)], repo)
      else AfterLocks(parts, ans, noted, repo)
  }

  function Asked(parts: Parts, ans: Answers): Program {
    var repo := parts.worktreeRepo;
    if repo == "" then AfterGit(parts, ans, [], "")
    else if parts.worktreeMode then AfterGit(parts, ans, [Print(WorktreeMounted(repo), false)], repo)
    else if WorktreeGit !in ans then Program([Print(WorktreeFound(repo), false)], Some(WorktreeGit), None, None)
    else AfterGit(parts, ans, [Print(WorktreeFound(repo), false)], if ans[WorktreeGit] then repo else "")
  }

  function Built(q: Request, ans: Answers): Program {
    Asked(PartsOf(q), ans)
  }

  // ---- The planner itself ---------------------------------------------------------------------------

  /** What the probe guarantees about the skills scan. */
  ghost predicate Probed(q: Request) {
    q.facts.skills.dir != "" ==>
      && IsAbs(q.facts.skills.dir)
      && forall i :: 0 <= i < |q.facts.skills.links| ==> IsAbs(q.facts.skills.links[i].resolved)
  }

  method Build(q: Request, ans: Answers) returns (p: Program)
    requires Probed(q)
    ensures p == Built(q, ans)
  {
    PartsAreThose(q);
    p := AskForGit(q, NewHostPaths(q.home, q.cfg.shareHostClaude), ans, PartsOf(q));
  }

  ghost predicate ThoseParts(q: Request, paths: HostPaths, parts: Parts) {
    && parts.worktreeRepo == q.facts.worktreeMainRepo && parts.worktreeMode == q.cfg.worktreeMode
    && EarlierParts(q, paths, parts)
    && forall repo :: LaterParts(q, paths, repo, parts)
  }

  lemma {:induction false} PartsAreThose(q: Request)
    ensures ThoseParts(q, NewHostPaths(q.home, q.cfg.shareHostClaude), PartsOf(q))
  {
    var paths, parts := NewHostPaths(q.home, q.cfg.shareHostClaude), PartsOf(q);
    assert parts.owner == ContainerName(q);
    forall repo
      ensures LaterParts(q, paths, repo, parts)
    {
      assert parts.argsFor(repo) == FirstArgs(q, paths, repo) + MountArgs(UserMounts(q.facts.extras));
    }
  }

  /** The worktree .git question and everything after it. */
  method AskForGit(q: Request, paths: HostPaths, ans: Answers, ghost parts: Parts) returns (p: Program)
    requires Probed(q) && ThoseParts(q, paths, parts)
    ensures p == Asked(parts, ans)
  {
    var steps: seq<Step> := [];
    var worktreeRepo := q.facts.worktreeMainRepo;
    if worktreeRepo != "" {
      if q.cfg.worktreeMode {
        steps := [Print(WorktreeMounted(worktreeRepo), false)];
      } else {
        steps := [Print(WorktreeFound(worktreeRepo), false)];
        if WorktreeGit !in ans {
          return Program(steps, Some(WorktreeGit), None, None);
        }
        if !ans[WorktreeGit] {
          worktreeRepo := "";
        }
      }
    }
    assert LaterParts(q, paths, worktreeRepo, parts);
    p := OfferLocks(q, paths, ans, steps, worktreeRepo, parts);
  }

  /** The parts of a plan up to the lock offer. */
  ghost predicate EarlierParts(q: Request, paths: HostPaths, parts: Parts) {
    && parts.names == Directories(q, paths) + NameNotice(q)
    && parts.locksUnasked == q.cfg.lockWorktrees && parts.owner == ContainerName(q)
    && parts.locks == q.facts.locks && parts.locksWithGitMount == q.facts.locksWithGitMount
  }

  /** The parts of a plan that come after the lock offer. */
  ghost predicate LaterParts(q: Request, paths: HostPaths, repo: string, parts: Parts) {
    && parts.forwards == Forwards(q, q.hostForwardNotice)
    && parts.account == AccountStepsOf(q, paths)
    && parts.shared == SkillsPlan(q, paths)
    && parts.argsFor(repo) == FirstArgs(q, paths, repo) + MountArgs(UserMounts(q.facts.extras))
    && OverlayParts(q, parts)
  }

  ghost predicate OverlayParts(q: Request, parts: Parts) {
    && parts.overlaysUnasked == q.cfg.containedNodeModules && parts.hasOverlays == (q.facts.overlayDirs != [])
    && parts.overlays == OverlaySteps(q, q.facts.overlayDirs)
    && parts.overlayMounts == OverlayMounts(q, q.facts.overlayDirs)
    && parts.image == if q.facts.derivedImage != "" then q.facts.derivedImage else IMAGE
  }

  /** Build once the worktree question is settled. */
  method OfferLocks(
    q: Request, paths: HostPaths, ans: Answers, done: seq<Step>, worktreeRepo: string, ghost parts: Parts)
    returns (p: Program)
    requires Probed(q) && EarlierParts(q, paths, parts) && LaterParts(q, paths, worktreeRepo, parts)
    ensures p == AfterGit(parts, ans, done, worktreeRepo)
  {
    var directories := MakeDirectories(q, paths);
    var steps := done + (directories + NameNotice(q));
    var name := q.cfg.customContainerName;
    if name == "" {
      name := Names.GeneratedName(q.facts.projectDir, q.hourMinute);
    }
    ghost var tried;
    name, tried := Names.DeduplicateName(name, q.facts.running);
    var c := if worktreeRepo != "" then q.facts.locksWithGitMount else q.facts.locks;
    if c.repo != "" && c.hidden != [] {
      steps := steps + [Print(HiddenFound(|c.hidden|, c.repo), false)];
      var lockThem := q.cfg.lockWorktrees;
      if !lockThem {
        if WorktreeLocks !in ans {
          return Program(steps, Some(WorktreeLocks), None, None);
        }
        lockThem := ans[WorktreeLocks];
      }
      if lockThem {
        steps := steps + [WorktreeAutoLock(c.repo, c.hidden, name)];
      }
    }
    p := Assemble(q, paths, ans, steps, worktreeRepo, name, parts);
  }

  /** The part of Build that creates the persistent directories. */
  method MakeDirectories(q: Request, paths: HostPaths) returns (steps: seq<Step>)
    ensures steps == Directories(q, paths)
  {
    steps := [MkdirAll(paths.claudeDir), MkdirAll(paths.claudeContained), MkdirAll(paths.claudeProfileDir),
              MkdirAll(paths.codexDir), MkdirAll(paths.copilotDir), MkdirAll(paths.geminiDir), MkdirAll(paths.vibeDir)];
    if q.facts.zellijSession != "" {
      steps := steps + [MkdirAll(Joined(ZellijRoot(q), "data")), MkdirAll(Joined(ZellijRoot(q), "cache"))];
    }
    if !q.cfg.shareHostClaude {
      ghost var before := steps;
      for i := 0 to |RESOURCES|
        invariant steps == before + ResourceDirs(paths, RESOURCES[..i])
      {
        assert RESOURCES[..i + 1][..i] == RESOURCES[..i];
        steps := steps + [MkdirAll(Joined(paths.claudeDir, RESOURCES[i])),
                          MkdirAll(Joined(paths.claudeProfileDir, RESOURCES[i]))];
      }
      assert RESOURCES[..|RESOURCES|] == RESOURCES;
    }
  }

  /** The rest of Build once the locks are decided. */
  method Assemble(
    q: Request, paths: HostPaths, ans: Answers, done: seq<Step>, worktreeRepo: string, name: string, ghost parts: Parts)
    returns (p: Program)
    requires Probed(q) && name == ContainerName(q) && LaterParts(q, paths, worktreeRepo, parts)
    ensures p == AfterLocks(parts, ans, done, worktreeRepo)
  {
    var args := FirstArgs(q, paths, worktreeRepo);
    var account := AccountState.AccountStateSteps(paths.account, q.facts.gitConfigExists, q.facts.account);
    var reg := new MountRegistry(q.facts.projectDir);
    var extra := RegisterExtras(reg, q.facts.extras);
    args := args + extra;
    var sharedSteps: seq<Step>, shared, error := [], [], None;
    if q.facts.skills.dir != "" {
      sharedSteps, shared, error :=
        SharedSkills.SharedSkillsMounts(
          reg, SkillTools(paths), paths.codexDir, q.facts.skills, q.remountNeedsMountpoint);
    }
    assert SharedSkills.Plan(reg.View(), sharedSteps, shared, error) == SkillsPlan(q, paths);
    var steps := done + Forwards(q, q.hostForwardNotice) + account + sharedSteps;
    args := args + MountArgs(shared);
    if error.Some? {
      return Program(steps, None, None, error);
    }
    p := Overlay(q, ans, steps, args, parts);
  }

  method RegisterExtras(reg: MountRegistry, extras: seq<Extra>) returns (args: seq<Arg>)
    modifies reg
    ensures reg.View() == old(reg.View()).(user := old(reg.user) + UserMounts(extras))
    ensures args == MountArgs(UserMounts(extras))
  {
    args := [];
    for i := 0 to |extras|
      invariant reg.shared == old(reg.shared) && reg.user == old(reg.user) + UserMounts(extras[..i])
      invariant args == MountArgs(UserMounts(extras[..i]))
    {
      assert extras[..i + 1][..i] == extras[..i];
      var before := UserMounts(extras[..i]);
      var m := Mount(extras[i].path, extras[i].path, extras[i].mode);
      assert (before + [m])[..|before|] == before;
      args := args + [Mounted(m)];
      reg.AddUser(extras[i].path, extras[i].path, extras[i].mode);
    }
    assert extras[..|extras|] == extras;
  }

  method OverlayDirectories(q: Request, dirs: seq<string>) returns (steps: seq<Step>, args: seq<Arg>)
    ensures steps == OverlaySteps(q, dirs) && args == OverlayMounts(q, dirs)
  {
    steps, args := [], [];
    for i := 0 to |dirs|
      invariant steps == OverlaySteps(q, dirs[..i]) && args == OverlayMounts(q, dirs[..i])
    {
      assert dirs[..i + 1][..i] == dirs[..i];
      var target := OverlayDir(q, dirs[i]);
      args := args + [Mounted(Mount(target, Joined(dirs[i], "node_modules"), ReadWrite))];
      var said :=
        if dirs[i] in q.facts.overlayEmpty then [Print(OverlayCreated(target), true), Print(OverlayHint, true)] else [];
      steps := steps + [MkdirAll(target)] + said;
    }
    assert dirs[..|dirs|] == dirs;
  }

  /** The node_modules question and the end of Build. */
  method Overlay(q: Request, ans: Answers, done: seq<Step>, before: seq<Arg>, ghost parts: Parts) returns (p: Program)
    requires OverlayParts(q, parts)
    ensures p == AfterMounts(parts, ans, done, before)
  {
    var steps, args := done, before;
    if q.facts.overlayDirs != [] {
      var overlay := q.cfg.containedNodeModules;
      if !overlay {
        if NodeModules !in ans {
          return Program(steps, Some(NodeModules), None, None);
        }
        overlay := ans[NodeModules];
      }
      if overlay {
        var more, mounts := OverlayDirectories(q, q.facts.overlayDirs);
        steps, args := steps + more, args + mounts;
      }
    }
    var image := IMAGE;
    if q.facts.derivedImage != "" {
      image := q.facts.derivedImage;
    }
    p := Program(steps, None, Some(RunSpec(args, image)), None);
  }
}
