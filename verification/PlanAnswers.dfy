/** What a plan contains, in terms of the request and the answers alone
    (internal/plan/plan.go). */
module PlanAnswers {
  import opened Text
  import opened Paths
  import opened Mounts
  import opened HostFiles
  import opened Planner
  import opened PlannerLaws
  import opened PlanVisibility
  import AccountState
  import EnvStore
  import Names
  import SharedSkills

  // ---- What the user decided -----------------------------------------------------------------

  predicate SaysYes(ans: Answers, k: Question) {
    k in ans && ans[k]
  }

  /** The main repository's .git is to be mounted. */
  predicate MountsGit(q: Request, ans: Answers) {
    q.facts.worktreeMainRepo != "" && (q.cfg.worktreeMode || SaysYes(ans, WorktreeGit))
  }

  /** The worktrees that would be hidden from the container as it will be. */
  function CandidatesOf(q: Request, ans: Answers): Candidates {
    if MountsGit(q, ans) then q.facts.locksWithGitMount else q.facts.locks
  }

  predicate CanLock(q: Request, ans: Answers) {
    CandidatesOf(q, ans).repo != "" && CandidatesOf(q, ans).hidden != []
  }

  predicate WantsLocks(q: Request, ans: Answers) {
    CanLock(q, ans) && (q.cfg.lockWorktrees || SaysYes(ans, WorktreeLocks))
  }

  predicate WantsOverlays(q: Request, ans: Answers) {
    q.facts.overlayDirs != [] && (q.cfg.containedNodeModules || SaysYes(ans, NodeModules))
  }

  /** The question that is open: the first that matters, that no flag settles and
      that has no answer yet. */
  function OpenQuestion(q: Request, ans: Answers, skillsFail: bool): Option<Question> {
    if q.facts.worktreeMainRepo != "" && !q.cfg.worktreeMode && WorktreeGit !in ans then Some(WorktreeGit)
    else if CanLock(q, ans) && !q.cfg.lockWorktrees && WorktreeLocks !in ans then Some(WorktreeLocks)
    else if !skillsFail && q.facts.overlayDirs != [] && !q.cfg.containedNodeModules && NodeModules !in ans
    then Some(NodeModules)
    else None
  }

  // ---- A plan's parts are those of its request --------------------------------------------------

  /** What the parts hold that decides about questions. */
  ghost predicate PartsFor(q: Request, parts: Parts) {
    && parts.worktreeRepo == q.facts.worktreeMainRepo && parts.worktreeMode == q.cfg.worktreeMode
    && parts.locksUnasked == q.cfg.lockWorktrees && parts.owner == ContainerName(q)
    && parts.locks == q.facts.locks && parts.locksWithGitMount == q.facts.locksWithGitMount
    && parts.overlaysUnasked == q.cfg.containedNodeModules && parts.hasOverlays == (q.facts.overlayDirs != [])
  }

  lemma {:induction false} PartsAreFor(q: Request)
    ensures PartsFor(q, PartsOf(q))
    ensures PartsOf(q).shared == SkillsPlan(q, NewHostPaths(q.home, q.cfg.shareHostClaude))
  {
  }

  lemma {:induction false} QuestionOf(q: Request, parts: Parts, ans: Answers)
    requires PartsFor(q, parts)
    ensures Asked(parts, ans).pending == OpenQuestion(q, ans, parts.shared.error.Some?)
  {
  }

  /** A plan asks the open question, and has its run, unless the skills plan
      fails, exactly when there is none. */
  lemma {:induction false} AsksTheOpenQuestion(q: Request, ans: Answers)
    ensures var p, error := Built(q, ans), SkillsPlan(q, NewHostPaths(q.home, q.cfg.shareHostClaude)).error;
            && p.pending == OpenQuestion(q, ans, error.Some?)
            && (p.run.Some? <==> p.pending.None? && error.None?)
            && (p.error == if p.pending.None? then error else None)
  {
    PartsAreFor(q);
    QuestionOf(q, PartsOf(q), ans);
    PartsEndExactly(PartsOf(q), ans);
  }

  lemma {:induction false} PartsEndExactly(parts: Parts, ans: Answers)
    ensures var p := Asked(parts, ans);
            && (p.run.Some? <==> p.pending.None? && parts.shared.error.None?)
            && (p.error == if p.pending.None? then parts.shared.error else None)
  {
  }

  // ---- The lock step ---------------------------------------------------------------------------

  ghost predicate NoLocks(steps: seq<Step>) {
    forall i :: 0 <= i < |steps| ==> !steps[i].WorktreeAutoLock?
  }

  /** Nothing but the lock offer locks. */
  ghost predicate PartsLockNothing(parts: Parts) {
    && NoLocks(parts.names) && NoLocks(parts.forwards) && NoLocks(parts.account)
    && NoLocks(parts.shared.steps) && NoLocks(parts.overlays)
  }

  lemma {:induction false} PartsOfLockNothing(q: Request)
    ensures PartsLockNothing(PartsOf(q))
  {
    var paths, parts := NewHostPaths(q.home, q.cfg.shareHostClaude), PartsOf(q);
    PartsOfAreQuiet(q, false, paths);
    QuietLocksNothing(paths.account, parts.names);
    QuietLocksNothing(paths.account, parts.forwards);
    QuietLocksNothing(paths.account, parts.shared.steps);
    QuietLocksNothing(paths.account, parts.overlays);
    AccountLocksNothing(paths.account, q.facts.gitConfigExists, q.facts.account);
  }

  lemma {:induction false} LocksAfterLocks(parts: Parts, ans: Answers, done: seq<Step>, repo: string)
    requires PartsLockNothing(parts)
    ensures var steps := AfterLocks(parts, ans, done, repo).steps;
            && done <= steps && NoLocks(steps[|done|..])
  {
    var base := done + parts.forwards + parts.account + parts.shared.steps;
    var steps := AfterLocks(parts, ans, done, repo).steps;
    assert steps == base || steps == base + parts.overlays;
  }

  /** The steps around the lock step. */
  ghost predicate LocksJust(steps: seq<Step>, wanted: bool, lock: Step) {
    if wanted then
      exists k :: 0 <= k < |steps| && steps[k] == lock && NoLocks(steps[..k]) && NoLocks(steps[k + 1..])
    else NoLocks(steps)
  }

  lemma {:induction false} LocksJustAfter(parts: Parts, ans: Answers, before: seq<Step>, lock: Step, repo: string)
    requires PartsLockNothing(parts) && NoLocks(before) && lock.WorktreeAutoLock?
    ensures LocksJust(AfterLocks(parts, ans, before, repo).steps, false, lock)
    ensures LocksJust(AfterLocks(parts, ans, before + [lock], repo).steps, true, lock)
  {
    LocksAfterLocks(parts, ans, before, repo);
    var plain := AfterLocks(parts, ans, before, repo).steps;
    assert plain == before + plain[|before|..];
    LocksAfterLocks(parts, ans, before + [lock], repo);
    var steps := AfterLocks(parts, ans, before + [lock], repo).steps;
    assert steps == before + [lock] + steps[|before| + 1..];
    assert steps[|before|] == lock && steps[..|before|] == before;
  }

  lemma {:induction false} LocksOfGit(q: Request, parts: Parts, ans: Answers, done: seq<Step>, repo: string)
    requires PartsFor(q, parts) && PartsLockNothing(parts) && NoLocks(done)
    requires repo == if MountsGit(q, ans) then q.facts.worktreeMainRepo else ""
    requires PastLocks(AfterGit(parts, ans, done, repo))
    ensures var c := CandidatesOf(q, ans);
            LocksJust(
              AfterGit(parts, ans, done, repo).steps, WantsLocks(q, ans),
              WorktreeAutoLock(c.repo, c.hidden, ContainerName(q)))
  {
    var steps, c := done + parts.names, CandidatesOf(q, ans);
    var lock := WorktreeAutoLock(c.repo, c.hidden, ContainerName(q));
    assert c == LockCandidates(parts, repo);
    if c.repo == "" || c.hidden == [] {
      LocksJustAfter(parts, ans, steps, lock, repo);
    } else {
      LocksJustAfter(parts, ans, steps + [Print(HiddenFound(|c.hidden|, c.repo), false)], lock, repo);
    }
  }

  lemma {:induction false} LocksOfParts(q: Request, parts: Parts, ans: Answers)
    requires PartsFor(q, parts) && PartsLockNothing(parts) && PastLocks(Asked(parts, ans))
    ensures var c := CandidatesOf(q, ans);
            LocksJust(Asked(parts, ans).steps, WantsLocks(q, ans), WorktreeAutoLock(c.repo, c.hidden, ContainerName(q)))
  {
    var repo := parts.worktreeRepo;
    if repo == "" {
      LocksOfGit(q, parts, ans, [], "");
    } else if parts.worktreeMode {
      LocksOfGit(q, parts, ans, [Print(WorktreeMounted(repo), false)], repo);
    } else {
      LocksOfGit(q, parts, ans, [Print(WorktreeFound(repo), false)], if ans[WorktreeGit] then repo else "");
    }
  }

  /** A plan that is past the lock offer locks exactly when there is something to
      lock and the flag or the user's answer says so; then it locks once, the
      candidates that the answer about .git selects, in its container's name. */
  lemma {:induction false} LocksAsAnswered(q: Request, ans: Answers)
    requires PastLocks(Built(q, ans))
    ensures var c := CandidatesOf(q, ans);
            LocksJust(Built(q, ans).steps, WantsLocks(q, ans), WorktreeAutoLock(c.repo, c.hidden, ContainerName(q)))
  {
    PartsAreFor(q);
    PartsOfLockNothing(q);
    LocksOfParts(q, PartsOf(q), ans);
  }

  /** In particular its lock step is there if and only if it was asked for. */
  lemma {:induction false} LockStepIff(q: Request, ans: Answers)
    requires PastLocks(Built(q, ans))
    ensures var c := CandidatesOf(q, ans);
            WorktreeAutoLock(c.repo, c.hidden, ContainerName(q)) in Built(q, ans).steps <==>
              c.repo != "" && c.hidden != [] && (q.cfg.lockWorktrees || SaysYes(ans, WorktreeLocks))
  {
    var c, steps := CandidatesOf(q, ans), Built(q, ans).steps;
    LocksAsAnswered(q, ans);
    LockIn(steps, WantsLocks(q, ans), WorktreeAutoLock(c.repo, c.hidden, ContainerName(q)));
  }

  lemma {:induction false} LockIn(steps: seq<Step>, wanted: bool, lock: Step)
    requires LocksJust(steps, wanted, lock) && lock.WorktreeAutoLock?
    ensures lock in steps <==> wanted
  {
  }

  // ---- The run, from the answers -------------------------------------------------------------------

  /** The run of a plan and its steps: what precedes the overlays, and the
      overlays where they are wanted. */
  lemma {:induction false} RunOfParts(q: Request, parts: Parts, ans: Answers)
    requires PartsFor(q, parts) && Asked(parts, ans).run.Some?
    ensures var run, repo := Asked(parts, ans).run.value, if MountsGit(q, ans) then q.facts.worktreeMainRepo else "";
            && run.args == parts.argsFor(repo) + MountArgs(parts.shared.args)
                 + (if WantsOverlays(q, ans) then parts.overlayMounts else [])
            && run.image == parts.image
  {
    var repo := if MountsGit(q, ans) then q.facts.worktreeMainRepo else "";
    var args := parts.argsFor(repo) + MountArgs(parts.shared.args);
    assert args + [] == args;
  }

  // ---- Which mounts ---------------------------------------------------------------------------------

  function SameReadWrite(path: string): Mount {
    Mount(path, path, ReadWrite)
  }

  /** The launcher's own mounts: the profile, the tools' directories, the project
      and the shared directory. */
  predicate OwnMount(q: Request, paths: HostPaths, m: Mount) {
    || m == Mount(paths.claudeProfileDir, paths.containerClaudeDir, ReadWrite)
    || (m == SameReadWrite(m.dst)
        && m.dst in {paths.codexDir, paths.copilotDir, paths.geminiDir, paths.vibeDir,
                     q.facts.projectDir, paths.claudeContained})
  }

  /** The project's own .claude-contained, read-only, and the Zellij store. */
  predicate ProjectMount(q: Request, m: Mount) {
    || (q.facts.claudeContainedExists
        && m == Mount(Joined(q.facts.projectDir, ".claude-contained"),
                      Joined(q.facts.projectDir, ".claude-contained"), ReadOnly))
    || (q.facts.zellijSession != ""
        && m == SameReadWrite(Joined(Joined(q.facts.projectDir, ".claude-contained"), "zellij")))
  }

  /** The host profile's resources for a contained profile, except skills that
      are shared otherwise. */
  ghost predicate ResourceMount(q: Request, paths: HostPaths, resources: seq<string>, m: Mount) {
    exists i :: 0 <= i < |resources| && IsResourceMount(q, paths, resources[i], m)
  }

  predicate IsResourceMount(q: Request, paths: HostPaths, r: string, m: Mount) {
    && !(r == "skills" && q.cfg.sharesSkills)
    && m == Mount(Joined(paths.claudeDir, r), Joined(paths.containerClaudeDir, r), ReadWrite)
  }

  ghost predicate ExtraMount(extras: seq<Extra>, m: Mount) {
    exists i :: 0 <= i < |extras| && IsExtraMount(extras[i], m)
  }

  predicate IsExtraMount(extra: Extra, m: Mount) {
    m == Mount(extra.path, extra.path, extra.mode)
  }

  ghost predicate OverlayMount(q: Request, dirs: seq<string>, m: Mount) {
    exists i :: 0 <= i < |dirs| && IsOverlayMount(q, dirs[i], m)
  }

  predicate IsOverlayMount(q: Request, dir: string, m: Mount) {
    m == Mount(OverlayDir(q, dir), Joined(dir, "node_modules"), ReadWrite)
  }

  /** What a run mounts before the user's own mounts. */
  ghost predicate FirstMount(q: Request, paths: HostPaths, repo: string, m: Mount) {
    || OwnMount(q, paths, m)
    || ProjectMount(q, m)
    || (!q.cfg.shareHostClaude && ResourceMount(q, paths, RESOURCES, m))
    || (repo != "" && m == SameReadWrite(Joined(repo, ".git")))
  }

  lemma {:induction false} ResourceMountsAre(q: Request, paths: HostPaths, resources: seq<string>, m: Mount)
    ensures Mounted(m) in ResourceMounts(q, paths, resources) <==> ResourceMount(q, paths, resources, m)
  {
    if resources != [] {
      var n := |resources| - 1;
      ResourceMountsAre(q, paths, resources[..n], m);
      assert ResourceMount(q, paths, resources, m) <==>
               ResourceMount(q, paths, resources[..n], m) || IsResourceMount(q, paths, resources[n], m) by {
        assert forall i :: 0 <= i < n ==> resources[..n][i] == resources[i];
      }
    }
  }

  lemma {:induction false} EnvArgsMountNothing(env: seq<EnvStore.Pair>, m: Mount)
    ensures Mounted(m) !in EnvArgs(env)
  {
    if env != [] {
      EnvArgsMountNothing(env[..|env| - 1], m);
    }
  }

  /** The arguments that every run begins with. */
  function FixedArgs(q: Request, paths: HostPaths): seq<Arg> {
    [Named(ContainerName(q)), Mounted(Mount(paths.claudeProfileDir, paths.containerClaudeDir, ReadWrite)),
     AtParity(paths.codexDir), AtParity(paths.copilotDir), AtParity(paths.geminiDir), AtParity(paths.vibeDir),
     AtParity(q.facts.projectDir)]
  }

  lemma {:induction false} FirstArgsHold(q: Request, paths: HostPaths, repo: string, a: Arg)
    ensures var contained := Joined(q.facts.projectDir, ".claude-contained");
            a in FirstArgs(q, paths, repo) <==>
              || a in FixedArgs(q, paths)
              || (q.facts.claudeContainedExists && a == Mounted(Mount(contained, contained, ReadOnly)))
              || (q.facts.zellijSession != "" && a == AtParity(ZellijRoot(q)))
              || a in EnvArgs(q.facts.env)
              || a == Env(EXPLICIT_KEYS_MARKER, EnvStore.ExplicitKeysValue(q.facts.env))
              || (!q.cfg.shareHostClaude && a in ResourceMounts(q, paths, RESOURCES))
              || (repo != "" && a == AtParity(Joined(repo, ".git")))
              || a == Env("GIT_PROTECT_DIRS", Join([q.facts.projectDir] + ExtraPaths(q.facts.extras)
                                                   + (if repo == "" then [] else [repo]), ":"))
              || a == AtParity(paths.claudeContained)
  {
  }

  lemma {:induction false} FixedArgsMount(q: Request, paths: HostPaths, m: Mount)
    ensures Mounted(m) in FixedArgs(q, paths) || m == SameReadWrite(paths.claudeContained) <==> OwnMount(q, paths, m)
  {
  }

  lemma {:induction false} FirstArgsMount(q: Request, paths: HostPaths, repo: string, m: Mount)
    ensures Mounted(m) in FirstArgs(q, paths, repo) <==> FirstMount(q, paths, repo, m)
  {
    FirstArgsHold(q, paths, repo, Mounted(m));
    FixedArgsMount(q, paths, m);
    ResourceMountsAre(q, paths, RESOURCES, m);
    EnvArgsMountNothing(q.facts.env, m);
  }

  lemma {:induction false} MountArgsAre(mounts: seq<Mount>, m: Mount)
    ensures Mounted(m) in MountArgs(mounts) <==> m in mounts
  {
    if mounts != [] {
      MountArgsAre(mounts[..|mounts| - 1], m);
      assert m in mounts <==> m in mounts[..|mounts| - 1] || m == mounts[|mounts| - 1];
    }
  }

  lemma {:induction false} UserMountsAre(extras: seq<Extra>, m: Mount)
    ensures m in UserMounts(extras) <==> ExtraMount(extras, m)
  {
    if extras != [] {
      var n := |extras| - 1;
      UserMountsAre(extras[..n], m);
      assert ExtraMount(extras, m) <==> ExtraMount(extras[..n], m) || IsExtraMount(extras[n], m) by {
        assert forall i :: 0 <= i < n ==> extras[..n][i] == extras[i];
      }
    }
  }

  lemma {:induction false} OverlayMountsAre(q: Request, dirs: seq<string>, m: Mount)
    ensures Mounted(m) in OverlayMounts(q, dirs) <==> OverlayMount(q, dirs, m)
  {
    if dirs != [] {
      var n := |dirs| - 1;
      OverlayMountsAre(q, dirs[..n], m);
      assert OverlayMount(q, dirs, m) <==> OverlayMount(q, dirs[..n], m) || IsOverlayMount(q, dirs[n], m) by {
        assert forall i :: 0 <= i < n ==> dirs[..n][i] == dirs[i];
      }
    }
  }

  /** Everything that a run is to mount, by the request and the answers. */
  ghost predicate WantedMount(q: Request, ans: Answers, m: Mount) {
    var paths := NewHostPaths(q.home, q.cfg.shareHostClaude);
    || FirstMount(q, paths, if MountsGit(q, ans) then q.facts.worktreeMainRepo else "", m)
    || ExtraMount(q.facts.extras, m)
    || m in SkillsPlan(q, paths).args
    || (WantsOverlays(q, ans) && OverlayMount(q, q.facts.overlayDirs, m))
  }

  /** The run mounts exactly that: the .git only where it was asked for, and the
      overlays only where they were. */
  lemma {:induction false} MountsAsAnswered(q: Request, ans: Answers, m: Mount)
    requires Built(q, ans).run.Some?
    ensures Mounted(m) in Built(q, ans).run.value.args <==> WantedMount(q, ans, m)
  {
    var paths, parts := NewHostPaths(q.home, q.cfg.shareHostClaude), PartsOf(q);
    var repo := if MountsGit(q, ans) then q.facts.worktreeMainRepo else "";
    PartsAreFor(q);
    RunOfParts(q, parts, ans);
    FirstArgsMount(q, paths, repo, m);
    UserMountsAre(q.facts.extras, m);
    MountArgsAre(UserMounts(q.facts.extras), m);
    MountArgsAre(parts.shared.args, m);
    OverlayMountsAre(q, q.facts.overlayDirs, m);
    assert parts.argsFor(repo) == FirstArgs(q, paths, repo) + MountArgs(UserMounts(q.facts.extras));
  }

  // ---- The overlays --------------------------------------------------------------------------------

  /** The plan as it would be without any overlay to ask about. */
  function WithoutOverlays(q: Request, ans: Answers): Program {
    Asked(PartsOf(q).(hasOverlays := false), ans)
  }

  lemma {:induction false} OverlaysOfParts(q: Request, parts: Parts, ans: Answers)
    requires PartsFor(q, parts) && Asked(parts, ans).run.Some?
    ensures var p, plain := Asked(parts, ans), Asked(parts.(hasOverlays := false), ans);
            && plain.run.Some?
            && p.steps == plain.steps + (if WantsOverlays(q, ans) then parts.overlays else [])
            && p.run.value.args == plain.run.value.args + (if WantsOverlays(q, ans) then parts.overlayMounts else [])
  {
    var p, plain := Asked(parts, ans), Asked(parts.(hasOverlays := false), ans);
    OverlaysAfterGit(parts, ans, [], "");
    OverlaysAfterGit(parts, ans, [Print(WorktreeMounted(parts.worktreeRepo), false)], parts.worktreeRepo);
    OverlaysAfterGit(parts, ans, [Print(WorktreeFound(parts.worktreeRepo), false)], parts.worktreeRepo);
    OverlaysAfterGit(parts, ans, [Print(WorktreeFound(parts.worktreeRepo), false)], "");
  }

  ghost predicate Overlaid(parts: Parts, ans: Answers, p: Program, plain: Program) {
    p.run.Some? ==>
      var wanted := parts.hasOverlays && (parts.overlaysUnasked || SaysYes(ans, NodeModules));
      && plain.run.Some?
      && p.steps == plain.steps + (if wanted then parts.overlays else [])
      && p.run.value.args == plain.run.value.args + (if wanted then parts.overlayMounts else [])
  }

  lemma {:induction false} OverlaysAfterMounts(parts: Parts, ans: Answers, done: seq<Step>, args: seq<Arg>)
    ensures Overlaid(
              parts, ans, AfterMounts(parts, ans, done, args),
              AfterMounts(parts.(hasOverlays := false), ans, done, args))
  {
    assert done + [] == done && args + [] == args;
  }

  lemma {:induction false} OverlaysAfterLocks(parts: Parts, ans: Answers, done: seq<Step>, repo: string)
    ensures Overlaid(
              parts, ans, AfterLocks(parts, ans, done, repo), AfterLocks(parts.(hasOverlays := false), ans, done, repo))
  {
    OverlaysAfterMounts(
      parts, ans, done + parts.forwards + parts.account + parts.shared.steps,
      parts.argsFor(repo) + MountArgs(parts.shared.args));
  }

  lemma {:induction false} OverlaysAfterGit(parts: Parts, ans: Answers, done: seq<Step>, repo: string)
    ensures Overlaid(
              parts, ans, AfterGit(parts, ans, done, repo), AfterGit(parts.(hasOverlays := false), ans, done, repo))
  {
    var steps, c := done + parts.names, LockCandidates(parts, repo);
    var noted := steps + [Print(HiddenFound(|c.hidden|, c.repo), false)];
    OverlaysAfterLocks(parts, ans, steps, repo);
    OverlaysAfterLocks(parts, ans, noted, repo);
    OverlaysAfterLocks(parts, ans, noted + [WorktreeAutoLock(c.repo, c.hidden, parts.owner)], repo);
  }

  /** What an overlay of one directory does: the directory is made, and noted if
      it was empty. */
  predicate OverlayStep(q: Request, dir: string, step: Step) {
    || step == MkdirAll(Joined(Joined(dir, ".claude-contained"), "node_modules-linux-" + q.arch))
    || (dir in q.facts.overlayEmpty &&
          (|| step == Print(OverlayHint, true)
           || step == Print(
                OverlayCreated(Joined(Joined(dir, ".claude-contained"), "node_modules-linux-" + q.arch)), true)))
  }

  ghost predicate AnyOverlayStep(q: Request, dirs: seq<string>, step: Step) {
    exists i :: 0 <= i < |dirs| && OverlayStep(q, dirs[i], step)
  }

  lemma {:induction false} AnyOverlayLast(q: Request, dirs: seq<string>, step: Step)
    requires dirs != []
    ensures AnyOverlayStep(q, dirs, step) <==>
              AnyOverlayStep(q, dirs[..|dirs| - 1], step) || OverlayStep(q, dirs[|dirs| - 1], step)
  {
    assert forall i :: 0 <= i < |dirs| - 1 ==> dirs[..|dirs| - 1][i] == dirs[i];
  }

  lemma {:induction false} OverlayStepsAre(q: Request, dirs: seq<string>, step: Step)
    ensures step in OverlaySteps(q, dirs) <==> AnyOverlayStep(q, dirs, step)
  {
    if dirs != [] {
      OverlayStepsAre(q, dirs[..|dirs| - 1], step);
      AnyOverlayLast(q, dirs, step);
      var dir := dirs[|dirs| - 1];
      assert OverlayDir(q, dir) == Joined(Joined(dir, ".claude-contained"), "node_modules-linux-" + q.arch);
    }
  }

  /** The overlays add to a plan's steps and mounts exactly where the flag or the
      answer asks for them: at the end, and nothing otherwise. */
  lemma {:induction false} OverlaysAsAnswered(q: Request, ans: Answers)
    requires Built(q, ans).run.Some?
    ensures var p, plain := Built(q, ans), WithoutOverlays(q, ans);
            && plain.run.Some?
            && p.steps == plain.steps + (if WantsOverlays(q, ans) then OverlaySteps(q, q.facts.overlayDirs) else [])
            && p.run.value.args == plain.run.value.args
                 + (if WantsOverlays(q, ans) then OverlayMounts(q, q.facts.overlayDirs) else [])
  {
    PartsAreFor(q);
    OverlaysOfParts(q, PartsOf(q), ans);
  }

  // ---- Name, image and environment --------------------------------------------------------------------

  /** The container's name is the one that its locks are in, and its image the
      derived one where there is one. */
  lemma {:induction false} NamedAsLocked(q: Request, ans: Answers, name: string)
    requires Built(q, ans).run.Some?
    ensures Named(name) in Built(q, ans).run.value.args <==> name == ContainerName(q)
    ensures Built(q, ans).run.value.image == if q.facts.derivedImage != "" then q.facts.derivedImage else IMAGE
  {
    var paths, parts := NewHostPaths(q.home, q.cfg.shareHostClaude), PartsOf(q);
    var repo := if MountsGit(q, ans) then q.facts.worktreeMainRepo else "";
    PartsAreFor(q);
    RunOfParts(q, parts, ans);
    assert parts.argsFor(repo) == FirstArgs(q, paths, repo) + MountArgs(UserMounts(q.facts.extras));
    FirstArgsName(q, paths, repo, name);
    MountArgsOnlyMount(UserMounts(q.facts.extras), Named(name));
    MountArgsOnlyMount(parts.shared.args, Named(name));
    OverlaysOnlyMount(q, q.facts.overlayDirs, Named(name));
  }

  /** The name is the one asked for, or else one made from the project and the
      time; if that is taken, one that is not, and that begins with it. */
  lemma {:induction false} NameIsAsked(q: Request)
    ensures var base := if q.cfg.customContainerName != "" then q.cfg.customContainerName
                        else "aic-" + Names.Slug(q.facts.projectDir) + "-" + q.hourMinute;
            && ContainerName(q) !in q.facts.running
            && base <= ContainerName(q)
            && (base !in q.facts.running ==> ContainerName(q) == base)
  {
  }

  lemma {:induction false} MountArgsOnlyMount(mounts: seq<Mount>, a: Arg)
    requires !a.Mounted?
    ensures a !in MountArgs(mounts)
  {
    if mounts != [] {
      MountArgsOnlyMount(mounts[..|mounts| - 1], a);
    }
  }

  lemma {:induction false} OverlaysOnlyMount(q: Request, dirs: seq<string>, a: Arg)
    requires !a.Mounted?
    ensures a !in OverlayMounts(q, dirs)
  {
    if dirs != [] {
      OverlaysOnlyMount(q, dirs[..|dirs| - 1], a);
    }
  }

  lemma {:induction false} ResourcesOnlyMount(q: Request, paths: HostPaths, resources: seq<string>, a: Arg)
    requires !a.Mounted?
    ensures a !in ResourceMounts(q, paths, resources)
  {
    if resources != [] {
      ResourcesOnlyMount(q, paths, resources[..|resources| - 1], a);
    }
  }

  lemma {:induction false} EnvArgsAre(env: seq<EnvStore.Pair>, a: Arg)
    ensures a in EnvArgs(env) <==> a.Env? && EnvStore.Pair(a.key, a.value) in env
  {
    if env != [] {
      EnvArgsAre(env[..|env| - 1], a);
    }
  }

  lemma {:induction false} FirstArgsName(q: Request, paths: HostPaths, repo: string, name: string)
    ensures Named(name) in FirstArgs(q, paths, repo) <==> name == ContainerName(q)
  {
    FirstArgsHold(q, paths, repo, Named(name));
    EnvArgsAre(q.facts.env, Named(name));
    ResourcesOnlyMount(q, paths, RESOURCES, Named(name));
  }

  /** The directories that the tools must leave alone in git's configuration. */
  function Protected(q: Request, ans: Answers): string {
    Join([q.facts.projectDir] + ExtraPaths(q.facts.extras)
         + (if MountsGit(q, ans) then [q.facts.worktreeMainRepo] else []), ":")
  }

  lemma {:induction false} FirstArgsEnv(q: Request, paths: HostPaths, repo: string, key: string, value: string)
    ensures Env(key, value) in FirstArgs(q, paths, repo) <==>
              || EnvStore.Pair(key, value) in q.facts.env
              || (key == EXPLICIT_KEYS_MARKER && value == EnvStore.ExplicitKeysValue(q.facts.env))
              || (key == "GIT_PROTECT_DIRS" && value == Join([q.facts.projectDir] + ExtraPaths(q.facts.extras)
                                                             + (if repo == "" then [] else [repo]), ":"))
  {
    FirstArgsHold(q, paths, repo, Env(key, value));
    EnvArgsAre(q.facts.env, Env(key, value));
    ResourcesOnlyMount(q, paths, RESOURCES, Env(key, value));
  }

  /** The environment of a run is the resolved one, the marker of its keys, and
      the protected directories, which name the main repository exactly when its
      .git is mounted. */
  lemma {:induction false} EnvAsAnswered(q: Request, ans: Answers, key: string, value: string)
    requires Built(q, ans).run.Some?
    ensures Env(key, value) in Built(q, ans).run.value.args <==>
              || EnvStore.Pair(key, value) in q.facts.env
              || (key == EXPLICIT_KEYS_MARKER && value == EnvStore.ExplicitKeysValue(q.facts.env))
              || (key == "GIT_PROTECT_DIRS" && value == Protected(q, ans))
  {
    var paths, parts := NewHostPaths(q.home, q.cfg.shareHostClaude), PartsOf(q);
    var repo := if MountsGit(q, ans) then q.facts.worktreeMainRepo else "";
    PartsAreFor(q);
    RunOfParts(q, parts, ans);
    assert parts.argsFor(repo) == FirstArgs(q, paths, repo) + MountArgs(UserMounts(q.facts.extras));
    FirstArgsEnv(q, paths, repo, key, value);
    MountArgsOnlyMount(UserMounts(q.facts.extras), Env(key, value));
    MountArgsOnlyMount(parts.shared.args, Env(key, value));
    OverlaysOnlyMount(q, q.facts.overlayDirs, Env(key, value));
  }

  lemma {:induction false} ReservedKeysAreAbsent(es: EnvStore.Entries, key: string, value: string)
    requires EnvStore.Sound(es) && EnvStore.Reserved(key)
    ensures EnvStore.Pair(key, value) !in EnvStore.PairsOf(es)
  {
    if es != [] {
      ReservedKeysAreAbsent(es[..|es| - 1], key, value);
      assert EnvStore.Accepts(es[|es| - 1].origin, es[|es| - 1].key);
    }
  }

  /** The keys that the launcher sets itself are refused from everywhere else. */
  lemma {:induction false} OwnKeysAreReserved()
    ensures EnvStore.Reserved("GIT_PROTECT_DIRS") && EnvStore.Reserved(EXPLICIT_KEYS_MARKER)
  {
    assert "CLAUDE_CONTAINED_" <= EXPLICIT_KEYS_MARKER;
  }

  /** So, of the reserved keys, a run holds just those two, each with the
      launcher's own value, whatever the environment store was given. */
  lemma {:induction false} ReservedKeysAreOurs(
    q: Request, ans: Answers, es: EnvStore.Entries, key: string, value: string)
    requires Built(q, ans).run.Some? && EnvStore.Sound(es) && q.facts.env == EnvStore.PairsOf(es)
    requires EnvStore.Reserved(key)
    ensures Env(key, value) in Built(q, ans).run.value.args <==>
              || (key == EXPLICIT_KEYS_MARKER && value == EnvStore.ExplicitKeysValue(q.facts.env))
              || (key == "GIT_PROTECT_DIRS" && value == Protected(q, ans))
  {
    ReservedKeysAreAbsent(es, key, value);
    EnvAsAnswered(q, ans, key, value);
  }

  // ---- Every step of a plan --------------------------------------------------------------------------------

  predicate HomeDirectory(paths: HostPaths, dir: string) {
    dir in {paths.claudeDir, paths.claudeContained, paths.claudeProfileDir, paths.codexDir, paths.copilotDir,
            paths.geminiDir, paths.vibeDir}
  }

  predicate ResourceDirectory(paths: HostPaths, r: string, dir: string) {
    dir == Joined(paths.claudeDir, r) || dir == Joined(paths.claudeProfileDir, r)
  }

  ghost predicate AnyResourceDirectory(paths: HostPaths, resources: seq<string>, dir: string) {
    exists i :: 0 <= i < |resources| && ResourceDirectory(paths, resources[i], dir)
  }

  /** The directories that a plan makes before anything else. */
  ghost predicate FirstDirectory(q: Request, paths: HostPaths, dir: string) {
    var root := Joined(Joined(q.facts.projectDir, ".claude-contained"), "zellij");
    || HomeDirectory(paths, dir)
    || (q.facts.zellijSession != "" && dir in {Joined(root, "data"), Joined(root, "cache")})
    || (!q.cfg.shareHostClaude && AnyResourceDirectory(paths, RESOURCES, dir))
  }

  lemma {:induction false} LastResource(paths: HostPaths, resources: seq<string>, dir: string)
    requires resources != []
    ensures AnyResourceDirectory(paths, resources, dir) <==>
              || AnyResourceDirectory(paths, resources[..|resources| - 1], dir)
              || ResourceDirectory(paths, resources[|resources| - 1], dir)
  {
    assert forall i :: 0 <= i < |resources| - 1 ==> resources[..|resources| - 1][i] == resources[i];
  }

  lemma {:induction false} ResourceDirsAre(paths: HostPaths, resources: seq<string>, step: Step)
    ensures step in ResourceDirs(paths, resources) <==>
              step.MkdirAll? && AnyResourceDirectory(paths, resources, step.path)
  {
    if resources != [] {
      ResourceDirsAre(paths, resources[..|resources| - 1], step);
      if step.MkdirAll? {
        LastResource(paths, resources, step.path);
      }
    }
  }

  lemma {:induction false} HomeDirsAre(paths: HostPaths, step: Step)
    ensures step in HomeDirs(paths) <==> step.MkdirAll? && HomeDirectory(paths, step.path)
  {
  }

  lemma {:induction false} DirectoriesAre(q: Request, paths: HostPaths, step: Step)
    ensures step in Directories(q, paths) <==> step.MkdirAll? && FirstDirectory(q, paths, step.path)
  {
    HomeDirsAre(paths, step);
    ResourceDirsAre(paths, RESOURCES, step);
  }

  lemma {:induction false} ForwardsAre(q: Request, lines: seq<string>, step: Step)
    ensures step in Forwards(q, lines) <==>
              q.cfg.forwardsHostPorts && exists i :: 0 <= i < |lines| && step == Print(HostForward(lines[i]), true)
  {
    if lines != [] && q.cfg.forwardsHostPorts {
      var n := |lines| - 1;
      ForwardsAre(q, lines[..n], step);
      assert forall i :: 0 <= i < n ==> lines[..n][i] == lines[i];
    }
  }

  /** What the user is told about the worktree's repository. */
  predicate TellsOfGit(q: Request, step: Step) {
    q.facts.worktreeMainRepo != "" &&
    step == Print(if q.cfg.worktreeMode then WorktreeMounted(q.facts.worktreeMainRepo)
                  else WorktreeFound(q.facts.worktreeMainRepo), false)
  }

  /** The steps of the parts of a plan that comes to a run. */
  ghost predicate PartStep(q: Request, parts: Parts, ans: Answers, step: Step) {
    var c := CandidatesOf(q, ans);
    || TellsOfGit(q, step)
    || step in parts.names
    || (CanLock(q, ans) && step == Print(HiddenFound(|c.hidden|, c.repo), false))
    || (WantsLocks(q, ans) && step == WorktreeAutoLock(c.repo, c.hidden, ContainerName(q)))
    || step in parts.forwards || step in parts.account || step in parts.shared.steps
    || (WantsOverlays(q, ans) && step in parts.overlays)
  }

  lemma {:induction false} StepsAfterLocks(
    q: Request, parts: Parts, ans: Answers, done: seq<Step>, repo: string, step: Step)
    requires PartsFor(q, parts) && AfterLocks(parts, ans, done, repo).run.Some?
    ensures step in AfterLocks(parts, ans, done, repo).steps <==>
              || step in done || step in parts.forwards || step in parts.account || step in parts.shared.steps
              || (WantsOverlays(q, ans) && step in parts.overlays)
  {
    var base := done + parts.forwards + parts.account + parts.shared.steps;
    assert AfterLocks(parts, ans, done, repo).steps == if WantsOverlays(q, ans) then base + parts.overlays else base;
  }

  lemma {:induction false} StepsAfterGit(
    q: Request, parts: Parts, ans: Answers, done: seq<Step>, repo: string, step: Step)
    requires PartsFor(q, parts) && AfterGit(parts, ans, done, repo).run.Some?
    requires repo == if MountsGit(q, ans) then q.facts.worktreeMainRepo else ""
    requires step in done <==> TellsOfGit(q, step)
    ensures step in AfterGit(parts, ans, done, repo).steps <==> PartStep(q, parts, ans, step)
  {
    var steps, c := done + parts.names, CandidatesOf(q, ans);
    assert c == LockCandidates(parts, repo);
    var noted := steps + [Print(HiddenFound(|c.hidden|, c.repo), false)];
    var locked := noted + [WorktreeAutoLock(c.repo, c.hidden, parts.owner)];
    if !CanLock(q, ans) {
      StepsAfterLocks(q, parts, ans, steps, repo, step);
    } else if WantsLocks(q, ans) {
      StepsAfterLocks(q, parts, ans, locked, repo, step);
    } else {
      StepsAfterLocks(q, parts, ans, noted, repo, step);
    }
  }

  lemma {:induction false} StepsOfAsked(q: Request, parts: Parts, ans: Answers, step: Step)
    requires PartsFor(q, parts) && Asked(parts, ans).run.Some?
    ensures step in Asked(parts, ans).steps <==> PartStep(q, parts, ans, step)
  {
    var repo := parts.worktreeRepo;
    if repo == "" {
      StepsAfterGit(q, parts, ans, [], "", step);
    } else if parts.worktreeMode {
      StepsAfterGit(q, parts, ans, [Print(WorktreeMounted(repo), false)], repo, step);
    } else {
      StepsAfterGit(
        q, parts, ans, [Print(WorktreeFound(repo), false)], if ans[WorktreeGit] then repo else "", step);
    }
  }

  /** Everything that a plan which comes to a run does before it, by the request
      and the answers. */
  ghost predicate WantedStep(q: Request, ans: Answers, step: Step) {
    var paths, c := NewHostPaths(q.home, q.cfg.shareHostClaude), CandidatesOf(q, ans);
    || TellsOfGit(q, step)
    || (step.MkdirAll? && FirstDirectory(q, paths, step.path))
    || (q.cfg.customContainerName != ""
        && step == Print(CreatingNamed(TrimPrefix(q.cfg.customContainerName, "aic-")), false))
    || (CanLock(q, ans) && step == Print(HiddenFound(|c.hidden|, c.repo), false))
    || (WantsLocks(q, ans) && step == WorktreeAutoLock(c.repo, c.hidden, ContainerName(q)))
    || (q.cfg.forwardsHostPorts &&
        exists i :: 0 <= i < |q.hostForwardNotice| && step == Print(HostForward(q.hostForwardNotice[i]), true))
    || step in AccountStepsOf(q, paths)
    || step in SkillsPlan(q, paths).steps
    || (WantsOverlays(q, ans) && AnyOverlayStep(q, q.facts.overlayDirs, step))
  }

  /** Its steps are exactly those. */
  lemma {:induction false} StepsAsAnswered(q: Request, ans: Answers, step: Step)
    requires Built(q, ans).run.Some?
    ensures step in Built(q, ans).steps <==> WantedStep(q, ans, step)
  {
    var paths, parts := NewHostPaths(q.home, q.cfg.shareHostClaude), PartsOf(q);
    PartsAreFor(q);
    StepsOfAsked(q, parts, ans, step);
    DirectoriesAre(q, paths, step);
    ForwardsAre(q, q.hostForwardNotice, step);
    OverlayStepsAre(q, q.facts.overlayDirs, step);
    assert parts.names == Directories(q, paths) + NameNotice(q);
  }

  /** Whatever of the launcher's own a run mounts, it has made before. */
  lemma {:induction false} SourcesAreMade(q: Request, ans: Answers, m: Mount)
    requires Built(q, ans).run.Some?
    requires var paths := NewHostPaths(q.home, q.cfg.shareHostClaude);
             || (OwnMount(q, paths, m) && m.src != q.facts.projectDir)
             || (!q.cfg.shareHostClaude && ResourceMount(q, paths, RESOURCES, m))
             || (WantsOverlays(q, ans) && OverlayMount(q, q.facts.overlayDirs, m))
    ensures MkdirAll(m.src) in Built(q, ans).steps
  {
    var paths := NewHostPaths(q.home, q.cfg.shareHostClaude);
    StepsAsAnswered(q, ans, MkdirAll(m.src));
    if OverlayMount(q, q.facts.overlayDirs, m) && WantsOverlays(q, ans) {
      OverlaySource(q, q.facts.overlayDirs, m);
    } else if !OwnMount(q, paths, m) {
      ResourceSource(q, paths, RESOURCES, m);
    }
  }

  lemma {:induction false} OverlaySource(q: Request, dirs: seq<string>, m: Mount)
    requires OverlayMount(q, dirs, m)
    ensures AnyOverlayStep(q, dirs, MkdirAll(m.src))
  {
    var i :| 0 <= i < |dirs| && IsOverlayMount(q, dirs[i], m);
    assert OverlayStep(q, dirs[i], MkdirAll(m.src));
  }

  lemma {:induction false} ResourceSource(q: Request, paths: HostPaths, resources: seq<string>, m: Mount)
    requires ResourceMount(q, paths, resources, m)
    ensures AnyResourceDirectory(paths, resources, m.src)
  {
    var i :| 0 <= i < |resources| && IsResourceMount(q, paths, resources[i], m);
    assert ResourceDirectory(paths, resources[i], m.src);
  }
}
