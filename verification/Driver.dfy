/** The driver of the planner (buildAndApply, executor.apply, releaseLocks and
    the end of runWith in cmd/claude-contained/run.go). */
module Driver {
  import opened Text
  import opened HostFiles
  import opened Planner
  import opened PlannerLaws
  import opened AutoLock
  import opened PlanAnswers

  /** What the launcher has done so far, in order. */
  datatype Event = Applied(step: Step) | Ran(run: RunSpec) | Released(worktrees: seq<string>, owner: string)

  /** The host and the executor. */
  datatype World = World(
    fs: Files, lockFiles: LockFiles, log: seq<Event>, lockRepo: string, lockOwner: string, locked: seq<string>)

  datatype Code = Ok | Failure | Usage

  // ---- Applying steps -----------------------------------------------------------------

  /** The world after one step; None where the step fails. */
  function After(w: World, sites: Sites, step: Step): Option<World> {
    match Stepped(w.fs, step)
    case None => None
    case Some(fs) =>
      var done := w.(fs := fs, log := w.log + [Applied(step)]);
      if !step.WorktreeAutoLock? then Some(done)
      else
        var (files, locked) := LockedAll(w.lockFiles, sites, step.worktrees, step.owner);
        Some(done.(lockFiles := files, lockRepo := step.repo, lockOwner := step.owner, locked := locked))
  }

  /** Steps in order, up to the first that fails, and their number. */
  function Folded(f: Effect, w: World, steps: seq<Step>): (r: (World, nat))
    ensures r.1 <= |steps|
    decreases steps
  {
    if steps == [] then (w, 0)
    else match f(w, steps[0])
      case None => (w, 0)
      case Some(next) =>
        var (last, n) := Folded(f, next, steps[1..]);
        (last, n + 1)
  }

  lemma {:induction false} FoldedAppend(f: Effect, w: World, first: seq<Step>, rest: seq<Step>)
    ensures var (mid, n) := Folded(f, w, first);
            var (last, k) := Folded(f, mid, rest);
            Folded(f, w, first + rest) == if n < |first| then (mid, n) else (last, n + k)
    decreases first
  {
    if first == [] {
      assert first + rest == rest;
    } else {
      assert (first + rest)[1..] == first[1..] + rest;
      match f(w, first[0])
      case None =>
      case Some(next) => FoldedAppend(f, next, first[1..], rest);
    }
  }

  lemma {:induction false} FoldedStep(f: Effect, w: World, steps: seq<Step>, from: nat, n: nat)
    requires from <= n < |steps| && Folded(f, w, steps[from..n]).1 == n - from
    ensures var mid := Folded(f, w, steps[from..n]).0;
            Folded(f, w, steps[from..n + 1]) ==
              match f(mid, steps[n]) case None => (mid, n - from) case Some(next) => (next, n + 1 - from)
  {
    assert steps[from..n + 1] == steps[from..n] + [steps[n]];
    FoldedAppend(f, w, steps[from..n], [steps[n]]);
    assert [steps[n]][1..] == [];
  }

  /** What one step does, as a function to fold with. */
  type Effect = (World, Step) -> Option<World>

  function Stepper(sites: Sites): Effect {
    (w: World, step: Step) => After(w, sites, step)
  }

  ghost predicate Agrees(f: Effect, sites: Sites, w: World, step: Step) {
    f(w, step) == After(w, sites, step)
  }

  ghost predicate IsStepper(f: Effect, sites: Sites) {
    forall w, step :: Agrees(f, sites, w, step)
  }

  /** The world that a list of steps leads to. */
  function AfterAll(w: World, sites: Sites, steps: seq<Step>): (r: (World, nat))
    ensures r.1 <= |steps|
  {
    Folded(Stepper(sites), w, steps)
  }

  function LogOf(steps: seq<Step>): seq<Event> {
    if steps == [] then [] else [Applied(steps[0])] + LogOf(steps[1..])
  }

  ghost predicate Logs(f: Effect, w: World, step: Step) {
    f(w, step).Some? ==> f(w, step).value.log == w.log + [Applied(step)]
  }

  ghost predicate Performs(f: Effect, w: World, step: Step) {
    && (f(w, step).Some? <==> Stepped(w.fs, step).Some?)
    && (f(w, step).Some? ==> f(w, step).value.fs == Stepped(w.fs, step).value)
  }

  lemma {:induction false} FoldedLogs(f: Effect, w: World, steps: seq<Step>)
    requires forall v, step :: Logs(f, v, step)
    ensures Folded(f, w, steps).0.log == w.log + LogOf(steps[..Folded(f, w, steps).1])
    decreases steps
  {
    if steps != [] && f(w, steps[0]).Some? {
      assert Logs(f, w, steps[0]);
      var next := f(w, steps[0]).value;
      FoldedLogs(f, next, steps[1..]);
      var n := Folded(f, next, steps[1..]).1;
      assert steps[..n + 1][1..] == steps[1..][..n];
      assert steps[..n + 1][0] == steps[0];
    } else {
      assert w.log + [] == w.log;
    }
  }

  lemma {:induction false} FoldedPerforms(f: Effect, w: World, steps: seq<Step>)
    requires forall v, step :: Performs(f, v, step)
    ensures Performed(w.fs, steps) == (Folded(f, w, steps).0.fs, Folded(f, w, steps).1)
    decreases steps
  {
    if steps != [] {
      assert Performs(f, w, steps[0]);
      if f(w, steps[0]).Some? {
        FoldedPerforms(f, f(w, steps[0]).value, steps[1..]);
      }
    }
  }

  /** Each applied step is applied exactly once, in order, and the file system
      is the one those steps make. */
  lemma {:induction false} AppliedOnceInOrder(w: World, sites: Sites, steps: seq<Step>)
    ensures var (last, n) := AfterAll(w, sites, steps);
            && last.log == w.log + LogOf(steps[..n])
            && Performed(w.fs, steps) == (last.fs, n)
  {
    var f := Stepper(sites);
    forall v, step
      ensures Logs(f, v, step) && Performs(f, v, step)
    {
      assert f(v, step) == After(v, sites, step);
    }
    FoldedLogs(f, w, steps);
    FoldedPerforms(f, w, steps);
  }

  // ---- The executor -------------------------------------------------------------------------

  class Prompter {
    var replies: seq<Option<bool>>

    constructor (replies: seq<Option<bool>>)
      ensures this.replies == replies
    {
      this.replies := replies;
    }

    /** None where the input has ended or a signal came in. */
    method Ask() returns (reply: Option<bool>)
      modifies this
      ensures old(replies) == [] ==> reply == None && replies == []
      ensures old(replies) != [] ==> reply == old(replies)[0] && replies == old(replies)[1..]
    {
      if replies == [] {
        return None;
      }
      reply, replies := replies[0], replies[1..];
    }
  }

  class Executor {
    const repository: Repository
    var fs: Files
    var log: seq<Event>
    var lockRepo: string
    var lockOwner: string
    var locked: seq<string>

    constructor (fs: Files, repository: Repository)
      ensures this.repository == repository
      ensures View() == World(fs, repository.lockFiles, [], "", "", [])
    {
      this.fs, this.repository, log, lockRepo, lockOwner, locked := fs, repository, [], "", "", [];
    }

    function View(): World
      reads this, repository
    {
      World(fs, repository.lockFiles, log, lockRepo, lockOwner, locked)
    }

    method ApplyOne(step: Step, ghost f: Effect) returns (ok: bool)
      requires IsStepper(f, repository.sites)
      modifies this, repository
      ensures ok <==> f(old(View()), step).Some?
      ensures View() == if ok then f(old(View()), step).value else old(View())
    {
      assert Agrees(f, repository.sites, View(), step);
      var next := Stepped(fs, step);
      if next.None? {
        return false;
      }
      if step.WorktreeAutoLock? {
        lockRepo := step.repo;
        lockOwner := step.owner;
        locked := repository.LockWorktrees(step.worktrees, step.owner);
      }
      fs := next.value;
      log := log + [Applied(step)];
      ok := true;
    }

    /** The steps from this index on; `f` is the effect of one step. */
    method Apply(steps: seq<Step>, from: nat, ghost f: Effect) returns (n: nat, ok: bool)
      requires from <= |steps| && IsStepper(f, repository.sites)
      modifies this, repository
      ensures from <= n <= |steps| && (ok <==> n == |steps|)
      ensures (View(), n - from) == Folded(f, old(View()), steps[from..])
    {
      ghost var w := View();
      n := from;
      while n < |steps|
        invariant from <= n <= |steps|
        invariant (View(), n - from) == Folded(f, w, steps[from..n])
      {
        FoldedStep(f, w, steps, from, n);
        ok := ApplyOne(steps[n], f);
        if !ok {
          assert steps[from..] == steps[from..n + 1] + steps[n + 1..];
          FoldedAppend(f, w, steps[from..n + 1], steps[n + 1..]);
          return;
        }
        n := n + 1;
      }
      assert steps[from..n] == steps[from..];
      ok := true;
    }

    /** `mutexTaken` is false when the serialization mutex timed out. */
    method ReleaseLocks(mutexTaken: bool)
      modifies this, repository
      ensures View() == Unlocked(old(View()), repository.sites, mutexTaken)
    {
      if lockRepo == "" || locked == [] {
        return;
      }
      repository.ReleaseWorktreeLocks(locked, lockOwner, mutexTaken);
      log := log + [Released(locked, lockOwner)];
      locked := [];
    }
  }

  function Unlocked(w: World, sites: Sites, mutexTaken: bool): World {
    if w.lockRepo == "" || w.locked == [] then w
    else w.(
      lockFiles := if mutexTaken then ReleasedAll(w.lockFiles, sites, w.locked, w.lockOwner) else w.lockFiles,
      log := w.log + [Released(w.locked, w.lockOwner)], locked := [])
  }

  // ---- Building and applying ------------------------------------------------------------------

  type Planning = Answers -> Program

  function PlanningOf(q: Request): Planning {
    (ans: Answers) => Built(q, ans)
  }

  ghost predicate Builds(plan: Planning, q: Request, ans: Answers) {
    plan(ans) == Built(q, ans)
  }

  /** More answers continue the plan. */
  ghost predicate Resumes(plan: Planning, ans: Answers, more: Answers) {
    Extends(ans, more) ==> Continues(plan(ans), plan(more))
  }

  /** A plan waits for an answer, or has a run, or has an error. */
  ghost predicate EndsOneWay(plan: Planning, ans: Answers) {
    var p := plan(ans);
    && (p.pending.Some? ==> p.pending.value !in ans && p.run.None? && p.error.None?)
    && (p.pending.None? ==> (p.run.Some? <==> p.error.None?))
  }

  ghost predicate IsPlanning(plan: Planning, q: Request) {
    && (forall ans :: Builds(plan, q, ans))
    && (forall ans, more :: Resumes(plan, ans, more))
    && (forall ans :: EndsOneWay(plan, ans))
  }

  lemma {:induction false} PlanningOfIsPlanning(q: Request)
    ensures IsPlanning(PlanningOf(q), q)
  {
    var plan := PlanningOf(q);
    forall ans, more
      ensures Resumes(plan, ans, more)
    {
      if Extends(ans, more) {
        MoreAnswersContinue(q, ans, more);
      }
    }
    forall ans
      ensures EndsOneWay(plan, ans)
    {
      BuildEndsWell(q, ans);
    }
  }

  /** All the answers that planning draws from these replies. */
  function Interview(plan: Planning, replies: seq<Option<bool>>, ans: Answers): Answers
    decreases replies
  {
    var p := plan(ans);
    if p.pending.None? || replies == [] || replies[0].None? then ans
    else Interview(plan, replies[1..], ans[p.pending.value := replies[0].value])
  }

  lemma {:induction false} InterviewExtends(plan: Planning, replies: seq<Option<bool>>, ans: Answers)
    requires forall a :: EndsOneWay(plan, a)
    ensures Extends(ans, Interview(plan, replies, ans))
    decreases replies
  {
    assert EndsOneWay(plan, ans);
    var p := plan(ans);
    if !(p.pending.None? || replies == [] || replies[0].None?) {
      InterviewExtends(plan, replies[1..], ans[p.pending.value := replies[0].value]);
    }
  }

  // ---- The answers are the replies --------------------------------------------------------------

  /** These answers and no others. */
  function Given(ks: seq<Question>, a: Answers): Answers
    requires forall i :: 0 <= i < |ks| ==> ks[i] in a
  {
    map k | k in ks :: a[k]
  }

  /** The questions were asked one after the other, each by the plan made with
      the answers so far, and the answer to each is the reply in its place. */
  ghost predicate AskedInTurn(plan: Planning, replies: seq<Option<bool>>, ks: seq<Question>, a: Answers) {
    && |ks| <= |replies|
    && (forall i :: 0 <= i < |ks| ==> ks[i] in a)
    && (forall i :: 0 <= i < |ks| ==> AskedAt(plan, replies, ks, a, i))
    && a == Given(ks, a)
  }

  ghost predicate AskedAt(plan: Planning, replies: seq<Option<bool>>, ks: seq<Question>, a: Answers, i: nat)
    requires i < |ks| <= |replies| && forall j :: 0 <= j < |ks| ==> ks[j] in a
  {
    plan(Given(ks[..i], a)).pending == Some(ks[i]) && replies[i] == Some(a[ks[i]])
  }

  /** And nothing more could be asked, or answered. */
  ghost predicate AskedOut(plan: Planning, replies: seq<Option<bool>>, ks: seq<Question>, a: Answers) {
    && AskedInTurn(plan, replies, ks, a)
    && (plan(a).pending.None? || |ks| == |replies| || replies[|ks|].None?)
  }

  lemma {:induction false} OneMoreAsked(
    plan: Planning, replies: seq<Option<bool>>, ks: seq<Question>, a: Answers, k: Question, reply: bool)
    requires AskedInTurn(plan, replies, ks, a) && |ks| < |replies|
    requires plan(a).pending == Some(k) && k !in a && replies[|ks|] == Some(reply)
    ensures AskedInTurn(plan, replies, ks + [k], a[k := reply])
  {
    var all, more := ks + [k], a[k := reply];
    assert forall i :: 0 <= i < |all| ==> all[i] == if i < |ks| then ks[i] else k;
    forall i: nat | i < |all|
      ensures AskedAt(plan, replies, all, more, i)
    {
      if i < |ks| {
        assert AskedAt(plan, replies, ks, a, i);
        assert all[..i] == ks[..i] && Given(all[..i], more) == Given(ks[..i], a);
      } else {
        assert all[..i] == ks && Given(ks, more) == Given(ks, a);
      }
    }
    assert Given(all, more) == more;
  }

  lemma {:induction false} InterviewAsks(
    plan: Planning, replies: seq<Option<bool>>, ks: seq<Question>, a: Answers) returns (all: seq<Question>)
    requires forall ans :: EndsOneWay(plan, ans)
    requires AskedInTurn(plan, replies, ks, a)
    ensures AskedOut(plan, replies, all, Interview(plan, replies[|ks|..], a))
    decreases |replies| - |ks|
  {
    var rest := replies[|ks|..];
    assert EndsOneWay(plan, a);
    if plan(a).pending.None? || rest == [] || rest[0].None? {
      all := ks;
    } else {
      var k := plan(a).pending.value;
      OneMoreAsked(plan, replies, ks, a, k, rest[0].value);
      assert replies[|ks + [k]|..] == rest[1..];
      all := InterviewAsks(plan, replies, ks + [k], a[k := rest[0].value]);
    }
  }

  /** What planning goes on is what was replied: with the questions `ks` asked on
      the way, each by the plan with the answers before it, the answer to each is
      the reply in its place; and then no question is open or no reply is left. */
  lemma {:induction false} RepliesAreUsed(q: Request, replies: seq<Option<bool>>) returns (ks: seq<Question>)
    ensures AskedOut(PlanningOf(q), replies, ks, Interview(PlanningOf(q), replies, map[]))
  {
    PlanningOfIsPlanning(q);
    var none: seq<Question> := [];
    assert Given(none, map[]) == map[];
    assert replies[|none|..] == replies;
    ks := InterviewAsks(PlanningOf(q), replies, none, map[]);
  }

  lemma {:induction false} ThreeQuestions(ans: Answers)
    ensures |ans| <= 3
  {
    var all := {WorktreeGit, WorktreeLocks, NodeModules};
    forall k: Question
      ensures k in all
    {
      match k
      case WorktreeGit =>
      case WorktreeLocks =>
      case NodeModules =>
    }
    assert all == ans.Keys + (all - ans.Keys);
    assert |ans.Keys| == |ans|;
  }

  /** Failing within a plan is failing in a longer one that continues it. */
  lemma {:induction false} FailsAlike(f: Effect, w: World, steps: seq<Step>, longer: seq<Step>)
    requires steps <= longer
    ensures Folded(f, w, steps).1 < |steps| ==> Folded(f, w, longer) == Folded(f, w, steps)
  {
    assert longer == steps + longer[|steps|..];
    FoldedAppend(f, w, steps, longer[|steps|..]);
  }

  /** What a round knows of its plan: how it relates to the final one, and to
      the next round's, whatever the answer. */
  lemma {:induction false} RoundEnds(plan: Planning, q: Request, replies: seq<Option<bool>>, ans: Answers)
    requires IsPlanning(plan, q)
    ensures Continues(plan(ans), plan(Interview(plan, replies, ans)))
    ensures EndsOneWay(plan, ans)
    ensures var p := plan(ans);
            p.pending.Some? && replies != [] && replies[0].Some? ==>
              var more := ans[p.pending.value := replies[0].value];
              |more| == |ans| + 1 && p.steps <= plan(more).steps
  {
    InterviewExtends(plan, replies, ans);
    assert Resumes(plan, ans, Interview(plan, replies, ans));
    assert EndsOneWay(plan, ans);
    var p := plan(ans);
    if p.pending.Some? && replies != [] && replies[0].Some? {
      assert Resumes(plan, ans, ans[p.pending.value := replies[0].value]);
    }
  }

  /** The loop of building, applying what is new, and asking. */
  method Drive(q: Request, e: Executor, prompter: Prompter, ghost plan: Planning, ghost f: Effect)
    returns (program: Program, code: Code, builds: nat)
    requires Probed(q) && IsPlanning(plan, q) && IsStepper(f, e.repository.sites)
    modifies e, e.repository, prompter
    ensures var final := plan(Interview(plan, old(prompter.replies), map[]));
            && e.View() == Folded(f, old(e.View()), final.steps).0
            && (code.Ok? <==> Folded(f, old(e.View()), final.steps).1 == |final.steps| && final.run.Some?)
            && (code.Usage? <==> Folded(f, old(e.View()), final.steps).1 == |final.steps| && final.error.Some?)
            && (code.Ok? || code.Usage? ==> program == final)
    ensures 1 <= builds <= 4
  {
    ghost var w, final := e.View(), Interview(plan, prompter.replies, map[]);
    var answers: Answers := map[];
    var appliedCount := 0;
    ghost var done: seq<Step> := [];
    builds := 0;
    while true
      invariant builds == |answers|
      invariant appliedCount == |done| && done <= plan(answers).steps
      invariant Folded(f, w, done) == (e.View(), |done|)
      invariant Interview(plan, prompter.replies, answers) == final
      decreases 3 - |answers|
    {
      ThreeQuestions(answers);
      RoundEnds(plan, q, prompter.replies, answers);
      var ok;
      program, appliedCount, ok := Round(q, e, answers, appliedCount, plan, f, w, done);
      builds := builds + 1;
      FailsAlike(f, w, program.steps, plan(final).steps);
      if !ok {
        return program, Failure, builds;
      }
      if program.error.Some? {
        return program, Usage, builds;
      }
      if program.pending.None? {
        return program, Ok, builds;
      }
      var answer := prompter.Ask();
      if answer.None? {
        return program, Failure, builds;
      }
      answers := answers[program.pending.value := answer.value];
      ThreeQuestions(answers);
      done := program.steps;
    }
  }

  /** One round: build, and apply what the earlier rounds have not. */
  method Round(
    q: Request, e: Executor, answers: Answers, from: nat, ghost plan: Planning, ghost f: Effect, ghost w: World,
    ghost done: seq<Step>)
    returns (program: Program, n: nat, ok: bool)
    requires Probed(q) && IsPlanning(plan, q) && IsStepper(f, e.repository.sites)
    requires from == |done| && done <= plan(answers).steps && Folded(f, w, done) == (e.View(), |done|)
    modifies e, e.repository
    ensures program == plan(answers)
    ensures Folded(f, w, program.steps) == (e.View(), n) && (ok <==> n == |program.steps|)
  {
    program := Rebuild(q, answers, plan);
    assert program.steps == done + program.steps[from..];
    FoldedAppend(f, w, done, program.steps[from..]);
    n, ok := e.Apply(program.steps, from, f);
  }

  method Rebuild(q: Request, ans: Answers, ghost plan: Planning) returns (p: Program)
    requires Probed(q) && IsPlanning(plan, q)
    ensures p == plan(ans)
  {
    assert Builds(plan, q, ans);
    p := Build(q, ans);
  }

  /** The plan made at once with all the answers that the replies give. */
  function OneShot(q: Request, replies: seq<Option<bool>>): Program {
    Built(q, Interview(PlanningOf(q), replies, map[]))
  }

  /** The rounds of planning come to what the one-shot plan does: each of its
      steps once, in order, up to the first that fails. It takes at most four
      rounds, and none of them is left waiting for an answer that was given. */
  method BuildAndApply(q: Request, e: Executor, prompter: Prompter) returns (program: Program, code: Code, builds: nat)
    requires Probed(q)
    modifies e, e.repository, prompter
    ensures e.View() == AfterAll(old(e.View()), e.repository.sites, OneShot(q, old(prompter.replies)).steps).0
    ensures code.Ok? <==>
              && AfterAll(old(e.View()), e.repository.sites, OneShot(q, old(prompter.replies)).steps).1
                 == |OneShot(q, old(prompter.replies)).steps|
              && OneShot(q, old(prompter.replies)).run.Some?
    ensures code.Usage? <==>
              && AfterAll(old(e.View()), e.repository.sites, OneShot(q, old(prompter.replies)).steps).1
                 == |OneShot(q, old(prompter.replies)).steps|
              && OneShot(q, old(prompter.replies)).error.Some?
    ensures code.Ok? || code.Usage? ==> program == OneShot(q, old(prompter.replies))
    ensures 1 <= builds <= 4
  {
    PlanningOfIsPlanning(q);
    program, code, builds := Drive(q, e, prompter, PlanningOf(q), Stepper(e.repository.sites));
  }

  // ---- Lock, run, release ----------------------------------------------------------------------

  /** One launcher from planning to its end. `signalled` says that a signal came
      in before the run, and `others` is what the lock files hold when the
      container has exited, other launchers having edited them meanwhile. */
  method RunWith(
    q: Request, e: Executor, prompter: Prompter, signalled: bool, others: LockFiles, mutexTaken: bool)
    returns (ran: bool)
    requires Probed(q)
    modifies e, e.repository, prompter
    ensures var final := OneShot(q, old(prompter.replies));
            var (w, n) := AfterAll(old(e.View()), e.repository.sites, final.steps);
            && (ran <==> n == |final.steps| && final.run.Some? && !signalled)
            && e.View() == Unlocked(
                 if ran then w.(lockFiles := others, log := w.log + [Ran(final.run.value)]) else w,
                 e.repository.sites, mutexTaken)
  {
    ran := false;
    var program, code, builds := BuildAndApply(q, e, prompter);
    if code.Ok? && !signalled {
      ran := true;
      e.log := e.log + [Ran(program.run.value)];
      e.repository.lockFiles := others;
    }
    e.ReleaseLocks(mutexTaken);
  }

  ghost predicate SameLocks(w: World, v: World) {
    v.lockFiles == w.lockFiles && v.lockRepo == w.lockRepo && v.lockOwner == w.lockOwner && v.locked == w.locked
  }

  lemma {:induction false} NoLockKeepsLocks(f: Effect, sites: Sites, w: World, steps: seq<Step>)
    requires IsStepper(f, sites) && forall i :: 0 <= i < |steps| ==> !steps[i].WorktreeAutoLock?
    ensures SameLocks(w, Folded(f, w, steps).0)
    decreases steps
  {
    if steps != [] {
      assert Agrees(f, sites, w, steps[0]);
      if f(w, steps[0]).Some? {
        NoLockKeepsLocks(f, sites, f(w, steps[0]).value, steps[1..]);
      }
    }
  }

  lemma {:induction false} LockIsRecorded(f: Effect, sites: Sites, w: World, steps: seq<Step>, i: nat)
    requires IsStepper(f, sites) && i < |steps| && steps[i].WorktreeAutoLock? && steps[i].repo != ""
    requires forall j :: 0 <= j < |steps| && j != i ==> !steps[j].WorktreeAutoLock?
    ensures var v := Folded(f, w, steps).0;
            || SameLocks(w, v)
            || (v.lockRepo != "" && v.lockOwner == steps[i].owner
                && (v.lockFiles, v.locked) == LockedAll(w.lockFiles, sites, steps[i].worktrees, steps[i].owner))
  {
    var first, rest := steps[..i], steps[i + 1..];
    assert steps == first + ([steps[i]] + rest);
    NoLockKeepsLocks(f, sites, w, first);
    FoldedAppend(f, w, first, [steps[i]] + rest);
    var mid := Folded(f, w, first).0;
    assert ([steps[i]] + rest)[1..] == rest;
    assert Agrees(f, sites, mid, steps[i]);
    if f(mid, steps[i]).Some? {
      NoLockKeepsLocks(f, sites, f(mid, steps[i]).value, rest);
    }
  }

  lemma {:induction false} LockIsApplied(f: Effect, sites: Sites, w: World, steps: seq<Step>, i: nat)
    requires IsStepper(f, sites) && i < |steps| && steps[i].WorktreeAutoLock?
    requires NoLocks(steps[..i]) && NoLocks(steps[i + 1..])
    requires Folded(f, w, steps).1 == |steps|
    ensures var v := Folded(f, w, steps).0;
            && v.lockRepo == steps[i].repo && v.lockOwner == steps[i].owner
            && (v.lockFiles, v.locked) == LockedAll(w.lockFiles, sites, steps[i].worktrees, steps[i].owner)
  {
    var first, rest := steps[..i], steps[i + 1..];
    assert steps == first + ([steps[i]] + rest);
    NoLockKeepsLocks(f, sites, w, first);
    FoldedAppend(f, w, first, [steps[i]] + rest);
    var mid := Folded(f, w, first).0;
    assert ([steps[i]] + rest)[1..] == rest;
    assert Agrees(f, sites, mid, steps[i]);
    if f(mid, steps[i]).Some? {
      NoLockKeepsLocks(f, sites, f(mid, steps[i]).value, rest);
    }
  }

  lemma {:induction false} StepsLock(
    f: Effect, sites: Sites, w: World, steps: seq<Step>, wanted: bool, lock: Step, wt: string)
    requires IsStepper(f, sites) && lock.WorktreeAutoLock? && IsWord(lock.owner)
    requires LocksJust(steps, wanted, lock) && Folded(f, w, steps).1 == |steps|
    ensures !wanted ==> SameLocks(w, Folded(f, w, steps).0)
    ensures wanted && wt in lock.worktrees && Lockable(w.lockFiles, sites(wt), wt) ==>
              var v := Folded(f, w, steps).0;
              && wt in v.locked && v.lockOwner == lock.owner && v.lockRepo == lock.repo
              && wt in v.lockFiles && OwnedBy(v.lockFiles[wt], lock.owner)
  {
    if wanted {
      var k :| 0 <= k < |steps| && steps[k] == lock && NoLocks(steps[..k]) && NoLocks(steps[k + 1..]);
      LockIsApplied(f, sites, w, steps, k);
      LocksExactly(w.lockFiles, sites, lock.worktrees, lock.owner, wt);
      ParseUndoesPrint([lock.owner]);
    } else {
      NoLockKeepsLocks(f, sites, w, steps);
    }
  }

  /** From the replies to the lock files: when all steps have worked and the
      container is about to run, every candidate worktree that can be locked is
      locked in the container's name and will be released, if the user or the
      flag asked for it; and if nobody did, no lock file has changed. */
  lemma {:induction false} RunsLockedAsAnswered(
    q: Request, replies: seq<Option<bool>>, w: World, sites: Sites, wt: string)
    requires IsWord(ContainerName(q))
    requires OneShot(q, replies).run.Some?
    requires AfterAll(w, sites, OneShot(q, replies).steps).1 == |OneShot(q, replies).steps|
    ensures var ans, v := Interview(PlanningOf(q), replies, map[]), AfterAll(w, sites, OneShot(q, replies).steps).0;
            && (!WantsLocks(q, ans) ==> SameLocks(w, v))
            && (WantsLocks(q, ans) && wt in CandidatesOf(q, ans).hidden && Lockable(w.lockFiles, sites(wt), wt) ==>
                  && wt in v.locked && v.lockOwner == ContainerName(q) && v.lockRepo == CandidatesOf(q, ans).repo
                  && wt in v.lockFiles && OwnedBy(v.lockFiles[wt], ContainerName(q)))
  {
    var ans := Interview(PlanningOf(q), replies, map[]);
    var c := CandidatesOf(q, ans);
    BuildEndsWell(q, ans);
    LocksAsAnswered(q, ans);
    StepsLock(
      Stepper(sites), sites, w, OneShot(q, replies).steps, WantsLocks(q, ans),
      WorktreeAutoLock(c.repo, c.hidden, ContainerName(q)), wt);
  }

  /** However planning, its steps and the run end, a launcher alone on its
      repository leaves every lock file as it found it. */
  lemma {:induction false} LauncherRestoresLocks(q: Request, replies: seq<Option<bool>>, w: World, sites: Sites)
    requires w.locked == [] && IsWord(ContainerName(q))
    requires Canonical(w.lockFiles) && Fresh(w.lockFiles, ContainerName(q))
    requires forall wt :: wt in q.facts.locks.hidden + q.facts.locksWithGitMount.hidden ==>
               sites(wt).dirExists && sites(wt).gitDirKnown
    ensures Unlocked(AfterAll(w, sites, OneShot(q, replies).steps).0, sites, true).lockFiles == w.lockFiles
  {
    var ans := Interview(PlanningOf(q), replies, map[]);
    LocksOnce(q, ans);
    StepsRestoreLocks(
      ContainerName(q), q.facts.locks.hidden, q.facts.locksWithGitMount.hidden, Built(q, ans).steps, w, sites);
  }

  lemma {:induction false} StepsRestoreLocks(
    owner: string, list: seq<string>, other: seq<string>, steps: seq<Step>, w: World, sites: Sites)
    requires w.locked == [] && IsWord(owner) && Canonical(w.lockFiles) && Fresh(w.lockFiles, owner)
    requires LockOnlyOnce(steps, owner, list, other)
    requires forall wt :: wt in list + other ==> sites(wt).dirExists && sites(wt).gitDirKnown
    ensures Unlocked(AfterAll(w, sites, steps).0, sites, true).lockFiles == w.lockFiles
  {
    var f := Stepper(sites);
    if forall i :: 0 <= i < |steps| ==> !steps[i].WorktreeAutoLock? {
      NoLockKeepsLocks(f, sites, w, steps);
    } else {
      var i :| 0 <= i < |steps| && steps[i].WorktreeAutoLock?;
      LockIsRecorded(f, sites, w, steps, i);
      LockThenRelease(w.lockFiles, sites, steps[i].worktrees, owner);
    }
  }
}
