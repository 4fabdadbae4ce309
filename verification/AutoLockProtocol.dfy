/** Any number of launchers keeping owner lists in one repository, in every
    interleaving of their reads and writes (internal/host/worktreelock.go and
    the executor in cmd/claude-contained/run.go). */
module AutoLockProtocol {
  import opened Text
  import opened AutoLock

  /** What one launcher was started with: its container name, which is its
      owner token, and the hidden worktrees it is to lock. */
  datatype Job = Job(owner: string, worktrees: seq<string>)

  /** Where a launcher is. `locked` is the list that LockWorktrees is building,
      or has returned. */
  datatype Pc =
    | Start
    | Looking(next: nat, locked: seq<string>)
    | Locking(next: nat, locked: seq<string>)
    | ReadingForAdd(next: nat, locked: seq<string>)
    | WritingAdd(next: nat, locked: seq<string>, read: string)
    | Running(locked: seq<string>)
    | Exited(locked: seq<string>)
    | Releasing(next: nat, locked: seq<string>)
    | WritingRelease(next: nat, locked: seq<string>, read: string)
    | Finished(locked: seq<string>)
    | LeftLocked(locked: seq<string>)
    | Crashed

  datatype State = State(mutex: Option<nat>, files: LockFiles, pcs: seq<Pc>)

  /** One atomic step of a launcher. A boolean says how the step's own git or
      file operation turned out. */
  datatype Op =
    | Acquire
    | LockAnyway
    | LeaveLocked
    | Look(gitDirKnown: bool)
    | GitLock(succeeds: bool)
    | ReadForAdd
    | WriteAdd(succeeds: bool)
    | Exit
    | ReadForRelease(reachable: bool)
    | WriteRelease(succeeds: bool)
    | Crash

  /** Besides the launchers' own steps: the mutex of a crashed holder is
      reclaimed, and the user edits a lock file that is not the launchers'. */
  datatype Action =
    | Step(id: nat, op: Op)
    | Reclaim
    | UserEdit(worktree: string, text: Option<string>)

  function Noted(locked: seq<string>, wt: string): seq<string> {
    if wt in locked then locked else locked + [wt]
  }

  /** The state after an action, or None where the action cannot happen. */
  function Apply(jobs: seq<Job>, s: State, a: Action): Option<State>
    requires |s.pcs| == |jobs|
  {
    match a
    case Reclaim =>
      if s.mutex.Some? && s.mutex.value < |s.pcs| && s.pcs[s.mutex.value].Crashed?
      then Some(s.(mutex := None)) else None
    case UserEdit(wt, text) =>
      if (wt in s.files ==> ParseAutoLockOwners(s.files[wt]).NotOurs?)
         && (text.Some? ==> ParseAutoLockOwners(text.value).NotOurs?)
      then Some(s.(files := if text.Some? then s.files[wt := text.value] else s.files - {wt}))
      else None
    case Step(id, op) =>
      if id >= |jobs| then None else Launcher(s, id, jobs[id], op)
  }

  function Launcher(s: State, id: nat, job: Job, op: Op): Option<State>
    requires id < |s.pcs|
  {
    var wts, pc := job.worktrees, s.pcs[id];
    match op
    case Acquire =>
      if s.mutex.Some? then None
      else if pc.Start? then Some(Move(s, id, Looking(0, [])).(mutex := Some(id)))
      else if pc.Exited? && pc.locked != [] then Some(Move(s, id, Releasing(0, pc.locked)).(mutex := Some(id)))
      else None
    case LockAnyway =>
      if pc.Start? then Some(Move(s, id, Looking(0, []))) else None
    case LeaveLocked =>
      if pc.Exited? then Some(Move(s, id, LeftLocked(pc.locked))) else None
    case Look(gitDirKnown) =>
      if !pc.Looking? then None
      else if pc.next >= |wts| then Some(Unlatched(Move(s, id, Running(pc.locked)), id))
      else if !gitDirKnown then Some(Move(s, id, Looking(pc.next + 1, pc.locked)))
      else if wts[pc.next] in s.files then Some(Move(s, id, ReadingForAdd(pc.next, pc.locked)))
      else Some(Move(s, id, Locking(pc.next, pc.locked)))
    case GitLock(succeeds) =>
      if !pc.Locking? || pc.next >= |wts| then None
      else if wts[pc.next] in s.files || !succeeds then Some(Move(s, id, ReadingForAdd(pc.next, pc.locked)))
      else
        Some(Move(s, id, Looking(pc.next + 1, Noted(pc.locked, wts[pc.next])))
             .(files := s.files[wts[pc.next] := LockText([job.owner])]))
    case ReadForAdd =>
      if !pc.ReadingForAdd? || pc.next >= |wts| then None
      else
        var read := if wts[pc.next] in s.files then s.files[wts[pc.next]] else "";
        var reason := ParseAutoLockOwners(read);
        if reason.NotOurs? then Some(Move(s, id, Looking(pc.next + 1, pc.locked)))
        else if job.owner in reason.owners then Some(Move(s, id, Looking(pc.next + 1, Noted(pc.locked, wts[pc.next]))))
        else Some(Move(s, id, WritingAdd(pc.next, pc.locked, read)))
    case WriteAdd(succeeds) =>
      if !pc.WritingAdd? || pc.next >= |wts| || Appended(pc.read, job.owner).None? then None
      else if !succeeds then Some(Move(s, id, Looking(pc.next + 1, pc.locked)))
      else
        Some(Move(s, id, Looking(pc.next + 1, Noted(pc.locked, wts[pc.next])))
             .(files := s.files[wts[pc.next] := Appended(pc.read, job.owner).value]))
    case Exit =>
      if pc.Running? then Some(Move(s, id, Exited(pc.locked)))
      else if pc.Exited? && pc.locked == [] then Some(Move(s, id, Finished(pc.locked)))
      else None
    case ReadForRelease(reachable) =>
      if !pc.Releasing? then None
      else if pc.next >= |pc.locked| then Some(Unlatched(Move(s, id, Finished(pc.locked)), id))
      else
        var wt := pc.locked[pc.next];
        if reachable && wt in s.files && !RemovalEdit(s.files[wt], job.owner).LeaveAlone?
        then Some(Move(s, id, WritingRelease(pc.next, pc.locked, s.files[wt])))
        else Some(Move(s, id, Releasing(pc.next + 1, pc.locked)))
    case WriteRelease(succeeds) =>
      if !pc.WritingRelease? || pc.next >= |pc.locked| then None
      else
        var after := Move(s, id, Releasing(pc.next + 1, pc.locked));
        var edit := RemovalEdit(pc.read, job.owner);
        Some(if succeeds then after.(files := Edited(s.files, pc.locked[pc.next], edit)) else after)
    case Crash =>
      if pc.Finished? || pc.LeftLocked? then None else Some(Move(s, id, Crashed))
  }

  function Edited(files: LockFiles, wt: string, edit: Edit): LockFiles {
    match edit
    case LeaveAlone => files
    case Unlock => files - {wt}
    case Rewrite(text) => files[wt := text]
  }

  function Unlatched(s: State, id: nat): State {
    s.(mutex := if s.mutex == Some(id) then None else s.mutex)
  }

  function Move(s: State, id: nat, pc: Pc): State
    requires id < |s.pcs|
  {
    s.(pcs := s.pcs[id := pc])
  }

  function InitialState(jobs: seq<Job>, files: LockFiles): State {
    State(None, files, seq(|jobs|, i => Start))
  }

  /** The state an interleaving leads to, if all its actions can happen. */
  function Play(jobs: seq<Job>, s: State, actions: seq<Action>): (r: Option<State>)
    requires |s.pcs| == |jobs|
    ensures r.Some? ==> |r.value.pcs| == |jobs|
    decreases actions
  {
    if actions == [] then Some(s)
    else match Apply(jobs, s, actions[0])
      case None => None
      case Some(next) => Play(jobs, next, actions[1..])
  }

  lemma {:induction false} PlayConcat(jobs: seq<Job>, s: State, first: seq<Action>, rest: seq<Action>)
    requires |s.pcs| == |jobs|
    ensures Play(jobs, s, first + rest)
         == match Play(jobs, s, first) case None => None case Some(mid) => Play(jobs, mid, rest)
    decreases first
  {
    if first == [] {
      assert [] + rest == rest;
    } else {
      assert (first + rest)[1..] == first[1..] + rest;
      if Apply(jobs, s, first[0]).Some? {
        PlayConcat(jobs, Apply(jobs, s, first[0]).value, first[1..], rest);
      }
    }
  }

  /** Every launch got the mutex: none timed out and locked anyway. */
  ghost predicate Serialized(actions: seq<Action>) {
    forall i :: 0 <= i < |actions| ==> !(actions[i].Step? && actions[i].op.LockAnyway?)
  }

  predicate OwnersAreWords(jobs: seq<Job>) {
    forall i :: 0 <= i < |jobs| ==> IsWord(jobs[i].owner)
  }

  /** No two launchers keep an entry of the same name in the same worktree. */
  ghost predicate SeparateEntries(jobs: seq<Job>) {
    forall i, j, wt :: 0 <= i < j < |jobs| && wt in jobs[i].worktrees && wt in jobs[j].worktrees ==>
      jobs[i].owner != jobs[j].owner
  }

  // ---- What a write can drop -----------------------------------------------------

  ghost predicate LockedFor(files: LockFiles, wt: string, owner: string) {
    wt in files && OwnedBy(files[wt], owner)
  }

  /** Every entry under another name survives the change. */
  ghost predicate KeepsOthers(before: LockFiles, after: LockFiles, owner: string) {
    forall wt, o :: o != owner && LockedFor(before, wt, o) ==> LockedFor(after, wt, o)
  }

  /** The step writes back a list edited since it was read. */
  predicate Writes(job: Job, pc: Pc, op: Op) {
    || (op.WriteAdd? && op.succeeds && pc.WritingAdd? && pc.next < |job.worktrees|)
    || (op.WriteRelease? && op.succeeds && pc.WritingRelease? && pc.next < |pc.locked|)
  }

  function Target(job: Job, pc: Pc): string
    requires (pc.WritingAdd? && pc.next < |job.worktrees|) || (pc.WritingRelease? && pc.next < |pc.locked|)
  {
    if pc.WritingAdd? then job.worktrees[pc.next] else pc.locked[pc.next]
  }

  /** Whoever else the file lists by now was already in what was read. */
  ghost predicate OthersWereRead(files: LockFiles, wt: string, read: string, owner: string) {
    forall o :: o != owner && LockedFor(files, wt, o) ==> OwnedBy(read, o)
  }

  ghost predicate Guarded(jobs: seq<Job>, s: State, a: Action)
    requires |s.pcs| == |jobs|
  {
    a.Step? && a.id < |jobs| && Writes(jobs[a.id], s.pcs[a.id], a.op) ==>
      OthersWereRead(s.files, Target(jobs[a.id], s.pcs[a.id]), s.pcs[a.id].read, jobs[a.id].owner)
  }

  /** Every write of the play meets the guard; launches may go on without the
      mutex. */
  ghost predicate PlayedGuarded(jobs: seq<Job>, s: State, actions: seq<Action>)
    requires |s.pcs| == |jobs|
    decreases actions
  {
    actions != [] ==>
      && Guarded(jobs, s, actions[0])
      && (Apply(jobs, s, actions[0]).Some? ==> PlayedGuarded(jobs, Apply(jobs, s, actions[0]).value, actions[1..]))
  }

  /** A removal in progress is of an owner that was in what was read. */
  ghost predicate RemovesItself(job: Job, pc: Pc) {
    pc.WritingRelease? ==> pc.next < |pc.locked| && OwnedBy(pc.read, job.owner)
  }

  /** A successful write drops nobody else's entry exactly when the guard holds,
      mutex or not. */
  lemma {:induction false} WriteKeepsOthersIff(s: State, id: nat, job: Job, op: Op, s': State)
    requires IsWord(job.owner) && id < |s.pcs| && RemovesItself(job, s.pcs[id])
    requires Launcher(s, id, job, op) == Some(s') && Writes(job, s.pcs[id], op)
    ensures KeepsOthers(s.files, s'.files, job.owner) <==>
            OthersWereRead(s.files, Target(job, s.pcs[id]), s.pcs[id].read, job.owner)
  {
    var wt, read := Target(job, s.pcs[id]), s.pcs[id].read;
    if op.WriteAdd? {
      AppendKeepsOwners(read, job.owner);
    } else {
      RemovalKeepsOthers(read, job.owner);
    }
    assert forall o :: o != job.owner ==> (LockedFor(s'.files, wt, o) <==> OwnedBy(read, o));
    assert forall w, o :: w != wt ==> (LockedFor(s'.files, w, o) <==> LockedFor(s.files, w, o));
  }

  /** All other actions keep everybody else's entries anyway. */
  lemma {:induction false} OnlyWritesDrop(s: State, id: nat, job: Job, op: Op, s': State)
    requires id < |s.pcs| && Launcher(s, id, job, op) == Some(s') && !Writes(job, s.pcs[id], op)
    ensures KeepsOthers(s.files, s'.files, job.owner)
  {
  }

  lemma {:induction false} GuardedKeepsOthers(jobs: seq<Job>, s: State, id: nat, op: Op, s': State)
    requires OwnersAreWords(jobs) && id < |jobs| == |s.pcs| && RemovesItself(jobs[id], s.pcs[id])
    requires Launcher(s, id, jobs[id], op) == Some(s')
    ensures Guarded(jobs, s, Step(id, op)) <==> KeepsOthers(s.files, s'.files, jobs[id].owner)
  {
    if Writes(jobs[id], s.pcs[id], op) {
      WriteKeepsOthersIff(s, id, jobs[id], op, s');
    } else {
      OnlyWritesDrop(s, id, jobs[id], op, s');
    }
  }

  // ---- The invariant -------------------------------------------------------------

  /** Between a successful add of the worktree and the remove that undoes it. */
  predicate Holds(pc: Pc, wt: string) {
    match pc
    case Start => false
    case Crashed => false
    case Finished(_) => false
    case Releasing(next, locked) => next <= |locked| && wt in locked[next..]
    case WritingRelease(next, locked, _) => next <= |locked| && wt in locked[next..]
    case _ => wt in pc.locked
  }

  ghost predicate LauncherInv(files: LockFiles, job: Job, pc: Pc) {
    && (forall wt :: Holds(pc, wt) ==> LockedFor(files, wt, job.owner))
    && (!pc.Start? && !pc.Crashed? ==> NoDuplicates(pc.locked) && forall wt :: wt in pc.locked ==> wt in job.worktrees)
    && RemovesItself(job, pc)
  }

  ghost predicate Inv(jobs: seq<Job>, s: State) {
    && |s.pcs| == |jobs|
    && forall id :: 0 <= id < |jobs| ==> LauncherInv(s.files, jobs[id], s.pcs[id])
  }

  /** The adding half of a lock pass: visiting a worktree that is not locked. */
  lemma {:induction false} LookStep(s: State, id: nat, job: Job, op: Op, s': State)
    requires IsWord(job.owner) && id < |s.pcs| && LauncherInv(s.files, job, s.pcs[id])
    requires Launcher(s, id, job, op) == Some(s')
    requires op.Look? || op.GitLock?
    ensures LauncherInv(s'.files, job, s'.pcs[id])
  {
    ParseUndoesPrint([job.owner]);
    forall wt | Holds(s'.pcs[id], wt)
      ensures LockedFor(s'.files, wt, job.owner)
    {
      assert Holds(s.pcs[id], wt) ==> LockedFor(s.files, wt, job.owner);
    }
  }

  /** And joining the owners of one that is. */
  lemma {:induction false} JoinStep(s: State, id: nat, job: Job, op: Op, s': State)
    requires IsWord(job.owner) && id < |s.pcs| && LauncherInv(s.files, job, s.pcs[id])
    requires Launcher(s, id, job, op) == Some(s')
    requires op.ReadForAdd? || op.WriteAdd?
    ensures LauncherInv(s'.files, job, s'.pcs[id])
  {
    if op.WriteAdd? {
      AppendKeepsOwners(s.pcs[id].read, job.owner);
    }
    forall wt | Holds(s'.pcs[id], wt)
      ensures LockedFor(s'.files, wt, job.owner)
    {
      assert Holds(s.pcs[id], wt) ==> LockedFor(s.files, wt, job.owner);
    }
  }

  lemma {:induction false} ReleaseStep(s: State, id: nat, job: Job, op: Op, s': State)
    requires id < |s.pcs| && LauncherInv(s.files, job, s.pcs[id])
    requires Launcher(s, id, job, op) == Some(s')
    requires op.ReadForRelease? || op.WriteRelease?
    ensures LauncherInv(s'.files, job, s'.pcs[id])
  {
    var pc := s.pcs[id];
    if pc.next < |pc.locked| {
      var wt, rest := pc.locked[pc.next], pc.locked[pc.next + 1..];
      assert pc.locked[pc.next..] == [wt] + rest;
      assert wt !in rest;
      if op.ReadForRelease? && wt in s.files {
        RemovalKeepsOthers(s.files[wt], job.owner);
      }
      forall w | Holds(s'.pcs[id], w)
        ensures LockedFor(s'.files, w, job.owner)
      {
        assert Holds(pc, w) && (op.WriteRelease? ==> w in rest);
      }
    }
  }

  lemma {:induction false} OtherStep(s: State, id: nat, job: Job, op: Op, s': State)
    requires id < |s.pcs| && LauncherInv(s.files, job, s.pcs[id])
    requires Launcher(s, id, job, op) == Some(s')
    requires op.Acquire? || op.LockAnyway? || op.LeaveLocked? || op.Exit? || op.Crash?
    ensures LauncherInv(s'.files, job, s'.pcs[id])
  {
    var pc := s.pcs[id];
    if op.Acquire? && pc.Exited? {
      assert pc.locked[0..] == pc.locked;
    }
  }

  lemma {:induction false} OwnStep(s: State, id: nat, job: Job, op: Op, s': State)
    requires IsWord(job.owner) && id < |s.pcs| && LauncherInv(s.files, job, s.pcs[id])
    requires Launcher(s, id, job, op) == Some(s')
    ensures LauncherInv(s'.files, job, s'.pcs[id])
  {
    if op.Look? || op.GitLock? {
      LookStep(s, id, job, op, s');
    } else if op.ReadForAdd? || op.WriteAdd? {
      JoinStep(s, id, job, op, s');
    } else if op.ReadForRelease? || op.WriteRelease? {
      ReleaseStep(s, id, job, op, s');
    } else {
      OtherStep(s, id, job, op, s');
    }
  }

  lemma {:induction false} MovesOnlyItself(s: State, id: nat, job: Job, op: Op, s': State)
    requires id < |s.pcs| && Launcher(s, id, job, op) == Some(s')
    ensures |s'.pcs| == |s.pcs| && forall k :: 0 <= k < |s.pcs| && k != id ==> s'.pcs[k] == s.pcs[k]
  {
  }

  /** A launcher edits only worktrees it was given. */
  lemma {:induction false} EditsOnlyItsWorktrees(s: State, id: nat, job: Job, op: Op, s': State, wt: string)
    requires id < |s.pcs| && LauncherInv(s.files, job, s.pcs[id])
    requires Launcher(s, id, job, op) == Some(s') && wt !in job.worktrees
    ensures wt in s'.files <==> wt in s.files
    ensures wt in s.files ==> s'.files[wt] == s.files[wt]
  {
    if op.WriteRelease? {
      assert s.pcs[id].locked[s.pcs[id].next] in s.pcs[id].locked;
    }
  }

  /** A guarded step of one launcher leaves every other one with what it holds,
      whether their names or their worktrees keep them apart. */
  lemma {:induction false} OthersKeepInv(jobs: seq<Job>, s: State, id: nat, op: Op, s': State, k: nat)
    requires SeparateEntries(jobs) && Inv(jobs, s) && id < |jobs| && k < |jobs| && k != id
    requires Launcher(s, id, jobs[id], op) == Some(s')
    requires KeepsOthers(s.files, s'.files, jobs[id].owner)
    ensures LauncherInv(s'.files, jobs[k], s.pcs[k])
  {
    assert LauncherInv(s.files, jobs[id], s.pcs[id]) && LauncherInv(s.files, jobs[k], s.pcs[k]);
    forall wt | Holds(s.pcs[k], wt)
      ensures LockedFor(s'.files, wt, jobs[k].owner)
    {
      assert LockedFor(s.files, wt, jobs[k].owner) && wt in jobs[k].worktrees;
      if jobs[k].owner == jobs[id].owner {
        assert wt !in jobs[id].worktrees by {
          if k < id { assert jobs[k].owner == jobs[id].owner; } else { assert jobs[id].owner == jobs[k].owner; }
        }
        EditsOnlyItsWorktrees(s, id, jobs[id], op, s', wt);
      }
    }
  }

  lemma {:induction false} LauncherKeepsInv(jobs: seq<Job>, s: State, id: nat, op: Op, s': State)
    requires OwnersAreWords(jobs) && SeparateEntries(jobs) && Inv(jobs, s) && id < |jobs|
    requires Launcher(s, id, jobs[id], op) == Some(s') && Guarded(jobs, s, Step(id, op))
    ensures Inv(jobs, s')
  {
    assert LauncherInv(s.files, jobs[id], s.pcs[id]);
    GuardedKeepsOthers(jobs, s, id, op, s');
    OwnStep(s, id, jobs[id], op, s');
    MovesOnlyItself(s, id, jobs[id], op, s');
    forall k | 0 <= k < |jobs| && k != id
      ensures LauncherInv(s'.files, jobs[k], s'.pcs[k])
    {
      OthersKeepInv(jobs, s, id, op, s', k);
    }
  }

  /** The environment: a reclaim of a crashed holder's mutex, or a user's own lock. */
  lemma {:induction false} EnvironmentKeepsInv(jobs: seq<Job>, s: State, a: Action, s': State)
    requires Inv(jobs, s) && !a.Step?
    requires Apply(jobs, s, a) == Some(s')
    ensures Inv(jobs, s')
  {
    forall k | 0 <= k < |jobs|
      ensures LauncherInv(s'.files, jobs[k], s'.pcs[k])
    {
      assert LauncherInv(s.files, jobs[k], s.pcs[k]);
    }
  }

  lemma {:induction false} StepKeepsInv(jobs: seq<Job>, s: State, a: Action, s': State)
    requires OwnersAreWords(jobs) && SeparateEntries(jobs) && Inv(jobs, s)
    requires Apply(jobs, s, a) == Some(s') && Guarded(jobs, s, a)
    ensures Inv(jobs, s')
  {
    match a
    case Step(id, op) =>
      LauncherKeepsInv(jobs, s, id, op, s');
    case _ =>
      EnvironmentKeepsInv(jobs, s, a, s');
  }

  lemma {:induction false} PlayKeepsInv(jobs: seq<Job>, s: State, actions: seq<Action>)
    requires OwnersAreWords(jobs) && SeparateEntries(jobs) && Inv(jobs, s) && PlayedGuarded(jobs, s, actions)
    ensures Play(jobs, s, actions).Some? ==> Inv(jobs, Play(jobs, s, actions).value)
    decreases actions
  {
    if actions != [] && Apply(jobs, s, actions[0]).Some? {
      var next := Apply(jobs, s, actions[0]).value;
      StepKeepsInv(jobs, s, actions[0], next);
      PlayKeepsInv(jobs, next, actions[1..]);
    }
  }

  // ---- What the mutex gives ---------------------------------------------------------

  /** Inside a lock or a release pass. */
  predicate Critical(pc: Pc) {
    pc.Looking? || pc.Locking? || pc.ReadingForAdd? || pc.WritingAdd? || pc.Releasing? || pc.WritingRelease?
  }

  /** What a launcher about to write has read is still what the file says. */
  ghost predicate ReadIsCurrent(files: LockFiles, job: Job, pc: Pc) {
    match pc
    case WritingAdd(next, _, read) =>
      && next < |job.worktrees| && job.worktrees[next] in files
      && files[job.worktrees[next]] == read && ParseAutoLockOwners(read).Ours?
    case WritingRelease(next, locked, read) =>
      next < |locked| && locked[next] in files && files[locked[next]] == read && OwnedBy(read, job.owner)
    case _ => true
  }

  ghost predicate LauncherSerial(s: State, job: Job, id: nat)
    requires id < |s.pcs|
  {
    (Critical(s.pcs[id]) ==> s.mutex == Some(id)) && ReadIsCurrent(s.files, job, s.pcs[id])
  }

  ghost predicate Serial(jobs: seq<Job>, s: State) {
    |s.pcs| == |jobs| && forall id :: 0 <= id < |jobs| ==> LauncherSerial(s, jobs[id], id)
  }

  lemma {:induction false} OwnStepStaysSerial(s: State, id: nat, job: Job, op: Op, s': State)
    requires id < |s.pcs| && LauncherSerial(s, job, id)
    requires Launcher(s, id, job, op) == Some(s') && !op.LockAnyway?
    ensures LauncherSerial(s', job, id)
    ensures s'.files == s.files || s.mutex == s'.mutex == Some(id)
    ensures s'.mutex == s.mutex || s.mutex == None || s.mutex == Some(id)
  {
    if op.ReadForRelease? && s.pcs[id].Releasing? && s.pcs[id].next < |s.pcs[id].locked| {
      var wt := s.pcs[id].locked[s.pcs[id].next];
      if wt in s.files {
        RemovalKeepsOthers(s.files[wt], job.owner);
      }
    }
  }

  lemma {:induction false} StepStaysSerial(jobs: seq<Job>, s: State, a: Action, s': State)
    requires Serial(jobs, s) && Apply(jobs, s, a) == Some(s')
    requires a.Step? ==> !a.op.LockAnyway?
    ensures Serial(jobs, s')
  {
    if a.Step? {
      assert LauncherSerial(s, jobs[a.id], a.id);
      OwnStepStaysSerial(s, a.id, jobs[a.id], a.op, s');
      MovesOnlyItself(s, a.id, jobs[a.id], a.op, s');
    }
    forall k | 0 <= k < |jobs| && (a.Step? ==> k != a.id)
      ensures LauncherSerial(s', jobs[k], k)
    {
      assert LauncherSerial(s, jobs[k], k);
    }
  }

  /** Where every launch holds the mutex, every write meets the guard: nothing
      happened to the file since it was read. */
  lemma {:induction false} SerializedIsGuarded(jobs: seq<Job>, s: State, actions: seq<Action>)
    requires Serial(jobs, s) && Serialized(actions)
    ensures PlayedGuarded(jobs, s, actions)
    ensures Play(jobs, s, actions).Some? ==> Serial(jobs, Play(jobs, s, actions).value)
    decreases actions
  {
    if actions != [] {
      assert actions[0].Step? && actions[0].id < |jobs| ==> LauncherSerial(s, jobs[actions[0].id], actions[0].id);
      if Apply(jobs, s, actions[0]).Some? {
        StepStaysSerial(jobs, s, actions[0], Apply(jobs, s, actions[0]).value);
        SerializedIsGuarded(jobs, Apply(jobs, s, actions[0]).value, actions[1..]);
      }
    }
  }

  // ---- What every interleaving keeps ---------------------------------------------

  ghost predicate AllLocked(jobs: seq<Job>, s: State) {
    forall id, wt :: 0 <= id < |jobs| && id < |s.pcs| && Holds(s.pcs[id], wt) ==> LockedFor(s.files, wt, jobs[id].owner)
  }

  /** Between a launcher's successful add and its remove, and so all the while
      its container runs, the worktree is locked and lists the launcher: in
      every interleaving whose writes meet the guard, launches that went on
      without the mutex included. */
  lemma {:induction false} StaysLocked(jobs: seq<Job>, files: LockFiles, actions: seq<Action>, s: State)
    requires OwnersAreWords(jobs) && SeparateEntries(jobs)
    requires PlayedGuarded(jobs, InitialState(jobs, files), actions)
    requires Play(jobs, InitialState(jobs, files), actions) == Some(s)
    ensures AllLocked(jobs, s)
  {
    assert Inv(jobs, InitialState(jobs, files));
    PlayKeepsInv(jobs, InitialState(jobs, files), actions);
    forall id, wt | 0 <= id < |jobs| && Holds(s.pcs[id], wt)
      ensures LockedFor(s.files, wt, jobs[id].owner)
    {
      assert LauncherInv(s.files, jobs[id], s.pcs[id]);
    }
  }

  /** No step of the play drops an entry that is not the launcher's own. */
  ghost predicate DropsNoOther(jobs: seq<Job>, s: State, actions: seq<Action>)
    requires |s.pcs| == |jobs|
    decreases actions
  {
    actions != [] && Apply(jobs, s, actions[0]).Some? ==>
      var next := Apply(jobs, s, actions[0]).value;
      && (actions[0].Step? ==> KeepsOthers(s.files, next.files, jobs[actions[0].id].owner))
      && DropsNoOther(jobs, next, actions[1..])
  }

  lemma {:induction false} StepRemovesItself(jobs: seq<Job>, s: State, a: Action, s': State, id: nat)
    requires |s.pcs| == |jobs| && id < |jobs| && RemovesItself(jobs[id], s.pcs[id])
    requires Apply(jobs, s, a) == Some(s')
    ensures |s'.pcs| == |jobs| && RemovesItself(jobs[id], s'.pcs[id])
  {
    if a.Step? && a.op.ReadForRelease? && s.pcs[a.id].Releasing? && s.pcs[a.id].next < |s.pcs[a.id].locked| {
      var wt := s.pcs[a.id].locked[s.pcs[a.id].next];
      if wt in s.files {
        RemovalKeepsOthers(s.files[wt], jobs[a.id].owner);
      }
    }
  }

  /** The guard is exact: a play drops nobody else's entry if and only if each
      of its writes meets the guard. */
  lemma {:induction false} GuardedIffNoneDropped(jobs: seq<Job>, s: State, actions: seq<Action>)
    requires OwnersAreWords(jobs) && |s.pcs| == |jobs| && Play(jobs, s, actions).Some?
    requires forall id :: 0 <= id < |jobs| ==> RemovesItself(jobs[id], s.pcs[id])
    ensures PlayedGuarded(jobs, s, actions) <==> DropsNoOther(jobs, s, actions)
    decreases actions
  {
    if actions != [] {
      var a, next := actions[0], Apply(jobs, s, actions[0]).value;
      if a.Step? {
        GuardedKeepsOthers(jobs, s, a.id, a.op, next);
      }
      forall id | 0 <= id < |jobs|
        ensures RemovesItself(jobs[id], next.pcs[id])
      {
        StepRemovesItself(jobs, s, a, next, id);
      }
      GuardedIffNoneDropped(jobs, next, actions[1..]);
    }
  }

  lemma {:induction false} OtherStepsKeepOwners(jobs: seq<Job>, s: State, a: Action, s': State, wt: string, o: string)
    requires OwnersAreWords(jobs) && Serial(jobs, s) && Apply(jobs, s, a) == Some(s')
    requires a.Step? ==> !a.op.WriteRelease?
    requires LockedFor(s.files, wt, o)
    ensures LockedFor(s'.files, wt, o)
  {
    if a.Step? && a.op.WriteAdd? {
      assert LauncherSerial(s, jobs[a.id], a.id);
      AppendKeepsOwners(s.pcs[a.id].read, jobs[a.id].owner);
    }
  }

  /** Where every edit holds the mutex, an owner leaves a worktree's list only
      by that owner's own remove, and the remove unlocks the worktree exactly
      when the list named no one else; from then on no launcher counts on the
      lock. */
  lemma {:induction false} OnlyOwnRemoveUnlocks(
    jobs: seq<Job>, files: LockFiles, actions: seq<Action>, s: State, a: Action, s': State, wt: string, o: string)
    requires OwnersAreWords(jobs) && SeparateEntries(jobs) && Serialized(actions + [a])
    requires Play(jobs, InitialState(jobs, files), actions) == Some(s) && Apply(jobs, s, a) == Some(s')
    requires LockedFor(s.files, wt, o) && !LockedFor(s'.files, wt, o)
    ensures a.Step? && a.op.WriteRelease? && a.id < |jobs| && jobs[a.id].owner == o
    ensures wt !in s'.files <==> forall other :: LockedFor(s.files, wt, other) ==> other == o
    ensures wt !in s'.files ==> forall k :: 0 <= k < |jobs| ==> !Holds(s'.pcs[k], wt)
  {
    var s0 := InitialState(jobs, files);
    assert forall i :: 0 <= i < |actions| ==> (actions + [a])[i] == actions[i];
    SerializedIsGuarded(jobs, s0, actions);
    if !a.Step? || !a.op.WriteRelease? {
      OtherStepsKeepOwners(jobs, s, a, s', wt, o);
    } else {
      assert LauncherSerial(s, jobs[a.id], a.id);
      RemovalKeepsOthers(s.pcs[a.id].read, jobs[a.id].owner);
      assert forall other :: LockedFor(s.files, wt, other) <==> OwnedBy(s.pcs[a.id].read, other);
      assert RemovalEdit(s.pcs[a.id].read, o).Unlock? <==> wt !in s'.files;
    }
    SerializedIsGuarded(jobs, s0, actions + [a]);
    PlayConcat(jobs, s0, actions, [a]);
    StaysLocked(jobs, files, actions + [a], s');
  }

  lemma {:induction false} OwnStepCarriesList(s: State, id: nat, job: Job, op: Op, s': State, locked: seq<string>)
    requires id < |s.pcs| && After(s.pcs[id], locked)
    requires Launcher(s, id, job, op) == Some(s')
    ensures After(s'.pcs[id], locked)
  {
    match op
    case Exit =>
    case Acquire =>
    case LeaveLocked =>
    case ReadForRelease(_) =>
    case WriteRelease(_) =>
    case Crash =>
    case _ =>
  }

  lemma {:induction false} StepCarriesList(jobs: seq<Job>, s: State, a: Action, s': State, id: nat, locked: seq<string>)
    requires |s.pcs| == |jobs| && id < |jobs| && After(s.pcs[id], locked)
    requires Apply(jobs, s, a) == Some(s')
    ensures |s'.pcs| == |jobs| && After(s'.pcs[id], locked)
  {
    if a.Step? {
      MovesOnlyItself(s, a.id, jobs[a.id], a.op, s');
      if a.id == id {
        OwnStepCarriesList(s, id, jobs[id], a.op, s', locked);
      }
    }
  }

  /** Until it crashes, a launcher carries the list that its lock pass returned
      through the run unchanged, and releases exactly that list. */
  lemma {:induction false} ReleasesWhatItLocked(
    jobs: seq<Job>, s: State, actions: seq<Action>, id: nat, locked: seq<string>)
    requires |s.pcs| == |jobs| && id < |jobs|
    requires After(s.pcs[id], locked)
    ensures Play(jobs, s, actions).Some? ==> After(Play(jobs, s, actions).value.pcs[id], locked)
    decreases actions
  {
    if actions != [] {
      var next := Apply(jobs, s, actions[0]);
      if next.Some? {
        StepCarriesList(jobs, s, actions[0], next.value, id, locked);
        ReleasesWhatItLocked(jobs, next.value, actions[1..], id, locked);
      }
    }
  }

  /** The lock pass is over and returned `locked`. */
  ghost predicate After(pc: Pc, locked: seq<string>) {
    pc.Crashed? || ((pc.Running? || pc.Exited? || pc.Releasing? || pc.WritingRelease? || pc.Finished? || pc.LeftLocked?)
                    && pc.locked == locked)
  }

  // ---- Runs that lose a lock --------------------------------------------------------

  /** A container runs although its worktree is not locked. */
  ghost predicate RunsUnlocked(s: State) {
    exists id, wt :: 0 <= id < |s.pcs| && s.pcs[id].Running? && wt in s.pcs[id].locked && wt !in s.files
  }

  /** Some interleaving loses a lock; `raced` allows launches that go on without
      the mutex. */
  ghost predicate CanLose(jobs: seq<Job>, s: State, raced: bool) {
    |s.pcs| == |jobs| && exists actions, s' ::
      Play(jobs, s, actions) == Some(s') && RunsUnlocked(s') && (raced || Serialized(actions))
  }

  lemma {:induction false} StepBack(jobs: seq<Job>, s: State, id: nat, op: Op, raced: bool)
    requires id < |jobs| == |s.pcs| && (raced || !op.LockAnyway?)
    requires Launcher(s, id, jobs[id], op).Some? && CanLose(jobs, Launcher(s, id, jobs[id], op).value, raced)
    ensures CanLose(jobs, s, raced)
  {
    var a, s' := Step(id, op), Launcher(s, id, jobs[id], op).value;
    var actions, end :| Play(jobs, s', actions) == Some(end) && RunsUnlocked(end) && (raced || Serialized(actions));
    assert ([a] + actions)[1..] == actions;
    assert Play(jobs, s, [a] + actions) == Some(end);
  }

  /** Two launchers that are both given the worktree. */
  ghost predicate Rivals(jobs: seq<Job>, s: State, i: nat, j: nat, wt: string) {
    && i != j && i < |jobs| && j < |jobs| == |s.pcs| && OwnersAreWords(jobs)
    && wt in jobs[i].worktrees && wt in jobs[j].worktrees
  }

  function OnlyEntry(owner: string): string {
    LockText([owner])
  }

  lemma {:induction false} UnlocksUnder(jobs: seq<Job>, s: State, i: nat, j: nat, wt: string, raced: bool)
    requires Rivals(jobs, s, i, j, wt) && s.pcs[i] == WritingRelease(0, [wt], OnlyEntry(jobs[i].owner))
    requires s.pcs[j] == Running([wt])
    ensures CanLose(jobs, s, raced)
  {
    SharedNameSharesOneEntry(jobs[i].owner);
    var s' := Launcher(s, i, jobs[i], WriteRelease(true)).value;
    assert s'.pcs[j].Running? && wt in s'.pcs[j].locked && wt !in s'.files;
    assert Play(jobs, s', []) == Some(s');
    StepBack(jobs, s, i, WriteRelease(true), raced);
  }

  /** The first launcher finishes while the second, under the same entry, runs. */
  lemma {:induction false} FinishesUnder(jobs: seq<Job>, s: State, i: nat, j: nat, wt: string)
    requires Rivals(jobs, s, i, j, wt) && s.pcs[i] == Running([wt]) && s.pcs[j] == Running([wt])
    requires s.mutex == None && wt in s.files && s.files[wt] == OnlyEntry(jobs[i].owner)
    ensures CanLose(jobs, s, false)
  {
    SharedNameSharesOneEntry(jobs[i].owner);
    var s1 := Launcher(s, i, jobs[i], Exit).value;
    var s2 := Launcher(s1, i, jobs[i], Acquire).value;
    var s3 := Launcher(s2, i, jobs[i], ReadForRelease(true)).value;
    UnlocksUnder(jobs, s3, i, j, wt, false);
    StepBack(jobs, s2, i, ReadForRelease(true), false);
    StepBack(jobs, s1, i, Acquire, false);
    StepBack(jobs, s, i, Exit, false);
  }

  /** The rest of the second launcher's lock pass, in both stories. */
  lemma {:induction false} SecondStarts(jobs: seq<Job>, s: State, i: nat, j: nat, wt: string, n: nat, raced: bool)
    requires Rivals(jobs, s, i, j, wt) && s.pcs[j] == Looking(n, [wt])
    requires raced ==> s.pcs[i] == WritingRelease(0, [wt], OnlyEntry(jobs[i].owner))
    requires !raced ==> s.pcs[i] == Running([wt]) && s.mutex == Some(j)
                        && wt in s.files && s.files[wt] == OnlyEntry(jobs[i].owner)
    ensures CanLose(jobs, s, raced)
    decreases |jobs[j].worktrees| - n
  {
    var s' := Launcher(s, j, jobs[j], Look(false)).value;
    if n < |jobs[j].worktrees| {
      SecondStarts(jobs, s', i, j, wt, n + 1, raced);
    } else if raced {
      UnlocksUnder(jobs, s', i, j, wt, raced);
    } else {
      FinishesUnder(jobs, s', i, j, wt);
    }
    StepBack(jobs, s, j, Look(false), raced);
  }

  /** The second launcher joins the first one's entry, or adds its own. */
  lemma {:induction false} SecondJoins(
    jobs: seq<Job>, s: State, i: nat, j: nat, wt: string, n: nat, k: nat, raced: bool)
    requires Rivals(jobs, s, i, j, wt) && s.pcs[j] == Looking(n, [])
    requires n <= k < |jobs[j].worktrees| && jobs[j].worktrees[k] == wt
    requires wt in s.files && s.files[wt] == OnlyEntry(jobs[i].owner)
    requires raced ==> s.pcs[i] == WritingRelease(0, [wt], OnlyEntry(jobs[i].owner))
    requires !raced ==> s.pcs[i] == Running([wt]) && s.mutex == Some(j) && jobs[i].owner == jobs[j].owner
    ensures CanLose(jobs, s, raced)
    decreases k - n
  {
    if n < k {
      SecondJoins(jobs, Launcher(s, j, jobs[j], Look(false)).value, i, j, wt, n + 1, k, raced);
      StepBack(jobs, s, j, Look(false), raced);
    } else {
      ParseUndoesPrint([jobs[i].owner]);
      assert [] + [wt] == [wt];
      var s1 := Launcher(s, j, jobs[j], Look(true)).value;
      var s2 := Launcher(s1, j, jobs[j], ReadForAdd).value;
      if jobs[i].owner != jobs[j].owner {
        SecondStarts(jobs, Launcher(s2, j, jobs[j], WriteAdd(true)).value, i, j, wt, k + 1, raced);
        StepBack(jobs, s2, j, WriteAdd(true), raced);
      } else {
        SecondStarts(jobs, s2, i, j, wt, k + 1, raced);
      }
      StepBack(jobs, s1, j, ReadForAdd, raced);
      StepBack(jobs, s, j, Look(true), raced);
    }
  }

  /** The second launcher gets its turn: with the mutex while the first runs, or
      without it while the first is about to write its removal. */
  lemma {:induction false} SecondEnters(jobs: seq<Job>, s: State, i: nat, j: nat, wt: string, raced: bool)
    requires Rivals(jobs, s, i, j, wt) && s.pcs[i] == Running([wt]) && s.pcs[j] == Start
    requires s.mutex == None && wt in s.files && s.files[wt] == OnlyEntry(jobs[i].owner)
    requires raced || jobs[i].owner == jobs[j].owner
    ensures CanLose(jobs, s, raced)
  {
    var k :| 0 <= k < |jobs[j].worktrees| && jobs[j].worktrees[k] == wt;
    if raced {
      SharedNameSharesOneEntry(jobs[i].owner);
      var s1 := Launcher(s, i, jobs[i], Exit).value;
      var s2 := Launcher(s1, i, jobs[i], Acquire).value;
      var s3 := Launcher(s2, i, jobs[i], ReadForRelease(true)).value;
      SecondJoins(jobs, Launcher(s3, j, jobs[j], LockAnyway).value, i, j, wt, 0, k, raced);
      StepBack(jobs, s3, j, LockAnyway, raced);
      StepBack(jobs, s2, i, ReadForRelease(true), raced);
      StepBack(jobs, s1, i, Acquire, raced);
      StepBack(jobs, s, i, Exit, raced);
    } else {
      SecondJoins(jobs, Launcher(s, j, jobs[j], Acquire).value, i, j, wt, 0, k, raced);
      StepBack(jobs, s, j, Acquire, raced);
    }
  }

  lemma {:induction false} FirstStarts(jobs: seq<Job>, s: State, i: nat, j: nat, wt: string, n: nat, raced: bool)
    requires Rivals(jobs, s, i, j, wt) && s.pcs[i] == Looking(n, [wt]) && s.pcs[j] == Start
    requires s.mutex == Some(i) && wt in s.files && s.files[wt] == OnlyEntry(jobs[i].owner)
    requires raced || jobs[i].owner == jobs[j].owner
    ensures CanLose(jobs, s, raced)
    decreases |jobs[i].worktrees| - n
  {
    var s' := Launcher(s, i, jobs[i], Look(false)).value;
    if n < |jobs[i].worktrees| {
      FirstStarts(jobs, s', i, j, wt, n + 1, raced);
    } else {
      SecondEnters(jobs, s', i, j, wt, raced);
    }
    StepBack(jobs, s, i, Look(false), raced);
  }

  lemma {:induction false} FirstLocks(
    jobs: seq<Job>, s: State, i: nat, j: nat, wt: string, n: nat, k: nat, raced: bool)
    requires Rivals(jobs, s, i, j, wt) && s.pcs[i] == Looking(n, []) && s.pcs[j] == Start
    requires n <= k < |jobs[i].worktrees| && jobs[i].worktrees[k] == wt
    requires s.mutex == Some(i) && wt !in s.files
    requires raced || jobs[i].owner == jobs[j].owner
    ensures CanLose(jobs, s, raced)
    decreases k - n
  {
    if n < k {
      FirstLocks(jobs, Launcher(s, i, jobs[i], Look(false)).value, i, j, wt, n + 1, k, raced);
      StepBack(jobs, s, i, Look(false), raced);
    } else {
      assert [] + [wt] == [wt];
      var s1 := Launcher(s, i, jobs[i], Look(true)).value;
      FirstStarts(jobs, Launcher(s1, i, jobs[i], GitLock(true)).value, i, j, wt, k + 1, raced);
      StepBack(jobs, s1, i, GitLock(true), raced);
      StepBack(jobs, s, i, Look(true), raced);
    }
  }

  lemma {:induction false} RivalsCanLose(jobs: seq<Job>, i: nat, j: nat, wt: string, raced: bool)
    requires Rivals(jobs, InitialState(jobs, map[]), i, j, wt)
    requires raced || jobs[i].owner == jobs[j].owner
    ensures CanLose(jobs, InitialState(jobs, map[]), raced)
  {
    var s := InitialState(jobs, map[]);
    var k :| 0 <= k < |jobs[i].worktrees| && jobs[i].worktrees[k] == wt;
    FirstLocks(jobs, Launcher(s, i, jobs[i], Acquire).value, i, j, wt, 0, k, raced);
    StepBack(jobs, s, i, Acquire, raced);
  }

  /** Any two launchers with a worktree in common: where one of them times out on
      the mutex and locks anyway, its container can run while the worktree is
      unlocked, whatever the names. */
  lemma {:induction false} UnserializedLockCanBeLost(jobs: seq<Job>, i: nat, j: nat, wt: string)
    requires OwnersAreWords(jobs) && i != j && i < |jobs| && j < |jobs|
    requires wt in jobs[i].worktrees && wt in jobs[j].worktrees
    ensures CanLose(jobs, InitialState(jobs, map[]), true)
  {
    RivalsCanLose(jobs, i, j, wt, true);
  }

  /** Where every edit holds the mutex: the first of two launchers with one name
      in one worktree to finish unlocks it under the other. */
  lemma {:induction false} SharedNameUnlocksEarly(jobs: seq<Job>, i: nat, j: nat, wt: string)
    requires OwnersAreWords(jobs) && i != j && i < |jobs| && j < |jobs|
    requires wt in jobs[i].worktrees && wt in jobs[j].worktrees && jobs[i].owner == jobs[j].owner
    ensures CanLose(jobs, InitialState(jobs, map[]), false)
  {
    RivalsCanLose(jobs, i, j, wt, false);
  }

  /** Every run in which all edits hold the mutex keeps what launchers hold
      locked. */
  ghost predicate SerializedStayLocked(jobs: seq<Job>) {
    forall files, actions :: Serialized(actions) && Play(jobs, InitialState(jobs, files), actions).Some? ==>
      AllLocked(jobs, Play(jobs, InitialState(jobs, files), actions).value)
  }

  /** With the mutex, locks are kept if and only if no two launchers share both
      a name and a worktree. */
  lemma {:induction false} SerializedStayLockedIff(jobs: seq<Job>)
    requires OwnersAreWords(jobs)
    ensures SerializedStayLocked(jobs) <==> SeparateEntries(jobs)
  {
    if SeparateEntries(jobs) {
      forall files, actions | Serialized(actions) && Play(jobs, InitialState(jobs, files), actions).Some?
        ensures AllLocked(jobs, Play(jobs, InitialState(jobs, files), actions).value)
      {
        SerializedIsGuarded(jobs, InitialState(jobs, files), actions);
        StaysLocked(jobs, files, actions, Play(jobs, InitialState(jobs, files), actions).value);
      }
    } else {
      var i, j, wt :| 0 <= i < j < |jobs| && wt in jobs[i].worktrees && wt in jobs[j].worktrees
        && jobs[i].owner == jobs[j].owner;
      SharedNameUnlocksEarly(jobs, i, j, wt);
      var actions, s :| Play(jobs, InitialState(jobs, map[]), actions) == Some(s) && RunsUnlocked(s)
        && Serialized(actions);
      var id, w :| 0 <= id < |s.pcs| && s.pcs[id].Running? && w in s.pcs[id].locked && w !in s.files;
      assert Holds(s.pcs[id], w) && !LockedFor(s.files, w, jobs[id].owner);
    }
  }
}
