/** The owner-list protocol over the file operations of the mkdir mutex. What
    those operations amount to is the mutex that the protocol assumes, as long
    as no reclaimer removes the directory under a claimant
    (internal/host/worktreelock.go). */
module LockRefinement {
  import opened Text
  import opened AutoLock
  import Mutex = LockMutex
  import Protocol = AutoLockProtocol

  /** The lock directory with its processes, and the same launchers in their
      passes. `pass.mutex` only records whose pass is under way; no step of this
      machine looks at it. */
  datatype State = State(dir: Mutex.State, pass: Protocol.State)

  datatype Action = Operate(file: Mutex.Action) | Edit(edit: Protocol.Action)

  predicate WaitsForMutex(pc: Protocol.Pc) {
    pc.Start? || (pc.Exited? && pc.locked != [])
  }

  /** An acquire returns, and the pass it was made for begins. */
  function Entered(s: Protocol.State, id: nat): Protocol.State
    requires id < |s.pcs| && WaitsForMutex(s.pcs[id])
  {
    var first := if s.pcs[id].Start? then Protocol.Looking(0, []) else Protocol.Releasing(0, s.pcs[id].locked);
    Protocol.Move(s, id, first).(mutex := Some(id))
  }

  /** What an operation of a process on the lock directory means for its pass: a
      pass begins with the owner write and is over before the release; a process
      that dies takes it along. */
  function PassAfter(s: State, id: nat, op: Mutex.Op): Option<Protocol.State>
    requires id < |s.pass.pcs| == |s.dir.procs|
  {
    var pc := s.pass.pcs[id];
    if op.WriteOwner? then
      if WaitsForMutex(pc) then Some(Entered(s.pass, id)) else None
    else if op.RemoveOwner? && s.dir.procs[id].pc.Holding? then
      if Protocol.Critical(pc) then None else Some(s.pass)
    else if op.Die? && !pc.Finished? && !pc.LeftLocked? then
      Some(Protocol.Move(s.pass, id, Protocol.Crashed))
    else Some(s.pass)
  }

  /** The steps of a pass that do not touch the lock directory. */
  predicate EditsOnly(a: Protocol.Action) {
    match a
    case Reclaim => false
    case UserEdit(_, _) => true
    case Step(_, op) => !op.Acquire? && !op.LockAnyway? && !op.Crash?
  }

  ghost function Apply(jobs: seq<Protocol.Job>, s: State, a: Action): (r: Option<State>)
    requires |s.pass.pcs| == |s.dir.procs| == |jobs|
    ensures r.Some? ==> |r.value.pass.pcs| == |r.value.dir.procs| == |jobs|
  {
    match a
    case Edit(edit) =>
      if !EditsOnly(edit) || Protocol.Apply(jobs, s.pass, edit).None? then None
      else Some(s.(pass := Protocol.Apply(jobs, s.pass, edit).value))
    case Operate(file) =>
      if Mutex.Apply(s.dir, file).None? then None
      else if file.Tick? then Some(s.(dir := Mutex.Apply(s.dir, file).value))
      else if PassAfter(s, file.id, file.op).None? then None
      else Some(State(Mutex.Apply(s.dir, file).value, PassAfter(s, file.id, file.op).value))
  }

  ghost function Play(jobs: seq<Protocol.Job>, s: State, actions: seq<Action>): (r: Option<State>)
    requires |s.pass.pcs| == |s.dir.procs| == |jobs|
    ensures r.Some? ==> |r.value.pass.pcs| == |r.value.dir.procs| == |jobs|
    decreases actions
  {
    if actions == [] then Some(s)
    else match Apply(jobs, s, actions[0])
      case None => None
      case Some(next) => Play(jobs, next, actions[1..])
  }

  predicate UnsafeStep(s: State, a: Action) {
    a.Operate? && Mutex.UnsafeStep(s.dir, a.file)
  }

  ghost predicate PlayedSafely(jobs: seq<Protocol.Job>, s: State, actions: seq<Action>)
    requires |s.pass.pcs| == |s.dir.procs| == |jobs|
    decreases actions
  {
    actions != [] ==>
      && !UnsafeStep(s, actions[0])
      && (Apply(jobs, s, actions[0]).Some? ==> PlayedSafely(jobs, Apply(jobs, s, actions[0]).value, actions[1..]))
  }

  /** Whoever's pass is under way holds the directory, or died in it. */
  ghost predicate Related(jobs: seq<Protocol.Job>, s: State) {
    && |s.pass.pcs| == |s.dir.procs| == |jobs|
    && Mutex.Exclusive(s.dir)
    && (s.pass.mutex.Some? ==>
          var k := s.pass.mutex.value;
          && k < |jobs|
          && (|| s.pass.pcs[k].Crashed?
              || (Protocol.Critical(s.pass.pcs[k]) && s.dir.procs[k].alive && s.dir.procs[k].pc.Holding?)))
  }

  /** The protocol's own steps for one step of this machine. */
  function Image(s: State, a: Action): seq<Protocol.Action> {
    match a
    case Edit(edit) => [edit]
    case Operate(Tick(_)) => []
    case Operate(Act(id, op)) =>
      if op.WriteOwner? then
        (if s.pass.mutex.Some? then [Protocol.Reclaim] else []) + [Protocol.Step(id, Protocol.Acquire)]
      else if op.Die? && id < |s.pass.pcs| && !s.pass.pcs[id].Finished? && !s.pass.pcs[id].LeftLocked? then
        [Protocol.Step(id, Protocol.Crash)]
      else []
  }

  lemma {:induction false} OneStep(jobs: seq<Protocol.Job>, s: Protocol.State, a: Protocol.Action)
    requires |s.pcs| == |jobs|
    ensures Protocol.Play(jobs, s, [a]) == Protocol.Apply(jobs, s, a)
  {
    if Protocol.Apply(jobs, s, a).Some? {
      var next := Protocol.Apply(jobs, s, a).value;
      assert [a][1..] == [] && Protocol.Play(jobs, next, []) == Some(next);
    }
  }

  /** When an acquire returns, no other live pass is under way. */
  lemma {:induction false} EnteringIsAcquiring(jobs: seq<Protocol.Job>, s: State, id: nat, succeeds: bool, s': State)
    requires Related(jobs, s)
    requires Apply(jobs, s, Operate(Mutex.Act(id, Mutex.WriteOwner(succeeds)))) == Some(s')
    ensures Protocol.Play(jobs, s.pass, Image(s, Operate(Mutex.Act(id, Mutex.WriteOwner(succeeds))))) == Some(s'.pass)
  {
    var acquire := Protocol.Step(id, Protocol.Acquire);
    assert Mutex.Claims(s.dir.procs[id]);
    if s.pass.mutex.Some? {
      var k := s.pass.mutex.value;
      assert Mutex.Claims(s.dir.procs[k]) || s.pass.pcs[k].Crashed?;
      var freed := s.pass.(mutex := None);
      OneStep(jobs, s.pass, Protocol.Reclaim);
      OneStep(jobs, freed, acquire);
      Protocol.PlayConcat(jobs, s.pass, [Protocol.Reclaim], [acquire]);
    } else {
      OneStep(jobs, s.pass, acquire);
      assert [] + [acquire] == [acquire];
    }
  }

  lemma {:induction false} StepRefines(jobs: seq<Protocol.Job>, s: State, a: Action, s': State)
    requires Related(jobs, s) && Apply(jobs, s, a) == Some(s')
    ensures Protocol.Serialized(Image(s, a))
    ensures Protocol.Play(jobs, s.pass, Image(s, a)) == Some(s'.pass)
  {
    match a
    case Edit(edit) =>
      OneStep(jobs, s.pass, edit);
    case Operate(Tick(_)) =>
    case Operate(Act(id, op)) =>
      if op.WriteOwner? {
        EnteringIsAcquiring(jobs, s, id, op.succeeds, s');
      } else if op.Die? {
        OneStep(jobs, s.pass, Protocol.Step(id, Protocol.Crash));
      }
  }

  lemma {:induction false} EditStaysRelated(jobs: seq<Protocol.Job>, s: State, edit: Protocol.Action, s': State)
    requires Related(jobs, s) && Apply(jobs, s, Edit(edit)) == Some(s')
    ensures Related(jobs, s')
  {
    if edit.Step? {
      Protocol.MovesOnlyItself(s.pass, edit.id, jobs[edit.id], edit.op, s'.pass);
    }
  }

  lemma {:induction false} StepStaysRelated(jobs: seq<Protocol.Job>, s: State, a: Action, s': State)
    requires Related(jobs, s) && Apply(jobs, s, a) == Some(s') && !UnsafeStep(s, a)
    ensures Related(jobs, s')
  {
    match a
    case Edit(edit) =>
      EditStaysRelated(jobs, s, edit, s');
    case Operate(file) =>
      Mutex.StepStaysExclusiveIff(s.dir, file, s'.dir);
  }

  /** Every safe play over the file operations is a serialized play of the
      protocol. */
  lemma {:induction false} PlayRefines(
    jobs: seq<Protocol.Job>, s: State, actions: seq<Action>, s': State) returns (image: seq<Protocol.Action>)
    requires Related(jobs, s) && PlayedSafely(jobs, s, actions) && Play(jobs, s, actions) == Some(s')
    ensures Protocol.Serialized(image) && Protocol.Play(jobs, s.pass, image) == Some(s'.pass)
    decreases actions
  {
    if actions == [] {
      image := [];
    } else {
      var next := Apply(jobs, s, actions[0]).value;
      StepRefines(jobs, s, actions[0], next);
      StepStaysRelated(jobs, s, actions[0], next);
      var rest := PlayRefines(jobs, next, actions[1..], s');
      image := Image(s, actions[0]) + rest;
      Protocol.PlayConcat(jobs, s.pass, Image(s, actions[0]), rest);
    }
  }

  /** Over the file operations themselves, from any leftover lock directory:
      unless a reclaimer removes the directory under a claimant, every worktree
      that a launcher has added and not yet removed is locked and lists it. */
  lemma {:induction false} StaysLockedOverFiles(
    jobs: seq<Protocol.Job>, dir: Mutex.State, files: LockFiles, actions: seq<Action>, s': State)
    requires Protocol.OwnersAreWords(jobs) && Protocol.SeparateEntries(jobs)
    requires Mutex.Initial(dir) && |dir.procs| == |jobs|
    requires PlayedSafely(jobs, State(dir, Protocol.InitialState(jobs, files)), actions)
    requires Play(jobs, State(dir, Protocol.InitialState(jobs, files)), actions) == Some(s')
    ensures Protocol.AllLocked(jobs, s'.pass)
  {
    var s := State(dir, Protocol.InitialState(jobs, files));
    var image := PlayRefines(jobs, s, actions, s');
    Protocol.SerializedIsGuarded(jobs, s.pass, image);
    Protocol.StaysLocked(jobs, files, image, s'.pass);
  }
}
