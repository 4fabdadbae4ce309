/** The mkdir mutex that serializes owner-list edits, with its reclaim of stale
    holders (internal/host/worktreelock.go). Every file operation is a step of
    its own, so the windows between them are visible. */
module LockMutex {
  import opened Text

  const MUTEX_STALE_AFTER := 30
  const MUTEX_STALE_GRACE := 5
  const MUTEX_MAX_WAITS := 50

  // ---- Is the holder stale? ------------------------------------------------------

  /** The `owner` file inside the lock directory: absent, or the numbers it
      carries (0 where a field is missing or is not a number). */
  datatype OwnerFile = NoOwner | Recorded(pid: int, since: int)

  datatype Observation = OwnerUnreadable | HolderUnreachable | HolderExpired | HolderActive

  predicate IsStale(o: Observation) {
    !o.HolderActive?
  }

  /** `reachable` are the processes that a zero signal reaches. */
  function ObserveMutexHolder(owner: OwnerFile, reachable: set<int>, now: int): (o: Observation)
    ensures !IsStale(o) <==>
              && owner.Recorded?
              && (owner.pid == 0 || owner.pid in reachable)
              && (owner.since <= 0 || now < owner.since + MUTEX_STALE_AFTER)
  {
    match owner
    case NoOwner => OwnerUnreadable
    case Recorded(pid, since) =>
      if pid != 0 && pid !in reachable then HolderUnreachable
      else if since > 0 && now > since && now - since >= MUTEX_STALE_AFTER then HolderExpired
      else HolderActive
  }

  // ---- How long one acquire takes --------------------------------------------------

  /** What one round of the acquire loop meets: whether mkdir succeeded, and
      whether the holder looks stale if the round comes to look. */
  datatype Round = Round(made: bool, stale: bool)

  datatype Outcome = Acquired | TimedOut | StillTrying

  datatype Acquisition = Acquisition(outcome: Outcome, attempts: nat, reclaims: nat)

  function Acquiring(rounds: seq<Round>, waited: nat): Acquisition
    decreases rounds
  {
    if rounds == [] then Acquisition(StillTrying, 0, 0)
    else if rounds[0].made then Acquisition(Acquired, 1, 0)
    else if waited >= MUTEX_STALE_GRACE && rounds[0].stale then
      Plus(Acquiring(rounds[1..], 0), 1, 1)
    else if waited >= MUTEX_MAX_WAITS then Acquisition(TimedOut, 1, 0)
    else Plus(Acquiring(rounds[1..], waited + 1), 1, 0)
  }

  function Plus(a: Acquisition, attempts: nat, reclaims: nat): Acquisition {
    a.(attempts := a.attempts + attempts, reclaims := a.reclaims + reclaims)
  }

  /** The acquire loop against whatever the rounds hold; it is still trying when
      they run out. */
  method AcquireMutex(rounds: seq<Round>) returns (a: Acquisition)
    ensures a == Acquiring(rounds, 0)
  {
    var waited, attempts, reclaims := 0, 0, 0;
    assert rounds[0..] == rounds;
    while attempts < |rounds|
      invariant attempts <= |rounds|
      invariant Acquiring(rounds, 0) == Plus(Acquiring(rounds[attempts..], waited), attempts, reclaims)
    {
      var round := rounds[attempts];
      assert rounds[attempts..][1..] == rounds[attempts + 1..];
      attempts := attempts + 1;
      if round.made {
        return Acquisition(Acquired, attempts, reclaims);
      }
      if waited >= MUTEX_STALE_GRACE && round.stale {
        reclaims := reclaims + 1;
        waited := 0;
        continue;
      }
      if waited >= MUTEX_MAX_WAITS {
        return Acquisition(TimedOut, attempts, reclaims);
      }
      waited := waited + 1;
    }
    return Acquisition(StillTrying, attempts, reclaims);
  }

  /** An acquire that reclaims R times makes at most 51(R+1) attempts and at
      least 6R; one still trying has made fewer than 51(R+1). */
  lemma {:induction false} AttemptsAreBounded(rounds: seq<Round>, waited: nat)
    requires waited <= MUTEX_MAX_WAITS
    ensures var a := Acquiring(rounds, waited);
            var most := (MUTEX_MAX_WAITS + 1) * (a.reclaims + 1) - waited;
            && a.attempts <= most
            && (MUTEX_STALE_GRACE + 1) * a.reclaims <= a.attempts + waited
            && (a.outcome.StillTrying? ==> a.attempts == |rounds| < most)
    decreases rounds
  {
    if rounds != [] && !rounds[0].made {
      if waited >= MUTEX_STALE_GRACE && rounds[0].stale {
        AttemptsAreBounded(rounds[1..], 0);
      } else if waited < MUTEX_MAX_WAITS {
        AttemptsAreBounded(rounds[1..], waited + 1);
      }
    }
  }

  /** Giving up means 51 failed attempts in a row, none of which found a stale
      holder once the grace period was over. */
  lemma {:induction false} TimeoutMeansBusy(rounds: seq<Round>, waited: nat)
    requires waited <= MUTEX_MAX_WAITS
    requires Acquiring(rounds, waited).outcome.TimedOut?
    ensures var a := Acquiring(rounds, waited);
            && a.attempts <= |rounds|
            && (waited == 0 || a.reclaims > 0 ==> a.attempts > MUTEX_MAX_WAITS)
            && (a.reclaims == 0 ==> a.attempts == MUTEX_MAX_WAITS + 1 - waited)
            && forall i :: 0 <= i < a.attempts && i >= a.attempts - 1 - MUTEX_MAX_WAITS ==>
                 !rounds[i].made && (i >= a.attempts - 1 - MUTEX_MAX_WAITS + MUTEX_STALE_GRACE ==> !rounds[i].stale)
    decreases rounds
  {
    var a := Acquiring(rounds, waited);
    if waited >= MUTEX_STALE_GRACE && rounds[0].stale {
      TimeoutMeansBusy(rounds[1..], 0);
      assert forall i :: 1 <= i < a.attempts ==> rounds[i] == rounds[1..][i - 1];
    } else if waited < MUTEX_MAX_WAITS {
      TimeoutMeansBusy(rounds[1..], waited + 1);
      assert forall i :: 1 <= i < a.attempts ==> rounds[i] == rounds[1..][i - 1];
    }
  }

  /** A stale directory that can never be removed keeps the loop going for as
      long as anyone watches. */
  lemma {:induction false} StuckDirectoryNeverEnds(n: nat, waited: nat)
    requires waited <= MUTEX_STALE_GRACE
    ensures var a := Acquiring(seq(n, i => Round(false, true)), waited);
            a.outcome.StillTrying? && a.attempts == n
    decreases n
  {
    if n > 0 {
      assert seq(n, i => Round(false, true))[1..] == seq(n - 1, i => Round(false, true));
      StuckDirectoryNeverEnds(n - 1, if waited == MUTEX_STALE_GRACE then 0 else waited + 1);
    }
  }

  // ---- Who holds the mutex -----------------------------------------------------------

  /** Where a process is: between mkdir and the owner write, holding, between
      finding a stale holder and removing its two traces, or between the two
      removals of its own release. */
  datatype Pc = Idle | Made | Holding(since: nat) | SawStale | ClearedOwner | Leaving

  datatype Process = Process(pid: int, alive: bool, pc: Pc)

  /** `dir` is the lock directory and the owner file in it. */
  datatype State = State(dir: Option<OwnerFile>, now: nat, procs: seq<Process>)

  datatype Op =
    | Mkdir
    | WriteOwner(succeeds: bool)
    | Observe(reachable: set<int>)
    | RemoveOwner
    | RemoveDir
    | Die

  datatype Action = Act(id: nat, op: Op) | Tick(seconds: nat)

  function Move(s: State, id: nat, pc: Pc): State
    requires id < |s.procs|
  {
    s.(procs := s.procs[id := s.procs[id].(pc := pc)])
  }

  ghost predicate Reaches(s: State, reachable: set<int>) {
    forall i :: 0 <= i < |s.procs| && s.procs[i].alive ==> s.procs[i].pid in reachable
  }

  ghost function Apply(s: State, a: Action): (r: Option<State>)
    ensures r.Some? ==> |r.value.procs| == |s.procs|
  {
    match a
    case Tick(seconds) => Some(s.(now := s.now + seconds))
    case Act(id, op) =>
      if id >= |s.procs| || !s.procs[id].alive then None else Perform(s, id, op)
  }

  ghost function Perform(s: State, id: nat, op: Op): (r: Option<State>)
    requires id < |s.procs|
    ensures r.Some? ==> |r.value.procs| == |s.procs|
  {
    var p := s.procs[id];
    match op
    case Mkdir =>
      if p.pc.Idle? && s.dir.None? then Some(Move(s, id, Made).(dir := Some(NoOwner))) else None
    case WriteOwner(succeeds) =>
      if !p.pc.Made? then None
      else
        Some(Move(s, id, Holding(s.now))
             .(dir := if succeeds && s.dir.Some? then Some(Recorded(p.pid, s.now)) else s.dir))
    case Observe(reachable) =>
      if !p.pc.Idle? || !Reaches(s, reachable) then None
      else
        var owner := if s.dir.Some? then s.dir.value else NoOwner;
        Some(if IsStale(ObserveMutexHolder(owner, reachable, s.now)) then Move(s, id, SawStale) else s)
    case RemoveOwner =>
      var cleared := s.(dir := if s.dir.Some? then Some(NoOwner) else None);
      if p.pc.SawStale? then Some(Move(cleared, id, ClearedOwner))
      else if p.pc.Holding? then Some(Move(cleared, id, Leaving))
      else None
    case RemoveDir =>
      if p.pc.ClearedOwner? || p.pc.Leaving?
      then Some(Move(s, id, Idle).(dir := if s.dir == Some(NoOwner) then None else s.dir))
      else None
    case Die => Some(s.(procs := s.procs[id := p.(alive := false)]))
  }

  ghost function Play(s: State, actions: seq<Action>): Option<State>
    decreases actions
  {
    if actions == [] then Some(s)
    else match Apply(s, actions[0])
      case None => None
      case Some(next) => Play(next, actions[1..])
  }

  /** From its successful mkdir to the end of its release. */
  predicate Claims(p: Process) {
    p.alive && (p.pc.Made? || p.pc.Holding? || p.pc.Leaving?)
  }

  /** Between two file operations that belong together. */
  predicate MidWindow(p: Process) {
    p.alive && !p.pc.Idle? && !p.pc.Holding?
  }

  /** No other process acts inside the window; the owner file gets written; and
      the clock does not pass the 30 seconds while a live holder edits. */
  ghost predicate Orderly(s: State, a: Action) {
    match a
    case Act(id, op) =>
      && (forall i :: 0 <= i < |s.procs| && i != id ==> !MidWindow(s.procs[i]))
      && (op.WriteOwner? ==> op.succeeds)
    case Tick(seconds) =>
      forall i :: 0 <= i < |s.procs| && s.procs[i].alive && s.procs[i].pc.Holding? ==>
        s.now + seconds < s.procs[i].pc.since + MUTEX_STALE_AFTER
  }

  ghost predicate PlayedOrderly(s: State, actions: seq<Action>)
    decreases actions
  {
    actions != [] ==>
      Orderly(s, actions[0]) &&
      (Apply(s, actions[0]).Some? ==> PlayedOrderly(Apply(s, actions[0]).value, actions[1..]))
  }

  /** Any directory may be left over when the processes start. */
  ghost predicate Initial(s: State) {
    s.now > 0 && forall i :: 0 <= i < |s.procs| ==> s.procs[i].pc.Idle?
  }

  ghost predicate ProcessInv(s: State, p: Process) {
    && (p.pc.Made? ==> s.dir == Some(NoOwner))
    && (p.pc.Holding? ==>
         && s.dir == Some(Recorded(p.pid, p.pc.since))
         && 0 < p.pc.since <= s.now < p.pc.since + MUTEX_STALE_AFTER)
  }

  ghost predicate Inv(s: State) {
    && s.now > 0
    && (forall i :: 0 <= i < |s.procs| && s.procs[i].alive ==> ProcessInv(s, s.procs[i]))
    && (forall i, j :: 0 <= i < j < |s.procs| && s.procs[i].alive && s.procs[j].alive ==>
         s.procs[i].pc.Idle? || s.procs[j].pc.Idle?)
  }

  lemma {:induction false} StepKeepsInv(s: State, a: Action)
    requires Inv(s) && Orderly(s, a) && Apply(s, a).Some?
    ensures Inv(Apply(s, a).value)
  {
    var s' := Apply(s, a).value;
    if a.Act? {
      var id := a.id;
      assert ProcessInv(s, s.procs[id]);
      forall i | 0 <= i < |s.procs| && i != id && s.procs[i].alive
        ensures ProcessInv(s', s'.procs[i])
        ensures s'.procs[id].alive ==> s'.procs[i].pc.Idle? || s'.procs[id].pc.Idle?
      {
        assert ProcessInv(s, s.procs[i]);
        assert s.procs[i].pc.Idle? || s.procs[id].pc.Idle?;
      }
    } else {
      forall i | 0 <= i < |s.procs| && s.procs[i].alive
        ensures ProcessInv(s', s'.procs[i])
      {
        assert ProcessInv(s, s.procs[i]);
      }
    }
  }

  lemma {:induction false} PlayKeepsInv(s: State, actions: seq<Action>)
    requires Inv(s) && PlayedOrderly(s, actions) && Play(s, actions).Some?
    ensures Inv(Play(s, actions).value)
    decreases actions
  {
    if actions != [] {
      StepKeepsInv(s, actions[0]);
      PlayKeepsInv(Apply(s, actions[0]).value, actions[1..]);
    }
  }

  /** At most one live process holds the mutex, however many there are and
      whatever stale directory they started from; and no live holder is ever
      taken for stale. */
  lemma {:induction false} MutexIsExclusive(s: State, actions: seq<Action>, s': State, i: nat, j: nat)
    requires Initial(s) && PlayedOrderly(s, actions) && Play(s, actions) == Some(s')
    requires i < j < |s'.procs|
    ensures !(Claims(s'.procs[i]) && Claims(s'.procs[j]))
    ensures s'.procs[i].alive && s'.procs[i].pc.Holding? ==>
              s'.dir.Some? && forall reachable :: Reaches(s', reachable) ==>
                !IsStale(ObserveMutexHolder(s'.dir.value, reachable, s'.now))
  {
    PlayKeepsInv(s, actions);
    assert s'.procs[i].alive ==> ProcessInv(s', s'.procs[i]);
  }

  // ---- Exclusion, exactly -------------------------------------------------------------

  predicate SomeoneClaims(s: State) {
    exists i :: 0 <= i < |s.procs| && Claims(s.procs[i])
  }

  predicate AtMostOneClaims(s: State) {
    forall i, j :: 0 <= i < j < |s.procs| ==> !(Claims(s.procs[i]) && Claims(s.procs[j]))
  }

  /** A reclaimer removes the directory that someone claims by now. */
  predicate UnsafeStep(s: State, a: Action) {
    && a.Act? && a.id < |s.procs| && a.op.RemoveDir?
    && s.procs[a.id].alive && s.procs[a.id].pc.ClearedOwner?
    && s.dir == Some(NoOwner) && SomeoneClaims(s)
  }

  ghost predicate PlayedSafely(s: State, actions: seq<Action>)
    decreases actions
  {
    actions != [] ==>
      !UnsafeStep(s, actions[0]) &&
      (Apply(s, actions[0]).Some? ==> PlayedSafely(Apply(s, actions[0]).value, actions[1..]))
  }

  /** At no time during the play do two processes claim the mutex, and at no
      time could one more mkdir make two of them claim it. */
  ghost predicate StaysExclusive(s: State, actions: seq<Action>)
    decreases actions
  {
    && AtMostOneClaims(s)
    && (forall id :: Apply(s, Act(id, Mkdir)).Some? ==> AtMostOneClaims(Apply(s, Act(id, Mkdir)).value))
    && (actions != [] && Apply(s, actions[0]).Some? ==> StaysExclusive(Apply(s, actions[0]).value, actions[1..]))
  }

  ghost predicate Exclusive(s: State) {
    AtMostOneClaims(s) && (SomeoneClaims(s) ==> s.dir.Some?)
  }

  /** One step out of an exclusive state keeps it exclusive exactly when it is
      not the unsafe one; no order between the other steps is assumed. */
  lemma {:induction false} StepStaysExclusiveIff(s: State, a: Action, s': State)
    requires Exclusive(s) && Apply(s, a) == Some(s')
    ensures Exclusive(s') <==> !UnsafeStep(s, a)
  {
    forall i | 0 <= i < |s.procs| && Claims(s'.procs[i]) && (a.Act? ==> i != a.id)
      ensures Claims(s.procs[i])
    {
    }
    if UnsafeStep(s, a) {
      var i :| 0 <= i < |s.procs| && Claims(s.procs[i]);
      assert Claims(s'.procs[i]);
    }
  }

  /** In an exclusive state one more mkdir does no harm. */
  lemma {:induction false} ExclusiveAllowsMkdir(s: State, id: nat)
    requires Exclusive(s) && Apply(s, Act(id, Mkdir)).Some?
    ensures AtMostOneClaims(Apply(s, Act(id, Mkdir)).value)
  {
    StepStaysExclusiveIff(s, Act(id, Mkdir), Apply(s, Act(id, Mkdir)).value);
  }

  /** After an unsafe step the reclaimer's own mkdir makes a second claimant. */
  lemma {:induction false} UnsafeStepAdmitsTwo(s: State, a: Action, s': State)
    requires UnsafeStep(s, a) && Apply(s, a) == Some(s')
    ensures Apply(s', Act(a.id, Mkdir)).Some?
    ensures !AtMostOneClaims(Apply(s', Act(a.id, Mkdir)).value)
  {
    var i :| 0 <= i < |s.procs| && Claims(s.procs[i]);
    var two := Apply(s', Act(a.id, Mkdir)).value;
    assert Claims(two.procs[i]) && Claims(two.procs[a.id]);
  }

  lemma {:induction false} SafeExactly(s: State, actions: seq<Action>)
    requires Exclusive(s)
    ensures PlayedSafely(s, actions) <==> StaysExclusive(s, actions)
    decreases actions
  {
    forall id | Apply(s, Act(id, Mkdir)).Some?
      ensures AtMostOneClaims(Apply(s, Act(id, Mkdir)).value)
    {
      ExclusiveAllowsMkdir(s, id);
    }
    if actions != [] && Apply(s, actions[0]).Some? {
      var next := Apply(s, actions[0]).value;
      StepStaysExclusiveIff(s, actions[0], next);
      if UnsafeStep(s, actions[0]) {
        UnsafeStepAdmitsTwo(s, actions[0], next);
      } else {
        SafeExactly(next, actions[1..]);
      }
    }
  }

  /** From any leftover directory, and in whatever order the processes act, the
      mutex stays exclusive if and only if no reclaimer removes the directory
      under a claimant. */
  lemma {:induction false} ExclusiveIffSafe(s: State, actions: seq<Action>)
    requires Initial(s)
    ensures StaysExclusive(s, actions) <==> PlayedSafely(s, actions)
  {
    SafeExactly(s, actions);
  }

  /** In particular at most one live process claims the mutex after any number of
      safe steps, and never one without the directory. */
  lemma {:induction false} SafePlayIsExclusive(s: State, actions: seq<Action>, s': State)
    requires Exclusive(s) && PlayedSafely(s, actions) && Play(s, actions) == Some(s')
    ensures Exclusive(s')
    decreases actions
  {
    if actions != [] {
      var next := Apply(s, actions[0]).value;
      StepStaysExclusiveIff(s, actions[0], next);
      SafePlayIsExclusive(next, actions[1..], s');
    }
  }

  /** Orderly plays have no unsafe step. */
  lemma {:induction false} OrderlyIsSafe(s: State, actions: seq<Action>)
    requires Inv(s) && PlayedOrderly(s, actions)
    ensures PlayedSafely(s, actions)
    decreases actions
  {
    if actions != [] {
      assert forall i :: 0 <= i < |s.procs| && s.procs[i].alive ==> ProcessInv(s, s.procs[i]);
      if Apply(s, actions[0]).Some? {
        StepKeepsInv(s, actions[0]);
        OrderlyIsSafe(Apply(s, actions[0]).value, actions[1..]);
      }
    }
  }

  // ---- How an unsafe step comes about ---------------------------------------------------

  ghost predicate TwoHolders(s: State) {
    && |s.procs| == 2
    && s.procs[0].alive && s.procs[0].pc.Holding?
    && s.procs[1].alive && s.procs[1].pc.Holding?
  }

  ghost predicate LeadsToTwoHolders(s: State) {
    exists actions, s' :: Play(s, actions) == Some(s') && TwoHolders(s')
  }

  /** The process ids of two live processes. */
  datatype Pids = Pids(first: int, second: int)

  function Pair(ids: Pids, now: nat, dir: Option<OwnerFile>, a: Pc, b: Pc): State {
    State(dir, now, [Process(ids.first, true, a), Process(ids.second, true, b)])
  }

  lemma {:induction false} StepBack(s: State, a: Action, s': State)
    requires Apply(s, a) == Some(s') && LeadsToTwoHolders(s')
    ensures LeadsToTwoHolders(s)
  {
    var actions, end :| Play(s', actions) == Some(end) && TwoHolders(end);
    assert ([a] + actions)[1..] == actions;
    assert Play(s, [a] + actions) == Some(end);
  }

  /** A step of the first process of a pair. */
  lemma {:induction false} First(
    ids: Pids, now: nat, dir: Option<OwnerFile>, a: Pc, b: Pc, op: Op, dir': Option<OwnerFile>, a': Pc)
    requires Perform(Pair(ids, now, dir, a, b), 0, op) == Some(Move(Pair(ids, now, dir, a, b), 0, a').(dir := dir'))
    requires LeadsToTwoHolders(Pair(ids, now, dir', a', b))
    ensures LeadsToTwoHolders(Pair(ids, now, dir, a, b))
  {
    assert Pair(ids, now, dir, a, b).procs[0 := Process(ids.first, true, a')] == Pair(ids, now, dir', a', b).procs;
    StepBack(Pair(ids, now, dir, a, b), Act(0, op), Pair(ids, now, dir', a', b));
  }

  lemma {:induction false} Second(
    ids: Pids, now: nat, dir: Option<OwnerFile>, a: Pc, b: Pc, op: Op, dir': Option<OwnerFile>, b': Pc)
    requires Perform(Pair(ids, now, dir, a, b), 1, op) == Some(Move(Pair(ids, now, dir, a, b), 1, b').(dir := dir'))
    requires LeadsToTwoHolders(Pair(ids, now, dir', a, b'))
    ensures LeadsToTwoHolders(Pair(ids, now, dir, a, b))
  {
    assert Pair(ids, now, dir, a, b).procs[1 := Process(ids.second, true, b')] == Pair(ids, now, dir', a, b').procs;
    StepBack(Pair(ids, now, dir, a, b), Act(1, op), Pair(ids, now, dir', a, b'));
  }

  /** Once a process is about to remove a directory, a live holder of it does
      not stop the process. */
  lemma {:induction false} ReclaimUnderHolder(ids: Pids, now: nat, owner: OwnerFile, since: nat)
    ensures LeadsToTwoHolders(Pair(ids, now, Some(owner), Holding(since), SawStale))
  {
    var holding, mine := Holding(since), Some(Recorded(ids.second, now));
    assert Play(Pair(ids, now, mine, holding, Holding(now)), []) == Some(Pair(ids, now, mine, holding, Holding(now)));
    Second(ids, now, Some(NoOwner), holding, Made, WriteOwner(true), mine, Holding(now));
    Second(ids, now, None, holding, Idle, Mkdir, Some(NoOwner), Made);
    Second(ids, now, Some(NoOwner), holding, ClearedOwner, RemoveDir, None, Idle);
    Second(ids, now, Some(owner), holding, SawStale, RemoveOwner, Some(NoOwner), ClearedOwner);
  }

  /** The window between finding a stale holder and removing its directory:
      two processes find the same dead holder; the slower one removes the
      directory that the faster one has made since. */
  lemma {:induction false} ReclaimWindow(ids: Pids, now: nat, dead: int, since: int)
    requires dead != 0 && dead != ids.first && dead != ids.second
    ensures LeadsToTwoHolders(Pair(ids, now, Some(Recorded(dead, since)), Idle, Idle))
  {
    var left, mine, alive := Some(Recorded(dead, since)), Recorded(ids.first, now), {ids.first, ids.second};
    ReclaimUnderHolder(ids, now, mine, now);
    First(ids, now, Some(NoOwner), Made, SawStale, WriteOwner(true), Some(mine), Holding(now));
    First(ids, now, None, Idle, SawStale, Mkdir, Some(NoOwner), Made);
    First(ids, now, Some(NoOwner), ClearedOwner, SawStale, RemoveDir, None, Idle);
    First(ids, now, left, SawStale, SawStale, RemoveOwner, Some(NoOwner), ClearedOwner);
    Second(ids, now, left, SawStale, Idle, Observe(alive), left, SawStale);
    First(ids, now, left, Idle, Idle, Observe(alive), left, SawStale);
  }

  /** The window between mkdir and the owner write: the second process takes
      the unwritten owner for a dead one. */
  lemma {:induction false} OwnerWriteWindow(ids: Pids, now: nat)
    ensures LeadsToTwoHolders(Pair(ids, now, None, Idle, Idle))
  {
    var unwritten, mine := Some(NoOwner), Recorded(ids.first, now);
    ReclaimUnderHolder(ids, now, mine, now);
    First(ids, now, unwritten, Made, SawStale, WriteOwner(true), Some(mine), Holding(now));
    Second(ids, now, unwritten, Made, Idle, Observe({ids.first, ids.second}), unwritten, SawStale);
    First(ids, now, None, Idle, Idle, Mkdir, unwritten, Made);
  }

  /** An owner file that could not be written. */
  lemma {:induction false} UnrecordedHolder(ids: Pids, now: nat)
    ensures LeadsToTwoHolders(Pair(ids, now, Some(NoOwner), Made, Idle))
  {
    var unwritten := Some(NoOwner);
    ReclaimUnderHolder(ids, now, NoOwner, now);
    Second(ids, now, unwritten, Holding(now), Idle, Observe({ids.first, ids.second}), unwritten, SawStale);
    First(ids, now, unwritten, Made, Idle, WriteOwner(false), unwritten, Holding(now));
  }

  /** A live holder that edits for 30 seconds. */
  lemma {:induction false} SlowHolder(ids: Pids, now: nat)
    requires now > 0
    ensures LeadsToTwoHolders(Pair(ids, now, Some(Recorded(ids.first, now)), Holding(now), Idle))
  {
    var slow, later := Some(Recorded(ids.first, now)), now + MUTEX_STALE_AFTER;
    ReclaimUnderHolder(ids, later, Recorded(ids.first, now), now);
    Second(ids, later, slow, Holding(now), Idle, Observe({ids.first, ids.second}), slow, SawStale);
    StepBack(
      Pair(ids, now, slow, Holding(now), Idle), Tick(MUTEX_STALE_AFTER), Pair(ids, later, slow, Holding(now), Idle));
  }
}
