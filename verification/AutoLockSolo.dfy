/** One launcher of the protocol whose steps nobody interrupts: its passes are
    the passes over the worktrees that AutoLock specifies
    (internal/host/worktreelock.go). */
module AutoLockSolo {
  import opened Text
  import opened AutoLock
  import opened AutoLockProtocol

  /** Some steps of the launcher, none of them without the mutex, lead there. */
  ghost predicate Reaches(jobs: seq<Job>, s: State, s': State)
    requires |s.pcs| == |jobs|
  {
    exists actions :: Serialized(actions) && Play(jobs, s, actions) == Some(s')
  }

  lemma {:induction false} Stays(jobs: seq<Job>, s: State)
    requires |s.pcs| == |jobs|
    ensures Reaches(jobs, s, s)
  {
    var none: seq<Action> := [];
    assert Serialized(none) && Play(jobs, s, none) == Some(s);
  }

  /** One more step at the front. */
  lemma {:induction false} StepFirst(jobs: seq<Job>, s: State, id: nat, op: Op, mid: State, s': State)
    requires id < |jobs| == |s.pcs| == |mid.pcs| && !op.LockAnyway?
    requires Launcher(s, id, jobs[id], op) == Some(mid) && Reaches(jobs, mid, s')
    ensures Reaches(jobs, s, s')
  {
    var actions :| Serialized(actions) && Play(jobs, mid, actions) == Some(s');
    var all := [Step(id, op)] + actions;
    assert all[1..] == actions;
    assert Serialized(all) && Play(jobs, s, all) == Some(s');
  }

  lemma {:induction false} Onwards(jobs: seq<Job>, s: State, mid: State, s': State)
    requires |s.pcs| == |jobs| == |mid.pcs| && Reaches(jobs, s, mid) && Reaches(jobs, mid, s')
    ensures Reaches(jobs, s, s')
  {
    var first :| Serialized(first) && Play(jobs, s, first) == Some(mid);
    var rest :| Serialized(rest) && Play(jobs, mid, rest) == Some(s');
    PlayConcat(jobs, s, first, rest);
    assert Serialized(first + rest);
  }

  /** The launcher at this point of its program, with these lock files. */
  function At(s: State, id: nat, pc: Pc, files: LockFiles): State
    requires id < |s.pcs|
  {
    Move(s, id, pc).(files := files)
  }

  lemma {:induction false} AtAgain(s: State, id: nat, pc: Pc, files: LockFiles, pc': Pc, files': LockFiles)
    requires id < |s.pcs|
    ensures At(At(s, id, pc, files), id, pc', files') == At(s, id, pc', files')
    ensures |At(s, id, pc, files).pcs| == |s.pcs| && At(s, id, pc, files).pcs[id] == pc
  {
    assert s.pcs[id := pc][id := pc'] == s.pcs[id := pc'];
  }

  // ---- The lock pass ------------------------------------------------------------------

  lemma {:induction false} Rewrites(
    jobs: seq<Job>, s: State, id: nat, n: nat, locked: seq<string>, read: string, text: string)
    requires id < |jobs| == |s.pcs| && n < |jobs[id].worktrees| && s.pcs[id] == WritingAdd(n, locked, read)
    requires Appended(read, jobs[id].owner) == Some(text)
    ensures var wt := jobs[id].worktrees[n];
            Reaches(jobs, s, At(s, id, Looking(n + 1, Noted(locked, wt)), s.files[wt := text]))
  {
    var wt := jobs[id].worktrees[n];
    var end := At(s, id, Looking(n + 1, Noted(locked, wt)), s.files[wt := text]);
    Stays(jobs, end);
    StepFirst(jobs, s, id, WriteAdd(true), end, end);
  }

  /** Joining the owners of a lock file, or finding that it is not ours. */
  lemma {:induction false} Joins(jobs: seq<Job>, s: State, id: nat, n: nat, locked: seq<string>)
    requires id < |jobs| == |s.pcs| && n < |jobs[id].worktrees| && s.pcs[id] == ReadingForAdd(n, locked)
    ensures var (files, ok) := AppendedIn(s.files, jobs[id].worktrees[n], jobs[id].owner);
            var after := if ok then Noted(locked, jobs[id].worktrees[n]) else locked;
            Reaches(jobs, s, At(s, id, Looking(n + 1, after), files))
  {
    var job, wt := jobs[id], jobs[id].worktrees[n];
    var read := if wt in s.files then s.files[wt] else "";
    var (files, ok) := AppendedIn(s.files, wt, job.owner);
    var end := At(s, id, Looking(n + 1, if ok then Noted(locked, wt) else locked), files);
    var mid := Launcher(s, id, job, ReadForAdd).value;
    if mid.pcs[id].WritingAdd? {
      AtAgain(s, id, WritingAdd(n, locked, read), s.files, end.pcs[id], files);
      Rewrites(jobs, mid, id, n, locked, read, Appended(read, job.owner).value);
    } else {
      EmptyIsNotOurs();
      assert files == s.files && mid == end;
      Stays(jobs, end);
    }
    StepFirst(jobs, s, id, ReadForAdd, mid, end);
  }

  /** One worktree of the pass. */
  lemma {:induction false} AddsOne(jobs: seq<Job>, s: State, id: nat, site: Site, n: nat, locked: seq<string>)
    requires id < |jobs| == |s.pcs| && n < |jobs[id].worktrees| && s.pcs[id] == Looking(n, locked)
    ensures var (files, ok) := Added(s.files, site, jobs[id].worktrees[n], jobs[id].owner);
            var after := if ok then Noted(locked, jobs[id].worktrees[n]) else locked;
            Reaches(jobs, s, At(s, id, Looking(n + 1, after), files))
  {
    var job, wt := jobs[id], jobs[id].worktrees[n];
    var (files, ok) := Added(s.files, site, wt, job.owner);
    var end := At(s, id, Looking(n + 1, if ok then Noted(locked, wt) else locked), files);
    var mid := Launcher(s, id, job, Look(site.gitDirKnown)).value;
    Stays(jobs, end);
    if !site.gitDirKnown {
      StepFirst(jobs, s, id, Look(false), end, end);
    } else if wt in s.files {
      Joins(jobs, mid, id, n, locked);
      AtAgain(s, id, ReadingForAdd(n, locked), s.files, end.pcs[id], files);
      StepFirst(jobs, s, id, Look(true), mid, end);
    } else {
      var after := Launcher(mid, id, job, GitLock(site.gitLocks)).value;
      AtAgain(s, id, Locking(n, locked), s.files, after.pcs[id], after.files);
      if site.gitLocks {
        Stays(jobs, after);
      } else {
        Joins(jobs, after, id, n, locked);
        AtAgain(s, id, ReadingForAdd(n, locked), s.files, end.pcs[id], files);
      }
      StepFirst(jobs, mid, id, GitLock(site.gitLocks), after, end);
      StepFirst(jobs, s, id, Look(true), mid, end);
    }
  }

  lemma {:induction false} AddsFirst(jobs: seq<Job>, s: State, id: nat, sites: Sites, n: nat)
    requires id < |jobs| == |s.pcs| && n <= |jobs[id].worktrees| && s.pcs[id] == Looking(0, [])
    ensures var (files, locked) := LockedAll(s.files, sites, jobs[id].worktrees[..n], jobs[id].owner);
            Reaches(jobs, s, At(s, id, Looking(n, locked), files))
  {
    var wts, owner := jobs[id].worktrees, jobs[id].owner;
    if n == 0 {
      assert wts[..0] == [] && s.pcs[id := Looking(0, [])] == s.pcs;
      Stays(jobs, s);
    } else {
      AddsFirst(jobs, s, id, sites, n - 1);
      assert wts[..n][..n - 1] == wts[..n - 1];
      var (before, sofar) := LockedAll(s.files, sites, wts[..n - 1], owner);
      var (files, locked) := LockedAll(s.files, sites, wts[..n], owner);
      var mid := At(s, id, Looking(n - 1, sofar), before);
      AtAgain(s, id, Looking(n - 1, sofar), before, Looking(n, locked), files);
      AddsOne(jobs, mid, id, sites(wts[n - 1]), n - 1, sofar);
      Onwards(jobs, s, mid, At(s, id, Looking(n, locked), files));
    }
  }

  /** A launcher that gets the mutex and is left alone locks what the lock pass
      locks, and goes on to run with the list that the pass returns. */
  lemma {:induction false} SoloLockIsLockPass(jobs: seq<Job>, s: State, id: nat, sites: Sites)
    requires id < |jobs| == |s.pcs| && s.pcs[id] == Start && s.mutex == None
    ensures var (files, locked) := LockedAll(s.files, sites, jobs[id].worktrees, jobs[id].owner);
            Reaches(jobs, s, At(s, id, Running(locked), files))
  {
    var wts := jobs[id].worktrees;
    var (files, locked) := LockedAll(s.files, sites, wts, jobs[id].owner);
    var entered, end := Launcher(s, id, jobs[id], Acquire).value, At(s, id, Running(locked), files);
    assert wts[..|wts|] == wts;
    AddsFirst(jobs, entered, id, sites, |wts|);
    var done := At(entered, id, Looking(|wts|, locked), files);
    AtAgain(s, id, Looking(0, []), s.files, Looking(|wts|, locked), files);
    AtAgain(s, id, Looking(|wts|, locked), files, Running(locked), files);
    Stays(jobs, end);
    assert Launcher(done, id, jobs[id], Look(true)) == Some(end);
    StepFirst(jobs, done, id, Look(true), end, end);
    Onwards(jobs, entered, done, end);
    StepFirst(jobs, s, id, Acquire, entered, end);
  }

  // ---- The release pass ------------------------------------------------------------------

  lemma {:induction false} ReleasesOne(jobs: seq<Job>, s: State, id: nat, site: Site, n: nat, locked: seq<string>)
    requires id < |jobs| == |s.pcs| && n < |locked| && s.pcs[id] == Releasing(n, locked)
    ensures Reaches(
              jobs, s, At(s, id, Releasing(n + 1, locked), Removed(s.files, site, locked[n], jobs[id].owner)))
  {
    var job, wt := jobs[id], locked[n];
    var files := Removed(s.files, site, wt, job.owner);
    var end := At(s, id, Releasing(n + 1, locked), files);
    var reachable := site.dirExists && site.gitDirKnown;
    Stays(jobs, end);
    if reachable && wt in s.files && !RemovalEdit(s.files[wt], job.owner).LeaveAlone? {
      var mid := Launcher(s, id, job, ReadForRelease(true)).value;
      AtAgain(s, id, WritingRelease(n, locked, s.files[wt]), s.files, Releasing(n + 1, locked), files);
      StepFirst(jobs, mid, id, WriteRelease(true), end, end);
      StepFirst(jobs, s, id, ReadForRelease(true), mid, end);
    } else {
      assert files == s.files;
      StepFirst(jobs, s, id, ReadForRelease(reachable), end, end);
    }
  }

  lemma {:induction false} ReleasesFirst(jobs: seq<Job>, s: State, id: nat, sites: Sites, locked: seq<string>, n: nat)
    requires id < |jobs| == |s.pcs| && n <= |locked| && s.pcs[id] == Releasing(0, locked)
    ensures Reaches(
              jobs, s, At(s, id, Releasing(n, locked), ReleasedAll(s.files, sites, locked[..n], jobs[id].owner)))
  {
    if n == 0 {
      assert locked[..0] == [] && s.pcs[id := Releasing(0, locked)] == s.pcs;
      Stays(jobs, s);
    } else {
      ReleasesFirst(jobs, s, id, sites, locked, n - 1);
      assert locked[..n][..n - 1] == locked[..n - 1];
      var before := ReleasedAll(s.files, sites, locked[..n - 1], jobs[id].owner);
      var files := ReleasedAll(s.files, sites, locked[..n], jobs[id].owner);
      var mid := At(s, id, Releasing(n - 1, locked), before);
      AtAgain(s, id, Releasing(n - 1, locked), before, Releasing(n, locked), files);
      ReleasesOne(jobs, mid, id, sites(locked[n - 1]), n - 1, locked);
      Onwards(jobs, s, mid, At(s, id, Releasing(n, locked), files));
    }
  }

  lemma {:induction false} ReleasesAndFinishes(
    jobs: seq<Job>, s: State, id: nat, sites: Sites, locked: seq<string>)
    requires id < |jobs| == |s.pcs| && s.pcs[id] == Exited(locked) && s.mutex == None && locked != []
    ensures Reaches(
              jobs, s, At(s, id, Finished(locked), ReleasedAll(s.files, sites, locked, jobs[id].owner)))
  {
    var files := ReleasedAll(s.files, sites, locked, jobs[id].owner);
    var entered, end := Launcher(s, id, jobs[id], Acquire).value, At(s, id, Finished(locked), files);
    AtAgain(s, id, Releasing(0, locked), s.files, Releasing(|locked|, locked), files);
    AtAgain(s, id, Releasing(|locked|, locked), files, Finished(locked), files);
    ReleasesFirst(jobs, entered, id, sites, locked, |locked|);
    assert locked[..|locked|] == locked;
    var done := At(entered, id, Releasing(|locked|, locked), files);
    Stays(jobs, end);
    assert Launcher(done, id, jobs[id], ReadForRelease(true)) == Some(end);
    StepFirst(jobs, done, id, ReadForRelease(true), end, end);
    Onwards(jobs, entered, done, end);
    StepFirst(jobs, s, id, Acquire, entered, end);
  }

  /** And when its container has exited, it releases what the release pass over
      that list releases. */
  lemma {:induction false} SoloReleaseIsReleasePass(
    jobs: seq<Job>, s: State, id: nat, sites: Sites, locked: seq<string>)
    requires id < |jobs| == |s.pcs| && s.pcs[id] == Running(locked) && s.mutex == None
    ensures Reaches(
              jobs, s, At(s, id, Finished(locked), ReleasedAll(s.files, sites, locked, jobs[id].owner)))
  {
    var files := ReleasedAll(s.files, sites, locked, jobs[id].owner);
    var exited, end := Launcher(s, id, jobs[id], Exit).value, At(s, id, Finished(locked), files);
    AtAgain(s, id, Exited(locked), s.files, Finished(locked), files);
    if locked == [] {
      Stays(jobs, end);
      StepFirst(jobs, exited, id, Exit, end, end);
    } else {
      ReleasesAndFinishes(jobs, exited, id, sites, locked);
    }
    StepFirst(jobs, s, id, Exit, exited, end);
  }
}
