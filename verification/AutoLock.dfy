/** The owner list that launchers keep in the `locked` file of a git worktree
    (internal/host/worktreelock.go): its text, its edits, and one launcher's
    lock and release passes over a list of worktrees. */
module AutoLock {
  import opened Text

  const AUTO_LOCK_PREFIX := "cc-autolocked-by:"

  /** Whose reason a lock file holds. */
  datatype Reason = NotOurs | Ours(owners: seq<string>)

  /** What removing an owner does to a lock file. */
  datatype Edit = LeaveAlone | Unlock | Rewrite(text: string)

  /** What the launcher's guards find out about one worktree: whether its
      directory exists, whether git names its git directory, and whether
      `git worktree lock` would succeed on it while it is unlocked. */
  datatype Site = Site(dirExists: bool, gitDirKnown: bool, gitLocks: bool)

  type LockFiles = map<string, string>

  type Sites = string -> Site

  // ---- The text of a lock file ---------------------------------------------

  function ParseAutoLockOwners(content: string): (r: Reason)
    ensures r.Ours? ==> AllWords(r.owners)
  {
    var reason := TrimRight(content, '\n');
    if AUTO_LOCK_PREFIX <= reason
    then Ours(Fields(TrimPrefix(reason, AUTO_LOCK_PREFIX)))
    else NotOurs
  }

  function ReasonText(owners: seq<string>): string {
    AUTO_LOCK_PREFIX + Spaced(owners)
  }

  function LockText(owners: seq<string>): string {
    ReasonText(owners) + "\n"
  }

  method AutoLockReason(owners: seq<string>) returns (reason: string)
    ensures reason == ReasonText(owners)
  {
    reason := AUTO_LOCK_PREFIX;
    for i := 0 to |owners|
      invariant reason == ReasonText(owners[..i])
    {
      SpacedAppend(owners[..i], owners[i]);
      assert owners[..i + 1] == owners[..i] + [owners[i]];
      reason := reason + " " + owners[i];
    }
    assert owners[..|owners|] == owners;
  }

  lemma {:induction false} ParseUndoesPrint(owners: seq<string>)
    requires AllWords(owners)
    ensures ParseAutoLockOwners(LockText(owners)) == Ours(owners)
  {
    var text := LockText(owners);
    assert text[..|text| - 1] == ReasonText(owners);
    if owners != [] {
      SpacedEnd(owners);
    }
    assert TrimRight(text, '\n') == ReasonText(owners);
    assert ReasonText(owners)[|AUTO_LOCK_PREFIX|..] == Spaced(owners);
    FieldsSpaced(owners);
  }

  ghost predicate OwnedBy(content: string, owner: string) {
    var r := ParseAutoLockOwners(content);
    r.Ours? && owner in r.owners
  }

  // ---- One edit --------------------------------------------------------------

  function Without(owners: seq<string>, owner: string): (rest: seq<string>)
    ensures forall o :: o in rest <==> o in owners && o != owner
    ensures AllWords(owners) ==> AllWords(rest)
    ensures owner !in owners ==> rest == owners
  {
    if owners == [] then []
    else if owners[0] == owner then Without(owners[1..], owner)
    else
      assert owner !in owners ==> owner !in owners[1..];
      [owners[0]] + Without(owners[1..], owner)
  }

  lemma {:induction false} WithoutAppend(owners: seq<string>, last: string, owner: string)
    ensures Without(owners + [last], owner)
         == if last == owner then Without(owners, owner) else Without(owners, owner) + [last]
  {
    if owners != [] {
      assert (owners + [last])[1..] == owners[1..] + [last];
      WithoutAppend(owners[1..], last, owner);
    }
  }

  /** The list loop of removeAutoLockOwner. */
  method DropOwner(owners: seq<string>, owner: string) returns (found: bool, remaining: seq<string>)
    ensures found <==> owner in owners
    ensures remaining == Without(owners, owner)
  {
    found, remaining := false, [];
    for i := 0 to |owners|
      invariant found <==> owner in owners[..i]
      invariant remaining == Without(owners[..i], owner)
    {
      assert owners[..i + 1] == owners[..i] + [owners[i]];
      WithoutAppend(owners[..i], owners[i], owner);
      if owners[i] == owner {
        found := true;
      } else {
        remaining := remaining + [owners[i]];
      }
    }
    assert owners[..|owners|] == owners;
  }

  /** The text after adding an owner; None when the reason is someone else's. */
  function Appended(content: string, owner: string): Option<string> {
    match ParseAutoLockOwners(content)
    case NotOurs => None
    case Ours(owners) => Some(if owner in owners then content else LockText(owners + [owner]))
  }

  function RemovalEdit(content: string, owner: string): Edit {
    match ParseAutoLockOwners(content)
    case NotOurs => LeaveAlone
    case Ours(owners) =>
      if owner !in owners then LeaveAlone
      else if Without(owners, owner) == [] then Unlock
      else Rewrite(LockText(Without(owners, owner)))
  }

  /** Appending keeps every recorded owner and records the new one. */
  lemma {:induction false} AppendKeepsOwners(content: string, owner: string)
    requires IsWord(owner)
    ensures Appended(content, owner).None? <==> ParseAutoLockOwners(content).NotOurs?
    ensures Appended(content, owner).Some? ==>
              forall o :: OwnedBy(Appended(content, owner).value, o) <==> o == owner || OwnedBy(content, o)
  {
    var r := ParseAutoLockOwners(content);
    if r.Ours? {
      ParseUndoesPrint(r.owners + [owner]);
    }
  }

  /** Removing an owner keeps every other one, and unlocks exactly when there
      is no other one. */
  lemma {:induction false} RemovalKeepsOthers(content: string, owner: string)
    ensures RemovalEdit(content, owner).LeaveAlone? <==> !OwnedBy(content, owner)
    ensures RemovalEdit(content, owner).Unlock? <==>
              OwnedBy(content, owner) && forall o :: OwnedBy(content, o) ==> o == owner
    ensures RemovalEdit(content, owner).Rewrite? ==>
              forall o :: OwnedBy(RemovalEdit(content, owner).text, o) <==> o != owner && OwnedBy(content, o)
  {
    var r := ParseAutoLockOwners(content);
    if r.Ours? {
      var rest := Without(r.owners, owner);
      ParseUndoesPrint(rest);
      if rest != [] {
        assert rest[0] in rest;
        assert OwnedBy(content, rest[0]);
      }
    }
  }

  /** Writing back a list that was read earlier loses no owner exactly when
      every owner the file names by now was already in what was read. */
  lemma {:induction false} StaleAppendIsSafeIff(read: string, now: string, owner: string)
    requires IsWord(owner)
    requires ParseAutoLockOwners(read).Ours?
    ensures (forall o :: OwnedBy(now, o) ==> OwnedBy(Appended(read, owner).value, o)) <==>
            (forall o :: OwnedBy(now, o) && o != owner ==> OwnedBy(read, o))
  {
    AppendKeepsOwners(read, owner);
  }

  /** Whether the file lists the owner after an edit of what it holds now. */
  ghost predicate OwnedAfter(edit: Edit, now: string, owner: string) {
    match edit
    case LeaveAlone => OwnedBy(now, owner)
    case Unlock => false
    case Rewrite(text) => OwnedBy(text, owner)
  }

  /** A removal computed from a list that was read earlier loses no other owner
      exactly when every other owner the file names by now was already in what
      was read. */
  lemma {:induction false} StaleRemovalIsSafeIff(read: string, now: string, owner: string)
    requires OwnedBy(read, owner)
    ensures (forall o :: o != owner && OwnedBy(now, o) ==> OwnedAfter(RemovalEdit(read, owner), now, o)) <==>
            (forall o :: o != owner && OwnedBy(now, o) ==> OwnedBy(read, o))
  {
    RemovalKeepsOthers(read, owner);
  }

  /** Two launchers that share one owner name share one entry: the second add
      writes nothing and the first remove unlocks under the other launcher. */
  lemma {:induction false} SharedNameSharesOneEntry(owner: string)
    requires IsWord(owner)
    ensures Appended(LockText([owner]), owner) == Some(LockText([owner]))
    ensures RemovalEdit(LockText([owner]), owner) == Unlock
  {
    ParseUndoesPrint([owner]);
  }

  /** A list in the launcher's own layout survives an add and a remove of a
      fresh owner byte for byte. */
  lemma {:induction false} AddThenRemoveRestores(owners: seq<string>, owner: string)
    requires AllWords(owners) && owners != []
    requires IsWord(owner) && owner !in owners
    ensures Appended(LockText(owners), owner).Some?
    ensures RemovalEdit(Appended(LockText(owners), owner).value, owner) == Rewrite(LockText(owners))
  {
    ParseUndoesPrint(owners);
    ParseUndoesPrint(owners + [owner]);
    WithoutAppend(owners, owner, owner);
  }

  // ---- Whole passes ------------------------------------------------------------

  function AppendedIn(files: LockFiles, wt: string, owner: string): (LockFiles, bool) {
    match Appended(if wt in files then files[wt] else "", owner)
    case None => (files, false)
    case Some(text) => (files[wt := text], true)
  }

  function Added(files: LockFiles, site: Site, wt: string, owner: string): (LockFiles, bool) {
    if !site.gitDirKnown then (files, false)
    else if wt in files then AppendedIn(files, wt, owner)
    else if site.gitLocks then (files[wt := LockText([owner])], true)
    else AppendedIn(files, wt, owner)
  }

  function Removed(files: LockFiles, site: Site, wt: string, owner: string): LockFiles {
    if !site.dirExists || !site.gitDirKnown || wt !in files then files
    else match RemovalEdit(files[wt], owner)
      case LeaveAlone => files
      case Unlock => files - {wt}
      case Rewrite(text) => files[wt := text]
  }

  /** Adding the owner to each worktree in turn: the lock files afterwards and
      the worktrees whose add succeeded, each once. */
  function LockedAll(files: LockFiles, sites: Sites, wts: seq<string>, owner: string): (LockFiles, seq<string>) {
    if wts == [] then (files, [])
    else
      var (before, locked) := LockedAll(files, sites, wts[..|wts| - 1], owner);
      var wt := wts[|wts| - 1];
      var (after, ok) := Added(before, sites(wt), wt, owner);
      (after, if ok && wt !in locked then locked + [wt] else locked)
  }

  function ReleasedAll(files: LockFiles, sites: Sites, wts: seq<string>, owner: string): LockFiles {
    if wts == [] then files
    else
      var wt := wts[|wts| - 1];
      Removed(ReleasedAll(files, sites, wts[..|wts| - 1], owner), sites(wt), wt, owner)
  }

  /** The part of a git repository that the auto-lock edits. */
  class Repository {
    var lockFiles: LockFiles
    const sites: Sites

    constructor (files: LockFiles, sites: Sites)
      ensures lockFiles == files && this.sites == sites
    {
      lockFiles, this.sites := files, sites;
    }

    method AppendAutoLockOwner(wt: string, owner: string) returns (ok: bool)
      modifies this
      ensures (lockFiles, ok) == AppendedIn(old(lockFiles), wt, owner)
    {
      var content := if wt in lockFiles then lockFiles[wt] else "";
      var reason := ParseAutoLockOwners(content);
      if reason.NotOurs? {
        return false;
      }
      if owner in reason.owners {
        assert lockFiles == lockFiles[wt := lockFiles[wt]];
        return true;
      }
      var text := AutoLockReason(reason.owners + [owner]);
      lockFiles := lockFiles[wt := text + "\n"];
      ok := true;
    }

    method AddAutoLockOwner(wt: string, owner: string) returns (ok: bool)
      modifies this
      ensures (lockFiles, ok) == Added(old(lockFiles), sites(wt), wt, owner)
    {
      if !sites(wt).gitDirKnown {
        return false;
      }
      if wt in lockFiles {
        ok := AppendAutoLockOwner(wt, owner);
        return;
      }
      if !sites(wt).gitLocks {
        ok := AppendAutoLockOwner(wt, owner);
        return;
      }
      var reason := AutoLockReason([owner]);
      lockFiles := lockFiles[wt := reason + "\n"];
      ok := true;
    }

    method RemoveAutoLockOwner(wt: string, owner: string)
      modifies this
      ensures lockFiles == Removed(old(lockFiles), sites(wt), wt, owner)
    {
      if !sites(wt).dirExists || !sites(wt).gitDirKnown || wt !in lockFiles {
        return;
      }
      var reason := ParseAutoLockOwners(lockFiles[wt]);
      if reason.NotOurs? {
        return;
      }
      var found, remaining := DropOwner(reason.owners, owner);
      if !found {
        return;
      }
      if remaining == [] {
        lockFiles := lockFiles - {wt};
        return;
      }
      var text := AutoLockReason(remaining);
      lockFiles := lockFiles[wt := text + "\n"];
    }

    method LockWorktrees(worktrees: seq<string>, owner: string) returns (locked: seq<string>)
      modifies this
      ensures (lockFiles, locked) == LockedAll(old(lockFiles), sites, worktrees, owner)
    {
      locked := [];
      var seen := {};
      for i := 0 to |worktrees|
        invariant (lockFiles, locked) == LockedAll(old(lockFiles), sites, worktrees[..i], owner)
        invariant forall wt :: wt in seen <==> wt in locked
      {
        assert worktrees[..i + 1][..i] == worktrees[..i];
        var ok := AddAutoLockOwner(worktrees[i], owner);
        if ok && worktrees[i] !in seen {
          seen := seen + {worktrees[i]};
          locked := locked + [worktrees[i]];
        }
      }
      assert worktrees[..|worktrees|] == worktrees;
    }

    /** `mutexTaken` is false when the serialization mutex timed out. */
    method ReleaseWorktreeLocks(worktrees: seq<string>, owner: string, mutexTaken: bool)
      modifies this
      ensures lockFiles == if mutexTaken then ReleasedAll(old(lockFiles), sites, worktrees, owner) else old(lockFiles)
    {
      if worktrees == [] || !mutexTaken {
        return;
      }
      for i := 0 to |worktrees|
        invariant lockFiles == ReleasedAll(old(lockFiles), sites, worktrees[..i], owner)
      {
        assert worktrees[..i + 1][..i] == worktrees[..i];
        RemoveAutoLockOwner(worktrees[i], owner);
      }
      assert worktrees[..|worktrees|] == worktrees;
    }
  }

  ghost predicate NoDuplicates<T>(s: seq<T>) {
    forall i, j :: 0 <= i < j < |s| ==> s[i] != s[j]
  }

  ghost predicate Foreign(files: LockFiles, wt: string) {
    wt in files && ParseAutoLockOwners(files[wt]).NotOurs?
  }

  /** How a lock pass leaves one worktree's file. */
  ghost predicate RewrittenAt(files: LockFiles, after: LockFiles, locked: seq<string>, owner: string, wt: string) {
    if wt !in locked then
      (wt in after <==> wt in files) && (wt in files ==> after[wt] == files[wt])
    else
      wt in after && Some(after[wt]) == if wt in files then Appended(files[wt], owner) else Some(LockText([owner]))
  }

  ghost predicate Rewritten(files: LockFiles, after: LockFiles, locked: seq<string>, owner: string) {
    forall wt :: RewrittenAt(files, after, locked, owner, wt)
  }

  lemma {:induction false} LockedAllRewrites(files: LockFiles, sites: Sites, wts: seq<string>, owner: string)
    requires IsWord(owner)
    ensures var (after, locked) := LockedAll(files, sites, wts, owner);
            && Rewritten(files, after, locked, owner)
            && NoDuplicates(locked)
            && (forall wt :: wt in locked ==> wt in wts)
  {
    if wts != [] {
      var n := |wts| - 1;
      LockedAllRewrites(files, sites, wts[..n], owner);
      var (before, lockedBefore) := LockedAll(files, sites, wts[..n], owner);
      var (after, locked) := LockedAll(files, sites, wts, owner);
      assert forall wt :: wt in locked ==> wt in lockedBefore || wt == wts[n];
      forall wt
        ensures RewrittenAt(files, after, locked, owner, wt)
      {
        assert RewrittenAt(files, before, lockedBefore, owner, wt);
        if wt == wts[n] && wt in lockedBefore {
          AppendKeepsOwners(if wt in files then files[wt] else "", owner);
          ParseUndoesPrint([owner]);
          assert OwnedBy(before[wt], owner);
        }
      }
    }
  }

  /** What a lock pass guarantees: it returns worktrees it was given, each once
      and each carrying the owner now; it drops no owner anywhere; and it never
      touches or reports a worktree whose lock is someone else's. */
  lemma {:induction false} LockPass(files: LockFiles, sites: Sites, wts: seq<string>, owner: string)
    requires IsWord(owner)
    ensures var (after, locked) := LockedAll(files, sites, wts, owner);
            && NoDuplicates(locked)
            && (forall wt :: wt in locked ==> wt in wts && wt in after && OwnedBy(after[wt], owner))
            && (forall wt :: wt in files ==> wt in after)
            && (forall wt, o :: wt in files && OwnedBy(files[wt], o) ==> OwnedBy(after[wt], o))
            && (forall wt :: Foreign(files, wt) ==> wt !in locked && after[wt] == files[wt])
  {
    LockedAllRewrites(files, sites, wts, owner);
    var (after, locked) := LockedAll(files, sites, wts, owner);
    ParseUndoesPrint([owner]);
    forall wt
      ensures RewrittenAt(files, after, locked, owner, wt)
      ensures wt in files && wt in locked ==>
                && Appended(files[wt], owner).Some?
                && forall o :: OwnedBy(after[wt], o) <==> o == owner || OwnedBy(files[wt], o)
      ensures wt in locked && wt !in files ==> OwnedBy(after[wt], owner)
    {
      assert RewrittenAt(files, after, locked, owner, wt);
      AppendKeepsOwners(if wt in files then files[wt] else "", owner);
    }
  }

  /** Whether a pass can lock the worktree: git knows it, and the lock is free
      for git to take or is already the launchers' own. */
  predicate Lockable(files: LockFiles, site: Site, wt: string) {
    site.gitDirKnown && if wt in files then ParseAutoLockOwners(files[wt]).Ours? else site.gitLocks
  }

  /** An empty or missing lock file is nobody's list. */
  lemma {:induction false} EmptyIsNotOurs()
    ensures ParseAutoLockOwners("").NotOurs?
  {
  }

  ghost predicate SameAt(files: LockFiles, after: LockFiles, wt: string) {
    (wt in after <==> wt in files) && (wt in files ==> after[wt] == files[wt])
  }

  lemma {:induction false} AddSucceedsIff(files: LockFiles, site: Site, wt: string, owner: string)
    requires IsWord(owner)
    ensures Added(files, site, wt, owner).1 <==> Lockable(files, site, wt)
    ensures forall w :: w != wt ==> SameAt(files, Added(files, site, wt, owner).0, w)
    ensures !Lockable(files, site, wt) ==> Added(files, site, wt, owner).0 == files
  {
    EmptyIsNotOurs();
    ParseUndoesPrint([owner]);
    AppendKeepsOwners(if wt in files then files[wt] else "", owner);
  }

  lemma {:induction false} LockableStays(files: LockFiles, after: LockFiles, site: Site, wt: string)
    requires SameAt(files, after, wt)
    ensures Lockable(after, site, wt) <==> Lockable(files, site, wt)
  {
  }

  lemma {:induction false} LocksIffLockable(files: LockFiles, sites: Sites, wts: seq<string>, owner: string, wt: string)
    requires IsWord(owner)
    ensures wt in LockedAll(files, sites, wts, owner).1 <==> wt in wts && Lockable(files, sites(wt), wt)
  {
    if wts != [] {
      var n := |wts| - 1;
      var (before, locked) := LockedAll(files, sites, wts[..n], owner);
      LocksIffLockable(files, sites, wts[..n], owner, wt);
      assert wt in wts <==> wt in wts[..n] || wt == wts[n];
      if wt == wts[n] && wt !in locked {
        LockedAllRewrites(files, sites, wts[..n], owner);
        assert RewrittenAt(files, before, locked, owner, wt);
        LockableStays(files, before, sites(wt), wt);
        AddSucceedsIff(before, sites(wt), wt, owner);
      }
    }
  }

  /** Exactly which worktrees a pass locks and returns, and what their files hold
      then: the launcher alone where there was no lock, and the earlier owners
      with it where there was. */
  lemma {:induction false} LocksExactly(files: LockFiles, sites: Sites, wts: seq<string>, owner: string, wt: string)
    requires IsWord(owner)
    ensures var (after, locked) := LockedAll(files, sites, wts, owner);
            && (wt in locked <==>
                  && wt in wts && sites(wt).gitDirKnown
                  && if wt in files then ParseAutoLockOwners(files[wt]).Ours? else sites(wt).gitLocks)
            && (wt in locked && wt !in files ==> wt in after && after[wt] == LockText([owner]))
            && (wt in locked && wt in files ==>
                  wt in after && forall o :: OwnedBy(after[wt], o) <==> o == owner || OwnedBy(files[wt], o))
            && (wt !in locked ==> (wt in after <==> wt in files) && (wt in files ==> after[wt] == files[wt]))
  {
    LocksIffLockable(files, sites, wts, owner, wt);
    LockedAllRewrites(files, sites, wts, owner);
    assert RewrittenAt(files, LockedAll(files, sites, wts, owner).0, LockedAll(files, sites, wts, owner).1, owner, wt);
    AppendKeepsOwners(if wt in files then files[wt] else "", owner);
  }

  /** More worktrees only append to the list: it is in the order of the pass. */
  lemma {:induction false} PassOnlyAppends(files: LockFiles, sites: Sites, wts: seq<string>, owner: string, n: nat)
    requires n <= |wts|
    ensures LockedAll(files, sites, wts[..n], owner).1 <= LockedAll(files, sites, wts, owner).1
    decreases |wts|
  {
    if n < |wts| {
      var shorter := wts[..|wts| - 1];
      assert shorter[..n] == wts[..n];
      PassOnlyAppends(files, sites, shorter, owner, n);
    } else {
      assert wts[..n] == wts;
    }
  }

  /** Whether a release edits the worktree's file. */
  predicate Releasable(files: LockFiles, site: Site, wt: string, owner: string) {
    site.dirExists && site.gitDirKnown && wt in files
    && ParseAutoLockOwners(files[wt]).Ours? && owner in ParseAutoLockOwners(files[wt]).owners
  }

  /** One removal: the others stay listed, or the lock goes with the last one. */
  ghost predicate ReleasedAt(files: LockFiles, after: LockFiles, wt: string, owner: string)
    requires wt in files
  {
    if wt in after then forall o :: OwnedBy(after[wt], o) <==> o != owner && OwnedBy(files[wt], o)
    else forall o :: OwnedBy(files[wt], o) ==> o == owner
  }

  lemma {:induction false} RemovesAt(files: LockFiles, site: Site, wt: string, owner: string)
    ensures Releasable(files, site, wt, owner) ==>
              && ReleasedAt(files, Removed(files, site, wt, owner), wt, owner)
              && (wt in Removed(files, site, wt, owner) ==> exists o :: o != owner && OwnedBy(files[wt], o))
    ensures !Releasable(files, site, wt, owner) ==> Removed(files, site, wt, owner) == files
    ensures forall w :: w != wt ==> SameAt(files, Removed(files, site, wt, owner), w)
  {
    if wt in files {
      RemovalKeepsOthers(files[wt], owner);
    }
  }

  /** Exactly what a release does to each worktree's file: where the launcher is
      listed and can get at it, the others stay, or with none the lock goes; and
      no other file is touched. */
  lemma {:induction false} ReleasesExactly(files: LockFiles, sites: Sites, wts: seq<string>, owner: string, wt: string)
    ensures var after := ReleasedAll(files, sites, wts, owner);
            if wt in wts && Releasable(files, sites(wt), wt, owner)
            then
              && ReleasedAt(files, after, wt, owner)
              && (wt in after ==> exists o :: o != owner && OwnedBy(files[wt], o))
            else SameAt(files, after, wt)
  {
    if wts != [] {
      var n := |wts| - 1;
      var before := ReleasedAll(files, sites, wts[..n], owner);
      ReleasesExactly(files, sites, wts[..n], owner, wt);
      RemovesAt(before, sites(wts[n]), wts[n], owner);
      assert wt in wts <==> wt in wts[..n] || wt == wts[n];
      if wt == wts[n] && wt in wts[..n] && Releasable(files, sites(wt), wt, owner) {
        assert wt in before ==> !OwnedBy(before[wt], owner);
      }
    }
  }

  /** The launcher's own layout: every file it recognizes is a printed,
      non-empty owner list. */
  ghost predicate Canonical(files: LockFiles) {
    forall wt :: wt in files && ParseAutoLockOwners(files[wt]).Ours? ==>
      var owners := ParseAutoLockOwners(files[wt]).owners;
      owners != [] && files[wt] == LockText(owners)
  }

  ghost predicate Fresh(files: LockFiles, owner: string) {
    forall wt :: wt in files ==> !OwnedBy(files[wt], owner)
  }

  /** A lock pass followed by a release pass over the list it returned puts
      every lock file back as it was. */
  lemma {:induction false} LockThenRelease(files: LockFiles, sites: Sites, wts: seq<string>, owner: string)
    requires IsWord(owner) && Canonical(files) && Fresh(files, owner)
    requires forall wt :: wt in wts ==> sites(wt).dirExists && sites(wt).gitDirKnown
    ensures var (after, locked) := LockedAll(files, sites, wts, owner);
            ReleasedAll(after, sites, locked, owner) == files
  {
    LockedAllRewrites(files, sites, wts, owner);
    var (after, locked) := LockedAll(files, sites, wts, owner);
    assert locked[..|locked|] == locked;
    ReleaseUndoes(files, after, sites, locked, owner, |locked|);
    var restored := ReleasedAll(after, sites, locked, owner);
    assert locked[|locked|..] == [];
    forall wt
      ensures wt in restored <==> wt in files
      ensures wt in files ==> restored[wt] == files[wt]
    {
      assert RewrittenAt(files, restored, [], owner, wt);
    }
  }

  lemma {:induction false} ReleaseUndoes(
    files: LockFiles, after: LockFiles, sites: Sites, locked: seq<string>, owner: string, n: nat)
    requires IsWord(owner) && Canonical(files) && Fresh(files, owner)
    requires NoDuplicates(locked) && Rewritten(files, after, locked, owner)
    requires forall wt :: wt in locked ==> sites(wt).dirExists && sites(wt).gitDirKnown
    requires n <= |locked|
    ensures Rewritten(files, ReleasedAll(after, sites, locked[..n], owner), locked[n..], owner)
  {
    if n == 0 {
      assert locked[..0] == [] && locked[0..] == locked;
    } else {
      ReleaseUndoes(files, after, sites, locked, owner, n - 1);
      var wt := locked[n - 1];
      assert locked[..n][..n - 1] == locked[..n - 1];
      assert locked[n - 1..] == [wt] + locked[n..];
      assert wt !in locked[n..];
      RemoveUndoes(files, ReleasedAll(after, sites, locked[..n - 1], owner), sites(wt), wt, locked[n..], owner);
    }
  }

  lemma {:induction false} RemoveUndoes(
    files: LockFiles, before: LockFiles, site: Site, wt: string, rest: seq<string>, owner: string)
    requires IsWord(owner) && Canonical(files) && Fresh(files, owner)
    requires wt !in rest && Rewritten(files, before, [wt] + rest, owner)
    requires site.dirExists && site.gitDirKnown
    ensures Rewritten(files, Removed(before, site, wt, owner), rest, owner)
  {
    assert RewrittenAt(files, before, [wt] + rest, owner, wt);
    if wt in files {
      AppendKeepsOwners(files[wt], owner);
      AddThenRemoveRestores(ParseAutoLockOwners(files[wt]).owners, owner);
    } else {
      SharedNameSharesOneEntry(owner);
    }
    forall w
      ensures RewrittenAt(files, Removed(before, site, wt, owner), rest, owner, w)
    {
      assert RewrittenAt(files, before, [wt] + rest, owner, w);
    }
  }
}
