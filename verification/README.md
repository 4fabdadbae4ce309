# A verified model of the claude-contained launcher

The launcher starts an AI coding tool in a container. Around that one command it
keeps several protocols and planners whose guarantees only hold over whole runs:
an owner list in git's worktree locks that several launchers edit at once, a
staged build of derived images while the base image is being retagged, a planner
that is run again after every answered question, the relocation of the account
file, and a mount planner that replays a scanned graph of symlinks. This project
models them in Dafny and proves what they promise.

Where the Go code updates state, the model does too: lock files, the mount
registry, the skills scanner, the environment store, the output stream, the
executor and the launcher's view of the image store are classes, and every loop
of the source is a loop. Each such method is proved against a function on values,
and the properties are lemmas about those functions. Concurrent protocols are
state machines over their atomic steps, with every interleaving allowed that the
stated assumptions allow.

Some natural claims are false of the code. For each, a lemma gives the input or
the interleaving that shows it, and the proved statement carries the condition
under which the code does meet it:

- the mkdir mutex lets two processes in if and only if a reclaimer removes the
  directory while someone claims it (`ExclusiveIffSafe`, `UnsafeStepAdmitsTwo`);
  `ReclaimWindow`, `OwnerWriteWindow`, `UnrecordedHolder` and `SlowHolder` are
  four ways there, and `OrderlyIsSafe` gives conditions under which there is none;
- a launch that times out on the mutex locks anyway, and then a worktree that two
  launchers share can be unlocked under a running container
  (`UnserializedLockCanBeLost`). A write drops another's entry if and only if
  that entry was added since the list was read (`StaleAppendIsSafeIff`,
  `StaleRemovalIsSafeIff`, `WriteKeepsOthersIff`, `GuardedIffNoneDropped`), and
  where no write does, locks stay, mutex or not (`StaysLocked`);
- with the mutex, locks stay in every run if and only if no two launchers share
  both a container name and a worktree (`SerializedStayLockedIff`,
  `SharedNameUnlocksEarly`);
- an acquire need not end while a stale directory cannot be removed
  (`StuckDirectoryNeverEnds`);
- a base name that moves away and back during a build goes unnoticed
  (`BackAndForthIsMissed`); derived tags stay right if and only if no probe
  misses a stage built from another base (`NamedIffNoneMissed`), and none does
  while the name only moves forward (`ForwardMissesNone`);
- a folder name is stable after two applications of the sanitizer, not one
  (`StableAfterTwo`, `TruncationLeavesDash`);
- being past the guards of the mount registry says nothing about mounts that are
  not registered: with the skills inside the shared directory, the target root
  turns the whole shared directory read-only (`CoverageIsNotVisibility`); it
  hides nothing if and only if it is apart from the unregistered mounts
  (`RootHidesNothingIff`);
- copying the git configuration can overwrite the account
  (`ConfigLinkedToAccountLoses`); the account steps keep it wherever they stop if
  and only if the copy is harmless (`AlwaysKeptIff`);
- the account migration fails, or stops the original path from reading what it
  read, for three kinds of unusual file (`MigrationSucceedsIff`), and replaces a
  file at the shared path when the original is a file with other content
  (`SharedFileSurvivesIff`);
- beyond 40 links, a resolved path can itself be a link (`LoopIsLeftUnresolved`;
  `WithinBudgetIff` says when that many are met).

| Module | Source |
|---|---|
| `AutoLock`, `AutoLockProtocol`, `AutoLockSolo`, `LockMutex`, `LockRefinement` | internal/host/worktreelock.go |
| `LayerHash`, `LayerBuild` | internal/layer, cmd/claude-contained/layer.go |
| `Mounts`, `SharedSkills`, `SharedSkillsLaws`, `SharedSkillsErrors`, `SkillsScan` | internal/plan/mounts.go, internal/plan/sharedskills.go, cmd/claude-contained/probe.go |
| `HostFiles`, `AccountState`, `Planner`, `PlannerLaws`, `PlanVisibility`, `PlanAnswers`, `Driver` | internal/plan, cmd/claude-contained/run.go, cmd/claude-contained/probe.go |
| `Paths`, `ResolvePath` | internal/host/path.go, internal/host/worktree.go |
| `Stream` | internal/diagnostic/stream.go |
| `EnvStore` | internal/env |
| `Worktrees`, `Names` | internal/host/worktree.go, internal/host/sanitize.go |
| `Text` | the string operations that the above take from the standard library |

`dafny verify dfyconfig.toml` checks all of it.

## Model

| member | source | states |
|---|---|---|
| AutoLock.AutoLockReason | internal/host/worktreelock.go:211-216 | builds the prefix followed by every owner after one blank, in order |
| AutoLock.ParseUndoesPrint | internal/host/worktreelock.go:201-216 | parsing a printed list of non-empty, whitespace-free owners gives the list back, so printing is injective on them |
| AutoLock.DropOwner | internal/host/worktreelock.go:290-301 | reports whether the owner was listed, and returns the others in order |
| AutoLock.AppendKeepsOwners | internal/host/worktreelock.go:229-246 | appending succeeds exactly on the launcher's own or empty files; afterwards exactly the previous owners and the new one are listed |
| AutoLock.RemovalKeepsOthers | internal/host/worktreelock.go:273-314 | a removal edits only a file that lists the owner, keeps every other owner, and unlocks exactly when there is none |
| AutoLock.StaleAppendIsSafeIff | internal/host/worktreelock.go:229-246 | writing back a list read earlier loses no owner if and only if everyone listed by now was already in what was read |
| AutoLock.StaleRemovalIsSafeIff | internal/host/worktreelock.go:273-314 | a removal computed from a list read earlier loses no other owner if and only if every other owner listed by now was already in what was read |
| AutoLock.SharedNameSharesOneEntry | internal/host/worktreelock.go:229-314 | a second add under the same name writes nothing and the first remove unlocks |
| AutoLock.AddThenRemoveRestores | internal/host/worktreelock.go:229-314 | adding and removing a new owner restores a non-empty canonical list byte for byte |
| AutoLock.Repository.constructor | internal/host/worktreelock.go:183-190 | a repository as its lock files, with what the guards find out about each worktree |
| AutoLock.Repository.AppendAutoLockOwner | internal/host/worktreelock.go:229-246 | the file afterwards lists the owner once, or is untouched and the call fails because the reason is someone else's |
| AutoLock.Repository.AddAutoLockOwner | internal/host/worktreelock.go:250-268 | locks through git when unlocked, and joins the owner list when locked or when git refuses |
| AutoLock.Repository.RemoveAutoLockOwner | internal/host/worktreelock.go:273-314 | rewrites, unlocks or leaves alone exactly as the removal edit says; every guard that fails leaves the files unchanged |
| AutoLock.Repository.LockWorktrees | internal/host/worktreelock.go:329-362 | a pass over the worktrees: the lock files afterwards, and each worktree whose add succeeded once, in order |
| AutoLock.Repository.ReleaseWorktreeLocks | internal/host/worktreelock.go:374-397 | removes the owner from every worktree of the list, or, without the mutex, changes nothing |
| AutoLock.LockPass | internal/host/worktreelock.go:329-362 | the returned worktrees are distinct, were asked for and list the owner; no owner is dropped anywhere; foreign locks stay byte-identical and are not returned |
| AutoLock.LocksExactly | internal/host/worktreelock.go:250-362 | a pass locks exactly the worktrees it was given that git knows and that are free for git to lock or carry the launchers' own list; a free one then holds the launcher alone, a listed one its earlier owners with it, and every other file is as before |
| AutoLock.PassOnlyAppends | internal/host/worktreelock.go:342-356 | with more worktrees the returned list only grows at its end |
| AutoLock.ReleasesExactly | internal/host/worktreelock.go:273-397 | a release takes the launcher off exactly the listed files it can get at, keeps the others' entries, unlocks exactly where there are none, and touches no other file |
| AutoLock.LockThenRelease | internal/host/worktreelock.go:329-397 | locking and then releasing exactly the returned list puts every lock file back as it was |
| AutoLockProtocol.WriteKeepsOthersIff | internal/host/worktreelock.go:229-314 | in any state, mutex or not, a successful write keeps every other launcher's entries if and only if whoever else the file lists by now was in what was read |
| AutoLockProtocol.GuardedIffNoneDropped | internal/host/worktreelock.go:229-397 | a run drops nobody else's entry if and only if each of its writes meets that guard |
| AutoLockProtocol.StepKeepsInv | internal/host/worktreelock.go:229-397 | each read, guarded write, git call, mutex operation, launch without the mutex, crash, reclaim or user edit keeps the invariant that every worktree a launcher counts on lists it |
| AutoLockProtocol.PlayKeepsInv | internal/host/worktreelock.go:229-397 | the invariant holds after every guarded interleaving of any number of launchers |
| AutoLockProtocol.StaysLocked | internal/host/worktreelock.go:329-397 | after every guarded run, launches without the mutex included, each worktree that a launcher has added and not yet removed is locked and lists that launcher, if no two share a name and a worktree |
| AutoLockProtocol.SerializedIsGuarded | internal/host/worktreelock.go:329-397 | where every edit holds the mutex, every write meets the guard |
| AutoLockProtocol.SerializedStayLockedIff | internal/host/worktreelock.go:229-397 | every run with the mutex keeps the launchers' worktrees locked if and only if no two launchers share both a name and a worktree |
| AutoLockProtocol.OnlyOwnRemoveUnlocks | internal/host/worktreelock.go:273-314 | with the mutex, an owner leaves a list only by its own remove, which unlocks exactly when no one else is listed; then no launcher counts on the lock |
| AutoLockProtocol.ReleasesWhatItLocked | cmd/claude-contained/run.go:335-391 | the list that a launcher's lock pass returned is the one it carries through its run and releases |
| AutoLockSolo.SoloLockIsLockPass | internal/host/worktreelock.go:329-362 | a launcher of the protocol that gets the mutex and is left alone comes to run with exactly the lock files and the list of the specified lock pass |
| AutoLockSolo.SoloReleaseIsReleasePass | internal/host/worktreelock.go:374-397 | left alone after its run, it ends with exactly the lock files of the specified release pass |
| AutoLockProtocol.UnserializedLockCanBeLost | internal/host/worktreelock.go:333-339 | any two launchers with a worktree in common have a run, one of them without the mutex, in which a container runs while the worktree is unlocked |
| AutoLockProtocol.SharedNameUnlocksEarly | internal/host/worktreelock.go:238-241 | any two launchers that share a name and a worktree have a run with the mutex in which the first to finish unlocks under the other |
| LockRefinement.StepRefines | internal/host/worktreelock.go:39-126 | each operation on the lock directory and each edit amounts to at most two steps of the protocol, none of them a launch without the mutex |
| LockRefinement.PlayRefines | internal/host/worktreelock.go:39-397 | every run over the file operations of the mutex without an unsafe step is a serialized run of the protocol |
| LockRefinement.StaysLockedOverFiles | internal/host/worktreelock.go:39-397 | so the launchers' worktrees stay locked over the file operations themselves, from any leftover lock directory |
| LockMutex.ObserveMutexHolder | internal/host/worktreelock.go:134-180 | a holder counts as live if and only if its owner file is readable, its process reachable or unknown, and its time under 30 seconds ago or unknown |
| LockMutex.AcquireMutex | internal/host/worktreelock.go:39-94 | the outcome of the acquire loop with its numbers of mkdir attempts and of reclaims |
| LockMutex.AttemptsAreBounded | internal/host/worktreelock.go:46-94 | with R reclaims there are at most 51(R+1) attempts and at least 6R; an acquire still trying has made fewer than 51(R+1) |
| LockMutex.TimeoutMeansBusy | internal/host/worktreelock.go:83-93 | giving up means 51 failed attempts in a row, none stale after the grace period |
| LockMutex.StuckDirectoryNeverEnds | internal/host/worktreelock.go:52-82 | a stale directory that cannot be removed keeps the loop going through any number of rounds |
| LockMutex.StepKeepsInv | internal/host/worktreelock.go:39-180 | each file operation, tick or crash keeps the invariant, under the stated ordering conditions |
| LockMutex.MutexIsExclusive | internal/host/worktreelock.go:39-180 | after every run under these conditions at most one live process holds the mutex and no live holder looks stale |
| LockMutex.StepStaysExclusiveIff | internal/host/worktreelock.go:52-126 | from an exclusive state any step, in any order, leads to one unless it is a reclaimer's removal of a claimed directory |
| LockMutex.UnsafeStepAdmitsTwo | internal/host/worktreelock.go:52-82 | after such a removal the reclaimer's own mkdir makes two processes claim the mutex |
| LockMutex.ExclusiveIffSafe | internal/host/worktreelock.go:39-180 | from any leftover directory, a run of any number of processes keeps the mutex exclusive if and only if it has no such step |
| LockMutex.SafePlayIsExclusive | internal/host/worktreelock.go:39-180 | after any run without such a step at most one live process claims the mutex, and only while the directory is there |
| LockMutex.OrderlyIsSafe | internal/host/worktreelock.go:39-180 | there is none where the operations that belong together are not interleaved and no live holder looks stale |
| LockMutex.ReclaimWindow | internal/host/worktreelock.go:52-78 | two holders when another process acts between finding a stale holder and removing its directory |
| LockMutex.OwnerWriteWindow | internal/host/worktreelock.go:96-104 | two holders when another process looks between mkdir and the owner write |
| LockMutex.UnrecordedHolder | internal/host/worktreelock.go:98-104 | two holders after an owner write that failed |
| LockMutex.SlowHolder | internal/host/worktreelock.go:165-175 | two holders when a live one edits for 30 seconds |
| LayerHash.InsertEntry | internal/layer/hash.go:58-64 | inserting keeps an entry list sorted by path and adds exactly the entry |
| LayerHash.SortEntries | internal/layer/hash.go:58-64 | the entries sorted by relative path |
| LayerHash.SortForgetsOrder | internal/layer/hash.go:58-64 | with distinct paths, two lists sort to the same one exactly when they hold the same entries |
| LayerHash.CanonicalStream | internal/layer/hash.go:52-78 | the stream of NUL-ended fields over the sorted entries of the enumerated directory |
| LayerHash.ParseUndoesStream | internal/layer/hash.go:52-78 | a parser recovers the base and the sorted entries from the stream |
| LayerHash.StreamIsInjective | internal/layer/hash.go:52-78 | two streams are equal if and only if the bases are and the same entries went in, in any order |
| LayerHash.EnumerationIsClean | internal/layer/hash.go:110-207 | enumerating a directory with distinct proper file names gives distinct NUL-free paths |
| LayerHash.EntriesDetermineKids | internal/layer/hash.go:110-207 | equal entries mean the same tree up to what git ignores |
| LayerHash.StreamDeterminesLayer | internal/layer/hash.go:52-207 | two layer directories on two bases have equal streams if and only if the bases are equal and the trees agree on everything that counts |
| LayerHash.AnyExecuteBitCounts | internal/layer/hash.go:197-215 | a file counts as executable if and only if one of its three execute bits is set |
| LayerHash.StreamText | internal/layer/hash.go:20-78 | the stream is the scheme, its version, the base and five NUL-ended fields for each entry, in path order |
| LayerHash.SampleStream | internal/layer/hash.go:20-78 | the bytes for a small tree with a plain file, an executable, an empty directory and a dangling link |
| LayerBuild.NamesAreDistinct | internal/layer/layer.go:82-107 | tags and stages with equal texts have equal parts and no stage is a tag |
| LayerBuild.Host.ResolveLayerImage | cmd/claude-contained/layer.go:55-273 | one launcher asks exactly the probes and image operations of the specification, in its order, and ends with its outcome |
| LayerBuild.Host.BuildStaged | cmd/claude-contained/layer.go:218-233 | the staged part: suffix, re-probe of the base, build |
| LayerBuild.Host.BuildAndPromote | cmd/claude-contained/layer.go:234-272 | build into the stage, re-probe, promote, and clean up on every way out |
| LayerBuild.Host.Cleanup | cmd/claude-contained/layer.go:235-250 | a stage is removed, found absent by a fresh probe, or warned about |
| LayerBuild.StepKeepsInv | cmd/claude-contained/layer.go:97-273 | every launcher's step that misses nothing, every retag and every removal keeps the invariant of the image store |
| LayerBuild.DerivedTagNamesItsBase | cmd/claude-contained/layer.go:97-273 | in every interleaving in which no probe misses a stage built from another base, an existing derived tag names an image built from the base hashed into it, and a stage left by a finished attempt has been warned about |
| LayerBuild.MissedStepMisnames | cmd/claude-contained/layer.go:224-233 | after a missed stage, promoting it makes a derived tag name the wrong base |
| LayerBuild.NamedIffNoneMissed | cmd/claude-contained/layer.go:97-273 | the derived tags stay right, whatever a launcher does next, if and only if no probe misses a stage |
| LayerBuild.ForwardMissesNone | cmd/claude-contained/layer.go:97-273 | no probe misses a stage while the base name only moves forward |
| LayerBuild.OnlySuccessMovesFinal | cmd/claude-contained/layer.go:211-272 | a step that changes a final tag commits its launcher to ending with the derived image |
| LayerBuild.OutcomeIff | cmd/claude-contained/layer.go:55-273 | an attempt ends with the derived image on a base if and only if it found that tag, built it or promoted a stage to it; and with the base image if and only if there is no layer or none is wanted |
| LayerBuild.ReadyExactlyWhen | cmd/claude-contained/layer.go:55-273 | the same, read off the answers: which probes, builds and confirmations must have gone how |
| LayerBuild.NoBuildUnasked | cmd/claude-contained/layer.go:146-182 | nothing is built without the flag or a yes to the question before it |
| LayerBuild.ReadyImageExists | cmd/claude-contained/layer.go:97-273 | in any interleaving, when an attempt comes to hand out a derived image, that image is in the store |
| LayerBuild.FateIff | cmd/claude-contained/layer.go:235-250 | a stage is reported removed, absent or left behind if and only if the removal or the probe after it said so |
| LayerBuild.StageIsAccountedFor | cmd/claude-contained/layer.go:234-272 | every attempt ends after boundedly many requests, and one that built a stage says what became of it |
| LayerBuild.BackAndForthIsMissed | cmd/claude-contained/layer.go:224-265 | for any two images and any launcher that builds: a base that moves to the other and back during the build leaves a derived tag on the wrong base |
| Mounts.MountRegistry.constructor | internal/plan/mounts.go:33-37 | a new registry holds the project directory, writable |
| Mounts.MountRegistry.AddUser | internal/plan/mounts.go:39-41 | a user mount is recorded last |
| Mounts.MountRegistry.AddShared | internal/plan/mounts.go:83-113 | skips, appends or refuses a shared mount, with the conflict, and changes the registry only when it appends |
| Mounts.AddingKeepsConsistent | internal/plan/mounts.go:83-139 | shared destinations stay pairwise distinct, apart from the user's, and read-only |
| Mounts.AddingProvides | internal/plan/mounts.go:83-139 | an accepted mount is there exactly, or its content is covered at its own path |
| Mounts.GuardsMeanApart | internal/plan/mounts.go:47-64 | when writable mounts are at their own paths, the three guards together pass exactly the roots incomparable with every destination |
| Mounts.SafeRootIsAppended | internal/plan/mounts.go:83-113 | past the guards, adding the root always appends |
| Mounts.AppendingKeepsMountedIff | internal/plan/mounts.go:150-166 | one more mount leaves what every mounted path shows unchanged if and only if it is incomparable with every earlier mount since the same one was last made |
| Mounts.SafeRootHidesNothing | internal/plan/sharedskills.go:75-84 | past the guards, no registered mount changes what it shows |
| SharedSkills.CommonPathAncestor | internal/plan/sharedskills.go:152-163 | the loop up the tree ends at the common ancestor |
| SharedSkills.CommonAncestorIsAbove | internal/plan/sharedskills.go:152-163 | the common ancestor is at or above both paths |
| SharedSkills.CommonAncestorIsDeepest | internal/plan/sharedskills.go:152-163 | anything at or above both paths is at or above it |
| SharedSkills.SharedSkillsTargetRoot | internal/plan/sharedskills.go:130-150 | no root when a link is missing, all targets are inside, or only the file-system root is above them; else the folded candidate |
| SharedSkills.CandidateIsAbove | internal/plan/sharedskills.go:130-150 | the candidate is above the skills directory and every link target |
| SharedSkills.CandidateIsDeepest | internal/plan/sharedskills.go:130-150 | no deeper directory is |
| SharedSkills.NoRootIff | internal/plan/sharedskills.go:130-150 | there is no target root if and only if a link is missing, every target is inside, or only the file-system root is above them all |
| SharedSkills.SharedSkillsMounts | internal/plan/sharedskills.go:23-128 | the imperative planner over the mutable registry produces the specified registry, steps, arguments and error, including what it had done before an error |
| SharedSkills.MountTools | internal/plan/sharedskills.go:56-73 | the loop over the tool directories, ending at the first conflict |
| SharedSkills.ReplayLinks | internal/plan/sharedskills.go:105-125 | the replay of the probed links, ending at the first missing target or conflict |
| SharedSkillsLaws.RunIsConsistent | internal/plan/sharedskills.go:23-128 | after any run, failed or not, destinations are distinct and disjoint from the user's, and the arguments are exactly the newly registered mounts in order, each announced |
| SharedSkillsLaws.SuccessProvidesEverything | internal/plan/sharedskills.go:56-127 | on success every tool directory shows the skills read-only, and the skills directory and every link's mount path keep their own content |
| SharedSkillsLaws.OnlyAskedForIsMounted | internal/plan/sharedskills.go:23-128 | a run mounts nothing but the tools' skills, the root, the skills directory, the system skills and the links' directories, all read-only |
| SharedSkillsLaws.SuccessMakesParents | internal/plan/sharedskills.go:56-73 | on success every tool's directory has been made |
| SharedSkillsErrors.FailsExactlyWhen | internal/plan/sharedskills.go:23-128 | a run fails for want of a mount point exactly where the system skills need one, the runtime cannot make it and it is not there; else with the first wanted place that a record or a tool has taken, or the first missing link; else not at all |
| SharedSkillsErrors.AddingFailsIff | internal/plan/mounts.go:83-113 | one addition is refused if and only if the user has something writable or something else there, or something else is shared there, and says which |
| SharedSkillsErrors.FreshPlacesSucceed | internal/plan/sharedskills.go:23-128 | with nothing recorded at the wanted places, no two of them equal and no missing link, a run succeeds |
| SharedSkillsLaws.TargetRootIsMounted | internal/plan/sharedskills.go:75-84 | a root past its guards is incomparable with every mount registered before it, is always mounted and hides nothing registered |
| SharedSkillsLaws.TargetRootCarriesTheReplay | internal/plan/sharedskills.go:75-125 | with the root mounted, neither the skills directory nor the replay of the links mounts anything, and the replay cannot fail |
| SkillsScan.Scanner.ScanSkillSymlinkTree | cmd/claude-contained/probe.go:227-268 | the recursive scan over a mutable set of scanned directories returns the specified links and set; it ends on every graph, cycles included |
| SkillsScan.ScanSharedSkills | cmd/claude-contained/probe.go:176-210 | the system skills first, then the shared directory unless something was missing, with one shared set |
| SkillsScan.ScansOnce | cmd/claude-contained/probe.go:227-268 | no directory is scanned twice |
| SkillsScan.ScanIsComplete | cmd/claude-contained/probe.go:227-268 | unless a target is missing, every reachable directory is scanned and every link in it reported |
| SkillsScan.EverySymlinkIsReported | cmd/claude-contained/probe.go:227-268 | unless a target is missing, each symlink under a scanned directory is reported with its path, its target and what that is |
| SkillsScan.ScanAgreesWithAbort | cmd/claude-contained/probe.go:227-268 | up to its first missing entry the list is that of a walk that aborts altogether there |
| SkillsScan.BothAgree | cmd/claude-contained/probe.go:176-224 | the same for the two scans together |
| SkillsScan.PlanIgnoresAfterMissing | internal/plan/sharedskills.go:110-150 | links after a missing one change nothing in the plan |
| SkillsScan.PlannerCannotTell | internal/plan/sharedskills.go:110-150 | the planner gives the same result on the tolerant and on the aborting walk |
| HostFiles.MakingOnlyAdds | cmd/claude-contained/run.go:609-615 | making a directory path adds directories at and above it and changes nothing that exists |
| HostFiles.PerformedAppend | cmd/claude-contained/run.go:606-646 | applying steps in two lots is applying them in one, up to the first failure |
| AccountState.AccountStateSteps | internal/plan/plan.go:403-443 | the config copy, then the migrate-or-repair decision, then the link decision that sees its result |
| AccountState.CopyKeepsAccountIff | internal/plan/plan.go:406-411 | copying the git configuration keeps the account if and only if the copy ends elsewhere, at a shared path that the original hides, or with the same content |
| AccountState.AlwaysKeptIff | internal/plan/plan.go:403-443 | the account steps keep the account wherever they stop if and only if the copy, if there is one and it works, is harmless in that sense |
| AccountState.ConfigLinkedToAccountLoses | internal/plan/plan.go:406-411 | a copied configuration whose place is a link onto the account file replaces the account |
| AccountState.CrashSafe | internal/plan/plan.go:403-443 | stopping after any number of account steps keeps the account at one of its two paths and touches nothing else but the copied config |
| AccountState.Converges | internal/plan/plan.go:403-443 | an uninterrupted run leaves the original path reading the account, and the next probe plans no migration |
| AccountState.CrashThenRunAgain | cmd/claude-contained/probe.go:58-74 | after a crash anywhere, probing and running again makes the original path read the account, and then nothing is left to do |
| AccountState.MigrationSucceedsIff | internal/plan/plan.go:413-441 | on any file system whose shared path is no link, the migration succeeds and the path reads what it should if and only if none of three named situations is there |
| AccountState.SharedFileSurvivesIff | internal/plan/plan.go:418-428 | a file at the shared path survives if and only if the original is not a file with other content |
| AccountState.ConfigIsCopied | internal/plan/plan.go:406-411 | account steps that all work leave a copy of the git configuration where there is one, and touch only the account paths where there is none |
| AccountState.CrashSafeInPlan | cmd/claude-contained/run.go:606-646 | the relocation is as safe among steps that stay clear of the account, although planned from facts probed before them |
| Planner.Build | internal/plan/plan.go:46-358 | the imperative planner returns the specified steps, question, run or error |
| Planner.AskForGit | internal/plan/plan.go:49-73 | the worktree question: which repository's .git is mounted, and what follows for either answer |
| Planner.OfferLocks | internal/plan/plan.go:85-167 | directories, container name, and the lock offer with the candidate set that the worktree answer selects |
| Planner.Assemble | internal/plan/plan.go:169-313 | notices, account steps, extra mounts and shared skills, in the order in which the source emits them |
| Planner.Overlay | internal/plan/plan.go:315-358 | the node_modules question and its overlay directories and mounts |
| PlannerLaws.MoreAnswersContinue | internal/plan/plan.go:43-358 | with more answers the steps extend the earlier ones, and a plan without an open question does not change |
| PlannerLaws.BuildEndsWell | internal/plan/plan.go:31-41 | a plan asks a question not yet answered, or has a run, or has the error of the skills plan: one of the three |
| PlannerLaws.PlanIsCrashSafe | internal/plan/plan.go:85-358 | wherever a run of any whole plan stops, the account is at one of its two paths |
| PlannerLaws.LocksOnce | internal/plan/plan.go:118-167 | a plan locks at most once, one of the two candidate sets, in the name of its container |
| PlanAnswers.AsksTheOpenQuestion | internal/plan/plan.go:49-358 | which question is open, from the request and the answers alone; a run exactly when there is none and the skills plan works |
| PlanAnswers.LockStepIff | internal/plan/plan.go:118-167 | past the offer a plan locks the candidates that the answer about .git selects if and only if there are some and the flag or the answer says so |
| PlanAnswers.LocksAsAnswered | internal/plan/plan.go:118-167 | then exactly once, in the container's name, and otherwise nothing at all |
| PlanAnswers.MountsAsAnswered | internal/plan/plan.go:169-358 | a run mounts exactly what the request and the answers call for: the .git only if it was asked for, overlays only if they were |
| PlanAnswers.OverlaysAsAnswered | internal/plan/plan.go:315-358 | overlays add their steps and mounts at the end if and only if the flag or the answer says so |
| PlanAnswers.StepsAsAnswered | internal/plan/plan.go:46-358 | the steps before a run are exactly those that the request and the answers call for |
| PlanAnswers.SourcesAreMade | internal/plan/plan.go:85-117 | whatever of its own the launcher mounts it has made before |
| PlanAnswers.NamedAsLocked | internal/plan/plan.go:118-180 | a run has one name, the owner of its locks, and the derived image where there is one |
| PlanAnswers.NameIsAsked | internal/plan/plan.go:118-128 | the name is the one asked for or made from project and time, or where that is taken a free one that begins with it |
| PlanAnswers.EnvAsAnswered | internal/plan/plan.go:206-242 | the environment is the resolved one, the marker of its keys and the protected directories, with the main repository exactly where its .git is mounted |
| PlanAnswers.ReservedKeysAreOurs | internal/plan/plan.go:206-242 | of the reserved keys a run holds only the launcher's own, with its values, whatever the store was given |
| PlannerLaws.RegisteredIsReachable | internal/plan/plan.go:297-301 | every registry that shared skills are planned against satisfies what the laws of the skills planner assume |
| PlannerLaws.RegisteredIsMounted | internal/plan/plan.go:169-313 | whatever the answers, every mount that the registry holds at the end of planning is a mount of the run |
| PlannerLaws.PlanConverges | internal/plan/plan.go:85-358 | any whole plan that runs to the end of its steps leaves the original path reading the account, and nothing to migrate |
| PlannerLaws.PlanCrashThenRunAgain | cmd/claude-contained/probe.go:58-74 | after stopping a run of any plan anywhere, a new probe and a new plan that runs to its end, for whatever else has changed, make the original path read the first account |
| PlanVisibility.RunMountsBegin | internal/plan/plan.go:169-313 | where the target root is among the mounts of a whole run |
| PlanVisibility.RootHidesNothingIff | internal/plan/plan.go:169-313 | in the run of any plan, a root past its guards leaves what all earlier mounts show unchanged if and only if it is incomparable with those that planning makes without registering them |
| PlanVisibility.CoverageIsNotVisibility | internal/plan/sharedskills.go:75-84 | with the skills inside the shared directory the guards pass a root that makes the whole shared directory read-only in the planned run |
| Driver.AppliedOnceInOrder | cmd/claude-contained/run.go:606-646 | the log of a run is each applied step once, in order, and the file system is the one those steps make |
| Driver.Executor.Apply | cmd/claude-contained/run.go:606-646 | applies the steps from an index on, up to the first that fails, and returns the new index |
| Driver.Executor.ReleaseLocks | cmd/claude-contained/run.go:386-392 | releases exactly the recorded list, once, and nothing where nothing was locked |
| Driver.Drive | cmd/claude-contained/run.go:543-602 | the loop for any planner that continues its plans: what it has applied at the end is one plan with all the answers |
| Driver.RepliesAreUsed | cmd/claude-contained/run.go:543-602 | the answers are the replies: each question was asked by the plan with the answers before it and got the reply in its place, and at the end nothing is open or no reply is left |
| Driver.RunsLockedAsAnswered | cmd/claude-contained/run.go:329-392 | when the container is about to run, every candidate worktree that can be locked is locked in its name and on the list to release if that was asked for, and no lock file has changed if it was not |
| Driver.BuildAndApply | cmd/claude-contained/run.go:543-602 | building in rounds comes to the one-shot plan, each step once and in order up to a failure, with success exactly when it has a run and all its steps worked, a usage error exactly when they worked and it has an error, in at most four rounds |
| Driver.RunWith | cmd/claude-contained/run.go:329-370 | the run happens after all steps and never without them, and the locks that planning recorded are released after it, on every way out |
| Driver.LauncherRestoresLocks | cmd/claude-contained/run.go:329-392 | whatever fails or is aborted, a launcher alone on its repository leaves every lock file as it found it |
| Paths.SplitComponents | internal/host/path.go:99-111 | the non-empty components between slashes |
| Paths.AtOrUnderIsPrefix | internal/host/worktree.go:15-19 | the ancestor test on text is one prefix test |
| Paths.AtOrUnderTransitive | internal/host/worktree.go:15-19 | it is transitive |
| Paths.AncestorsCompare | internal/host/worktree.go:15-19 | two ancestors of one path are comparable |
| Paths.RenderedAtOrUnder | internal/host/worktree.go:15-19 | on rendered names it is the prefix order on components |
| Paths.JoinedIs | internal/plan/paths.go:38-64 | joining a proper name to a directory puts it right below the cleaned directory |
| Paths.DotMeansNothing | internal/host/path.go:99-111 | "." and empty components change nothing in a cleaned path |
| Paths.ParentUndoesName | internal/host/path.go:60-70 | ".." undoes the name before it |
| ResolvePath.ResolvePathFrom | internal/host/path.go:41-97 | the queue loop ends on every symlink graph, loops included, with the specified path |
| ResolvePath.ResolvesLikeRealPath | internal/host/path.go:56-97 | whenever a recursive tolerant realpath meets at most 40 links, the loop returns its result |
| ResolvePath.WithinBudgetIff | internal/host/path.go:56-97 | the loop meets at most 40 links if and only if the recursive realpath does |
| ResolvePath.ResultIsResolved | internal/host/path.go:41-97 | the result is always absolute and free of "." and ".." |
| ResolvePath.ResolvingIsIdempotent | internal/host/path.go:41-97 | within 40 links no prefix of the result is a link and resolving it again changes nothing |
| ResolvePath.DirectoryOfResolvedIsFixed | cmd/claude-contained/probe.go:227-268 | the directory of a resolved path resolves to itself |
| ResolvePath.LoopIsLeftUnresolved | internal/host/path.go:60-93 | a link to itself is returned as it is after 41 links |
| ResolvePath.RelativeToResolvedBase | internal/host/path.go:37-55 | a relative path is resolved from where its base resolves to |
| ResolvePath.LinkIsSubstitution | internal/host/path.go:56-97 | resolving through a link is resolving the text in which the link is replaced by what it says, from the root where that is absolute and from its directory where not, with one link less |
| ResolvePath.ResolvesThroughLinks | internal/host/path.go:56-97 | so does the loop, within 40 links |
| ResolvePath.NoLinksIsClean | internal/host/path.go:56-97 | where there are no links, resolving is cleaning |
| Stream.DiagnosticStream.constructor | internal/diagnostic/stream.go:125-172 | a new stream is open, with nothing pending, attempted or remembered |
| Stream.DiagnosticStream.Write | internal/diagnostic/stream.go:200-223 | attempts every line completed by the text, keeps the fragment pending, and returns the first failure among them; on a closed stream only remembers that |
| Stream.DiagnosticStream.EmitLines | internal/diagnostic/stream.go:209-222 | the loop that consumes the buffer line by line |
| Stream.DiagnosticStream.Flush | internal/diagnostic/stream.go:237-256 | attempts the pending fragment of stdout and then of stderr, and returns the first remembered failure |
| Stream.DiagnosticStream.Close | internal/diagnostic/stream.go:259-270 | flushes, closes once, and returns the first remembered failure |
| Stream.LinesDependOnBytesOnly | internal/diagnostic/stream.go:200-270 | each route's attempted lines are the lines of its bytes cut at the flushes, whatever the interleaving, the chunks, the failures and later calls |
| Stream.LinesOfWrites | internal/diagnostic/stream.go:200-270 | without flushes: exactly the newline split of everything written, with a last fragment if it is not empty |
| Stream.BytesAreConserved | internal/diagnostic/stream.go:237-256 | flushing anywhere neither drops nor repeats a byte |
| Stream.ClosedEmitsNothing | internal/diagnostic/stream.go:200-270 | nothing is attempted after the close |
| Stream.RemembersFirstFailure | internal/diagnostic/stream.go:52-93 | what an open stream remembers is its first failed record |
| Stream.FirstNeverChanges | internal/diagnostic/stream.go:52-108 | a remembered failure is never replaced |
| Stream.CallsAttemptInOrder | internal/diagnostic/stream.go:200-270 | a call's records follow those before it: a write's lines in order, and at a flush or the close the fragment of stdout before that of stderr |
| Stream.RemembersToTheEnd | internal/diagnostic/stream.go:52-270 | what a closed stream remembers: its first failed record, else the failure to close, else a write that came too late |
| EnvStore.ValidKey | internal/env/env.go:219-233 | a key is a letter or underscore followed by letters, digits and underscores |
| EnvStore.Store.Validate | internal/env/env.go:237-257 | the first of the four checks that fails, in their order |
| EnvStore.Store.Set | internal/env/env.go:109-122 | replaces in place or appends; a refused assignment changes nothing |
| EnvStore.Store.Default | internal/env/env.go:130-136 | fills a gap only, and validates only then |
| EnvStore.Store.LoadFile | internal/env/parse.go:31-63 | applies the lines up to the first that is refused, skipping those whose key a flag holds |
| EnvStore.Store.Complete | cmd/claude-contained/run.go:477-538 | flags, then the project file, then the built-ins, ending at the first error |
| EnvStore.Store.Pairs | internal/env/env.go:139-145 | the assignments in emission order |
| EnvStore.AcceptedIff | internal/env/env.go:235-257 | the three sources are accepted if and only if they are acceptable, and in any case every stored key is valid, unreserved and there once |
| EnvStore.ResolvesTo | internal/env/env.go:88-136 | each key once, where it first appeared, with the last flag, or else the last file line, or else the first built-in |
| EnvStore.ExplicitKeysSplitIff | internal/env/env.go:57-65 | the comma-joined marker splits back into the stored keys if and only if there are any |
| EnvStore.LoadUndoesPrint | internal/env/parse.go:31-91 | distinct acceptable keys with any newline-free values survive being printed as quoted lines and loaded |
| EnvStore.LineSets | internal/env/parse.go:31-91 | a line gives its key what one pair of quotes encloses, or its value as it stands, trailing blanks and unmatched quotes included |
| EnvStore.CommentsMeanNothing | internal/env/parse.go:31-63 | comments and blank lines, indented or not, change nothing |
| EnvStore.IndentMeansNothing | internal/env/parse.go:31-63 | neither do indentation and a carriage return at the end of a line |
| EnvStore.FirstBadLine | internal/env/parse.go:31-63 | the error of a file names its first bad line by number, and the store holds what the lines before it set |
| EnvStore.ValidationDescribes | internal/env/env.go:235-257 | which of the four errors an assignment gets |
| EnvStore.NamespaceIsReserved | internal/env/env.go:188-218 | every key inside a namespace of the launcher or the entrypoint is refused from every origin |
| EnvStore.LauncherKeysAreReserved | internal/env/env.go:188-221 | every key that the launcher or the entrypoint sets itself is refused from every origin |
| Worktrees.PathVisibleInContainer | internal/host/worktree.go:23-30 | a path is visible exactly when it is at or under a mounted root |
| Worktrees.HiddenWorktrees | internal/host/worktree.go:40-95 | nothing without visible git metadata or git output; else what the line loop with its flush selects |
| Worktrees.ParserIsFilter | internal/host/worktree.go:55-94 | on any printed listing, whatever the order of attributes and the trailing blank lines, the parser is a per-record filter |
| Worktrees.NotedAllIs | internal/host/worktree.go:82-91 | after a record's attributes, in any order, the parser knows its prunability and its last lock |
| Names.SanitizeFolderName | internal/host/sanitize.go:30-94 | the in-place rewrite and the collapsing loop compute the slug |
| Names.SlugIsSlug | internal/host/sanitize.go:30-94 | 1 to 20 characters of lower-case letters, digits and dashes, with no leading or doubled dash |
| Names.StableAfterTwo | internal/host/sanitize.go:30-94 | a second application changes nothing if and only if the first left no trailing dash; a third never changes anything |
| Names.TruncationLeavesDash | internal/host/sanitize.go:64-70 | a family of folder names on which one application is not stable |
| Names.SlugSpellsName | internal/host/sanitize.go:30-94 | a folder name of up to 20 letters and digits is its own slug in small letters, wherever the folder is |
| Names.SlugSeparatesWords | internal/host/sanitize.go:30-94 | whatever stands between two words becomes one dash |
| Names.NothingLeftIsRoot | internal/host/sanitize.go:30-94 | a folder name without letters and digits gives "root" |
| Names.DeduplicateName | internal/plan/plan.go:384-394 | returns the first candidate that is not running, after at most one more candidate than there are running names |
| Names.CandidatesDiffer | internal/plan/plan.go:390-392 | candidates with different suffixes differ |
| Names.GeneratedNameIsWord | internal/plan/plan.go:118-128 | every generated container name can be an entry of an owner list |

## Left out

- Process execution, the git and container command lines, prompts, terminals, log levels and the wording of messages: a notice is modelled by what it is about, an answer stream by a list of replies.
- internal/cli, argv rendering, runtime selection, attach and Zellij decisions, internal/blackbox, internal/imagescript, apple_inspect.go and the shell scripts: many branches, but each is read off its own body.
- The sweep of placeholder files around a run, and the update check.
- Signals: only that one arrived before the run, and that a prompt can end without an answer.
- Planner.Build: models the container's name, mounts, tool environment, GIT_PROTECT_DIRS and image; memory, user ids, ports, DNS, sandbox, SSH and label arguments and the container command are further fields with no bearing on steps or mounts.
- Planner.Assemble: the same arguments as Planner.Build leaves out.
- Driver.RunWith: exit codes, signals during the run, and the sweep of placeholder files.
- EnvStore.Store.Complete: a project environment file that exists but cannot be read.
- Paths.Joined, Paths.Clean and Paths.Dir: only for absolute paths; a relative HOME is not part of this model.
- SharedSkills.CommonPathAncestor: the empty result for relative paths, which the probe never delivers.
- SharedSkills.SharedSkillsTargetRoot: only for absolute paths, likewise.
- SharedSkills.SharedSkillsMounts: only for absolute paths, likewise.
- SkillsScan.Scanner.ScanSkillSymlinkTree: what each directory holds, with its links resolved, is given as a map; resolving is the subject of ResolvePath.
- HostFiles.Stepped: paths are compared as text, so a directory that is itself a symlink is not followed as a parent; permissions, missing parent directories of a copy, renames of directories, and a write that is cut off half-way are not modelled.
- AccountState.CrashSafe: requires that a git configuration, where there is one to copy, is not copied through links onto one of the two account paths; AccountState.AlwaysKeptIff has no such requirement.
- AccountState.Converges: as AccountState.CrashSafe.
- AccountState.CrashThenRunAgain: as AccountState.CrashSafe, and that the copy can be written, where one of the two runs has one to make.
- AccountState.CrashSafeInPlan: as AccountState.CrashSafe.
- AccountState.MigrationSucceedsIff: a shared account path that is itself a link, which the launcher never makes.
- PlannerLaws.PlanIsCrashSafe: as AccountState.CrashSafe, and no chosen directory lies inside the account file.
- PlannerLaws.PlanConverges: about runs whose steps all work; a directory that cannot be made ends a run before its end.
- AutoLock.Repository.AppendAutoLockOwner: a write of the lock file that fails; AutoLockProtocol has it as an outcome.
- AutoLock.Repository: one repository; whether git knows a worktree's directory and would lock it is a parameter for the whole pass.
- AutoLockProtocol.StaysLocked: a user edits only lock files that are not the launchers' own; one who unlocks or rewrites an auto-locked worktree by hand takes the lock away from every launcher.
- LockRefinement.StaysLockedOverFiles: launches that go on without the mutex, which AutoLockProtocol.StaysLocked covers.
- LockMutex.ObserveMutexHolder: the text of the owner file is given as the two numbers it carries.
- LayerHash.CanonicalStream: hashing itself; a SHA-256 value and its 32-character prefix stand for their input, as do the digests of the files; the file count and the number of bytes, on which the launcher decides its size warning, are left out.
- LayerHash.EnumerationIsClean: the layer directory is a tree of files, links and directories that nobody changes meanwhile; file types that enumeration refuses end in an error before any stream.
- LayerBuild.DerivedTagNamesItsBase: attempts draw distinct suffixes.
- Names.SanitizeFolderName: lower-casing of characters beyond ASCII.
- Stream.DiagnosticStream: the locks around each call make calls atomic, so a run is a sequence of calls; records that loggers write to the same destination are not modelled.
- EnvStore.Store: the summary and the diagnostic views of the store.
- Worktrees.HiddenWorktrees: the porcelain records carry newline-free fields, as git prints them.
