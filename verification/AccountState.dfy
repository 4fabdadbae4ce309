/** The relocation of the account file: what is probed (probeFacts in
    cmd/claude-contained/probe.go), the steps planned from it
    (accountStateSteps in internal/plan/plan.go), and what running them, in
    full or up to a crash, does to the account. */
module AccountState {
  import opened Text
  import opened HostFiles

  datatype Facts = Facts(
    present: bool, isRegularFile: bool, isSymlink: bool, sharedPresent: bool, sharedIsRegularFile: bool)

  datatype Home = Home(gitConfig: string, sharedGitConfig: string, claudeJSON: string, sharedClaudeJSON: string)

  predicate IsRegular(fs: Files, path: string) {
    Stat(fs, path).Some? && Stat(fs, path).value.File?
  }

  function Probe(fs: Files, home: Home): Facts {
    Facts(
      Stat(fs, home.claudeJSON).Some?, IsRegular(fs, home.claudeJSON), IsLink(fs, home.claudeJSON),
      Stat(fs, home.sharedClaudeJSON).Some?, IsRegular(fs, home.sharedClaudeJSON))
  }

  // ---- The planned steps ---------------------------------------------------------------

  function CopyingConfig(home: Home, gitConfigExists: bool): seq<Step> {
    if gitConfigExists then [CopyFile(home.gitConfig, home.sharedGitConfig)] else []
  }

  function Migration(home: Home, a: Facts): seq<Step> {
    var linking := [Symlink(home.sharedClaudeJSON, home.claudeJSON)];
    if a.isRegularFile && !a.isSymlink then [MoveFile(home.claudeJSON, home.sharedClaudeJSON)] + linking
    else if a.isSymlink && !a.sharedPresent then
      [RemoveFile(home.claudeJSON)] + if a.sharedIsRegularFile then linking else []
    else if !a.present && a.sharedIsRegularFile then linking
    else []
  }

  function AccountSteps(home: Home, gitConfigExists: bool, a: Facts): seq<Step> {
    CopyingConfig(home, gitConfigExists) + Migration(home, a)
  }

  /** A migrate-or-repair decision, then a link decision that sees its result. */
  method AccountStateSteps(home: Home, gitConfigExists: bool, a: Facts) returns (steps: seq<Step>)
    ensures steps == AccountSteps(home, gitConfigExists, a)
  {
    steps := [];
    if gitConfigExists {
      steps := steps + [CopyFile(home.gitConfig, home.sharedGitConfig)];
    }
    var hostExists := a.present;
    if a.isRegularFile && !a.isSymlink {
      steps :=
        steps + [MoveFile(home.claudeJSON, home.sharedClaudeJSON), Symlink(home.sharedClaudeJSON, home.claudeJSON)];
      hostExists := true;
    } else if a.isSymlink && !a.sharedPresent {
      steps := steps + [RemoveFile(home.claudeJSON)];
      hostExists := false;
    }
    if !hostExists && a.sharedIsRegularFile {
      steps := steps + [Symlink(home.sharedClaudeJSON, home.claudeJSON)];
    }
  }

  // ---- The states the migration is made for ------------------------------------------------

  /** The account file is absent, a file, or a link to the shared path; the
      shared path is free or a file. */
  ghost predicate Standard(fs: Files, home: Home) {
    var h, s := home.claudeJSON, home.sharedClaudeJSON;
    && h != s
    && (h in fs ==> fs[h].File? || fs[h] == Link(s))
    && (s in fs ==> fs[s].File?)
  }

  /** The account: what the original path holds itself, or else the shared path. */
  ghost function Account(fs: Files, home: Home): Option<string> {
    var h, s := home.claudeJSON, home.sharedClaudeJSON;
    if h in fs && fs[h].File? then Some(fs[h].content)
    else if s in fs && fs[s].File? then Some(fs[s].content)
    else None
  }

  /** Writing the copied git configuration ends at neither account path. */
  ghost predicate ConfigElsewhere(fs: Files, home: Home) {
    var end := Followed(fs, home.sharedGitConfig, MAX_LINKS);
    end.Some? && end.value != home.claudeJSON && end.value != home.sharedClaudeJSON
  }

  ghost predicate ConfigWritable(fs: Files, home: Home) {
    && ConfigElsewhere(fs, home)
    && var end := Followed(fs, home.sharedGitConfig, MAX_LINKS).value; end in fs ==> fs[end].File?
  }

  ghost predicate Untouched(fs: Files, after: Files, paths: set<string>) {
    forall p :: p !in paths ==> (p in fs <==> p in after) && (p in fs && p in after ==> after[p] == fs[p])
  }

  /** Nothing of the account is lost between the two, and copying the git
      configuration stays as harmless as it was. */
  ghost predicate Kept(fs: Files, after: Files, home: Home) {
    && Standard(after, home)
    && Account(after, home) == Account(fs, home)
    && (ConfigElsewhere(fs, home) ==>
          ConfigElsewhere(after, home)
          && Followed(after, home.sharedGitConfig, MAX_LINKS) == Followed(fs, home.sharedGitConfig, MAX_LINKS))
  }

  lemma {:induction false} FollowedAvoids(fs: Files, after: Files, home: Home, path: string, hops: nat)
    requires Standard(fs, home)
    requires forall p :: p != home.claudeJSON ==> (IsLink(fs, p) <==> IsLink(after, p))
    requires forall p :: p != home.claudeJSON && IsLink(fs, p) && IsLink(after, p) ==> after[p] == fs[p]
    requires Followed(fs, path, hops).Some?
    requires Followed(fs, path, hops).value !in {home.claudeJSON, home.sharedClaudeJSON}
    ensures Followed(after, path, hops) == Followed(fs, path, hops)
    decreases hops
  {
    if IsLink(fs, path) {
      assert path != home.claudeJSON;
      FollowedAvoids(fs, after, home, fs[path].target, hops - 1);
    }
  }

  /** What is probed in such a state. */
  lemma {:induction false} StandardProbe(fs: Files, home: Home)
    requires Standard(fs, home)
    ensures var h, s := home.claudeJSON, home.sharedClaudeJSON;
            && Stat(fs, s) == (if s in fs then Some(fs[s]) else None)
            && Stat(fs, h) == (if IsLink(fs, h) then Stat(fs, s) else if h in fs then Some(fs[h]) else None)
  {
    var h, s := home.claudeJSON, home.sharedClaudeJSON;
    assert Followed(fs, s, MAX_LINKS) == Some(s) == Followed(fs, s, MAX_LINKS - 1);
  }

  lemma {:induction false} CopyKeeps(fs: Files, home: Home)
    requires Standard(fs, home) && ConfigElsewhere(fs, home)
    requires Copied(fs, home.gitConfig, home.sharedGitConfig).Some?
    ensures Kept(fs, Copied(fs, home.gitConfig, home.sharedGitConfig).value, home)
    ensures Probe(Copied(fs, home.gitConfig, home.sharedGitConfig).value, home) == Probe(fs, home)
  {
    var after := Copied(fs, home.gitConfig, home.sharedGitConfig).value;
    StandardProbe(fs, home);
    StandardProbe(after, home);
    FollowedAvoids(fs, after, home, home.sharedGitConfig, MAX_LINKS);
  }

  /** The copy ends elsewhere, or at a shared path that the original hides, or
      writes what the account holds anyway. */
  ghost predicate CopyHarmless(fs: Files, home: Home)
    requires Copied(fs, home.gitConfig, home.sharedGitConfig).Some?
  {
    var end, h := Followed(fs, home.sharedGitConfig, MAX_LINKS).value, home.claudeJSON;
    || ConfigElsewhere(fs, home)
    || (end == home.sharedClaudeJSON && h in fs && fs[h].File?)
    || Account(fs, home) == Some(Stat(fs, home.gitConfig).value.content)
  }

  /** Copying the configuration keeps the account exactly when it is harmless.
      Then it changes nothing about the migration, except that the link planned
      for a free original path finds its place taken where the copy went. */
  lemma {:induction false} CopyKeepsAccountIff(fs: Files, home: Home)
    requires Standard(fs, home) && Copied(fs, home.gitConfig, home.sharedGitConfig).Some?
    ensures var after := Copied(fs, home.gitConfig, home.sharedGitConfig).value;
            && (Account(after, home) == Account(fs, home) <==> CopyHarmless(fs, home))
            && (CopyHarmless(fs, home) ==>
                  && Standard(after, home)
                  && (|| Migration(home, Probe(after, home)) == Migration(home, Probe(fs, home))
                      || (home.claudeJSON in after &&
                          Migration(home, Probe(fs, home)) == [Symlink(home.sharedClaudeJSON, home.claudeJSON)])))
  {
    var after := Copied(fs, home.gitConfig, home.sharedGitConfig).value;
    if ConfigElsewhere(fs, home) {
      CopyKeeps(fs, home);
    } else if CopyHarmless(fs, home) {
      StandardProbe(fs, home);
      StandardProbe(after, home);
    }
  }

  /** One way to lose it: the copy's place is a link onto the account file. */
  lemma {:induction false} ConfigLinkedToAccountLoses(home: Home, account: string, config: string)
    requires |{home.gitConfig, home.sharedGitConfig, home.claudeJSON, home.sharedClaudeJSON}| == 4
    requires account != config
    ensures var fs: Files := map[
              home.claudeJSON := File(account), home.gitConfig := File(config),
              home.sharedGitConfig := Link(home.claudeJSON)];
            && Standard(fs, home) && Account(fs, home) == Some(account)
            && Account(Performed(fs, AccountSteps(home, true, Probe(fs, home))[..1]).0, home) == Some(config)
  {
    var fs: Files := map[
      home.claudeJSON := File(account), home.gitConfig := File(config), home.sharedGitConfig := Link(home.claudeJSON)];
    FourPaths(home);
    var steps := AccountSteps(home, true, Probe(fs, home))[..1];
    assert steps == [CopyFile(home.gitConfig, home.sharedGitConfig)] && steps[1..] == [];
    assert Followed(fs, home.sharedGitConfig, MAX_LINKS) == Followed(fs, home.claudeJSON, MAX_LINKS - 1);
  }

  lemma {:induction false} FourPaths(home: Home)
    requires |{home.gitConfig, home.sharedGitConfig, home.claudeJSON, home.sharedClaudeJSON}| == 4
    ensures home.claudeJSON !in {home.gitConfig, home.sharedGitConfig, home.sharedClaudeJSON}
    ensures home.sharedClaudeJSON !in {home.gitConfig, home.sharedGitConfig} && home.gitConfig != home.sharedGitConfig
  {
  }

  lemma {:induction false} MigrationKeeps(fs: Files, home: Home, k: nat)
    requires Standard(fs, home)
    requires k <= |Migration(home, Probe(fs, home))|
    ensures var (after, n) := Performed(fs, Migration(home, Probe(fs, home))[..k]);
            && n == k && Kept(fs, after, home)
            && Untouched(fs, after, {home.claudeJSON, home.sharedClaudeJSON})
  {
    var h, s := home.claudeJSON, home.sharedClaudeJSON;
    var steps := Migration(home, Probe(fs, home));
    var (after, n) := Performed(fs, steps[..k]);
    StandardProbe(fs, home);
    if k > 0 {
      PerformedFew(fs, steps[..k]);
    }
    if ConfigElsewhere(fs, home) {
      FollowedAvoids(fs, after, home, home.sharedGitConfig, MAX_LINKS);
    }
  }

  /** Wherever a run stops, the account is kept. */
  ghost predicate AlwaysKept(fs: Files, home: Home, steps: seq<Step>) {
    forall k :: 0 <= k <= |steps| ==> Account(Performed(fs, steps[..k]).0, home) == Account(fs, home)
  }

  /** The steps keep the account wherever they stop if and only if the copy, if
      there is one and it works, is harmless. */
  lemma {:induction false} AlwaysKeptIff(fs: Files, home: Home, gitConfigExists: bool)
    requires Standard(fs, home)
    ensures AlwaysKept(fs, home, AccountSteps(home, gitConfigExists, Probe(fs, home))) <==>
            (gitConfigExists && Copied(fs, home.gitConfig, home.sharedGitConfig).Some? ==> CopyHarmless(fs, home))
  {
    var copying, moving := CopyingConfig(home, gitConfigExists), Migration(home, Probe(fs, home));
    var steps := copying + moving;
    if gitConfigExists && Copied(fs, home.gitConfig, home.sharedGitConfig).Some? {
      CopyKeepsAccountIff(fs, home);
      assert steps[..1] == copying && copying[1..] == [];
      assert Performed(fs, copying).0 == Copied(fs, home.gitConfig, home.sharedGitConfig).value;
    }
    if gitConfigExists && Copied(fs, home.gitConfig, home.sharedGitConfig).Some? ==> CopyHarmless(fs, home) {
      forall k | 0 <= k <= |steps|
        ensures Account(Performed(fs, steps[..k]).0, home) == Account(fs, home)
      {
        KeptAt(fs, home, gitConfigExists, k);
      }
    }
  }

  lemma {:induction false} KeptAt(fs: Files, home: Home, gitConfigExists: bool, k: nat)
    requires Standard(fs, home) && k <= |AccountSteps(home, gitConfigExists, Probe(fs, home))|
    requires gitConfigExists && Copied(fs, home.gitConfig, home.sharedGitConfig).Some? ==> CopyHarmless(fs, home)
    ensures Account(Performed(fs, AccountSteps(home, gitConfigExists, Probe(fs, home))[..k]).0, home)
         == Account(fs, home)
  {
    var copying, moving := CopyingConfig(home, gitConfigExists), Migration(home, Probe(fs, home));
    var steps := copying + moving;
    if k == 0 {
      assert steps[..k] == [];
    } else if !gitConfigExists {
      assert steps == moving;
      MigrationKeeps(fs, home, k);
    } else {
      assert steps[..k] == copying + moving[..k - 1] && copying[1..] == [];
      PerformedAppend(fs, copying, moving[..k - 1]);
      if Stepped(fs, copying[0]).Some? {
        var mid := Stepped(fs, copying[0]).value;
        CopyKeepsAccountIff(fs, home);
        if Migration(home, Probe(mid, home)) == moving {
          MigrationKeeps(mid, home, k - 1);
        }
      }
    }
  }

  /** The paths that the account steps may touch. */
  ghost function Touchable(fs: Files, home: Home, gitConfigExists: bool): set<string>
    requires gitConfigExists ==> ConfigElsewhere(fs, home)
  {
    {home.claudeJSON, home.sharedClaudeJSON}
    + if gitConfigExists then {Followed(fs, home.sharedGitConfig, MAX_LINKS).value} else {}
  }

  /** The copy, and then any beginning of the migration. */
  lemma {:induction false} CrashSafeAfterCopy(fs: Files, home: Home, j: nat)
    requires Standard(fs, home) && ConfigElsewhere(fs, home) && j <= |Migration(home, Probe(fs, home))|
    ensures var after := Performed(fs, CopyingConfig(home, true) + Migration(home, Probe(fs, home))[..j]).0;
            Kept(fs, after, home) && Untouched(fs, after, Touchable(fs, home, true))
  {
    var copying, moving := CopyingConfig(home, true), Migration(home, Probe(fs, home))[..j];
    PerformedAppend(fs, copying, moving);
    assert copying[1..] == [];
    if Stepped(fs, copying[0]).Some? {
      CopyKeeps(fs, home);
      MigrationKeeps(Stepped(fs, copying[0]).value, home, j);
    }
  }

  /** Stopping anywhere, by a crash or by a step that fails, keeps the account
      at one of its two paths. */
  lemma {:induction false} CrashSafe(fs: Files, home: Home, gitConfigExists: bool, k: nat)
    requires Standard(fs, home) && (gitConfigExists ==> ConfigElsewhere(fs, home))
    requires k <= |AccountSteps(home, gitConfigExists, Probe(fs, home))|
    ensures var after := Performed(fs, AccountSteps(home, gitConfigExists, Probe(fs, home))[..k]).0;
            Kept(fs, after, home) && Untouched(fs, after, Touchable(fs, home, gitConfigExists))
  {
    var steps, moving := AccountSteps(home, gitConfigExists, Probe(fs, home)), Migration(home, Probe(fs, home));
    if k == 0 {
      assert steps[..k] == [];
    } else if gitConfigExists {
      assert steps[..k] == CopyingConfig(home, true) + moving[..k - 1];
      CrashSafeAfterCopy(fs, home, k - 1);
    } else {
      assert steps == moving;
      MigrationKeeps(fs, home, k);
    }
  }

  /** The original path reads the account, and nothing is left to migrate. */
  ghost predicate Settled(fs: Files, home: Home, account: Option<string>) {
    && (account.Some? ==> Stat(fs, home.claudeJSON) == Some(File(account.value)))
    && (account.None? ==> Stat(fs, home.claudeJSON).None?)
    && Migration(home, Probe(fs, home)) == []
  }

  lemma {:induction false} MigrationSettles(fs: Files, home: Home)
    requires Standard(fs, home)
    ensures var (after, n) := Performed(fs, Migration(home, Probe(fs, home)));
            n == |Migration(home, Probe(fs, home))| && Settled(after, home, Account(fs, home))
  {
    var h, s := home.claudeJSON, home.sharedClaudeJSON;
    var steps := Migration(home, Probe(fs, home));
    var after := Performed(fs, steps).0;
    StandardProbe(fs, home);
    MigrationKeeps(fs, home, |steps|);
    assert steps[..|steps|] == steps;
    StandardProbe(after, home);
    if steps != [] {
      PerformedFew(fs, steps);
    }
  }

  /** The steps run to their end settle the account. */
  lemma {:induction false} DoneIsSettled(fs: Files, home: Home, gitConfigExists: bool)
    requires Standard(fs, home) && (gitConfigExists ==> ConfigElsewhere(fs, home))
    ensures var steps := AccountSteps(home, gitConfigExists, Probe(fs, home));
            var (after, n) := Performed(fs, steps);
            n == |steps| <==> (gitConfigExists ==> Copied(fs, home.gitConfig, home.sharedGitConfig).Some?)
    ensures var steps := AccountSteps(home, gitConfigExists, Probe(fs, home));
            var (after, n) := Performed(fs, steps);
            n == |steps| ==> Settled(after, home, Account(fs, home))
  {
    var copying, moving := CopyingConfig(home, gitConfigExists), Migration(home, Probe(fs, home));
    PerformedAppend(fs, copying, moving);
    var mid := Performed(fs, copying).0;
    if copying != [] {
      assert copying[1..] == [];
      if Stepped(fs, copying[0]).Some? {
        CopyKeeps(fs, home);
        MigrationSettles(mid, home);
      }
    } else {
      MigrationSettles(mid, home);
    }
  }

  /** A run that is not interrupted leaves the original path reading the
      account, and nothing for the next run to migrate. */
  lemma {:induction false} Converges(fs: Files, home: Home)
    requires Standard(fs, home) && (IsRegular(fs, home.gitConfig) ==> ConfigWritable(fs, home))
    ensures var steps := AccountSteps(home, IsRegular(fs, home.gitConfig), Probe(fs, home));
            var (after, n) := Performed(fs, steps);
            n == |steps| && Settled(after, home, Account(fs, home))
  {
    DoneIsSettled(fs, home, IsRegular(fs, home.gitConfig));
  }

  /** Crash anywhere, probe again, run again: the account is back. The copied
      configuration matters only where one of the two runs has one to copy. */
  lemma {:induction false} CrashThenRunAgain(fs: Files, home: Home, k: nat, crashed: Files)
    requires k <= |AccountSteps(home, IsRegular(fs, home.gitConfig), Probe(fs, home))|
    requires crashed == Performed(fs, AccountSteps(home, IsRegular(fs, home.gitConfig), Probe(fs, home))[..k]).0
    requires Standard(fs, home)
    requires IsRegular(fs, home.gitConfig) || IsRegular(crashed, home.gitConfig) ==> ConfigWritable(fs, home)
    ensures var again := AccountSteps(home, IsRegular(crashed, home.gitConfig), Probe(crashed, home));
            var (after, n) := Performed(crashed, again);
            n == |again| && Settled(after, home, Account(fs, home))
  {
    CrashSafe(fs, home, IsRegular(fs, home.gitConfig), k);
    if IsRegular(crashed, home.gitConfig) {
      ConfigStaysWritable(fs, home, k);
    }
    Converges(crashed, home);
  }

  lemma {:induction false} ConfigStaysWritable(fs: Files, home: Home, k: nat)
    requires Standard(fs, home) && ConfigWritable(fs, home)
    requires k <= |AccountSteps(home, IsRegular(fs, home.gitConfig), Probe(fs, home))|
    ensures ConfigWritable(
              Performed(fs, AccountSteps(home, IsRegular(fs, home.gitConfig), Probe(fs, home))[..k]).0, home)
  {
    var steps := AccountSteps(home, IsRegular(fs, home.gitConfig), Probe(fs, home));
    var copying, moving := CopyingConfig(home, IsRegular(fs, home.gitConfig)), Migration(home, Probe(fs, home));
    CrashSafe(fs, home, IsRegular(fs, home.gitConfig), k);
    if copying == [] {
      assert steps == moving;
      MigrationKeeps(fs, home, k);
    } else if k == 0 {
      assert steps[..k] == [];
    } else {
      assert steps[..k] == copying + moving[..k - 1] && copying[1..] == [];
      PerformedAppend(fs, copying, moving[..k - 1]);
      CopyKeeps(fs, home);
      MigrationKeeps(Stepped(fs, copying[0]).value, home, k - 1);
    }
  }

  // ---- The git configuration -------------------------------------------------------------------

  /** Steps that run to their end also leave a copy of the git configuration for
      the container, where there is one, and none where there is none. */
  lemma {:induction false} ConfigIsCopied(fs: Files, home: Home, gitConfigExists: bool)
    requires Standard(fs, home) && (gitConfigExists ==> ConfigElsewhere(fs, home))
    requires Performed(fs, AccountSteps(home, gitConfigExists, Probe(fs, home))).1
          == |AccountSteps(home, gitConfigExists, Probe(fs, home))|
    ensures var after := Performed(fs, AccountSteps(home, gitConfigExists, Probe(fs, home))).0;
            if gitConfigExists
            then Stat(after, home.sharedGitConfig) == Stat(fs, home.gitConfig) && IsRegular(fs, home.gitConfig)
            else Untouched(fs, after, {home.claudeJSON, home.sharedClaudeJSON})
  {
    var steps := AccountSteps(home, gitConfigExists, Probe(fs, home));
    var copying, moving := CopyingConfig(home, gitConfigExists), Migration(home, Probe(fs, home));
    CrashSafe(fs, home, gitConfigExists, |steps|);
    assert steps[..|steps|] == steps;
    if gitConfigExists {
      PerformedAppend(fs, copying, moving);
      assert copying[1..] == [];
      var mid := Stepped(fs, copying[0]).value;
      CopyKeeps(fs, home);
      MigrationKeeps(mid, home, |moving|);
      assert moving[..|moving|] == moving;
    }
  }

  // ---- Outside those states -----------------------------------------------------------------

  /** The migration did all its steps, and the original path reads what it read,
      or, where it read nothing, the file at the shared path. */
  ghost predicate Succeeds(fs: Files, home: Home) {
    var steps := Migration(home, Probe(fs, home));
    var (after, n) := Performed(fs, steps);
    && n == |steps|
    && (Stat(fs, home.claudeJSON).Some? ==> Stat(after, home.claudeJSON) == Stat(fs, home.claudeJSON))
    && (Stat(fs, home.claudeJSON).None? && IsRegular(fs, home.sharedClaudeJSON) ==>
          Stat(after, home.claudeJSON) == Stat(fs, home.sharedClaudeJSON))
  }

  /** It succeeds unless a directory is in the way of the move, or the original
      path is a link that leads somewhere while the shared path is free (it is
      then removed), or a link that leads nowhere while the shared path holds a
      file (the new link then finds its place taken). */
  lemma {:induction false} MigrationSucceedsIff(fs: Files, home: Home)
    requires home.claudeJSON != home.sharedClaudeJSON && !IsLink(fs, home.sharedClaudeJSON)
    ensures var h, s := home.claudeJSON, home.sharedClaudeJSON;
            Succeeds(fs, home) <==>
              && !(h in fs && fs[h].File? && s in fs && fs[s].Folder?)
              && !(IsLink(fs, h) && Stat(fs, h).Some? && s !in fs)
              && !(IsLink(fs, h) && Stat(fs, h).None? && s in fs && fs[s].File?)
  {
    var h, s := home.claudeJSON, home.sharedClaudeJSON;
    var steps := Migration(home, Probe(fs, home));
    assert Followed(fs, s, MAX_LINKS) == Some(s);
    if steps != [] && Stepped(fs, steps[0]).Some? {
      var one := Stepped(fs, steps[0]).value;
      PerformedFew(fs, steps);
      if |steps| == 1 {
        assert steps[0].Symlink? ==> Followed(one, h, MAX_LINKS) == Followed(one, s, MAX_LINKS - 1) == Some(s);
      } else {
        var two := Stepped(one, steps[1]).value;
        assert Followed(two, h, MAX_LINKS) == Followed(two, s, MAX_LINKS - 1) == Some(s);
      }
    }
  }

  /** A file at the shared path survives the migration unless the original path
      holds a file with other content, which then replaces it. */
  lemma {:induction false} SharedFileSurvivesIff(fs: Files, home: Home)
    requires home.claudeJSON != home.sharedClaudeJSON
    requires home.sharedClaudeJSON in fs && fs[home.sharedClaudeJSON].File?
    ensures var h, s := home.claudeJSON, home.sharedClaudeJSON;
            Stat(Performed(fs, Migration(home, Probe(fs, home))).0, s) == Some(fs[s]) <==>
              !(h in fs && fs[h].File? && fs[h] != fs[s])
  {
    var h, s := home.claudeJSON, home.sharedClaudeJSON;
    var steps := Migration(home, Probe(fs, home));
    assert Followed(fs, s, MAX_LINKS) == Some(s);
    if steps != [] && Stepped(fs, steps[0]).Some? {
      PerformedFew(fs, steps);
    }
  }

  // ---- Among the other steps of a plan --------------------------------------------------------

  /** A step that cannot touch either account path. */
  ghost predicate Elsewhere(step: Step, home: Home) {
    || step.Print?
    || step.WorktreeAutoLock?
    || (step.MkdirAll? && home.claudeJSON !in Above(step.path) && home.sharedClaudeJSON !in Above(step.path))
  }

  lemma {:induction false} ElsewhereKeeps(fs: Files, home: Home, steps: seq<Step>)
    requires Standard(fs, home)
    requires forall i :: 0 <= i < |steps| ==> Elsewhere(steps[i], home)
    ensures Kept(fs, Performed(fs, steps).0, home)
    ensures Probe(Performed(fs, steps).0, home) == Probe(fs, home)
    decreases steps
  {
    if steps != [] && Stepped(fs, steps[0]).Some? {
      var next := Stepped(fs, steps[0]).value;
      if steps[0].MkdirAll? {
        MakingOnlyAdds(fs, steps[0].path);
      }
      FollowedAgree(fs, next, home.sharedGitConfig, MAX_LINKS);
      StandardProbe(fs, home);
      StandardProbe(next, home);
      ElsewhereKeeps(next, home, steps[1..]);
    }
  }

  lemma {:induction false} KeptInTurn(fs: Files, home: Home, first: seq<Step>, rest: seq<Step>)
    requires Kept(fs, Performed(fs, first).0, home)
    requires Kept(Performed(fs, first).0, Performed(Performed(fs, first).0, rest).0, home)
    ensures Kept(fs, Performed(fs, first + rest).0, home)
  {
    PerformedAppend(fs, first, rest);
  }

  /** From the state the account steps meet, any beginning of them and of what
      follows them. */
  lemma {:induction false} CrashSafeOnwards(
    fs: Files, home: Home, gitConfigExists: bool, account: seq<Step>, rest: seq<Step>, k: nat)
    requires Standard(fs, home) && (gitConfigExists ==> ConfigElsewhere(fs, home))
    requires account == AccountSteps(home, gitConfigExists, Probe(fs, home))
    requires forall i :: 0 <= i < |rest| ==> Elsewhere(rest[i], home)
    requires k <= |account + rest|
    ensures Kept(fs, Performed(fs, (account + rest)[..k]).0, home)
  {
    if k <= |account| {
      assert (account + rest)[..k] == account[..k];
      CrashSafe(fs, home, gitConfigExists, k);
    } else {
      var tail := rest[..k - |account|];
      assert (account + rest)[..k] == account + tail;
      CrashSafe(fs, home, gitConfigExists, |account|);
      assert account[..|account|] == account;
      ElsewhereKeeps(Performed(fs, account).0, home, tail);
      KeptInTurn(fs, home, account, tail);
    }
  }

  /** The relocation is crash-safe inside a whole plan, although it was planned
      from what was probed before any step ran. */
  lemma {:induction false} CrashSafeInPlan(
    fs: Files, home: Home, gitConfigExists: bool, before: seq<Step>, account: seq<Step>, rest: seq<Step>, k: nat)
    requires Standard(fs, home) && (gitConfigExists ==> ConfigElsewhere(fs, home))
    requires account == AccountSteps(home, gitConfigExists, Probe(fs, home))
    requires forall i :: 0 <= i < |before| ==> Elsewhere(before[i], home)
    requires forall i :: 0 <= i < |rest| ==> Elsewhere(rest[i], home)
    requires k <= |before + (account + rest)|
    ensures Kept(fs, Performed(fs, (before + (account + rest))[..k]).0, home)
  {
    var onwards := account + rest;
    if k <= |before| {
      assert (before + onwards)[..k] == before[..k];
      ElsewhereKeeps(fs, home, before[..k]);
    } else {
      var tail := onwards[..k - |before|];
      assert (before + onwards)[..k] == before + tail;
      ElsewhereKeeps(fs, home, before);
      CrashSafeOnwards(Performed(fs, before).0, home, gitConfigExists, account, rest, k - |before|);
      KeptInTurn(fs, home, before, tail);
    }
  }

  lemma {:induction false} StaysSettled(fs: Files, home: Home, steps: seq<Step>, account: Option<string>)
    requires Standard(fs, home) && account == Account(fs, home) && Settled(fs, home, account)
    requires forall i :: 0 <= i < |steps| ==> Elsewhere(steps[i], home)
    ensures Settled(Performed(fs, steps).0, home, account)
  {
    ElsewhereKeeps(fs, home, steps);
    StandardProbe(fs, home);
    StandardProbe(Performed(fs, steps).0, home);
  }

  lemma {:induction false} SettlesOnwards(
    fs: Files, home: Home, gitConfigExists: bool, account: seq<Step>, rest: seq<Step>)
    requires Standard(fs, home) && (gitConfigExists ==> ConfigElsewhere(fs, home))
    requires account == AccountSteps(home, gitConfigExists, Probe(fs, home))
    requires forall i :: 0 <= i < |rest| ==> Elsewhere(rest[i], home)
    requires Performed(fs, account + rest).1 == |account + rest|
    ensures Settled(Performed(fs, account + rest).0, home, Account(fs, home))
  {
    var mid := Performed(fs, account).0;
    PerformedAppend(fs, account, rest);
    DoneIsSettled(fs, home, gitConfigExists);
    CrashSafe(fs, home, gitConfigExists, |account|);
    assert account[..|account|] == account;
    StaysSettled(mid, home, rest, Account(fs, home));
  }

  /** Inside a whole plan that runs to its end, the relocation settles the
      account. */
  lemma {:induction false} SettlesInPlan(
    fs: Files, home: Home, gitConfigExists: bool, before: seq<Step>, account: seq<Step>, rest: seq<Step>)
    requires Standard(fs, home) && (gitConfigExists ==> ConfigElsewhere(fs, home))
    requires account == AccountSteps(home, gitConfigExists, Probe(fs, home))
    requires forall i :: 0 <= i < |before| ==> Elsewhere(before[i], home)
    requires forall i :: 0 <= i < |rest| ==> Elsewhere(rest[i], home)
    requires Performed(fs, before + (account + rest)).1 == |before + (account + rest)|
    ensures Settled(Performed(fs, before + (account + rest)).0, home, Account(fs, home))
  {
    PerformedAppend(fs, before, account + rest);
    ElsewhereKeeps(fs, home, before);
    SettlesOnwards(Performed(fs, before).0, home, gitConfigExists, account, rest);
  }
}
