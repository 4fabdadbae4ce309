/** The --share-skills mount planner (internal/plan/sharedskills.go). */
module SharedSkills {
  import opened Text
  import opened Paths
  import opened Mounts
  import opened HostFiles

  /** One symlink that the probe found below a skills directory. */
  datatype Link = Link(path: string, resolved: string, missing: bool, isDir: bool, parentDir: string)

  datatype Skills = Skills(dir: string, codexSystemDir: bool, dirHasSystem: bool, links: seq<Link>)

  /** Where one tool looks for skills, and the host directory made for it. */
  datatype Tool = Tool(dst: string, dstParent: string)

  datatype Error = NoMountpoint | Conflicting(conflict: Conflict, dst: string) | MissingTarget(link: Link)

  function Sharing(what: string, mount: Mount): Step {
    Print(SharingSkills(what, mount), true)
  }

  /** Everything one planning run has produced so far. */
  datatype Plan = Plan(reg: Registry, steps: seq<Step>, args: seq<Mount>, error: Option<Error>)

  // ---- The target root ----------------------------------------------------------------

  function CommonPrefix(a: Names, b: Names): Names {
    if a == [] || b == [] || a[0] != b[0] then [] else [a[0]] + CommonPrefix(a[1..], b[1..])
  }

  /** The deepest directory at or above both absolute paths. */
  function CommonAncestor(left: string, right: string): (r: string)
    ensures IsAbs(r)
  {
    Render(CommonPrefix(Normalize(Components(left)), Normalize(Components(right))))
  }

  method CommonPathAncestor(left: string, right: string) returns (r: string)
    requires IsAbs(left) && IsAbs(right)
    ensures r == CommonAncestor(left, right)
  {
    ghost var a, b := Normalize(Components(left)), Normalize(Components(right));
    NormalizeIsPlain(Components(left));
    NormalizeIsPlain(Components(right));
    r := Clean(left);
    var other := Clean(right);
    ghost var n := |a|;
    assert a[..n] == a;
    CommonPrefixIsPrefix(a, b);
    while !PathIsAtOrUnder(other, r)
      invariant |CommonPrefix(a, b)| <= n <= |a| && r == Render(a[..n])
      decreases n
    {
      RenderedAtOrUnder(b, a[..n]);
      DirOfRender(a[..n]);
      assert n > |CommonPrefix(a, b)|;
      assert Parent(a[..n]) == a[..n - 1];
      r := Dir(r);
      n := n - 1;
    }
    RenderedAtOrUnder(b, a[..n]);
    CommonPrefixIsDeepest(a, b, a[..n]);
    assert a[..n] == CommonPrefix(a, b);
  }

  lemma {:induction false} CommonPrefixIsPrefix(a: Names, b: Names)
    ensures CommonPrefix(a, b) <= a && CommonPrefix(a, b) <= b
  {
    if a != [] && b != [] && a[0] == b[0] {
      CommonPrefixIsPrefix(a[1..], b[1..]);
      assert a == [a[0]] + a[1..] && b == [b[0]] + b[1..];
    }
  }

  lemma {:induction false} CommonPrefixIsDeepest(a: Names, b: Names, c: Names)
    requires c <= a && c <= b
    ensures c <= CommonPrefix(a, b)
  {
    if c != [] {
      CommonPrefixIsDeepest(a[1..], b[1..], c[1..]);
      assert c == [c[0]] + c[1..];
    }
  }

  /** The candidate once the links have been folded in. */
  function Candidate(dir: string, links: seq<Link>): string {
    if links == [] then dir
    else
      var link := links[|links| - 1];
      var before := Candidate(dir, links[..|links| - 1]);
      if PathIsAtOrUnder(link.resolved, dir) then before else CommonAncestor(before, link.resolved)
  }

  predicate AnyMissing(links: seq<Link>) {
    exists i :: 0 <= i < |links| && links[i].missing
  }

  predicate AnyExternal(dir: string, links: seq<Link>) {
    exists i :: 0 <= i < |links| && !PathIsAtOrUnder(links[i].resolved, dir)
  }

  predicate IsFilesystemRoot(path: string) {
    Dir(Clean(path)) == Clean(path)
  }

  /** The directory to mount above the skills and all their external targets,
      or "" where there is none. */
  function TargetRoot(ss: Skills): string {
    if AnyMissing(ss.links) || !AnyExternal(ss.dir, ss.links) || IsFilesystemRoot(Candidate(ss.dir, ss.links)) then ""
    else Candidate(ss.dir, ss.links)
  }

  method SharedSkillsTargetRoot(ss: Skills) returns (root: string)
    requires IsAbs(ss.dir) && forall i :: 0 <= i < |ss.links| ==> IsAbs(ss.links[i].resolved)
    ensures root == TargetRoot(ss)
  {
    var candidate, hasExternalTarget := ss.dir, false;
    for i := 0 to |ss.links|
      invariant IsAbs(candidate) && candidate == Candidate(ss.dir, ss.links[..i])
      invariant !AnyMissing(ss.links[..i])
      invariant hasExternalTarget <==> AnyExternal(ss.dir, ss.links[..i])
    {
      var link := ss.links[i];
      LinkStep(ss.dir, ss.links, i);
      if link.missing {
        return "";
      }
      if PathIsAtOrUnder(link.resolved, ss.dir) {
        continue;
      }
      hasExternalTarget := true;
      candidate := CommonPathAncestor(candidate, link.resolved);
    }
    assert ss.links[..|ss.links|] == ss.links;
    if !hasExternalTarget || IsFilesystemRoot(candidate) {
      return "";
    }
    return candidate;
  }

  lemma {:induction false} LinkStep(dir: string, links: seq<Link>, i: nat)
    requires i < |links|
    ensures links[..i + 1][..i] == links[..i] && links[..i + 1][i] == links[i]
    ensures links[i].missing ==> AnyMissing(links)
    ensures AnyMissing(links[..i + 1]) <==> AnyMissing(links[..i]) || links[i].missing
    ensures AnyExternal(dir, links[..i + 1]) <==>
              AnyExternal(dir, links[..i]) || !PathIsAtOrUnder(links[i].resolved, dir)
  {
    var before, after := links[..i], links[..i + 1];
    assert forall k :: 0 <= k < i ==> before[k] == after[k];
    assert after[i] == links[i];
    if AnyExternal(dir, before) {
      var k :| 0 <= k < i && !PathIsAtOrUnder(before[k].resolved, dir);
      assert !PathIsAtOrUnder(after[k].resolved, dir);
    }
    if AnyExternal(dir, after) {
      var k :| 0 <= k <= i && !PathIsAtOrUnder(after[k].resolved, dir);
      assert k < i ==> !PathIsAtOrUnder(before[k].resolved, dir);
    }
  }

  ghost predicate AboveAll(root: string, dir: string, links: seq<Link>) {
    PathIsAtOrUnder(dir, root) && forall i :: 0 <= i < |links| ==> PathIsAtOrUnder(links[i].resolved, root)
  }

  /** What the probe delivers: resolved paths; for a link to a file, the
      directory of its target; and no file where the skills directory or one
      above it should be. */
  ghost predicate WellProbed(ss: Skills) {
    && IsResolved(ss.dir)
    && forall i :: 0 <= i < |ss.links| ==>
         var link := ss.links[i];
         && IsResolved(link.resolved)
         && (!link.missing && !link.isDir ==>
               link.parentDir == Dir(link.resolved) && !PathIsAtOrUnder(ss.dir, link.resolved))
  }

  lemma {:induction false} CommonAncestorOfRender(x: Names, y: Names)
    requires IsPlain(x) && IsPlain(y)
    ensures CommonAncestor(Render(x), Render(y)) == Render(CommonPrefix(x, y)) && IsPlain(CommonPrefix(x, y))
  {
    SplitRender(x);
    SplitRender(y);
    NormalizePlain(x);
    NormalizePlain(y);
    CommonPrefixIsPrefix(x, y);
  }

  lemma {:induction false} CommonAncestorIsAbove(a: string, b: string)
    requires IsResolved(a) && IsResolved(b)
    ensures IsResolved(CommonAncestor(a, b))
    ensures PathIsAtOrUnder(a, CommonAncestor(a, b)) && PathIsAtOrUnder(b, CommonAncestor(a, b))
  {
    var x :| IsPlain(x) && a == Render(x);
    var y :| IsPlain(y) && b == Render(y);
    CommonAncestorOfRender(x, y);
    CommonPrefixIsPrefix(x, y);
    RenderedAtOrUnder(x, CommonPrefix(x, y));
    RenderedAtOrUnder(y, CommonPrefix(x, y));
  }

  lemma {:induction false} CommonAncestorIsDeepest(a: string, b: string, c: string)
    requires IsResolved(a) && IsResolved(b) && IsResolved(c)
    requires PathIsAtOrUnder(a, c) && PathIsAtOrUnder(b, c)
    ensures PathIsAtOrUnder(CommonAncestor(a, b), c)
  {
    var x :| IsPlain(x) && a == Render(x);
    var y :| IsPlain(y) && b == Render(y);
    var z :| IsPlain(z) && c == Render(z);
    CommonAncestorOfRender(x, y);
    RenderedAtOrUnder(x, z);
    RenderedAtOrUnder(y, z);
    CommonPrefixIsDeepest(x, y, z);
    RenderedAtOrUnder(CommonPrefix(x, y), z);
  }

  /** The candidate is above the skills directory and every link target. */
  lemma {:induction false} CandidateIsAbove(dir: string, links: seq<Link>)
    requires IsResolved(dir) && forall i :: 0 <= i < |links| ==> IsResolved(links[i].resolved)
    ensures IsResolved(Candidate(dir, links)) && AboveAll(Candidate(dir, links), dir, links)
  {
    AtOrUnderIsPrefix(dir, dir);
    if links != [] {
      var n := |links| - 1;
      var before, link := Candidate(dir, links[..n]), links[n];
      CandidateIsAbove(dir, links[..n]);
      assert forall i :: 0 <= i < n ==> links[..n][i] == links[i];
      if PathIsAtOrUnder(link.resolved, dir) {
        AtOrUnderTransitive(link.resolved, dir, before);
      } else {
        CommonAncestorIsAbove(before, link.resolved);
        var after := CommonAncestor(before, link.resolved);
        AtOrUnderTransitive(dir, before, after);
        forall i | 0 <= i < n
          ensures PathIsAtOrUnder(links[i].resolved, after)
        {
          AtOrUnderTransitive(links[i].resolved, before, after);
        }
      }
    }
  }

  /** Whatever else is above them all is above the candidate. */
  lemma {:induction false} CandidateIsDeepest(dir: string, links: seq<Link>, c: string)
    requires IsResolved(dir) && forall i :: 0 <= i < |links| ==> IsResolved(links[i].resolved)
    requires IsResolved(c) && AboveAll(c, dir, links)
    ensures PathIsAtOrUnder(Candidate(dir, links), c)
  {
    if links != [] {
      var n := |links| - 1;
      assert forall i :: 0 <= i < n ==> links[..n][i] == links[i];
      CandidateIsDeepest(dir, links[..n], c);
      CandidateIsAbove(dir, links[..n]);
      if !PathIsAtOrUnder(links[n].resolved, dir) {
        CommonAncestorIsDeepest(Candidate(dir, links[..n]), links[n].resolved, c);
      }
    }
  }

  lemma {:induction false} RootIsSlash(path: string)
    requires IsResolved(path)
    ensures IsFilesystemRoot(path) <==> path == "/"
  {
    var cs :| IsPlain(cs) && path == Render(cs);
    CleanOfRender(cs);
    DirOfRender(cs);
    if cs != [] {
      if Render(Parent(cs)) == Render(cs) {
        RenderInjective(Parent(cs), cs);
      }
      if Render(cs) == Render([]) {
        RenderInjective(cs, []);
      }
    }
  }

  lemma {:induction false} OnlySlashAboveSlash(c: string)
    requires IsResolved(c) && PathIsAtOrUnder("/", c)
    ensures c == "/"
  {
    var cs :| IsPlain(cs) && c == Render(cs);
    RenderedAtOrUnder([], cs);
  }

  /** There is no target root exactly where a link is missing, where every target
      is inside the skills directory, or where nothing but the file-system root
      is above them all. */
  lemma {:induction false} NoRootIff(ss: Skills)
    requires IsResolved(ss.dir) && forall i :: 0 <= i < |ss.links| ==> IsResolved(ss.links[i].resolved)
    ensures TargetRoot(ss) == "" <==>
              || (exists i :: 0 <= i < |ss.links| && ss.links[i].missing)
              || (forall i :: 0 <= i < |ss.links| ==> PathIsAtOrUnder(ss.links[i].resolved, ss.dir))
              || (forall c :: IsResolved(c) && AboveAll(c, ss.dir, ss.links) ==> c == "/")
  {
    var candidate := Candidate(ss.dir, ss.links);
    CandidateIsAbove(ss.dir, ss.links);
    RootIsSlash(candidate);
    assert candidate != "";
    if candidate == "/" {
      forall c | IsResolved(c) && AboveAll(c, ss.dir, ss.links)
        ensures c == "/"
      {
        CandidateIsDeepest(ss.dir, ss.links, c);
        OnlySlashAboveSlash(c);
      }
    }
  }

  // ---- The plan --------------------------------------------------------------------------

  function Add(p: Plan, src: string, dst: string, allowCover: bool, what: string): Plan {
    if p.error.Some? then p
    else match Adding(p.reg, src, dst, allowCover)
      case Skipped => p
      case Appended(m) =>
        p.(reg := With(p.reg, Appended(m)), args := p.args + [m], steps := p.steps + [Sharing(what, m)])
      case Refused(conflict) => p.(error := Some(Conflicting(conflict, dst)))
  }

  function AddTools(p: Plan, dir: string, tools: seq<Tool>): Plan {
    if tools == [] then p
    else
      var before, tool := AddTools(p, dir, tools[..|tools| - 1]), tools[|tools| - 1];
      if before.error.Some? then before
      else Add(before.(steps := before.steps + [MkdirAll(tool.dstParent)]), dir, tool.dst, false, "skills")
  }

  function AddRoot(p: Plan, ss: Skills): Plan {
    var root := TargetRoot(ss);
    if p.error.None? && root != "" && Safe(p.reg, root)
    then Add(p, root, root, true, "shared skills target root") else p
  }

  function SystemDir(codexDir: string): string {
    codexDir + "/skills/.system"
  }

  function AddSystem(p: Plan, ss: Skills, codexDir: string): Plan {
    if ss.codexSystemDir then Add(p, SystemDir(codexDir), SystemDir(codexDir), false, "Codex system skills") else p
  }

  function MountPath(link: Link): string {
    if link.isDir then link.resolved else link.parentDir
  }

  function Label(link: Link): string {
    if link.isDir then "symlinked skills target" else "symlinked skills file parent"
  }

  function Replay(p: Plan, links: seq<Link>): Plan {
    if links == [] then p
    else
      var before, link := Replay(p, links[..|links| - 1]), links[|links| - 1];
      if before.error.Some? then before
      else if link.missing then before.(error := Some(MissingTarget(link)))
      else Add(before, MountPath(link), MountPath(link), true, Label(link))
  }

  /** The mounts that precede the replay of the links. */
  function BeforeReplay(reg: Registry, tools: seq<Tool>, codexDir: string, ss: Skills): Plan {
    var rooted := AddRoot(AddTools(Plan(reg, [], [], None), ss.dir, tools), ss);
    AddSystem(Add(rooted, ss.dir, ss.dir, true, "shared skills source"), ss, codexDir)
  }

  function Planned(reg: Registry, tools: seq<Tool>, codexDir: string, ss: Skills, remountNeedsMountpoint: bool): Plan {
    if ss.codexSystemDir && remountNeedsMountpoint && !ss.dirHasSystem then Plan(reg, [], [], Some(NoMountpoint))
    else
      var p := BeforeReplay(reg, tools, codexDir, ss);
      if p.error.Some? then p else Replay(p, ss.links)
  }

  method SharedSkillsMounts(
    reg: MountRegistry, tools: seq<Tool>, codexDir: string, ss: Skills, remountNeedsMountpoint: bool)
    returns (steps: seq<Step>, args: seq<Mount>, error: Option<Error>)
    requires IsAbs(ss.dir) && forall i :: 0 <= i < |ss.links| ==> IsAbs(ss.links[i].resolved)
    modifies reg
    ensures Plan(reg.View(), steps, args, error)
         == Planned(old(reg.View()), tools, codexDir, ss, remountNeedsMountpoint)
  {
    if ss.codexSystemDir && remountNeedsMountpoint && !ss.dirHasSystem {
      return [], [], Some(NoMountpoint);
    }
    steps, args, error := MountTools(reg, tools, ss.dir);
    if error.Some? {
      return;
    }
    var root := SharedSkillsTargetRoot(ss);
    if root != "" && !PathParityCovers(reg.View(), root) && !WouldShadowExisting(reg.View(), root)
       && !IsNestedUnderReadonlyNonParity(reg.View(), root) {
      steps, args, error := AddMount(reg, steps, args, root, root, true, "shared skills target root");
      if error.Some? {
        return;
      }
    }
    steps, args, error := AddMount(reg, steps, args, ss.dir, ss.dir, true, "shared skills source");
    if error.Some? {
      return;
    }
    if ss.codexSystemDir {
      steps, args, error :=
        AddMount(reg, steps, args, SystemDir(codexDir), SystemDir(codexDir), false, "Codex system skills");
      if error.Some? {
        return;
      }
    }
    steps, args, error := ReplayLinks(reg, steps, args, ss.links);
  }

  /** The loop over the tools' skills directories. */
  method MountTools(reg: MountRegistry, tools: seq<Tool>, dir: string)
    returns (steps: seq<Step>, args: seq<Mount>, error: Option<Error>)
    modifies reg
    ensures Plan(reg.View(), steps, args, error) == AddTools(Plan(old(reg.View()), [], [], None), dir, tools)
  {
    steps, args, error := [], [], None;
    ghost var start := Plan(reg.View(), [], [], None);
    for i := 0 to |tools|
      invariant Plan(reg.View(), steps, args, error) == AddTools(start, dir, tools[..i])
      invariant error.None?
    {
      assert tools[..i + 1][..i] == tools[..i];
      steps := steps + [MkdirAll(tools[i].dstParent)];
      steps, args, error := AddMount(reg, steps, args, dir, tools[i].dst, false, "skills");
      if error.Some? {
        ErrorEndsTools(start, dir, tools, i + 1);
        return;
      }
    }
    assert tools[..|tools|] == tools;
  }

  /** The loop over the probed links. */
  method ReplayLinks(reg: MountRegistry, steps: seq<Step>, args: seq<Mount>, links: seq<Link>)
    returns (steps': seq<Step>, args': seq<Mount>, error: Option<Error>)
    modifies reg
    ensures Plan(reg.View(), steps', args', error) == Replay(Plan(old(reg.View()), steps, args, None), links)
  {
    steps', args', error := steps, args, None;
    ghost var start := Plan(reg.View(), steps, args, None);
    for i := 0 to |links|
      invariant Plan(reg.View(), steps', args', error) == Replay(start, links[..i])
      invariant error.None?
    {
      var link := links[i];
      assert links[..i + 1][..i] == links[..i];
      if link.missing {
        error := Some(MissingTarget(link));
        ErrorEndsReplay(start, links, i + 1);
        return;
      }
      steps', args', error := AddMount(reg, steps', args', MountPath(link), MountPath(link), true, Label(link));
      if error.Some? {
        ErrorEndsReplay(start, links, i + 1);
        return;
      }
    }
    assert links[..|links|] == links;
  }

  /** addShared together with the bookkeeping of what it emits. */
  method AddMount(
    reg: MountRegistry, steps: seq<Step>, args: seq<Mount>, src: string, dst: string, allowCover: bool, what: string)
    returns (steps': seq<Step>, args': seq<Mount>, error: Option<Error>)
    modifies reg
    ensures Plan(reg.View(), steps', args', error)
         == Add(Plan(old(reg.View()), steps, args, None), src, dst, allowCover, what)
  {
    steps', args', error := steps, args, None;
    var a := reg.AddShared(src, dst, allowCover);
    match a
    case Skipped =>
    case Appended(m) => steps', args' := steps + [Sharing(what, m)], args + [m];
    case Refused(conflict) => error := Some(Conflicting(conflict, dst));
  }

  /** The first error is the last thing that happens. */
  lemma {:induction false} ErrorEndsTools(p: Plan, dir: string, tools: seq<Tool>, n: nat)
    requires n <= |tools| && AddTools(p, dir, tools[..n]).error.Some?
    ensures AddTools(p, dir, tools) == AddTools(p, dir, tools[..n])
    decreases |tools|
  {
    if n < |tools| {
      var shorter := tools[..|tools| - 1];
      assert shorter[..n] == tools[..n];
      ErrorEndsTools(p, dir, shorter, n);
    } else {
      assert tools[..n] == tools;
    }
  }

  lemma {:induction false} ErrorEndsReplay(p: Plan, links: seq<Link>, n: nat)
    requires n <= |links| && Replay(p, links[..n]).error.Some?
    ensures Replay(p, links) == Replay(p, links[..n])
    decreases |links|
  {
    if n < |links| {
      var shorter := links[..|links| - 1];
      assert shorter[..n] == links[..n];
      ErrorEndsReplay(p, shorter, n);
    } else {
      assert links[..n] == links;
    }
  }
}
