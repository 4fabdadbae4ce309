/** What every run of the shared-skills planner guarantees. */
module SharedSkillsLaws {
  import opened Text
  import opened Paths
  import opened Mounts
  import opened HostFiles
  import opened SharedSkills

  // ---- The registry and the emitted arguments agree -----------------------------------

  function Shared(steps: seq<Step>): seq<Mount> {
    if steps == [] then []
    else
      var last := steps[|steps| - 1];
      Shared(steps[..|steps| - 1]) + if last.Print? && last.notice.SharingSkills? then [last.notice.mount] else []
  }

  /** The run started from `start`: it has added `args`, in order, and said so. */
  ghost predicate InStep(start: Registry, p: Plan) {
    && Consistent(p.reg)
    && p.reg.user == start.user
    && p.reg.shared == start.shared + p.args
    && Shared(p.steps) == p.args
  }

  lemma {:induction false} AddKeepsInStep(
    start: Registry, p: Plan, src: string, dst: string, allowCover: bool, what: string)
    requires InStep(start, p)
    ensures InStep(start, Add(p, src, dst, allowCover, what))
  {
    AddingKeepsConsistent(p.reg, src, dst, allowCover);
    var after := Add(p, src, dst, allowCover, what);
    if after.steps != p.steps {
      assert after.steps[..|after.steps| - 1] == p.steps;
    }
  }

  lemma {:induction false} ToolsKeepInStep(start: Registry, p: Plan, dir: string, tools: seq<Tool>)
    requires InStep(start, p)
    ensures InStep(start, AddTools(p, dir, tools))
  {
    if tools != [] {
      ToolsKeepInStep(start, p, dir, tools[..|tools| - 1]);
      var before, tool := AddTools(p, dir, tools[..|tools| - 1]), tools[|tools| - 1];
      if before.error.None? {
        var made := before.(steps := before.steps + [MkdirAll(tool.dstParent)]);
        assert made.steps[..|made.steps| - 1] == before.steps;
        AddKeepsInStep(start, made, dir, tool.dst, false, "skills");
      }
    }
  }

  lemma {:induction false} ReplayKeepsInStep(start: Registry, p: Plan, links: seq<Link>)
    requires InStep(start, p)
    ensures InStep(start, Replay(p, links))
  {
    if links != [] {
      var link := links[|links| - 1];
      ReplayKeepsInStep(start, p, links[..|links| - 1]);
      AddKeepsInStep(start, Replay(p, links[..|links| - 1]), MountPath(link), MountPath(link), true, Label(link));
    }
  }

  lemma {:induction false} BeforeReplayInStep(reg: Registry, tools: seq<Tool>, codexDir: string, ss: Skills)
    requires Consistent(reg)
    ensures InStep(reg, BeforeReplay(reg, tools, codexDir, ss))
  {
    var p0 := Plan(reg, [], [], None);
    assert reg.shared + [] == reg.shared;
    ToolsKeepInStep(reg, p0, ss.dir, tools);
    var p1 := AddTools(p0, ss.dir, tools);
    AddKeepsInStep(reg, p1, TargetRoot(ss), TargetRoot(ss), true, "shared skills target root");
    var p2 := AddRoot(p1, ss);
    AddKeepsInStep(reg, p2, ss.dir, ss.dir, true, "shared skills source");
    AddKeepsInStep(reg, Add(p2, ss.dir, ss.dir, true, "shared skills source"),
                   SystemDir(codexDir), SystemDir(codexDir), false, "Codex system skills");
  }

  /** Whether it succeeds or fails, a run leaves shared destinations pairwise
      distinct and apart from the user's, and its arguments are exactly the
      shared mounts it registered, in order, each announced by its step. */
  lemma {:induction false} RunIsConsistent(
    reg: Registry, tools: seq<Tool>, codexDir: string, ss: Skills, remountNeedsMountpoint: bool)
    requires Consistent(reg)
    ensures var p := Planned(reg, tools, codexDir, ss, remountNeedsMountpoint);
            && Consistent(p.reg)
            && p.reg.user == reg.user
            && p.reg.shared == reg.shared + p.args
            && Shared(p.steps) == p.args
  {
    assert reg.shared + [] == reg.shared;
    BeforeReplayInStep(reg, tools, codexDir, ss);
    ReplayKeepsInStep(reg, BeforeReplay(reg, tools, codexDir, ss), ss.links);
  }

  // ---- What a successful run provides ----------------------------------------------------

  /** Registered mounts stay registered. */
  ghost predicate Grown(reg: Registry, after: Registry) {
    forall rec :: rec in reg.All() ==> rec in after.All()
  }

  lemma {:induction false} AddGrows(p: Plan, src: string, dst: string, allowCover: bool, what: string)
    requires Consistent(p.reg)
    ensures var after := Add(p, src, dst, allowCover, what);
            && Grown(p.reg, after.reg)
            && (after.error.None? ==> p.error.None?)
            && (after.error.None? && !allowCover ==> Provides(after.reg, src, dst))
            && (after.error.None? && allowCover && src == dst ==> Covers(after.reg, dst))
  {
    if p.error.None? && !Adding(p.reg, src, dst, allowCover).Refused? {
      AddingProvides(p.reg, src, dst, allowCover);
    }
  }

  lemma {:induction false} CoversGrows(reg: Registry, after: Registry, path: string)
    requires Covers(reg, path) && Grown(reg, after)
    ensures Covers(after, path)
  {
    var rec :| rec in reg.All() && rec.mode.ReadOnly? && Parity(rec) && PathIsAtOrUnder(path, rec.dst);
    assert rec in after.All();
  }

  ghost predicate AllProvided(reg: Registry, dir: string, tools: seq<Tool>) {
    forall i :: 0 <= i < |tools| ==> Provides(reg, dir, tools[i].dst)
  }

  lemma {:induction false} ToolsProvide(start: Registry, p: Plan, dir: string, tools: seq<Tool>)
    requires InStep(start, p)
    ensures Grown(p.reg, AddTools(p, dir, tools).reg)
    ensures AddTools(p, dir, tools).error.None? ==>
              p.error.None? && AllProvided(AddTools(p, dir, tools).reg, dir, tools)
  {
    if tools != [] {
      var n := |tools| - 1;
      ToolsProvide(start, p, dir, tools[..n]);
      ToolsKeepInStep(start, p, dir, tools[..n]);
      var before := AddTools(p, dir, tools[..n]);
      var made := before.(steps := before.steps + [MkdirAll(tools[n].dstParent)]);
      AddGrows(made, dir, tools[n].dst, false, "skills");
      EarlierStayProvided(before.reg, AddTools(p, dir, tools).reg, dir, tools, n);
    }
  }

  lemma {:induction false} EarlierStayProvided(before: Registry, after: Registry, dir: string, tools: seq<Tool>, n: nat)
    requires n <= |tools| && Grown(before, after)
    ensures AllProvided(before, dir, tools[..n]) ==> AllProvided(after, dir, tools[..n])
    ensures n + 1 == |tools| && AllProvided(after, dir, tools[..n]) && Provides(after, dir, tools[n].dst) ==>
              AllProvided(after, dir, tools)
  {
    assert forall i :: 0 <= i < n ==> tools[..n][i] == tools[i];
  }

  ghost predicate AllCovered(reg: Registry, links: seq<Link>) {
    forall i :: 0 <= i < |links| ==> !links[i].missing && Covers(reg, MountPath(links[i]))
  }

  lemma {:induction false} ReplayCovers(start: Registry, p: Plan, links: seq<Link>)
    requires InStep(start, p)
    ensures Grown(p.reg, Replay(p, links).reg)
    ensures Replay(p, links).error.None? ==> AllCovered(Replay(p, links).reg, links)
  {
    if links != [] {
      var n := |links| - 1;
      ReplayCovers(start, p, links[..n]);
      ReplayKeepsInStep(start, p, links[..n]);
      var before, after := Replay(p, links[..n]), Replay(p, links);
      AddGrows(before, MountPath(links[n]), MountPath(links[n]), true, Label(links[n]));
      assert Grown(before.reg, after.reg);
      if after.error.None? {
        EarlierStayCovered(before.reg, after.reg, links, n);
      }
    }
  }

  lemma {:induction false} EarlierStayCovered(before: Registry, after: Registry, links: seq<Link>, n: nat)
    requires n + 1 == |links| && Grown(before, after) && AllCovered(before, links[..n])
    requires !links[n].missing && Covers(after, MountPath(links[n]))
    ensures AllCovered(after, links)
  {
    forall i | 0 <= i < n
      ensures !links[i].missing && Covers(after, MountPath(links[i]))
    {
      assert links[..n][i] == links[i];
      CoversGrows(before, after, MountPath(links[i]));
    }
  }

  /** On success every tool directory shows the skills directory, and the skills
      directory and every link's mount path keep their own content at their own
      place, all read-only. */
  lemma {:induction false} SuccessProvidesEverything(
    reg: Registry, tools: seq<Tool>, codexDir: string, ss: Skills, remountNeedsMountpoint: bool)
    requires Consistent(reg)
    requires Planned(reg, tools, codexDir, ss, remountNeedsMountpoint).error.None?
    ensures var after := Planned(reg, tools, codexDir, ss, remountNeedsMountpoint).reg;
            && (forall i :: 0 <= i < |tools| ==> Provides(after, ss.dir, tools[i].dst))
            && Covers(after, ss.dir)
            && (forall i :: 0 <= i < |ss.links| ==>
                  var link := ss.links[i];
                  !link.missing && Covers(after, if link.isDir then link.resolved else link.parentDir))
            && (ss.codexSystemDir ==>
                  Provides(after, codexDir + "/skills/.system", codexDir + "/skills/.system"))
  {
    var p0 := Plan(reg, [], [], None);
    assert reg.shared + [] == reg.shared;
    ToolsProvide(reg, p0, ss.dir, tools);
    ToolsKeepInStep(reg, p0, ss.dir, tools);
    var p1 := AddTools(p0, ss.dir, tools);
    AddGrows(p1, TargetRoot(ss), TargetRoot(ss), true, "shared skills target root");
    AddKeepsInStep(reg, p1, TargetRoot(ss), TargetRoot(ss), true, "shared skills target root");
    var p2 := AddRoot(p1, ss);
    AddGrows(p2, ss.dir, ss.dir, true, "shared skills source");
    AddKeepsInStep(reg, p2, ss.dir, ss.dir, true, "shared skills source");
    var p3 := Add(p2, ss.dir, ss.dir, true, "shared skills source");
    AddGrows(p3, SystemDir(codexDir), SystemDir(codexDir), false, "Codex system skills");
    BeforeReplayInStep(reg, tools, codexDir, ss);
    var p4 := BeforeReplay(reg, tools, codexDir, ss);
    ReplayCovers(reg, p4, ss.links);
    CoversGrows(p3.reg, Replay(p4, ss.links).reg, ss.dir);
  }

  // ---- Nothing else is mounted, and every parent is made ----------------------------------------

  /** The directory through which the link's content shows. */
  predicate ShownBy(link: Link, dir: string) {
    !link.missing && dir == if link.isDir then link.resolved else link.parentDir
  }

  /** A read-only mount that some part of the request asks for: a tool's skills,
      the target root, the skills directory, the system skills, or a link's
      directory. */
  ghost predicate AskedFor(tools: seq<Tool>, codexDir: string, ss: Skills, m: Mount) {
    && m.mode.ReadOnly?
    && (|| (m.src == ss.dir && exists i :: 0 <= i < |tools| && tools[i].dst == m.dst)
        || (m.src == m.dst == TargetRoot(ss) && m.dst != "")
        || m.src == m.dst == ss.dir
        || (ss.codexSystemDir && m.src == m.dst == codexDir + "/skills/.system")
        || (m.src == m.dst && exists i :: 0 <= i < |ss.links| && ShownBy(ss.links[i], m.dst)))
  }

  ghost predicate AllAskedFor(tools: seq<Tool>, codexDir: string, ss: Skills, args: seq<Mount>) {
    forall m :: m in args ==> AskedFor(tools, codexDir, ss, m)
  }

  lemma {:induction false} AddAskedFor(
    all: seq<Tool>, codexDir: string, ss: Skills, p: Plan, src: string, dst: string, allowCover: bool, what: string)
    requires AllAskedFor(all, codexDir, ss, p.args)
    requires AskedFor(all, codexDir, ss, Mount(src, dst, ReadOnly))
    ensures AllAskedFor(all, codexDir, ss, Add(p, src, dst, allowCover, what).args)
  {
  }

  lemma {:induction false} ToolsAskedFor(all: seq<Tool>, codexDir: string, ss: Skills, p: Plan, n: nat)
    requires AllAskedFor(all, codexDir, ss, p.args) && n <= |all|
    ensures AllAskedFor(all, codexDir, ss, AddTools(p, ss.dir, all[..n]).args)
  {
    if n > 0 {
      ToolsAskedFor(all, codexDir, ss, p, n - 1);
      assert all[..n][..n - 1] == all[..n - 1] && all[..n][n - 1] == all[n - 1];
      var before := AddTools(p, ss.dir, all[..n - 1]);
      AddAskedFor(
        all, codexDir, ss, before.(steps := before.steps + [MkdirAll(all[n - 1].dstParent)]),
        ss.dir, all[n - 1].dst, false, "skills");
    }
  }

  lemma {:induction false} ReplayAskedFor(all: seq<Tool>, codexDir: string, ss: Skills, p: Plan, n: nat)
    requires AllAskedFor(all, codexDir, ss, p.args) && n <= |ss.links|
    ensures AllAskedFor(all, codexDir, ss, Replay(p, ss.links[..n]).args)
  {
    if n > 0 {
      ReplayAskedFor(all, codexDir, ss, p, n - 1);
      assert ss.links[..n][..n - 1] == ss.links[..n - 1] && ss.links[..n][n - 1] == ss.links[n - 1];
      var before, link := Replay(p, ss.links[..n - 1]), ss.links[n - 1];
      if before.error.None? && !link.missing {
        AddAskedFor(all, codexDir, ss, before, MountPath(link), MountPath(link), true, Label(link));
      }
    }
  }

  /** A run mounts nothing that was not asked for. */
  lemma {:induction false} OnlyAskedForIsMounted(
    reg: Registry, tools: seq<Tool>, codexDir: string, ss: Skills, remountNeedsMountpoint: bool)
    ensures AllAskedFor(tools, codexDir, ss, Planned(reg, tools, codexDir, ss, remountNeedsMountpoint).args)
  {
    var p0 := Plan(reg, [], [], None);
    ToolsAskedFor(tools, codexDir, ss, p0, |tools|);
    assert tools[..|tools|] == tools && ss.links[..|ss.links|] == ss.links;
    var tooled, rooted := AddTools(p0, ss.dir, tools), AddRoot(AddTools(p0, ss.dir, tools), ss);
    if rooted != tooled {
      AddAskedFor(tools, codexDir, ss, tooled, TargetRoot(ss), TargetRoot(ss), true, "shared skills target root");
    }
    AddAskedFor(tools, codexDir, ss, rooted, ss.dir, ss.dir, true, "shared skills source");
    var source := Add(rooted, ss.dir, ss.dir, true, "shared skills source");
    if ss.codexSystemDir {
      AddAskedFor(tools, codexDir, ss, source, SystemDir(codexDir), SystemDir(codexDir), false, "Codex system skills");
    }
    ReplayAskedFor(tools, codexDir, ss, BeforeReplay(reg, tools, codexDir, ss), |ss.links|);
  }

  /** The steps of a part of a run only grow. */
  lemma {:induction false} AddKeepsSteps(p: Plan, src: string, dst: string, allowCover: bool, what: string)
    ensures p.steps <= Add(p, src, dst, allowCover, what).steps
  {
  }

  lemma {:induction false} ReplayKeepsSteps(p: Plan, links: seq<Link>)
    ensures p.steps <= Replay(p, links).steps
  {
    if links != [] {
      ReplayKeepsSteps(p, links[..|links| - 1]);
    }
  }

  lemma {:induction false} ToolsMakeParents(p: Plan, dir: string, tools: seq<Tool>)
    ensures AddTools(p, dir, tools).error.None? ==>
              forall i :: 0 <= i < |tools| ==> MkdirAll(tools[i].dstParent) in AddTools(p, dir, tools).steps
  {
    if tools != [] {
      var n := |tools| - 1;
      ToolsMakeParents(p, dir, tools[..n]);
      var before := AddTools(p, dir, tools[..n]);
      var made := before.(steps := before.steps + [MkdirAll(tools[n].dstParent)]);
      AddKeepsSteps(made, dir, tools[n].dst, false, "skills");
      assert MkdirAll(tools[n].dstParent) in made.steps;
      assert forall i :: 0 <= i < n ==> tools[..n][i] == tools[i];
    }
  }

  /** On success the directory that each tool keeps its skills in has been made. */
  lemma {:induction false} SuccessMakesParents(
    reg: Registry, tools: seq<Tool>, codexDir: string, ss: Skills, remountNeedsMountpoint: bool)
    requires Planned(reg, tools, codexDir, ss, remountNeedsMountpoint).error.None?
    ensures var p := Planned(reg, tools, codexDir, ss, remountNeedsMountpoint);
            forall i :: 0 <= i < |tools| ==> MkdirAll(tools[i].dstParent) in p.steps
  {
    var tooled := AddTools(Plan(reg, [], [], None), ss.dir, tools);
    ToolsMakeParents(Plan(reg, [], [], None), ss.dir, tools);
    AddKeepsSteps(tooled, TargetRoot(ss), TargetRoot(ss), true, "shared skills target root");
    var rooted := AddRoot(tooled, ss);
    AddKeepsSteps(rooted, ss.dir, ss.dir, true, "shared skills source");
    var source := Add(rooted, ss.dir, ss.dir, true, "shared skills source");
    AddKeepsSteps(source, SystemDir(codexDir), SystemDir(codexDir), false, "Codex system skills");
    ReplayKeepsSteps(BeforeReplay(reg, tools, codexDir, ss), ss.links);
    assert tooled.steps <= Planned(reg, tools, codexDir, ss, remountNeedsMountpoint).steps;
  }

  // ---- The target root ---------------------------------------------------------------------

  /** The root's own read-only mount is registered and everything else is
      incomparable with it. */
  ghost predicate Rooted(reg: Registry, root: string) {
    && Mount(root, root, ReadOnly) in reg.shared
    && forall rec :: rec in reg.All() ==> rec == Mount(root, root, ReadOnly) || !Comparable(rec.dst, root)
  }

  /** Below the root nothing more is ever mounted and nothing conflicts. */
  lemma {:induction false} RootedSkips(reg: Registry, root: string, path: string)
    requires Rooted(reg, root) && PathIsAtOrUnder(path, root)
    ensures Adding(reg, path, path, true).Skipped?
  {
    var mine := Mount(root, root, ReadOnly);
    assert forall rec :: rec in reg.user || rec in reg.shared ==> rec in reg.All();
    var i :| 0 <= i < |reg.shared| && reg.shared[i] == mine;
    assert ReadonlyCovers(reg.shared, path);
    var rec := RecordFor(reg.user, path);
    var prior := RecordFor(reg.shared, path);
    assert Comparable(path, root);
  }

  lemma {:induction false} RootedReplay(p: Plan, root: string, links: seq<Link>)
    requires Rooted(p.reg, root) && p.error.None?
    requires forall i :: 0 <= i < |links| ==> !links[i].missing && PathIsAtOrUnder(MountPath(links[i]), root)
    ensures Replay(p, links) == p
  {
    if links != [] {
      var n := |links| - 1;
      assert forall i :: 0 <= i < n ==> links[..n][i] == links[i];
      RootedReplay(p, root, links[..n]);
      RootedSkips(p.reg, root, MountPath(links[n]));
    }
  }

  /** A file that is not above the skills directory lies strictly below the
      root, so its directory is still at or below the root. */
  lemma {:induction false} ParentStaysBelow(file: string, dir: string, root: string)
    requires IsResolved(file) && IsResolved(root)
    requires PathIsAtOrUnder(file, root) && PathIsAtOrUnder(dir, root) && !PathIsAtOrUnder(dir, file)
    ensures PathIsAtOrUnder(Dir(file), root)
  {
    var f :| IsPlain(f) && file == Render(f);
    var r :| IsPlain(r) && root == Render(r);
    RenderedAtOrUnder(f, r);
    assert f != r;
    DirOfRender(f);
    RenderedAtOrUnder(Parent(f), r);
  }

  /** A place below something apart from the root is apart from the root. */
  lemma {:induction false} BelowApart(path: string, parent: string, root: string)
    requires PathIsAtOrUnder(path, parent) && !Comparable(parent, root)
    ensures !Comparable(path, root)
  {
    if PathIsAtOrUnder(path, root) {
      AncestorsCompare(path, parent, root);
    } else if PathIsAtOrUnder(root, path) {
      AtOrUnderTransitive(root, path, parent);
    }
  }

  lemma {:induction false} ToolsKeepParity(p: Plan, dir: string, tools: seq<Tool>)
    requires WritableAreParity(p.reg)
    ensures WritableAreParity(AddTools(p, dir, tools).reg)
  {
    if tools != [] {
      ToolsKeepParity(p, dir, tools[..|tools| - 1]);
    }
  }

  lemma {:induction false} MountPathsBelow(ss: Skills)
    requires WellProbed(ss) && TargetRoot(ss) != ""
    ensures IsResolved(TargetRoot(ss)) && PathIsAtOrUnder(ss.dir, TargetRoot(ss))
    ensures forall i :: 0 <= i < |ss.links| ==>
              !ss.links[i].missing && PathIsAtOrUnder(MountPath(ss.links[i]), TargetRoot(ss))
  {
    CandidateIsAbove(ss.dir, ss.links);
    forall i | 0 <= i < |ss.links|
      ensures !ss.links[i].missing && PathIsAtOrUnder(MountPath(ss.links[i]), TargetRoot(ss))
    {
      if !ss.links[i].isDir {
        ParentStaysBelow(ss.links[i].resolved, ss.dir, TargetRoot(ss));
      }
    }
  }

  /** The plan after the tool directories. */
  function Tooled(reg: Registry, tools: seq<Tool>, ss: Skills): Plan {
    AddTools(Plan(reg, [], [], None), ss.dir, tools)
  }

  /** A target root past its guards is incomparable with every earlier mount,
      is always mounted, and hides nothing registered before it. */
  lemma {:induction false} TargetRootIsMounted(reg: Registry, tools: seq<Tool>, ss: Skills)
    requires Consistent(reg) && WritableAreParity(reg)
    requires Tooled(reg, tools, ss).error.None?
    requires TargetRoot(ss) != "" && Safe(Tooled(reg, tools, ss).reg, TargetRoot(ss))
    ensures var tooled, root := Tooled(reg, tools, ss), TargetRoot(ss);
            && Apart(tooled.reg.All(), root)
            && AddRoot(tooled, ss).args == tooled.args + [Mount(root, root, ReadOnly)]
            && AddRoot(tooled, ss).error.None?
            && KeepsMounted(tooled.reg.All(), AddRoot(tooled, ss).reg.All())
            && Rooted(AddRoot(tooled, ss).reg, root)
            && (forall rec :: rec in tooled.reg.All() ==> rec in AddRoot(tooled, ss).reg.All())
  {
    var tooled, root := Tooled(reg, tools, ss), TargetRoot(ss);
    ToolsKeepParity(Plan(reg, [], [], None), ss.dir, tools);
    GuardsMeanApart(tooled.reg, root);
    SafeRootIsAppended(tooled.reg, root);
    SafeRootHidesNothing(tooled.reg, root);
  }

  /** With the root mounted, the skills directory needs no mount of its own and
      the whole replay of the links neither mounts nor fails. */
  lemma {:induction false} TargetRootCarriesTheReplay(
    reg: Registry, tools: seq<Tool>, codexDir: string, ss: Skills, k: nat)
    requires Consistent(reg) && WritableAreParity(reg) && WellProbed(ss)
    requires k < |tools| && tools[k].dst == codexDir + "/skills"
    requires Tooled(reg, tools, ss).error.None?
    requires TargetRoot(ss) != "" && Safe(Tooled(reg, tools, ss).reg, TargetRoot(ss))
    ensures var rooted, p := AddRoot(Tooled(reg, tools, ss), ss), BeforeReplay(reg, tools, codexDir, ss);
            && Add(rooted, ss.dir, ss.dir, true, "shared skills source") == rooted
            && p == AddSystem(rooted, ss, codexDir)
            && (p.error.None? ==> Replay(p, ss.links) == p)
  {
    var tooled, root := Tooled(reg, tools, ss), TargetRoot(ss);
    TargetRootIsMounted(reg, tools, ss);
    MountPathsBelow(ss);
    var rooted := AddRoot(tooled, ss);
    RootedSkips(rooted.reg, root, ss.dir);
    var p := AddSystem(rooted, ss, codexDir);
    if p.error.None? {
      assert reg.shared + [] == reg.shared;
      ToolsProvide(reg, Plan(reg, [], [], None), ss.dir, tools);
      assert Provides(tooled.reg, ss.dir, tools[k].dst);
      SystemIsApart(rooted, root, ss, codexDir);
      RootedReplay(p, root, ss.links);
    }
  }

  lemma {:induction false} SystemIsApart(rooted: Plan, root: string, ss: Skills, codexDir: string)
    requires Rooted(rooted.reg, root) && rooted.error.None?
    requires exists rec :: rec in rooted.reg.All() && rec.dst == codexDir + "/skills" && !Comparable(rec.dst, root)
    ensures Rooted(AddSystem(rooted, ss, codexDir).reg, root)
  {
    BelowTool(codexDir);
    BelowApart(SystemDir(codexDir), codexDir + "/skills", root);
  }

  lemma {:induction false} BelowTool(codexDir: string)
    ensures PathIsAtOrUnder(SystemDir(codexDir), codexDir + "/skills")
  {
    var system, tool := SystemDir(codexDir), codexDir + "/skills";
    assert system[|system| - 1] == 'm' && tool[|tool| - 1] == 's';
    assert system == tool + "/" + ".system";
  }
}
