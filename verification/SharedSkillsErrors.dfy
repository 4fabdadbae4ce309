/** Exactly when the shared-skills planner fails, and with what, in terms of the
    records and links it was given (internal/plan/sharedskills.go). */
module SharedSkillsErrors {
  import opened Text
  import opened Mounts
  import opened SharedSkills
  import opened SharedSkillsLaws
  import HostFiles

  /** What a run wants in turn: a source at a destination, or the target of a
      link. */
  datatype Demand = Place(src: string, dst: string) | Target(link: Link)

  function ToolDemands(dir: string, tools: seq<Tool>): seq<Demand> {
    seq(|tools|, i requires 0 <= i < |tools| => Place(dir, tools[i].dst))
  }

  /** Where a link's content has to be visible: a directory at itself, a file
      through its directory. */
  function LinkDemand(link: Link): Demand {
    if link.missing then Target(link)
    else if link.isDir then Place(link.resolved, link.resolved)
    else Place(link.parentDir, link.parentDir)
  }

  function LinkDemands(links: seq<Link>): seq<Demand> {
    seq(|links|, i requires 0 <= i < |links| => LinkDemand(links[i]))
  }

  /** Everything wanted, in order; the target root is never refused and is not
      among it. */
  function Demands(tools: seq<Tool>, codexDir: string, ss: Skills): seq<Demand> {
    var system := codexDir + "/skills/.system";
    ToolDemands(ss.dir, tools) + [Place(ss.dir, ss.dir)]
    + (if ss.codexSystemDir then [Place(system, system)] else []) + LinkDemands(ss.links)
  }

  // ---- When a demand cannot be met ---------------------------------------------------------

  /** The first record at this destination, the user's before the shared ones. */
  ghost predicate IsFirstAt(records: seq<Mount>, rec: Mount) {
    exists i :: 0 <= i < |records| && records[i] == rec && forall j :: 0 <= j < i ==> records[j].dst != rec.dst
  }

  /** The user has mounted something writable, or something else, there. */
  ghost predicate TakenByUser(reg: Registry, src: string, dst: string) {
    exists rec :: IsFirstAt(reg.user, rec) && rec.dst == dst && (rec.mode.ReadWrite? || rec.src != src)
  }

  /** The user has nothing there, but something else is shared there. */
  ghost predicate TakenByShared(reg: Registry, src: string, dst: string) {
    && (forall rec :: rec in reg.user ==> rec.dst != dst)
    && exists rec :: rec in reg.shared && rec.dst == dst && rec.src != src
  }

  /** The skills themselves are about to be mounted there for a tool. */
  ghost predicate TakenByTool(dir: string, tools: seq<Tool>, src: string, dst: string) {
    src != dir && exists i :: 0 <= i < |tools| && tools[i].dst == dst
  }

  ghost predicate Unmet(reg: Registry, dir: string, tools: seq<Tool>, d: Demand) {
    match d
    case Target(_) => true
    case Place(src, dst) =>
      TakenByUser(reg, src, dst) || TakenByShared(reg, src, dst) || TakenByTool(dir, tools, src, dst)
  }

  /** The error that an unmet demand ends in. */
  ghost predicate Reports(reg: Registry, d: Demand, e: Error) {
    match d
    case Target(link) => e == MissingTarget(link)
    case Place(src, dst) =>
      && e.Conflicting? && e.dst == dst
      && (TakenByUser(reg, src, dst) ==>
            (e.conflict.WithWritable? <==>
               exists rec :: IsFirstAt(reg.user, rec) && rec.dst == dst && rec.mode.ReadWrite?)
            && !e.conflict.WithOtherShared?)
      && (!TakenByUser(reg, src, dst) ==> e.conflict.WithOtherShared?)
  }

  lemma {:induction false} FirstAfterOther(first: Mount, rest: seq<Mount>, rec: Mount)
    requires first.dst != rec.dst
    ensures IsFirstAt([first] + rest, rec) <==> IsFirstAt(rest, rec)
  {
    var all := [first] + rest;
    if IsFirstAt(rest, rec) {
      var i :| 0 <= i < |rest| && rest[i] == rec && forall j :: 0 <= j < i ==> rest[j].dst != rec.dst;
      assert all[i + 1] == rec && forall j :: 0 < j < i + 1 ==> all[j] == rest[j - 1];
    }
    if IsFirstAt(all, rec) {
      var i :| 0 <= i < |all| && all[i] == rec && forall j :: 0 <= j < i ==> all[j].dst != rec.dst;
      assert rest[i - 1] == rec && forall j :: 0 <= j < i - 1 ==> rest[j] == all[j + 1];
    }
  }

  lemma {:induction false} FirstRecord(records: seq<Mount>, rec: Mount)
    ensures IsFirstAt(records, rec) <==> RecordFor(records, rec.dst) == Some(rec)
  {
    if records != [] {
      assert records == [records[0]] + records[1..];
      if records[0].dst != rec.dst {
        FirstAfterOther(records[0], records[1..], rec);
        FirstRecord(records[1..], rec);
      } else if records[0] == rec {
        assert IsFirstAt(records, rec);
      }
    }
  }

  lemma {:induction false} FirstRecords(records: seq<Mount>, dst: string)
    ensures RecordFor(records, dst).Some? ==> IsFirstAt(records, RecordFor(records, dst).value)
    ensures forall rec :: IsFirstAt(records, rec) && rec.dst == dst ==> RecordFor(records, dst) == Some(rec)
  {
    forall rec: Mount | rec.dst == dst
      ensures IsFirstAt(records, rec) <==> RecordFor(records, dst) == Some(rec)
    {
      FirstRecord(records, rec);
    }
  }

  /** One addition fails exactly for a record that is in the way. */
  lemma {:induction false} AddingFailsIff(reg: Registry, src: string, dst: string, allowCover: bool)
    requires Consistent(reg)
    ensures Adding(reg, src, dst, allowCover).Refused? <==> TakenByUser(reg, src, dst) || TakenByShared(reg, src, dst)
    ensures Adding(reg, src, dst, allowCover).Refused? ==>
              Reports(reg, Place(src, dst), Conflicting(Adding(reg, src, dst, allowCover).conflict, dst))
  {
    FirstRecords(reg.user, dst);
    var rec, shared := RecordFor(reg.user, dst), RecordFor(reg.shared, dst);
    if rec.Some? {
      assert IsFirstAt(reg.user, rec.value) && rec.value.dst == dst;
    } else if shared.Some? {
      forall other | other in reg.shared && other.dst == dst
        ensures other == shared.value
      {
        var i :| 0 <= i < |reg.shared| && reg.shared[i] == other;
        var j :| 0 <= j < |reg.shared| && reg.shared[j] == shared.value;
      }
    }
  }

  // ---- Which demand fails first ---------------------------------------------------------------

  ghost predicate AllMet(reg: Registry, dir: string, tools: seq<Tool>, demands: seq<Demand>) {
    forall i :: 0 <= i < |demands| ==> !Unmet(reg, dir, tools, demands[i])
  }

  /** The error is that of the first demand that cannot be met. */
  ghost predicate FirstUnmet(reg: Registry, dir: string, tools: seq<Tool>, demands: seq<Demand>, e: Error) {
    exists k :: 0 <= k < |demands| && Unmet(reg, dir, tools, demands[k])
      && AllMet(reg, dir, tools, demands[..k]) && Reports(reg, demands[k], e)
  }

  ghost predicate Verdict(reg: Registry, dir: string, tools: seq<Tool>, demands: seq<Demand>, error: Option<Error>) {
    match error
    case None => AllMet(reg, dir, tools, demands)
    case Some(e) => FirstUnmet(reg, dir, tools, demands, e)
  }

  lemma {:induction false} VerdictConcat(
    reg: Registry, dir: string, tools: seq<Tool>, a: seq<Demand>, b: seq<Demand>,
    mid: Option<Error>, error: Option<Error>)
    requires Verdict(reg, dir, tools, a, mid)
    requires if mid.Some? then error == mid else Verdict(reg, dir, tools, b, error)
    ensures Verdict(reg, dir, tools, a + b, error)
  {
    if mid.Some? {
      var k :| 0 <= k < |a| && Unmet(reg, dir, tools, a[k]) && AllMet(reg, dir, tools, a[..k])
        && Reports(reg, a[k], mid.value);
      assert (a + b)[..k] == a[..k] && (a + b)[k] == a[k];
    } else if error.Some? {
      var k :| 0 <= k < |b| && Unmet(reg, dir, tools, b[k]) && AllMet(reg, dir, tools, b[..k])
        && Reports(reg, b[k], error.value);
      assert (a + b)[..|a| + k] == a + b[..k] && (a + b)[|a| + k] == b[k];
    }
  }

  lemma {:induction false} VerdictOfOne(
    reg: Registry, dir: string, tools: seq<Tool>, d: Demand, error: Option<Error>)
    requires error.None? <==> !Unmet(reg, dir, tools, d)
    requires error.Some? ==> Reports(reg, d, error.value)
    ensures Verdict(reg, dir, tools, [d], error)
  {
    assert [d][..0] == [] && [d][0] == d;
    if error.Some? {
      assert Unmet(reg, dir, tools, [d][0]) && AllMet(reg, dir, tools, [d][..0]) && Reports(reg, [d][0], error.value);
    }
  }

  // ---- The tools --------------------------------------------------------------------------------

  ghost predicate FromTools(dir: string, args: seq<Mount>) {
    forall m :: m in args ==> m.src == dir
  }

  lemma {:induction false} AddForTool(
    start: Registry, p: Plan, dir: string, tools: seq<Tool>, dst: string, what: string)
    requires InStep(start, p) && p.error.None? && FromTools(dir, p.args)
    ensures var after := Add(p, dir, dst, false, what);
            && FromTools(dir, after.args)
            && Verdict(start, dir, tools, [Place(dir, dst)], after.error)
  {
    var after := Add(p, dir, dst, false, what);
    AddingFailsIff(p.reg, dir, dst, false);
    SameTaken(start, p.reg, p.args, dir, dst);
    VerdictOfOne(start, dir, tools, Place(dir, dst), after.error);
  }

  /** Shared records with the same source are in nobody's way. */
  lemma {:induction false} SameTaken(start: Registry, reg: Registry, args: seq<Mount>, src: string, dst: string)
    requires reg.user == start.user && reg.shared == start.shared + args
    requires forall m :: m in args && m.dst == dst ==> m.src == src
    ensures TakenByUser(reg, src, dst) <==> TakenByUser(start, src, dst)
    ensures TakenByShared(reg, src, dst) <==> TakenByShared(start, src, dst)
  {
    assert forall rec :: rec in reg.shared <==> rec in start.shared || rec in args;
  }

  lemma {:induction false} MadeInStep(start: Registry, p: Plan, path: string)
    requires InStep(start, p)
    ensures InStep(start, p.(steps := p.steps + [HostFiles.MkdirAll(path)]))
  {
    var made := p.(steps := p.steps + [HostFiles.MkdirAll(path)]);
    assert made.steps[..|made.steps| - 1] == p.steps;
  }

  function AddedTool(p: Plan, dir: string, tool: Tool): Plan {
    Add(p.(steps := p.steps + [HostFiles.MkdirAll(tool.dstParent)]), dir, tool.dst, false, "skills")
  }

  lemma {:induction false} OneToolVerdict(start: Registry, p: Plan, dir: string, tool: Tool, all: seq<Tool>)
    requires InStep(start, p) && p.error.None? && FromTools(dir, p.args)
    ensures FromTools(dir, AddedTool(p, dir, tool).args)
    ensures Verdict(start, dir, all, [Place(dir, tool.dst)], AddedTool(p, dir, tool).error)
  {
    MadeInStep(start, p, tool.dstParent);
    AddForTool(start, p.(steps := p.steps + [HostFiles.MkdirAll(tool.dstParent)]), dir, all, tool.dst, "skills");
  }

  lemma {:induction false} LastTool(p: Plan, dir: string, tools: seq<Tool>)
    requires tools != []
    ensures var n := |tools| - 1;
            && AddTools(p, dir, tools) == (if AddTools(p, dir, tools[..n]).error.Some? then AddTools(p, dir, tools[..n])
                                           else AddedTool(AddTools(p, dir, tools[..n]), dir, tools[n]))
            && ToolDemands(dir, tools) == ToolDemands(dir, tools[..n]) + [Place(dir, tools[n].dst)]
  {
  }

  lemma {:induction false} ToolsVerdict(start: Registry, p: Plan, dir: string, tools: seq<Tool>, all: seq<Tool>)
    requires InStep(start, p) && p.error.None? && FromTools(dir, p.args)
    ensures FromTools(dir, AddTools(p, dir, tools).args)
    ensures Verdict(start, dir, all, ToolDemands(dir, tools), AddTools(p, dir, tools).error)
  {
    if tools == [] {
      assert ToolDemands(dir, tools) == [];
    } else {
      var n := |tools| - 1;
      var before, after := AddTools(p, dir, tools[..n]), AddTools(p, dir, tools);
      ToolsVerdict(start, p, dir, tools[..n], all);
      ToolsKeepInStep(start, p, dir, tools[..n]);
      LastTool(p, dir, tools);
      if before.error.None? {
        OneToolVerdict(start, before, dir, tools[n], all);
      }
      VerdictConcat(
        start, dir, all, ToolDemands(dir, tools[..n]), [Place(dir, tools[n].dst)], before.error, after.error);
    }
  }

  // ---- What comes after the tools -----------------------------------------------------------------

  /** Past the tools: all of them are provided, and whatever else was added is at
      its own path. */
  ghost predicate PastTools(start: Registry, p: Plan, dir: string, tools: seq<Tool>) {
    && InStep(start, p) && p.error.None?
    && AllProvided(p.reg, dir, tools) && AllMet(start, dir, tools, ToolDemands(dir, tools))
    && forall m :: m in p.args ==> Parity(m) || (m.src == dir && exists i :: 0 <= i < |tools| && tools[i].dst == m.dst)
  }

  /** At its own path, only a record of other content or a tool's destination is
      in the way. */
  lemma {:induction false} OwnPathTaken(start: Registry, p: Plan, dir: string, tools: seq<Tool>, path: string)
    requires PastTools(start, p, dir, tools)
    ensures TakenByUser(p.reg, path, path) || TakenByShared(p.reg, path, path) <==>
              Unmet(start, dir, tools, Place(path, path))
    ensures TakenByUser(p.reg, path, path) <==> TakenByUser(start, path, path)
  {
    assert forall rec :: rec in p.reg.shared <==> rec in start.shared || rec in p.args;
    if TakenByTool(dir, tools, path, path) {
      var i :| 0 <= i < |tools| && tools[i].dst == path;
      assert ToolDemands(dir, tools)[i] == Place(dir, path);
      assert Provides(p.reg, dir, tools[i].dst);
      assert Mount(dir, path, ReadOnly) in p.reg.user || Mount(dir, path, ReadOnly) in p.reg.shared;
      FirstRecords(start.user, path);
      if RecordFor(start.user, path).Some? {
        assert IsFirstAt(start.user, RecordFor(start.user, path).value);
      }
    }
  }

  lemma {:induction false} StaysProvided(before: Registry, after: Registry, dir: string, tools: seq<Tool>)
    requires AllProvided(before, dir, tools) && Grown(before, after)
    ensures AllProvided(after, dir, tools)
  {
  }

  lemma {:induction false} AddStaysPastTools(
    start: Registry, p: Plan, dir: string, tools: seq<Tool>, path: string, allowCover: bool, what: string)
    requires PastTools(start, p, dir, tools) && Add(p, path, path, allowCover, what).error.None?
    ensures PastTools(start, Add(p, path, path, allowCover, what), dir, tools)
  {
    AddKeepsInStep(start, p, path, path, allowCover, what);
    AddGrows(p, path, path, allowCover, what);
    StaysProvided(p.reg, Add(p, path, path, allowCover, what).reg, dir, tools);
  }

  lemma {:induction false} AddAtOwnPath(
    start: Registry, p: Plan, dir: string, tools: seq<Tool>, path: string, allowCover: bool, what: string)
    requires PastTools(start, p, dir, tools)
    ensures var after := Add(p, path, path, allowCover, what);
            && Verdict(start, dir, tools, [Place(path, path)], after.error)
            && (after.error.None? ==> PastTools(start, after, dir, tools))
  {
    var after := Add(p, path, path, allowCover, what);
    OwnPathVerdict(start, p, dir, tools, path, allowCover, what);
    if after.error.None? {
      AddStaysPastTools(start, p, dir, tools, path, allowCover, what);
    }
  }

  lemma {:induction false} OwnPathVerdict(
    start: Registry, p: Plan, dir: string, tools: seq<Tool>, path: string, allowCover: bool, what: string)
    requires PastTools(start, p, dir, tools)
    ensures Verdict(start, dir, tools, [Place(path, path)], Add(p, path, path, allowCover, what).error)
  {
    var error := Add(p, path, path, allowCover, what).error;
    AddingFailsIff(p.reg, path, path, allowCover);
    OwnPathTaken(start, p, dir, tools, path);
    if error.Some? {
      ReportsAlike(start, p.reg, path, error.value);
    }
    VerdictOfOne(start, dir, tools, Place(path, path), error);
  }

  lemma {:induction false} ReportsAlike(start: Registry, reg: Registry, path: string, e: Error)
    requires reg.user == start.user && Reports(reg, Place(path, path), e)
    ensures Reports(start, Place(path, path), e)
  {
  }

  function ReplayedOne(p: Plan, link: Link): Plan {
    if link.missing then p.(error := Some(MissingTarget(link)))
    else Add(p, MountPath(link), MountPath(link), true, Label(link))
  }

  lemma {:induction false} OneLinkVerdict(start: Registry, p: Plan, dir: string, tools: seq<Tool>, link: Link)
    requires PastTools(start, p, dir, tools)
    ensures Verdict(start, dir, tools, [LinkDemand(link)], ReplayedOne(p, link).error)
    ensures ReplayedOne(p, link).error.None? ==> PastTools(start, ReplayedOne(p, link), dir, tools)
  {
    if link.missing {
      VerdictOfOne(start, dir, tools, Target(link), Some(MissingTarget(link)));
    } else {
      AddAtOwnPath(start, p, dir, tools, MountPath(link), true, Label(link));
    }
  }

  lemma {:induction false} LastDemand(links: seq<Link>)
    requires links != []
    ensures LinkDemands(links) == LinkDemands(links[..|links| - 1]) + [LinkDemand(links[|links| - 1])]
  {
    var n := |links| - 1;
    assert forall i :: 0 <= i < n ==> LinkDemands(links)[i] == LinkDemand(links[i]) == LinkDemands(links[..n])[i];
  }

  lemma {:induction false} ReplayVerdict(start: Registry, p: Plan, dir: string, tools: seq<Tool>, links: seq<Link>)
    requires PastTools(start, p, dir, tools)
    ensures Verdict(start, dir, tools, LinkDemands(links), Replay(p, links).error)
    ensures Replay(p, links).error.None? ==> PastTools(start, Replay(p, links), dir, tools)
  {
    if links == [] {
      assert LinkDemands(links) == [];
    } else {
      var n := |links| - 1;
      var before, after := Replay(p, links[..n]), Replay(p, links);
      ReplayVerdict(start, p, dir, tools, links[..n]);
      LastDemand(links);
      if before.error.None? {
        OneLinkVerdict(start, before, dir, tools, links[n]);
      }
      VerdictConcat(
        start, dir, tools, LinkDemands(links[..n]), [LinkDemand(links[n])], before.error, after.error);
    }
  }

  // ---- A whole run --------------------------------------------------------------------------------

  lemma {:induction false} TooledIsPast(reg: Registry, tools: seq<Tool>, ss: Skills)
    requires Consistent(reg)
    ensures Verdict(reg, ss.dir, tools, ToolDemands(ss.dir, tools), Tooled(reg, tools, ss).error)
    ensures Tooled(reg, tools, ss).error.None? ==> PastTools(reg, Tooled(reg, tools, ss), ss.dir, tools)
  {
    var p0 := Plan(reg, [], [], None);
    assert reg.shared + [] == reg.shared;
    ToolsVerdict(reg, p0, ss.dir, tools, tools);
    ToolsKeepInStep(reg, p0, ss.dir, tools);
    ToolsProvide(reg, p0, ss.dir, tools);
    ToolArgs(p0, ss.dir, tools);
  }

  lemma {:induction false} ToolArgs(p: Plan, dir: string, tools: seq<Tool>)
    ensures forall m :: m in AddTools(p, dir, tools).args ==>
              m in p.args || (m.src == dir && exists i :: 0 <= i < |tools| && tools[i].dst == m.dst)
  {
    if tools != [] {
      var n := |tools| - 1;
      var before, after := AddTools(p, dir, tools[..n]), AddTools(p, dir, tools);
      ToolArgs(p, dir, tools[..n]);
      forall m | m in after.args && m !in p.args
        ensures m.src == dir && exists i :: 0 <= i < |tools| && tools[i].dst == m.dst
      {
        if m in before.args {
          var i :| 0 <= i < n && tools[..n][i].dst == m.dst;
          assert tools[i].dst == m.dst;
        } else {
          assert m.src == dir && tools[n].dst == m.dst;
        }
      }
    }
  }

  lemma {:induction false} RootIsPast(reg: Registry, tools: seq<Tool>, ss: Skills)
    requires Consistent(reg) && WritableAreParity(reg)
    ensures AddRoot(Tooled(reg, tools, ss), ss).error == Tooled(reg, tools, ss).error
    ensures Tooled(reg, tools, ss).error.None? ==> PastTools(reg, AddRoot(Tooled(reg, tools, ss), ss), ss.dir, tools)
  {
    var tooled, root := Tooled(reg, tools, ss), TargetRoot(ss);
    TooledIsPast(reg, tools, ss);
    if tooled.error.None? && root != "" && Safe(tooled.reg, root) {
      TargetRootIsMounted(reg, tools, ss);
      AddStaysPastTools(reg, tooled, ss.dir, tools, root, true, "shared skills target root");
    }
  }

  /** The skills directory itself, and the system skills where there are some. */
  function OwnDemands(codexDir: string, ss: Skills): seq<Demand> {
    var system := codexDir + "/skills/.system";
    [Place(ss.dir, ss.dir)] + if ss.codexSystemDir then [Place(system, system)] else []
  }

  lemma {:induction false} OwnVerdict(start: Registry, p: Plan, tools: seq<Tool>, codexDir: string, ss: Skills)
    requires PastTools(start, p, ss.dir, tools)
    ensures var after := AddSystem(Add(p, ss.dir, ss.dir, true, "shared skills source"), ss, codexDir);
            && Verdict(start, ss.dir, tools, OwnDemands(codexDir, ss), after.error)
            && (after.error.None? ==> PastTools(start, after, ss.dir, tools))
  {
    var source := Add(p, ss.dir, ss.dir, true, "shared skills source");
    AddAtOwnPath(start, p, ss.dir, tools, ss.dir, true, "shared skills source");
    if ss.codexSystemDir {
      var system := codexDir + "/skills/.system";
      var after := AddSystem(source, ss, codexDir);
      if source.error.None? {
        AddAtOwnPath(start, source, ss.dir, tools, system, false, "Codex system skills");
      }
      VerdictConcat(start, ss.dir, tools, [Place(ss.dir, ss.dir)], [Place(system, system)], source.error, after.error);
    } else {
      assert [Place(ss.dir, ss.dir)] + [] == [Place(ss.dir, ss.dir)];
    }
  }

  lemma {:induction false} BeforeReplayVerdict(reg: Registry, tools: seq<Tool>, codexDir: string, ss: Skills)
    requires Consistent(reg) && WritableAreParity(reg)
    ensures var p := BeforeReplay(reg, tools, codexDir, ss);
            && Verdict(reg, ss.dir, tools, ToolDemands(ss.dir, tools) + OwnDemands(codexDir, ss), p.error)
            && (p.error.None? ==> PastTools(reg, p, ss.dir, tools))
  {
    var tooled, p := Tooled(reg, tools, ss), BeforeReplay(reg, tools, codexDir, ss);
    TooledIsPast(reg, tools, ss);
    RootIsPast(reg, tools, ss);
    if tooled.error.None? {
      OwnVerdict(reg, AddRoot(tooled, ss), tools, codexDir, ss);
    }
    VerdictConcat(
      reg, ss.dir, tools, ToolDemands(ss.dir, tools), OwnDemands(codexDir, ss), tooled.error, p.error);
  }

  /** Exactly when a run fails and with what. Where the system skills would need
      a mount point that is not there and the runtime cannot make one, with that;
      else with the first demand that is in the way of a record, of a tool, or
      missing; else not at all. */
  lemma {:induction false} FailsExactlyWhen(
    reg: Registry, tools: seq<Tool>, codexDir: string, ss: Skills, remountNeedsMountpoint: bool)
    requires Consistent(reg) && WritableAreParity(reg)
    ensures var error := Planned(reg, tools, codexDir, ss, remountNeedsMountpoint).error;
            && (error == Some(NoMountpoint) <==> ss.codexSystemDir && remountNeedsMountpoint && !ss.dirHasSystem)
            && (error != Some(NoMountpoint) ==> Verdict(reg, ss.dir, tools, Demands(tools, codexDir, ss), error))
  {
    if !(ss.codexSystemDir && remountNeedsMountpoint && !ss.dirHasSystem) {
      var p := BeforeReplay(reg, tools, codexDir, ss);
      var after := Planned(reg, tools, codexDir, ss, remountNeedsMountpoint);
      var early := ToolDemands(ss.dir, tools) + OwnDemands(codexDir, ss);
      BeforeReplayVerdict(reg, tools, codexDir, ss);
      if p.error.None? {
        ReplayVerdict(reg, p, ss.dir, tools, ss.links);
      }
      VerdictConcat(reg, ss.dir, tools, early, LinkDemands(ss.links), p.error, after.error);
      SameDemands(tools, codexDir, ss);
      if after.error.Some? {
        var k :| 0 <= k < |early + LinkDemands(ss.links)|
          && Reports(reg, (early + LinkDemands(ss.links))[k], after.error.value);
      }
    }
  }

  lemma {:induction false} SameDemands(tools: seq<Tool>, codexDir: string, ss: Skills)
    ensures ToolDemands(ss.dir, tools) + OwnDemands(codexDir, ss) + LinkDemands(ss.links)
         == Demands(tools, codexDir, ss)
  {
    var system := codexDir + "/skills/.system";
    var own: seq<Demand> := if ss.codexSystemDir then [Place(system, system)] else [];
    Reassociate(ToolDemands(ss.dir, tools), [Place(ss.dir, ss.dir)], own);
  }

  /** Nothing recorded where something is wanted, no two of those places the
      same, and no missing link. */
  ghost predicate FreshPlaces(reg: Registry, demands: seq<Demand>) {
    && (forall i :: 0 <= i < |demands| ==> demands[i].Place?)
    && (forall i, rec :: 0 <= i < |demands| && rec in reg.All() ==> rec.dst != demands[i].dst)
    && (forall i, j :: 0 <= i < j < |demands| ==> demands[i].dst != demands[j].dst)
  }

  lemma {:induction false} FreshPlacesAreMet(reg: Registry, dir: string, tools: seq<Tool>, demands: seq<Demand>)
    requires FreshPlaces(reg, demands) && ToolDemands(dir, tools) <= demands
    ensures AllMet(reg, dir, tools, demands)
  {
    assert forall rec :: rec in reg.user || rec in reg.shared ==> rec in reg.All();
    forall i | 0 <= i < |demands|
      ensures !TakenByTool(dir, tools, demands[i].src, demands[i].dst)
    {
      assert forall k :: 0 <= k < |tools| ==> ToolDemands(dir, tools)[k] == Place(dir, tools[k].dst) == demands[k];
    }
  }

  /** Then a run succeeds. */
  lemma {:induction false} FreshPlacesSucceed(
    reg: Registry, tools: seq<Tool>, codexDir: string, ss: Skills, remountNeedsMountpoint: bool)
    requires Consistent(reg) && WritableAreParity(reg)
    requires ss.codexSystemDir && remountNeedsMountpoint ==> ss.dirHasSystem
    requires FreshPlaces(reg, Demands(tools, codexDir, ss))
    ensures Planned(reg, tools, codexDir, ss, remountNeedsMountpoint).error.None?
  {
    FailsExactlyWhen(reg, tools, codexDir, ss, remountNeedsMountpoint);
    FreshPlacesAreMet(reg, ss.dir, tools, Demands(tools, codexDir, ss));
  }
}
