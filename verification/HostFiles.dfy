/** The host mutations a plan consists of (internal/plan/step.go) and what each
    does to a file system (executor.apply in cmd/claude-contained/run.go). */
module HostFiles {
  import opened Text
  import opened Paths
  import opened Mounts

  /** What a line printed for the user is about; its wording is not modelled. */
  datatype Notice =
    | WorktreeMounted(repo: string)
    | WorktreeFound(repo: string)
    | CreatingNamed(name: string)
    | HiddenFound(count: nat, repo: string)
    | HostForward(line: string)
    | SharingSkills(what: string, mount: Mount)
    | OverlayCreated(dir: string)
    | OverlayHint

  datatype Step =
    | MkdirAll(path: string)
    | CopyFile(src: string, dst: string)
    | MoveFile(src: string, dst: string)
    | Symlink(target: string, link: string)
    | RemoveFile(path: string)
    | Print(notice: Notice, toStderr: bool)
    | WorktreeAutoLock(repo: string, worktrees: seq<string>, owner: string)

  datatype Node = File(content: string) | Folder | Other | Link(target: string)

  /** What is at each path; a path that is not in the map is free. */
  type Files = map<string, Node>

  /** How many links one system call follows before it gives up. */
  const MAX_LINKS: nat := 40

  predicate IsLink(fs: Files, path: string) {
    path in fs && fs[path].Link?
  }

  /** Where the links starting at the path end, existing or not. */
  function Followed(fs: Files, path: string, hops: nat): (end: Option<string>)
    ensures end.Some? ==> !IsLink(fs, end.value)
    decreases hops
  {
    if !IsLink(fs, path) then Some(path)
    else if hops == 0 then None
    else Followed(fs, fs[path].target, hops - 1)
  }

  /** os.Stat. */
  function Stat(fs: Files, path: string): (node: Option<Node>) {
    match Followed(fs, path, MAX_LINKS)
    case Some(end) => if end in fs then Some(fs[end]) else None
    case None => None
  }

  /** os.MkdirAll: the missing directories, outermost first. */
  function MadeAll(fs: Files, path: string): Option<Files>
    decreases |path|
  {
    match Stat(fs, path)
    case Some(node) => if node.Folder? then Some(fs) else None
    case None =>
      match if |Dir(path)| < |path| then MadeAll(fs, Dir(path)) else Some(fs)
      case None => None
      case Some(above) => if path in above then None else Some(above[path := Folder])
  }

  /** The path and the directories above it. */
  function Above(path: string): set<string>
    decreases |path|
  {
    {path} + if |Dir(path)| < |path| then Above(Dir(path)) else {}
  }

  /** os.ReadFile followed by os.WriteFile; both follow links. */
  function Copied(fs: Files, src: string, dst: string): Option<Files> {
    match (Stat(fs, src), Followed(fs, dst, MAX_LINKS))
    case (Some(File(content)), Some(end)) =>
      if end !in fs || fs[end].File? then Some(fs[end := File(content)]) else None
    case _ => None
  }

  /** os.Rename of anything but a directory; it follows no link at either end. */
  function Moved(fs: Files, src: string, dst: string): Option<Files> {
    if src !in fs || fs[src].Folder? || (dst in fs && fs[dst].Folder?) then None
    else if src == dst then Some(fs)
    else Some(fs[dst := fs[src]] - {src})
  }

  /** os.Remove, where the path being free already is no error. */
  function Removed(fs: Files, path: string): Option<Files> {
    if path in fs && fs[path].Folder? && exists q :: q in fs && q != path && PathIsAtOrUnder(q, path) then None
    else Some(fs - {path})
  }

  /** The file system after one step; None where the step fails, which leaves
      the file system as it was. */
  function Stepped(fs: Files, step: Step): Option<Files> {
    match step
    case MkdirAll(path) => MadeAll(fs, path)
    case CopyFile(src, dst) => Copied(fs, src, dst)
    case MoveFile(src, dst) => Moved(fs, src, dst)
    case Symlink(target, link) => if link in fs then None else Some(fs[link := Link(target)])
    case RemoveFile(path) => Removed(fs, path)
    case Print(_, _) => Some(fs)
    case WorktreeAutoLock(_, _, _) => Some(fs)
  }

  /** The steps in order, up to the first that fails: the file system afterwards
      and how many were applied. */
  function Performed(fs: Files, steps: seq<Step>): (r: (Files, nat))
    ensures r.1 <= |steps|
    decreases steps
  {
    if steps == [] then (fs, 0)
    else match Stepped(fs, steps[0])
      case None => (fs, 0)
      case Some(next) =>
        var (after, n) := Performed(next, steps[1..]);
        (after, n + 1)
  }

  lemma {:induction false} PerformedFew(fs: Files, steps: seq<Step>)
    requires 1 <= |steps| <= 2 && Stepped(fs, steps[0]).Some?
    ensures var one := Stepped(fs, steps[0]).value;
            Performed(fs, steps) ==
              if |steps| == 1 then (one, 1)
              else match Stepped(one, steps[1]) case Some(two) => (two, 2) case None => (one, 1)
  {
    var rest := steps[1..];
    if |steps| == 2 {
      assert rest[0] == steps[1] && rest[1..] == [];
      var one := Stepped(fs, steps[0]).value;
      assert Performed(one, rest) == match Stepped(one, steps[1]) case Some(two) => (two, 1) case None => (one, 0);
    } else {
      assert rest == [];
    }
  }

  lemma {:induction false} PerformedAppend(fs: Files, first: seq<Step>, rest: seq<Step>)
    ensures var (mid, n) := Performed(fs, first);
            var (after, k) := Performed(mid, rest);
            Performed(fs, first + rest) == if n < |first| then (mid, n) else (after, n + k)
    decreases first
  {
    if first == [] {
      assert first + rest == rest;
    } else {
      assert (first + rest)[1..] == first[1..] + rest;
      match Stepped(fs, first[0])
      case None =>
      case Some(next) => PerformedAppend(next, first[1..], rest);
    }
  }

  /** Making directories adds directories at and above the path and changes
      nothing that exists. */
  lemma {:induction false} MakingOnlyAdds(fs: Files, path: string)
    requires MadeAll(fs, path).Some?
    ensures var after := MadeAll(fs, path).value;
            && (forall p :: p in fs ==> p in after && after[p] == fs[p])
            && (forall p :: p in after && p !in fs ==> after[p] == Folder && p in Above(path))
    ensures Stat(fs, path).None? ==> path in MadeAll(fs, path).value && MadeAll(fs, path).value[path] == Folder
    decreases |path|
  {
    if Stat(fs, path).None? && |Dir(path)| < |path| {
      MakingOnlyAdds(fs, Dir(path));
    }
  }

  /** Following depends on the links only. */
  lemma {:induction false} FollowedAgree(fs: Files, other: Files, path: string, hops: nat)
    requires forall p :: IsLink(fs, p) <==> IsLink(other, p)
    requires forall p :: IsLink(fs, p) && IsLink(other, p) ==> other[p] == fs[p]
    ensures Followed(fs, path, hops) == Followed(other, path, hops)
    decreases hops
  {
    if IsLink(fs, path) && hops > 0 {
      FollowedAgree(fs, other, fs[path].target, hops - 1);
    }
  }
}
