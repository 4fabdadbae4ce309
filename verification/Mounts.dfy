/** The ordered mount registry that --share-skills is checked against
    (internal/plan/mounts.go), and what its queries say about visibility. */
module Mounts {
  import opened Text
  import opened Paths

  datatype Mode = ReadWrite | ReadOnly

  datatype Mount = Mount(src: string, dst: string, mode: Mode)

  datatype Registry = Registry(user: seq<Mount>, shared: seq<Mount>) {
    function All(): seq<Mount> { user + shared }
  }

  datatype Conflict = WithWritable | WithDifferentSource | WithOtherShared

  /** What adding a shared mount comes to. */
  datatype Addition = Skipped | Appended(mount: Mount) | Refused(conflict: Conflict)

  // ---- Queries -------------------------------------------------------------------

  /** The first record at exactly this destination. */
  function RecordFor(records: seq<Mount>, dst: string): (r: Option<Mount>)
    ensures r.Some? ==> r.value in records && r.value.dst == dst
    ensures r.None? ==> forall rec :: rec in records ==> rec.dst != dst
  {
    if records == [] then None
    else if records[0].dst == dst then Some(records[0])
    else RecordFor(records[1..], dst)
  }

  predicate Parity(m: Mount) {
    m.src == m.dst
  }

  predicate ReadonlyCovers(records: seq<Mount>, dst: string) {
    exists i :: 0 <= i < |records| &&
      records[i].mode.ReadOnly? && Parity(records[i]) && PathIsAtOrUnder(dst, records[i].dst)
  }

  predicate PathParityCovers(reg: Registry, path: string) {
    exists i :: 0 <= i < |reg.All()| && Parity(reg.All()[i]) && PathIsAtOrUnder(path, reg.All()[i].dst)
  }

  predicate WouldShadowExisting(reg: Registry, path: string) {
    exists i :: 0 <= i < |reg.All()| && PathIsAtOrUnder(reg.All()[i].dst, path)
  }

  predicate IsNestedUnderReadonlyNonParity(reg: Registry, path: string) {
    exists i :: 0 <= i < |reg.All()| &&
      reg.All()[i].mode.ReadOnly? && !Parity(reg.All()[i]) && PathIsAtOrUnder(path, reg.All()[i].dst)
  }

  /** The three guards in front of the target-root mount. */
  predicate Safe(reg: Registry, root: string) {
    && !PathParityCovers(reg, root)
    && !WouldShadowExisting(reg, root)
    && !IsNestedUnderReadonlyNonParity(reg, root)
  }

  // ---- Adding ------------------------------------------------------------------------

  function Adding(reg: Registry, src: string, dst: string, allowCover: bool): Addition {
    match RecordFor(reg.user, dst)
    case Some(rec) =>
      if rec.mode.ReadOnly? && rec.src == src then Skipped
      else Refused(if rec.mode.ReadWrite? then WithWritable else WithDifferentSource)
    case None =>
      match RecordFor(reg.shared, dst)
      case Some(rec) => if rec.src == src then Skipped else Refused(WithOtherShared)
      case None =>
        if allowCover && (ReadonlyCovers(reg.user, dst) || ReadonlyCovers(reg.shared, dst)) then Skipped
        else Appended(Mount(src, dst, ReadOnly))
  }

  function With(reg: Registry, a: Addition): Registry {
    if a.Appended? then reg.(shared := reg.shared + [a.mount]) else reg
  }

  class MountRegistry {
    var user: seq<Mount>
    var shared: seq<Mount>

    constructor (projectDir: string)
      ensures View() == Registry([Mount(projectDir, projectDir, ReadWrite)], [])
    {
      user, shared := [Mount(projectDir, projectDir, ReadWrite)], [];
    }

    function View(): Registry
      reads this
    {
      Registry(user, shared)
    }

    method AddUser(src: string, dst: string, mode: Mode)
      modifies this
      ensures View() == old(View()).(user := old(user) + [Mount(src, dst, mode)])
    {
      user := user + [Mount(src, dst, mode)];
    }

    method AddShared(src: string, dst: string, allowCover: bool) returns (a: Addition)
      modifies this
      ensures a == Adding(old(View()), src, dst, allowCover)
      ensures View() == With(old(View()), a)
    {
      var rec := RecordFor(user, dst);
      if rec.Some? {
        if rec.value.mode.ReadOnly? && rec.value.src == src {
          return Skipped;
        }
        if rec.value.mode.ReadWrite? {
          return Refused(WithWritable);
        }
        return Refused(WithDifferentSource);
      }
      rec := RecordFor(shared, dst);
      if rec.Some? {
        if rec.value.src == src {
          return Skipped;
        }
        return Refused(WithOtherShared);
      }
      if allowCover && (ReadonlyCovers(user, dst) || ReadonlyCovers(shared, dst)) {
        return Skipped;
      }
      shared := shared + [Mount(src, dst, ReadOnly)];
      a := Appended(Mount(src, dst, ReadOnly));
    }
  }

  // ---- What adding keeps ---------------------------------------------------------------

  /** One mount per destination among the shared ones, none where the user has
      one, and all of them read-only. */
  ghost predicate Consistent(reg: Registry) {
    && (forall i, j :: 0 <= i < j < |reg.shared| ==> reg.shared[i].dst != reg.shared[j].dst)
    && (forall i, j :: 0 <= i < |reg.shared| && 0 <= j < |reg.user| ==> reg.shared[i].dst != reg.user[j].dst)
    && (forall i :: 0 <= i < |reg.shared| ==> reg.shared[i].mode.ReadOnly?)
  }

  /** The source is mounted read-only at exactly the destination. */
  ghost predicate Provides(reg: Registry, src: string, dst: string) {
    Mount(src, dst, ReadOnly) in reg.All()
  }

  /** The path keeps its own content inside the container, read-only. */
  ghost predicate Covers(reg: Registry, path: string) {
    exists rec :: rec in reg.All() && rec.mode.ReadOnly? && Parity(rec) && PathIsAtOrUnder(path, rec.dst)
  }

  lemma {:induction false} AddingKeepsConsistent(reg: Registry, src: string, dst: string, allowCover: bool)
    requires Consistent(reg)
    ensures Consistent(With(reg, Adding(reg, src, dst, allowCover)))
  {
    var rec := RecordFor(reg.user, dst);
    var prior := RecordFor(reg.shared, dst);
    if rec.None? && prior.None? {
      forall j | 0 <= j < |reg.user|
        ensures reg.user[j].dst != dst
      {
        assert reg.user[j] in reg.user;
      }
      forall j | 0 <= j < |reg.shared|
        ensures reg.shared[j].dst != dst
      {
        assert reg.shared[j] in reg.shared;
      }
    }
  }

  /** Adding without an error provides what was asked for, exactly or, where
      covering is allowed, through a mount above it. */
  lemma {:induction false} AddingProvides(reg: Registry, src: string, dst: string, allowCover: bool)
    requires Consistent(reg) && !Adding(reg, src, dst, allowCover).Refused?
    ensures var after := With(reg, Adding(reg, src, dst, allowCover));
            && (!allowCover ==> Provides(after, src, dst))
            && (allowCover && src == dst ==> Covers(after, dst))
  {
    var after := With(reg, Adding(reg, src, dst, allowCover));
    AtOrUnderIsPrefix(dst, dst);
    var rec := RecordFor(reg.user, dst);
    var prior := RecordFor(reg.shared, dst);
    if rec.Some? {
      assert rec.value in after.All();
    } else if prior.Some? {
      assert prior.value in after.All();
    } else if ReadonlyCovers(reg.user, dst) && allowCover {
      var i :| 0 <= i < |reg.user| && reg.user[i].mode.ReadOnly? && Parity(reg.user[i])
        && PathIsAtOrUnder(dst, reg.user[i].dst);
      assert reg.user[i] in after.All();
    } else if ReadonlyCovers(reg.shared, dst) && allowCover {
      var i :| 0 <= i < |reg.shared| && reg.shared[i].mode.ReadOnly? && Parity(reg.shared[i])
        && PathIsAtOrUnder(dst, reg.shared[i].dst);
      assert reg.shared[i] in after.All();
    } else {
      assert Mount(src, dst, ReadOnly) in after.All();
    }
  }

  // ---- What the guards mean ------------------------------------------------------------

  predicate Comparable(a: string, b: string) {
    PathIsAtOrUnder(a, b) || PathIsAtOrUnder(b, a)
  }

  ghost predicate Apart(mounts: seq<Mount>, path: string) {
    forall rec :: rec in mounts ==> !Comparable(rec.dst, path)
  }

  /** Every writable mount is at its own path: true of the project directory
      and of every -m mount. */
  ghost predicate WritableAreParity(reg: Registry) {
    forall rec :: rec in reg.All() && rec.mode.ReadWrite? ==> Parity(rec)
  }

  /** The guards let through exactly the roots that are incomparable with every
      destination, except for ones below a writable mount of other content. */
  lemma {:induction false} GuardsMeanApart(reg: Registry, root: string)
    ensures Safe(reg, root) <==>
              forall rec :: rec in reg.All() && Comparable(rec.dst, root) ==>
                rec.mode.ReadWrite? && !Parity(rec) && !PathIsAtOrUnder(rec.dst, root)
    ensures WritableAreParity(reg) ==> (Safe(reg, root) <==> Apart(reg.All(), root))
  {
    var all := reg.All();
    if Safe(reg, root) {
      forall rec | rec in all && Comparable(rec.dst, root)
        ensures rec.mode.ReadWrite? && !Parity(rec) && !PathIsAtOrUnder(rec.dst, root)
      {
        var i :| 0 <= i < |all| && all[i] == rec;
      }
    } else if PathParityCovers(reg, root) {
      var i :| 0 <= i < |all| && Parity(all[i]) && PathIsAtOrUnder(root, all[i].dst);
      assert all[i] in all && Comparable(all[i].dst, root);
    } else if WouldShadowExisting(reg, root) {
      var i :| 0 <= i < |all| && PathIsAtOrUnder(all[i].dst, root);
      assert all[i] in all && Comparable(all[i].dst, root);
    } else {
      var i :| 0 <= i < |all| && all[i].mode.ReadOnly? && !Parity(all[i]) && PathIsAtOrUnder(root, all[i].dst);
      assert all[i] in all && Comparable(all[i].dst, root);
    }
  }

  /** A root past the guards is always appended. */
  lemma {:induction false} SafeRootIsAppended(reg: Registry, root: string)
    requires WritableAreParity(reg) && Safe(reg, root)
    ensures Adding(reg, root, root, true) == Appended(Mount(root, root, ReadOnly))
  {
    GuardsMeanApart(reg, root);
    AtOrUnderIsPrefix(root, root);
    assert forall rec :: rec in reg.user || rec in reg.shared ==> rec in reg.All();
    assert Comparable(root, root);
  }

  // ---- What a path shows -------------------------------------------------------------------

  /** Mounts apply in order, so the last one at or above a path is what the path
      shows inside the container. */
  function Effective(mounts: seq<Mount>, path: string): (r: Option<Mount>)
    ensures r.Some? ==> r.value in mounts && PathIsAtOrUnder(path, r.value.dst)
    ensures r.None? ==> forall m :: m in mounts ==> !PathIsAtOrUnder(path, m.dst)
  {
    if mounts == [] then None
    else if PathIsAtOrUnder(path, mounts[|mounts| - 1].dst) then Some(mounts[|mounts| - 1])
    else Effective(mounts[..|mounts| - 1], path)
  }

  ghost predicate KeepsMounted(before: seq<Mount>, after: seq<Mount>) {
    forall path :: Effective(before, path).Some? ==> Effective(after, path) == Effective(before, path)
  }

  /** The mounts that follow the last one equal to `m`; all of them where there
      is none. */
  function Since(mounts: seq<Mount>, m: Mount): (rest: seq<Mount>)
    ensures m !in rest && (m !in mounts ==> rest == mounts)
    ensures forall rec :: rec in rest ==> rec in mounts
  {
    if mounts == [] || mounts[|mounts| - 1] == m then []
    else Since(mounts[..|mounts| - 1], m) + [mounts[|mounts| - 1]]
  }

  lemma {:induction false} EffectiveSince(mounts: seq<Mount>, m: Mount, path: string)
    requires PathIsAtOrUnder(path, m.dst)
    ensures Apart(Since(mounts, m), m.dst) ==> Effective(mounts, path) == if m in mounts then Some(m) else None
    ensures (exists rec :: rec in Since(mounts, m) && PathIsAtOrUnder(path, rec.dst)) ==>
              Effective(mounts, path).Some? && Effective(mounts, path) != Some(m)
    decreases mounts
  {
    if mounts != [] && mounts[|mounts| - 1] != m {
      var last := mounts[|mounts| - 1];
      EffectiveSince(mounts[..|mounts| - 1], m, path);
      if PathIsAtOrUnder(path, last.dst) {
        AncestorsCompare(path, last.dst, m.dst);
        assert last in Since(mounts, m);
      }
    }
  }

  /** One more mount leaves what every mounted path shows unchanged exactly when
      its destination is incomparable with that of every earlier mount, or at
      least of those since the same mount was last made. The earlier mounts are
      all that apply before it, registered or not. */
  lemma {:induction false} AppendingKeepsMountedIff(mounts: seq<Mount>, m: Mount)
    ensures KeepsMounted(mounts, mounts + [m]) <==> Apart(Since(mounts, m), m.dst)
  {
    var after := mounts + [m];
    assert after[..|after| - 1] == mounts;
    if Apart(Since(mounts, m), m.dst) {
      forall path | Effective(mounts, path).Some?
        ensures Effective(after, path) == Effective(mounts, path)
      {
        if PathIsAtOrUnder(path, m.dst) {
          EffectiveSince(mounts, m, path);
        }
      }
    } else {
      var rec :| rec in Since(mounts, m) && Comparable(rec.dst, m.dst);
      AtOrUnderIsPrefix(rec.dst, rec.dst);
      AtOrUnderIsPrefix(m.dst, m.dst);
      var path := if PathIsAtOrUnder(rec.dst, m.dst) then rec.dst else m.dst;
      EffectiveSince(mounts, m, path);
      assert Effective(after, path) == Some(m);
    }
  }

  /** Past the guards, the root hides nothing that the registry knows of. */
  lemma {:induction false} SafeRootHidesNothing(reg: Registry, root: string)
    requires WritableAreParity(reg) && Safe(reg, root)
    ensures KeepsMounted(reg.All(), With(reg, Adding(reg, root, root, true)).All())
  {
    GuardsMeanApart(reg, root);
    SafeRootIsAppended(reg, root);
    var m := Mount(root, root, ReadOnly);
    AtOrUnderIsPrefix(root, root);
    assert m in reg.All() ==> Comparable(m.dst, root);
    AppendingKeepsMountedIff(reg.All(), m);
    assert With(reg, Appended(m)).All() == reg.All() + [m];
  }
}
