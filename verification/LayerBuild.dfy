/** The decision which image a run starts, with the staged build of a derived
    image (cmd/claude-contained/layer.go): one launcher's sequence of probes and
    image-store changes, and any number of launchers doing it at once while the
    base image is being retagged. */
module LayerBuild {
  import opened Text

  // ---- Names ------------------------------------------------------------------------

  const REPO := "claude-contained-layer"
  const HASH_LENGTH := 32
  const SUFFIX_LENGTH := 32
  const SLUG_LENGTH := 20

  function TagText(slug: string, hash: string): string {
    REPO + ":" + slug + "-" + hash
  }

  function StageText(tag: string, suffix: string): string {
    tag + "-stage-" + suffix
  }

  /** Tags and stages never clash: equal texts mean equal parts, and no stage is
      a tag, because slugs are short and hashes and suffixes have fixed length. */
  lemma {:induction false} NamesAreDistinct(
    slug: string, hash: string, suffix: string, slug': string, hash': string, suffix': string)
    requires |hash| == |hash'| == HASH_LENGTH && |suffix| == |suffix'| == SUFFIX_LENGTH
    requires |slug| <= SLUG_LENGTH && |slug'| <= SLUG_LENGTH
    ensures TagText(slug, hash) == TagText(slug', hash') ==> slug == slug' && hash == hash'
    ensures StageText(TagText(slug, hash), suffix) == StageText(TagText(slug', hash'), suffix') ==>
              slug == slug' && hash == hash' && suffix == suffix'
    ensures StageText(TagText(slug, hash), suffix) != TagText(slug', hash')
  {
    var t, t' := TagText(slug, hash), TagText(slug', hash');
    if StageText(t, suffix) == StageText(t', suffix') {
      assert |t| == |t'|;
      assert t == StageText(t, suffix)[..|t|] && t' == StageText(t', suffix')[..|t|];
      assert suffix == StageText(t, suffix)[|t| + 7..] && suffix' == StageText(t', suffix')[|t| + 7..];
    }
    if t == t' {
      assert |slug| == |slug'|;
      assert slug == t[|REPO| + 1..|REPO| + 1 + |slug|] && slug' == t'[|REPO| + 1..|REPO| + 1 + |slug|];
      assert hash == t[|t| - 32..] && hash' == t'[|t| - 32..];
    }
  }

  /** Base images are numbered in the order in which the base name first refers
      to them. */
  type Identity = nat

  /** The tags of one project's layer: the final tag carries the hash of the
      layer on one base, a stage in addition the suffix of one attempt. */
  datatype Tag = Final(base: Identity) | Stage(base: Identity, attempt: nat)

  // ---- One launcher --------------------------------------------------------------------

  datatype Layer = NoLayer | BadLayer | LayerFound

  datatype Config = Config(noLayer: bool, layer: Layer, buildLayer: bool, isTTY: bool)

  /** What describing the base image yields: its identity, and whether the
      builder can be given a reference that no retagging moves. */
  datatype Descriptor = Descriptor(identity: Identity, immutable: bool)

  datatype Outcome = BaseImage | Ready(base: Identity) | Failed

  /** What became of the staging image of an attempt. */
  datatype Fate = NoStage | Removed | ConfirmedAbsent | Warned

  datatype Pc =
    | ProbingBase
    | Hashing(d: Descriptor)
    | ProbingTag(d: Descriptor)
    | Asking(d: Descriptor)
    | BuildingFinal(d: Descriptor)
    | Suffixing(d: Descriptor)
    | ProbingBefore(d: Descriptor)
    | BuildingStage(d: Descriptor)
    | ProbingAfter(d: Descriptor)
    | Promoting(d: Descriptor)
    | Removing(d: Descriptor, outcome: Outcome)
    | ProbingStage(d: Descriptor, outcome: Outcome)
    | Done(outcome: Outcome, fate: Fate)

  /** What a launcher asks of the host. */
  datatype Request =
    | DescribeBase
    | HashLayer
    | Describe(tag: Tag)
    | Confirm
    | MakeSuffix
    | BuildFromIdentity(tag: Tag, base: Identity)
    | BuildFromName(tag: Tag)
    | PromoteTag(source: Tag, target: Tag)
    | Remove(tag: Tag)

  /** What comes back: a fault of the request itself, the image it found, or a
      command's success. */
  datatype Answer = Answer(fault: bool, found: Option<Descriptor>, yes: bool)

  function StartOf(cfg: Config): Pc {
    if cfg.noLayer || cfg.layer.NoLayer? then Done(BaseImage, NoStage)
    else if cfg.layer.BadLayer? then Done(Failed, NoStage)
    else ProbingBase
  }

  function RequestOf(pc: Pc, attempt: nat): Request
    requires !pc.Done?
  {
    match pc
    case ProbingBase => DescribeBase
    case Hashing(_) => HashLayer
    case ProbingTag(d) => Describe(Final(d.identity))
    case Asking(_) => Confirm
    case BuildingFinal(d) => BuildFromIdentity(Final(d.identity), d.identity)
    case Suffixing(_) => MakeSuffix
    case ProbingBefore(_) => DescribeBase
    case BuildingStage(d) => BuildFromName(Stage(d.identity, attempt))
    case ProbingAfter(_) => DescribeBase
    case Promoting(d) => PromoteTag(Stage(d.identity, attempt), Final(d.identity))
    case Removing(d, _) => Remove(Stage(d.identity, attempt))
    case ProbingStage(d, _) => Describe(Stage(d.identity, attempt))
  }

  function Decided(d: Descriptor): Pc {
    if d.immutable then BuildingFinal(d) else Suffixing(d)
  }

  predicate SameBase(d: Descriptor, a: Answer) {
    !a.fault && a.found.Some? && a.found.value.identity == d.identity
  }

  function Advance(cfg: Config, pc: Pc, a: Answer): Pc
    requires !pc.Done?
  {
    match pc
    case ProbingBase => if a.fault || a.found.None? then Done(Failed, NoStage) else Hashing(a.found.value)
    case Hashing(d) => if a.fault then Done(Failed, NoStage) else ProbingTag(d)
    case ProbingTag(d) =>
      if a.fault then Done(Failed, NoStage)
      else if a.found.Some? then Done(Ready(d.identity), NoStage)
      else if cfg.buildLayer then Decided(d)
      else if cfg.isTTY then Asking(d)
      else Done(Failed, NoStage)
    case Asking(d) => if a.fault || !a.yes then Done(Failed, NoStage) else Decided(d)
    case BuildingFinal(d) => Done(if a.yes then Ready(d.identity) else Failed, NoStage)
    case Suffixing(d) => if a.fault then Done(Failed, NoStage) else ProbingBefore(d)
    case ProbingBefore(d) => if SameBase(d, a) then BuildingStage(d) else Done(Failed, NoStage)
    case BuildingStage(d) => if a.yes then ProbingAfter(d) else Removing(d, Failed)
    case ProbingAfter(d) => if SameBase(d, a) then Promoting(d) else Removing(d, Failed)
    case Promoting(d) => Removing(d, if a.yes then Ready(d.identity) else Failed)
    case Removing(d, outcome) => if a.yes then Done(outcome, Removed) else ProbingStage(d, outcome)
    case ProbingStage(d, outcome) => Done(outcome, if !a.fault && a.found.None? then ConfirmedAbsent else Warned)
  }

  function StepsLeft(pc: Pc): nat {
    match pc
    case ProbingBase => 12
    case Hashing(_) => 11
    case ProbingTag(_) => 10
    case Asking(_) => 9
    case BuildingFinal(_) => 1
    case Suffixing(_) => 7
    case ProbingBefore(_) => 6
    case BuildingStage(_) => 5
    case ProbingAfter(_) => 4
    case Promoting(_) => 3
    case Removing(_, _) => 2
    case ProbingStage(_, _) => 1
    case Done(_, _) => 0
  }

  /** All that a launcher asks from a point on, and how it ends. */
  function Drive(cfg: Config, attempt: nat, pc: Pc, answers: nat -> Answer, n: nat): (seq<Request>, Pc)
    decreases StepsLeft(pc)
  {
    if pc.Done? then ([], pc)
    else
      var (rest, end) := Drive(cfg, attempt, Advance(cfg, pc, answers(n)), answers, n + 1);
      ([RequestOf(pc, attempt)] + rest, end)
  }

  class Host {
    const answers: nat -> Answer
    var requests: seq<Request>

    constructor (answers: nat -> Answer)
      ensures this.answers == answers && requests == []
    {
      this.answers, requests := answers, [];
    }

    /** At this point the launcher behaves as the whole sequence says. */
    ghost predicate OnTrack(cfg: Config, attempt: nat, pc: Pc)
      reads this
    {
      var whole, rest := Drive(cfg, attempt, StartOf(cfg), answers, 0), Drive(cfg, attempt, pc, answers, |requests|);
      whole.0 == requests + rest.0 && whole.1 == rest.1
    }

    method Ask(r: Request, ghost cfg: Config, ghost attempt: nat, ghost pc: Pc) returns (a: Answer, ghost next: Pc)
      requires OnTrack(cfg, attempt, pc) && !pc.Done? && r == RequestOf(pc, attempt)
      modifies this
      ensures a == answers(old(|requests|)) && requests == old(requests) + [r]
      ensures next == Advance(cfg, pc, a) && OnTrack(cfg, attempt, next)
    {
      a := answers(|requests|);
      next := Advance(cfg, pc, a);
      ghost var rest := Drive(cfg, attempt, next, answers, |requests| + 1).0;
      assert requests + ([r] + rest) == requests + [r] + rest;
      requests := requests + [r];
    }

    method ResolveLayerImage(cfg: Config, attempt: nat) returns (outcome: Outcome, fate: Fate)
      requires requests == []
      modifies this
      ensures Drive(cfg, attempt, StartOf(cfg), answers, 0).0 == requests
      ensures Drive(cfg, attempt, StartOf(cfg), answers, 0).1 == Done(outcome, fate)
    {
      if cfg.noLayer || cfg.layer.NoLayer? {
        return BaseImage, NoStage;
      }
      if cfg.layer.BadLayer? {
        return Failed, NoStage;
      }
      ghost var pc := ProbingBase;
      var a;
      a, pc := Ask(DescribeBase, cfg, attempt, pc);
      if a.fault || a.found.None? {
        return Failed, NoStage;
      }
      var base := a.found.value;
      a, pc := Ask(HashLayer, cfg, attempt, pc);
      if a.fault {
        return Failed, NoStage;
      }
      a, pc := Ask(Describe(Final(base.identity)), cfg, attempt, pc);
      if a.fault {
        return Failed, NoStage;
      }
      if a.found.Some? {
        return Ready(base.identity), NoStage;
      }
      if !cfg.buildLayer {
        if !cfg.isTTY {
          return Failed, NoStage;
        }
        a, pc := Ask(Confirm, cfg, attempt, pc);
        if a.fault || !a.yes {
          return Failed, NoStage;
        }
      }
      if base.immutable {
        a, pc := Ask(BuildFromIdentity(Final(base.identity), base.identity), cfg, attempt, pc);
        return if a.yes then Ready(base.identity) else Failed, NoStage;
      }
      outcome, fate := BuildStaged(cfg, attempt, base);
    }

    /** The staged build, for a base that the builder can only be given by name. */
    method BuildStaged(ghost cfg: Config, attempt: nat, base: Descriptor) returns (outcome: Outcome, fate: Fate)
      requires OnTrack(cfg, attempt, Suffixing(base))
      modifies this
      ensures OnTrack(cfg, attempt, Done(outcome, fate))
    {
      ghost var pc := Suffixing(base);
      var a;
      a, pc := Ask(MakeSuffix, cfg, attempt, pc);
      if a.fault {
        return Failed, NoStage;
      }
      a, pc := Ask(DescribeBase, cfg, attempt, pc);
      if !SameBase(base, a) {
        return Failed, NoStage;
      }
      var promoted := BuildAndPromote(cfg, attempt, base);
      outcome := if promoted then Ready(base.identity) else Failed;
      fate := Cleanup(cfg, attempt, base, outcome);
    }

    method BuildAndPromote(ghost cfg: Config, attempt: nat, base: Descriptor) returns (promoted: bool)
      requires OnTrack(cfg, attempt, BuildingStage(base))
      modifies this
      ensures OnTrack(cfg, attempt, Removing(base, if promoted then Ready(base.identity) else Failed))
    {
      ghost var pc := BuildingStage(base);
      var stage := Stage(base.identity, attempt);
      var a;
      a, pc := Ask(BuildFromName(stage), cfg, attempt, pc);
      if !a.yes {
        return false;
      }
      a, pc := Ask(DescribeBase, cfg, attempt, pc);
      if !SameBase(base, a) {
        return false;
      }
      a, pc := Ask(PromoteTag(stage, Final(base.identity)), cfg, attempt, pc);
      promoted := a.yes;
    }

    method Cleanup(ghost cfg: Config, attempt: nat, base: Descriptor, ghost outcome: Outcome) returns (fate: Fate)
      requires OnTrack(cfg, attempt, Removing(base, outcome))
      modifies this
      ensures OnTrack(cfg, attempt, Done(outcome, fate))
    {
      ghost var pc := Removing(base, outcome);
      var a;
      a, pc := Ask(Remove(Stage(base.identity, attempt)), cfg, attempt, pc);
      if a.yes {
        return Removed;
      }
      a, pc := Ask(Describe(Stage(base.identity, attempt)), cfg, attempt, pc);
      return if !a.fault && a.found.None? then ConfirmedAbsent else Warned;
    }
  }

  // ---- Any number of launchers -----------------------------------------------------------

  /** What the image store holds: the base name, and the base that each derived
      image was built from. */
  datatype Store = Store(base: Identity, basePresent: bool, builtFrom: map<Tag, Identity>)

  datatype State = State(store: Store, pcs: seq<Pc>)

  datatype Action =
    | Act(id: nat, answer: Answer)
    | Retag(base: Identity, present: bool)
    | Prune(tag: Tag)

  /** The answer that the store can give, if the request is not at fault. */
  predicate Answers(store: Store, r: Request, a: Answer) {
    match r
    case DescribeBase =>
      a.fault || if a.found.Some? then store.basePresent && a.found.value.identity == store.base else !store.basePresent
    case Describe(tag) => a.fault || (a.found.Some? <==> tag in store.builtFrom)
    case BuildFromName(_) => a.yes ==> store.basePresent
    case PromoteTag(source, _) => a.yes ==> source in store.builtFrom
    case _ => true
  }

  function Effect(store: Store, r: Request, a: Answer): Store
    requires Answers(store, r, a)
  {
    if !a.yes then store
    else match r
      case BuildFromIdentity(tag, base) => store.(builtFrom := store.builtFrom[tag := base])
      case BuildFromName(tag) => store.(builtFrom := store.builtFrom[tag := store.base])
      case PromoteTag(source, target) => store.(builtFrom := store.builtFrom[target := store.builtFrom[source]])
      case Remove(tag) => store.(builtFrom := store.builtFrom - {tag})
      case _ => store
  }

  function Apply(cfgs: seq<Config>, s: State, a: Action): (r: Option<State>)
    requires |s.pcs| == |cfgs|
    ensures r.Some? ==> |r.value.pcs| == |cfgs|
  {
    match a
    case Retag(base, present) => Some(s.(store := s.store.(base := base, basePresent := present)))
    case Prune(tag) => Some(s.(store := s.store.(builtFrom := s.store.builtFrom - {tag})))
    case Act(id, answer) =>
      if id >= |cfgs| || s.pcs[id].Done? || !Answers(s.store, RequestOf(s.pcs[id], id), answer) then None
      else
        Some(State(Effect(s.store, RequestOf(s.pcs[id], id), answer),
                   s.pcs[id := Advance(cfgs[id], s.pcs[id], answer)]))
  }

  function Play(cfgs: seq<Config>, s: State, actions: seq<Action>): (r: Option<State>)
    requires |s.pcs| == |cfgs|
    ensures r.Some? ==> |r.value.pcs| == |cfgs|
    decreases actions
  {
    if actions == [] then Some(s)
    else match Apply(cfgs, s, actions[0])
      case None => None
      case Some(next) => Play(cfgs, next, actions[1..])
  }

  ghost predicate NamesItsBase(store: Store) {
    forall b :: Final(b) in store.builtFrom ==> store.builtFrom[Final(b)] == b
  }

  /** Derived images may exist beforehand, but no stage of these attempts. */
  ghost predicate Initial(cfgs: seq<Config>, s: State) {
    && |s.pcs| == |cfgs|
    && (forall i :: 0 <= i < |cfgs| ==> s.pcs[i] == StartOf(cfgs[i]))
    && NamesItsBase(s.store)
    && (forall b, i :: 0 <= i < |cfgs| ==> Stage(b, i) !in s.store.builtFrom)
  }

  /** Where an attempt's stage may exist. */
  predicate MayHaveStage(pc: Pc) {
    || pc.ProbingAfter? || pc.Promoting? || pc.Removing? || pc.ProbingStage?
    || (pc.Done? && pc.fate.Warned?)
  }

  /** Where this attempt's stage may be, and that a stage about to be promoted
      was built from the base it is promoted for. */
  ghost predicate LauncherInv(store: Store, id: nat, pc: Pc) {
    && (forall b :: Stage(b, id) in store.builtFrom ==> MayHaveStage(pc) && (!pc.Done? ==> b == pc.d.identity))
    && (pc.Promoting? && Stage(pc.d.identity, id) in store.builtFrom ==>
          store.builtFrom[Stage(pc.d.identity, id)] == pc.d.identity)
  }

  ghost predicate Inv(cfgs: seq<Config>, s: State) {
    && |s.pcs| == |cfgs|
    && NamesItsBase(s.store)
    && forall i :: 0 <= i < |cfgs| ==> LauncherInv(s.store, i, s.pcs[i])
  }

  /** The probe after a build sees the expected base although the stage was
      built from another one. */
  predicate Missed(s: State, a: Action) {
    && a.Act? && a.id < |s.pcs| && s.pcs[a.id].ProbingAfter?
    && var d, stage := s.pcs[a.id].d, Stage(s.pcs[a.id].d.identity, a.id);
       SameBase(d, a.answer) && stage in s.store.builtFrom && s.store.builtFrom[stage] != d.identity
  }

  ghost predicate NoneMissed(cfgs: seq<Config>, s: State, actions: seq<Action>)
    requires |s.pcs| == |cfgs|
    decreases actions
  {
    actions != [] ==>
      && !Missed(s, actions[0])
      && (Apply(cfgs, s, actions[0]).Some? ==> NoneMissed(cfgs, Apply(cfgs, s, actions[0]).value, actions[1..]))
  }

  lemma {:induction false} ActKeepsOwnInv(cfg: Config, store: Store, id: nat, pc: Pc, a: Answer)
    requires LauncherInv(store, id, pc) && NamesItsBase(store) && !pc.Done?
    requires Answers(store, RequestOf(pc, id), a)
    ensures NamesItsBase(Effect(store, RequestOf(pc, id), a))
    ensures (pc.ProbingAfter? && SameBase(pc.d, a) && Stage(pc.d.identity, id) in store.builtFrom ==>
              store.builtFrom[Stage(pc.d.identity, id)] == pc.d.identity) ==>
              LauncherInv(Effect(store, RequestOf(pc, id), a), id, Advance(cfg, pc, a))
  {
  }

  /** Another attempt's step neither makes nor changes this attempt's stage. */
  lemma {:induction false} ActKeepsOthersStage(store: Store, id: nat, pc: Pc, a: Answer, other: nat, b: Identity)
    requires other != id && !pc.Done? && Answers(store, RequestOf(pc, id), a)
    ensures var store' := Effect(store, RequestOf(pc, id), a);
            && (Stage(b, other) in store'.builtFrom <==> Stage(b, other) in store.builtFrom)
            && (Stage(b, other) in store.builtFrom ==>
                  store'.builtFrom[Stage(b, other)] == store.builtFrom[Stage(b, other)])
  {
  }

  lemma {:induction false} ActKeepsOtherInv(store: Store, id: nat, pc: Pc, a: Answer, other: nat, otherPc: Pc)
    requires LauncherInv(store, other, otherPc) && other != id && !pc.Done?
    requires Answers(store, RequestOf(pc, id), a)
    ensures LauncherInv(Effect(store, RequestOf(pc, id), a), other, otherPc)
  {
    forall b
      ensures Stage(b, other) in Effect(store, RequestOf(pc, id), a).builtFrom <==> Stage(b, other) in store.builtFrom
    {
      ActKeepsOthersStage(store, id, pc, a, other, b);
    }
    if otherPc.Promoting? {
      ActKeepsOthersStage(store, id, pc, a, other, otherPc.d.identity);
    }
  }

  lemma {:induction false} StepKeepsInv(cfgs: seq<Config>, s: State, a: Action)
    requires Inv(cfgs, s) && Apply(cfgs, s, a).Some? && !Missed(s, a)
    ensures Inv(cfgs, Apply(cfgs, s, a).value)
  {
    var s' := Apply(cfgs, s, a).value;
    if a.Act? {
      assert LauncherInv(s.store, a.id, s.pcs[a.id]);
      ActKeepsOwnInv(cfgs[a.id], s.store, a.id, s.pcs[a.id], a.answer);
    }
    forall i | 0 <= i < |cfgs|
      ensures LauncherInv(s'.store, i, s'.pcs[i])
    {
      assert LauncherInv(s.store, i, s.pcs[i]);
      if a.Act? && i != a.id {
        ActKeepsOtherInv(s.store, a.id, s.pcs[a.id], a.answer, i, s.pcs[i]);
      }
    }
  }

  lemma {:induction false} PlayKeepsInv(cfgs: seq<Config>, s: State, actions: seq<Action>)
    requires Inv(cfgs, s) && NoneMissed(cfgs, s, actions) && Play(cfgs, s, actions).Some?
    ensures Inv(cfgs, Play(cfgs, s, actions).value)
    decreases actions
  {
    if actions != [] {
      StepKeepsInv(cfgs, s, actions[0]);
      PlayKeepsInv(cfgs, Apply(cfgs, s, actions[0]).value, actions[1..]);
    }
  }

  /** In every interleaving of any number of attempts with retags of the base
      name and removals of images: unless a probe misses that a stage was built
      from another base, a derived tag that exists names an image built from
      the very base hashed into it, and a stage left behind by a finished
      attempt has been warned about. */
  lemma {:induction false} DerivedTagNamesItsBase(cfgs: seq<Config>, s: State, actions: seq<Action>, s': State)
    requires Initial(cfgs, s) && NoneMissed(cfgs, s, actions) && Play(cfgs, s, actions) == Some(s')
    ensures NamesItsBase(s'.store)
    ensures forall b, i :: 0 <= i < |cfgs| && Stage(b, i) in s'.store.builtFrom && s'.pcs[i].Done? ==>
              s'.pcs[i].fate.Warned?
  {
    assert Inv(cfgs, s);
    PlayKeepsInv(cfgs, s, actions);
    forall b, i | 0 <= i < |cfgs| && Stage(b, i) in s'.store.builtFrom && s'.pcs[i].Done?
      ensures s'.pcs[i].fate.Warned?
    {
      assert LauncherInv(s'.store, i, s'.pcs[i]);
    }
  }

  // ---- The exact condition --------------------------------------------------------------

  /** At no time during the play does a derived tag name another base, and at no
      time could one more step of a launcher make it do so. */
  ghost predicate StaysNamed(cfgs: seq<Config>, s: State, actions: seq<Action>)
    requires |s.pcs| == |cfgs|
    decreases actions
  {
    && NamesItsBase(s.store)
    && (forall id: nat, answer :: Apply(cfgs, s, Act(id, answer)).Some? ==>
          NamesItsBase(Apply(cfgs, s, Act(id, answer)).value.store))
    && (actions != [] && Apply(cfgs, s, actions[0]).Some? ==>
          StaysNamed(cfgs, Apply(cfgs, s, actions[0]).value, actions[1..]))
  }

  const PROMOTED := Answer(false, None, true)

  /** After a missed step, promoting the stage names the wrong base. */
  lemma {:induction false} MissedStepMisnames(cfgs: seq<Config>, s: State, a: Action, s': State)
    requires |s.pcs| == |cfgs| && Missed(s, a) && Apply(cfgs, s, a) == Some(s')
    ensures Apply(cfgs, s', Act(a.id, PROMOTED)).Some?
    ensures !NamesItsBase(Apply(cfgs, s', Act(a.id, PROMOTED)).value.store)
  {
    var b := s.pcs[a.id].d.identity;
    var wrong := Apply(cfgs, s', Act(a.id, PROMOTED)).value.store;
    assert Final(b) in wrong.builtFrom && wrong.builtFrom[Final(b)] != b;
  }

  lemma {:induction false} NamedExactly(cfgs: seq<Config>, s: State, actions: seq<Action>)
    requires Inv(cfgs, s) && Play(cfgs, s, actions).Some?
    ensures NoneMissed(cfgs, s, actions) <==> StaysNamed(cfgs, s, actions)
    decreases actions
  {
    forall id: nat, answer | Apply(cfgs, s, Act(id, answer)).Some?
      ensures NamesItsBase(Apply(cfgs, s, Act(id, answer)).value.store)
    {
      assert LauncherInv(s.store, id, s.pcs[id]);
      ActKeepsOwnInv(cfgs[id], s.store, id, s.pcs[id], answer);
    }
    if actions != [] {
      var next := Apply(cfgs, s, actions[0]).value;
      if Missed(s, actions[0]) {
        MissedStepMisnames(cfgs, s, actions[0], next);
      } else {
        StepKeepsInv(cfgs, s, actions[0]);
        NamedExactly(cfgs, next, actions[1..]);
      }
    }
  }

  /** From any initial store: the derived tags stay right, now and whatever a
      launcher does next, if and only if no probe misses a foreign stage. */
  lemma {:induction false} NamedIffNoneMissed(cfgs: seq<Config>, s: State, actions: seq<Action>)
    requires Initial(cfgs, s) && Play(cfgs, s, actions).Some?
    ensures StaysNamed(cfgs, s, actions) <==> NoneMissed(cfgs, s, actions)
  {
    assert Inv(cfgs, s);
    NamedExactly(cfgs, s, actions);
  }

  // ---- If the base name only moves forward ----------------------------------------------

  /** The base name never goes back to an earlier image. */
  ghost predicate Forward(cfgs: seq<Config>, s: State, actions: seq<Action>)
    requires |s.pcs| == |cfgs|
    decreases actions
  {
    actions != [] ==>
      && (actions[0].Retag? ==> s.store.base <= actions[0].base)
      && (Apply(cfgs, s, actions[0]).Some? ==> Forward(cfgs, Apply(cfgs, s, actions[0]).value, actions[1..]))
  }

  /** What an attempt has seen lies between the base it started from and the
      present one. */
  ghost predicate Ordered(store: Store, id: nat, pc: Pc) {
    && (!pc.ProbingBase? && !pc.Done? ==> pc.d.identity <= store.base)
    && (pc.ProbingAfter? && Stage(pc.d.identity, id) in store.builtFrom ==>
          pc.d.identity <= store.builtFrom[Stage(pc.d.identity, id)] <= store.base)
  }

  lemma {:induction false} ForwardKeepsOrdered(cfgs: seq<Config>, s: State, a: Action, s': State, i: nat)
    requires |s.pcs| == |cfgs| && i < |cfgs| && Ordered(s.store, i, s.pcs[i])
    requires Apply(cfgs, s, a) == Some(s') && (a.Retag? ==> s.store.base <= a.base)
    ensures Ordered(s'.store, i, s'.pcs[i])
  {
    if a.Act? && i != a.id && s.pcs[i].ProbingAfter? {
      ActKeepsOthersStage(s.store, a.id, s.pcs[a.id], a.answer, i, s.pcs[i].d.identity);
    }
  }

  lemma {:induction false} OrderedMissesNone(cfgs: seq<Config>, s: State, actions: seq<Action>)
    requires |s.pcs| == |cfgs| && forall i :: 0 <= i < |cfgs| ==> Ordered(s.store, i, s.pcs[i])
    requires Forward(cfgs, s, actions) && Play(cfgs, s, actions).Some?
    ensures NoneMissed(cfgs, s, actions)
    decreases actions
  {
    if actions != [] {
      var next := Apply(cfgs, s, actions[0]).value;
      forall i | 0 <= i < |cfgs|
        ensures Ordered(next.store, i, next.pcs[i])
      {
        ForwardKeepsOrdered(cfgs, s, actions[0], next, i);
      }
      OrderedMissesNone(cfgs, next, actions[1..]);
    }
  }

  /** A base name that only moves forward is never missed, so that every derived
      tag names its base. */
  lemma {:induction false} ForwardMissesNone(cfgs: seq<Config>, s: State, actions: seq<Action>)
    requires Initial(cfgs, s) && Forward(cfgs, s, actions) && Play(cfgs, s, actions).Some?
    ensures NoneMissed(cfgs, s, actions)
  {
    OrderedMissesNone(cfgs, s, actions);
  }

  /** On its way to handing out the derived image, or there already. */
  ghost predicate Succeeding(pc: Pc) {
    (pc.Removing? || pc.ProbingStage? || pc.Done?) && pc.outcome.Ready?
  }

  ghost predicate FinalsKept(before: Store, after: Store) {
    forall b :: (Final(b) in after.builtFrom <==> Final(b) in before.builtFrom)
             && (Final(b) in before.builtFrom ==> after.builtFrom[Final(b)] == before.builtFrom[Final(b)])
  }

  /** Only an attempt that ends by handing out the derived image ever moves a
      final tag: a step of a launcher that moves one commits it to success,
      whatever happens afterwards. */
  lemma {:induction false} OnlySuccessMovesFinal(
    cfgs: seq<Config>, s: State, id: nat, answer: Answer, later: seq<Action>)
    requires |s.pcs| == |cfgs| && id < |cfgs|
    requires Play(cfgs, s, [Act(id, answer)] + later).Some?
    ensures var s' := Apply(cfgs, s, Act(id, answer));
            && s'.Some?
            && (!FinalsKept(s.store, s'.value.store) ==>
                  Succeeding(Play(cfgs, s, [Act(id, answer)] + later).value.pcs[id]))
  {
    var actions := [Act(id, answer)] + later;
    assert actions[1..] == later;
    var s' := Apply(cfgs, s, Act(id, answer)).value;
    if !FinalsKept(s.store, s'.store) {
      SuccessStays(cfgs, s', id, later);
    }
  }

  lemma {:induction false} SuccessStays(cfgs: seq<Config>, s: State, id: nat, actions: seq<Action>)
    requires |s.pcs| == |cfgs| && id < |cfgs| && Succeeding(s.pcs[id])
    requires Play(cfgs, s, actions).Some?
    ensures Succeeding(Play(cfgs, s, actions).value.pcs[id])
    decreases actions
  {
    if actions != [] {
      SuccessStays(cfgs, Apply(cfgs, s, actions[0]).value, id, actions[1..]);
    }
  }

  /** An attempt that has asked for a staged build never ends without saying
      what became of the stage. */
  lemma {:induction false} StageIsAccountedFor(cfg: Config, attempt: nat, pc: Pc, answers: nat -> Answer, n: nat)
    ensures var (requests, end) := Drive(cfg, attempt, pc, answers, n);
            && end.Done?
            && ((exists b :: BuildFromName(Stage(b, attempt)) in requests) ==> !end.fate.NoStage?)
            && (pc.Removing? || pc.ProbingStage? || pc.ProbingAfter? || pc.Promoting? ==> !end.fate.NoStage?)
            && |requests| <= StepsLeft(pc)
    decreases StepsLeft(pc)
  {
    if !pc.Done? {
      StageIsAccountedFor(cfg, attempt, Advance(cfg, pc, answers(n)), answers, n + 1);
    }
  }

  // ---- What an attempt's outcome says -------------------------------------------------------

  /** The answer that makes the derived image on this base available. */
  predicate MakesReady(r: Request, a: Answer, b: Identity) {
    match r
    case Describe(tag) => tag == Final(b) && !a.fault && a.found.Some?
    case BuildFromIdentity(tag, base) => tag == Final(b) && base == b && a.yes
    case PromoteTag(_, target) => target == Final(b) && a.yes
    case _ => false
  }

  predicate SucceedingFor(pc: Pc, b: Identity) {
    (pc.Removing? || pc.ProbingStage? || pc.Done?) && pc.outcome == Ready(b)
  }

  /** One of the requests made the derived image available; `n` is the place of
      the first answer. */
  ghost predicate GotReady(requests: seq<Request>, answers: nat -> Answer, n: nat, b: Identity) {
    exists i :: 0 <= i < |requests| && MakesReady(requests[i], answers(n + i), b)
  }

  lemma {:induction false} GotReadyStep(r: Request, rest: seq<Request>, answers: nat -> Answer, n: nat, b: Identity)
    ensures GotReady([r] + rest, answers, n, b) <==> MakesReady(r, answers(n), b) || GotReady(rest, answers, n + 1, b)
  {
    var all := [r] + rest;
    if MakesReady(r, answers(n), b) {
      assert MakesReady(all[0], answers(n + 0), b);
    }
    if GotReady(rest, answers, n + 1, b) {
      var i :| 0 <= i < |rest| && MakesReady(rest[i], answers(n + 1 + i), b);
      assert n + 1 + i == n + (i + 1) && MakesReady(all[i + 1], answers(n + (i + 1)), b);
    }
    if GotReady(all, answers, n, b) {
      var i :| 0 <= i < |all| && MakesReady(all[i], answers(n + i), b);
      assert i > 0 ==> n + i == n + 1 + (i - 1) && MakesReady(rest[i - 1], answers(n + 1 + (i - 1)), b);
    }
  }

  /** From any point on, an attempt ends with the derived image exactly when it
      has it already or one of its requests makes it available. */
  lemma {:induction false} ReadyFromIff(
    cfg: Config, attempt: nat, pc: Pc, answers: nat -> Answer, n: nat, b: Identity)
    ensures var (requests, end) := Drive(cfg, attempt, pc, answers, n);
            end.Done? && (end.outcome == Ready(b) <==> SucceedingFor(pc, b) || GotReady(requests, answers, n, b))
    decreases StepsLeft(pc)
  {
    if !pc.Done? {
      var next := Advance(cfg, pc, answers(n));
      ReadyFromIff(cfg, attempt, next, answers, n + 1, b);
      GotReadyStep(RequestOf(pc, attempt), Drive(cfg, attempt, next, answers, n + 1).0, answers, n, b);
      AdvanceMakesReady(cfg, attempt, pc, answers(n), b);
    }
  }

  lemma {:induction false} AdvanceMakesReady(cfg: Config, attempt: nat, pc: Pc, a: Answer, b: Identity)
    requires !pc.Done?
    ensures SucceedingFor(Advance(cfg, pc, a), b) <==>
              SucceedingFor(pc, b) || MakesReady(RequestOf(pc, attempt), a, b)
  {
  }

  /** A whole attempt ends with the derived image on a base if and only if it
      found its tag, or built it, or promoted a stage to it; and with the base
      image if and only if there is no layer or none is wanted. */
  lemma {:induction false} OutcomeIff(cfg: Config, attempt: nat, answers: nat -> Answer, b: Identity)
    ensures var (requests, end) := Drive(cfg, attempt, StartOf(cfg), answers, 0);
            && end.Done?
            && (end.outcome == Ready(b) <==> GotReady(requests, answers, 0, b))
            && (end.outcome == BaseImage <==> cfg.noLayer || cfg.layer.NoLayer?)
  {
    ReadyFromIff(cfg, attempt, StartOf(cfg), answers, 0, b);
    NeverBaseImage(cfg, attempt, StartOf(cfg), answers, 0);
  }

  lemma {:induction false} NeverBaseImage(cfg: Config, attempt: nat, pc: Pc, answers: nat -> Answer, n: nat)
    ensures var end := Drive(cfg, attempt, pc, answers, n).1;
            && end.Done?
            && (end.outcome == BaseImage <==>
                  (pc.Removing? || pc.ProbingStage? || pc.Done?) && pc.outcome == BaseImage)
    decreases StepsLeft(pc)
  {
    if !pc.Done? {
      NeverBaseImage(cfg, attempt, Advance(cfg, pc, answers(n)), answers, n + 1);
    }
  }

  // ---- The decision in terms of the answers alone -----------------------------------------------

  /** A build is wanted: by the flag, or by the user's answer to the question. */
  predicate Consents(cfg: Config, a: Answer) {
    cfg.buildLayer || (cfg.isTTY && !a.fault && a.yes)
  }

  /** A build at this point works: at once for a base that cannot move; else the
      suffix is there, the base is the same before and after, and the build and
      the promotion work. */
  predicate BuildWorks(d: Descriptor, answers: nat -> Answer, n: nat) {
    if d.immutable then answers(n).yes
    else
      && !answers(n).fault && SameBase(d, answers(n + 1)) && answers(n + 2).yes
      && SameBase(d, answers(n + 3)) && answers(n + 4).yes
  }

  /** When an attempt hands out the derived image, read off its answers. */
  predicate ReadyWhen(cfg: Config, answers: nat -> Answer, b: Identity) {
    && !cfg.noLayer && cfg.layer.LayerFound?
    && !answers(0).fault && answers(0).found.Some? && answers(0).found.value.identity == b
    && !answers(1).fault && !answers(2).fault
    && (|| answers(2).found.Some?
        || (Consents(cfg, answers(3)) && BuildWorks(answers(0).found.value, answers, if cfg.buildLayer then 3 else 4)))
  }

  lemma {:induction false} OneRequest(cfg: Config, attempt: nat, pc: Pc, answers: nat -> Answer, n: nat)
    requires !pc.Done?
    ensures Drive(cfg, attempt, pc, answers, n).1
         == Drive(cfg, attempt, Advance(cfg, pc, answers(n)), answers, n + 1).1
  {
  }

  lemma {:induction false} DoneEnds(
    cfg: Config, attempt: nat, outcome: Outcome, fate: Fate, answers: nat -> Answer, n: nat)
    ensures Drive(cfg, attempt, Done(outcome, fate), answers, n).1 == Done(outcome, fate)
  {
  }

  lemma {:induction false} CleanupKeepsOutcome(
    cfg: Config, attempt: nat, d: Descriptor, outcome: Outcome, answers: nat -> Answer, n: nat)
    ensures var end := Drive(cfg, attempt, Removing(d, outcome), answers, n).1;
            end.Done? && end.outcome == outcome
  {
    OneRequest(cfg, attempt, Removing(d, outcome), answers, n);
    if !answers(n).yes {
      OneRequest(cfg, attempt, ProbingStage(d, outcome), answers, n + 1);
    }
  }

  lemma {:induction false} StagedEnd(cfg: Config, attempt: nat, d: Descriptor, answers: nat -> Answer, n: nat)
    ensures var end := Drive(cfg, attempt, BuildingStage(d), answers, n).1;
            && end.Done?
            && end.outcome == if answers(n).yes && SameBase(d, answers(n + 1)) && answers(n + 2).yes
                              then Ready(d.identity) else Failed
  {
    OneRequest(cfg, attempt, BuildingStage(d), answers, n);
    if !answers(n).yes {
      CleanupKeepsOutcome(cfg, attempt, d, Failed, answers, n + 1);
    } else {
      OneRequest(cfg, attempt, ProbingAfter(d), answers, n + 1);
      if !SameBase(d, answers(n + 1)) {
        CleanupKeepsOutcome(cfg, attempt, d, Failed, answers, n + 2);
      } else {
        OneRequest(cfg, attempt, Promoting(d), answers, n + 2);
        CleanupKeepsOutcome(
          cfg, attempt, d, if answers(n + 2).yes then Ready(d.identity) else Failed, answers, n + 3);
      }
    }
  }

  lemma {:induction false} DecidedEnd(cfg: Config, attempt: nat, d: Descriptor, answers: nat -> Answer, n: nat)
    ensures var end := Drive(cfg, attempt, Decided(d), answers, n).1;
            end.Done? && end.outcome == if BuildWorks(d, answers, n) then Ready(d.identity) else Failed
  {
    OneRequest(cfg, attempt, Decided(d), answers, n);
    if d.immutable {
      DoneEnds(cfg, attempt, if answers(n).yes then Ready(d.identity) else Failed, NoStage, answers, n + 1);
    } else if answers(n).fault {
      DoneEnds(cfg, attempt, Failed, NoStage, answers, n + 1);
    } else {
      OneRequest(cfg, attempt, ProbingBefore(d), answers, n + 1);
      if SameBase(d, answers(n + 1)) {
        StagedEnd(cfg, attempt, d, answers, n + 2);
        assert n + 2 + 1 == n + 3 && n + 2 + 2 == n + 4;
      } else {
        DoneEnds(cfg, attempt, Failed, NoStage, answers, n + 2);
      }
    }
  }

  lemma {:induction false} TagEnd(cfg: Config, attempt: nat, d: Descriptor, answers: nat -> Answer, n: nat)
    ensures var end := Drive(cfg, attempt, ProbingTag(d), answers, n).1;
            && end.Done?
            && end.outcome ==
                 if !answers(n).fault
                    && (answers(n).found.Some?
                        || (Consents(cfg, answers(n + 1))
                            && BuildWorks(d, answers, if cfg.buildLayer then n + 1 else n + 2)))
                 then Ready(d.identity) else Failed
  {
    OneRequest(cfg, attempt, ProbingTag(d), answers, n);
    var next := Advance(cfg, ProbingTag(d), answers(n));
    if next.Done? {
      DoneEnds(cfg, attempt, next.outcome, next.fate, answers, n + 1);
    } else if cfg.buildLayer {
      DecidedEnd(cfg, attempt, d, answers, n + 1);
    } else {
      OneRequest(cfg, attempt, Asking(d), answers, n + 1);
      if Consents(cfg, answers(n + 1)) {
        DecidedEnd(cfg, attempt, d, answers, n + 2);
      } else {
        DoneEnds(cfg, attempt, Failed, NoStage, answers, n + 2);
      }
    }
  }

  /** The whole decision: an attempt hands out the derived image on a base in
      exactly these cases. */
  lemma {:induction false} ReadyExactlyWhen(cfg: Config, attempt: nat, answers: nat -> Answer, b: Identity)
    ensures var end := Drive(cfg, attempt, StartOf(cfg), answers, 0).1;
            end.Done? && (end.outcome == Ready(b) <==> ReadyWhen(cfg, answers, b))
  {
    var start := StartOf(cfg);
    if start.Done? {
      DoneEnds(cfg, attempt, start.outcome, start.fate, answers, 0);
    } else {
      OneRequest(cfg, attempt, ProbingBase, answers, 0);
      if answers(0).fault || answers(0).found.None? {
        DoneEnds(cfg, attempt, Failed, NoStage, answers, 1);
      } else {
        var d := answers(0).found.value;
        OneRequest(cfg, attempt, Hashing(d), answers, 1);
        if answers(1).fault {
          DoneEnds(cfg, attempt, Failed, NoStage, answers, 2);
        } else {
          TagEnd(cfg, attempt, d, answers, 2);
        }
      }
    }
  }

  predicate IsBuild(r: Request) {
    r.BuildFromIdentity? || r.BuildFromName?
  }

  /** The build has been agreed to. */
  predicate Agreed(pc: Pc) {
    StepsLeft(pc) < 9 && !pc.Done?
  }

  lemma {:induction false} BuildsNeedConsent(cfg: Config, attempt: nat, pc: Pc, answers: nat -> Answer, n: nat, i: nat)
    requires i < |Drive(cfg, attempt, pc, answers, n).0| && IsBuild(Drive(cfg, attempt, pc, answers, n).0[i])
    ensures || cfg.buildLayer || Agreed(pc)
            || exists j :: 0 <= j < i && Drive(cfg, attempt, pc, answers, n).0[j] == Confirm
                 && !answers(n + j).fault && answers(n + j).yes
    decreases StepsLeft(pc)
  {
    var requests, next := Drive(cfg, attempt, pc, answers, n).0, Advance(cfg, pc, answers(n));
    var rest := Drive(cfg, attempt, next, answers, n + 1).0;
    assert requests[0] == RequestOf(pc, attempt);
    if i > 0 {
      assert requests[i] == rest[i - 1];
      BuildsNeedConsent(cfg, attempt, next, answers, n + 1, i - 1);
      if !cfg.buildLayer && !Agreed(pc) {
        if Agreed(next) {
          assert requests[0] == Confirm && !answers(n + 0).fault && answers(n + 0).yes;
        } else {
          var j :| 0 <= j < i - 1 && rest[j] == Confirm && !answers(n + 1 + j).fault && answers(n + 1 + j).yes;
          assert n + 1 + j == n + (j + 1) && requests[j + 1] == Confirm;
          assert !answers(n + (j + 1)).fault && answers(n + (j + 1)).yes;
        }
      }
    }
  }

  /** Nothing is ever built that neither the flag nor the user asked for. */
  lemma {:induction false} NoBuildUnasked(cfg: Config, attempt: nat, answers: nat -> Answer, i: nat)
    requires i < |Drive(cfg, attempt, StartOf(cfg), answers, 0).0|
    requires IsBuild(Drive(cfg, attempt, StartOf(cfg), answers, 0).0[i])
    ensures || cfg.buildLayer
            || exists j :: 0 <= j < i && Drive(cfg, attempt, StartOf(cfg), answers, 0).0[j] == Confirm
                 && !answers(j).fault && answers(j).yes
  {
    BuildsNeedConsent(cfg, attempt, StartOf(cfg), answers, 0, i);
    if !cfg.buildLayer {
      var requests := Drive(cfg, attempt, StartOf(cfg), answers, 0).0;
      var j :| 0 <= j < i && requests[j] == Confirm && !answers(0 + j).fault && answers(0 + j).yes;
      assert requests[j] == Confirm && !answers(j).fault && answers(j).yes;
    }
  }

  // ---- What became of the stage -----------------------------------------------------------------

  /** The answer that settles the stage's fate. */
  predicate Settles(r: Request, a: Answer, attempt: nat, fate: Fate) {
    match r
    case Remove(_) => fate.Removed? && a.yes
    case Describe(tag) =>
      tag.Stage? && tag.attempt == attempt && fate == if !a.fault && a.found.None? then ConfirmedAbsent else Warned
    case _ => false
  }

  ghost predicate WasSettled(
    requests: seq<Request>, answers: nat -> Answer, n: nat, attempt: nat, fate: Fate)
  {
    exists i :: 0 <= i < |requests| && Settles(requests[i], answers(n + i), attempt, fate)
  }

  lemma {:induction false} WasSettledStep(
    r: Request, rest: seq<Request>, answers: nat -> Answer, n: nat, attempt: nat, fate: Fate)
    ensures WasSettled([r] + rest, answers, n, attempt, fate) <==>
              Settles(r, answers(n), attempt, fate) || WasSettled(rest, answers, n + 1, attempt, fate)
  {
    var all := [r] + rest;
    if Settles(r, answers(n), attempt, fate) {
      assert Settles(all[0], answers(n + 0), attempt, fate);
    }
    if WasSettled(rest, answers, n + 1, attempt, fate) {
      var i :| 0 <= i < |rest| && Settles(rest[i], answers(n + 1 + i), attempt, fate);
      assert n + 1 + i == n + (i + 1) && Settles(all[i + 1], answers(n + (i + 1)), attempt, fate);
    }
    if WasSettled(all, answers, n, attempt, fate) {
      var i :| 0 <= i < |all| && Settles(all[i], answers(n + i), attempt, fate);
      assert i > 0 ==> n + i == n + 1 + (i - 1) && Settles(rest[i - 1], answers(n + 1 + (i - 1)), attempt, fate);
    }
  }

  lemma {:induction false} AdvanceSettles(cfg: Config, attempt: nat, pc: Pc, a: Answer, fate: Fate)
    requires !pc.Done? && !fate.NoStage?
    ensures var next := Advance(cfg, pc, a);
            (next.Done? && next.fate == fate) <==> Settles(RequestOf(pc, attempt), a, attempt, fate)
  {
  }

  lemma {:induction false} FateFromIff(cfg: Config, attempt: nat, pc: Pc, answers: nat -> Answer, n: nat, fate: Fate)
    requires !fate.NoStage?
    ensures var (requests, end) := Drive(cfg, attempt, pc, answers, n);
            && end.Done?
            && (end.fate == fate <==> (pc.Done? && pc.fate == fate) || WasSettled(requests, answers, n, attempt, fate))
    decreases StepsLeft(pc)
  {
    if !pc.Done? {
      var next := Advance(cfg, pc, answers(n));
      FateFromIff(cfg, attempt, next, answers, n + 1, fate);
      WasSettledStep(
        RequestOf(pc, attempt), Drive(cfg, attempt, next, answers, n + 1).0, answers, n, attempt, fate);
      AdvanceSettles(cfg, attempt, pc, answers(n), fate);
    }
  }

  /** An attempt reports its stage as removed, as absent or as left behind if
      and only if that is what it was last told. */
  lemma {:induction false} FateIff(cfg: Config, attempt: nat, answers: nat -> Answer, fate: Fate)
    requires !fate.NoStage?
    ensures var (requests, end) := Drive(cfg, attempt, StartOf(cfg), answers, 0);
            end.Done? && (end.fate == fate <==> WasSettled(requests, answers, 0, attempt, fate))
  {
    FateFromIff(cfg, attempt, StartOf(cfg), answers, 0, fate);
  }

  /** In any play: at the step at which a launcher comes to hand out a derived
      image, the image is in the store. */
  lemma {:induction false} ReadyImageExists(
    cfgs: seq<Config>, s: State, id: nat, answer: Answer, s': State, b: Identity)
    requires |s.pcs| == |cfgs| && id < |cfgs| && Apply(cfgs, s, Act(id, answer)) == Some(s')
    requires !SucceedingFor(s.pcs[id], b) && SucceedingFor(s'.pcs[id], b)
    ensures Final(b) in s'.store.builtFrom
  {
    assert MakesReady(RequestOf(s.pcs[id], id), answer, b);
  }

  // ---- If the base name goes back ------------------------------------------------------------

  ghost predicate LeadsToWrongBase(cfgs: seq<Config>, s: State) {
    |s.pcs| == |cfgs| &&
    exists actions :: Play(cfgs, s, actions).Some? && !NamesItsBase(Play(cfgs, s, actions).value.store)
  }

  lemma {:induction false} StepBack(cfgs: seq<Config>, s: State, a: Action, s': State)
    requires |s.pcs| == |cfgs| && Apply(cfgs, s, a) == Some(s') && LeadsToWrongBase(cfgs, s')
    ensures LeadsToWrongBase(cfgs, s)
  {
    var actions :| Play(cfgs, s', actions).Some? && !NamesItsBase(Play(cfgs, s', actions).value.store);
    assert ([a] + actions)[1..] == actions;
    assert Play(cfgs, s, [a] + actions) == Play(cfgs, s', actions);
  }

  lemma {:induction false} OneStepBack(cfg: Config, store: Store, pc: Pc, a: Answer)
    requires !pc.Done? && Answers(store, RequestOf(pc, 0), a)
    requires LeadsToWrongBase([cfg], State(Effect(store, RequestOf(pc, 0), a), [Advance(cfg, pc, a)]))
    ensures LeadsToWrongBase([cfg], State(store, [pc]))
  {
    assert [pc][0 := Advance(cfg, pc, a)] == [Advance(cfg, pc, a)];
    StepBack([cfg], State(store, [pc]), Act(0, a), State(Effect(store, RequestOf(pc, 0), a), [Advance(cfg, pc, a)]));
  }

  predicate BuildsWhenAbsent(cfg: Config) {
    !cfg.noLayer && cfg.layer.LayerFound? && cfg.buildLayer
  }

  lemma {:induction false} PromotedWrongly(cfg: Config, b: Identity, other: Identity)
    requires b != other
    ensures LeadsToWrongBase(
              [cfg], State(Store(other, true, map[Stage(b, 0) := other]), [ProbingAfter(Descriptor(b, false))]))
  {
    var d := Descriptor(b, false);
    var seen := Answer(false, Some(d), false);
    var staged := Store(b, true, map[Stage(b, 0) := other]);
    var wrong := State(Store(b, true, map[Stage(b, 0) := other, Final(b) := other]), [Removing(d, Ready(b))]);
    assert Final(b) in wrong.store.builtFrom && !NamesItsBase(wrong.store);
    assert Play([cfg], wrong, []) == Some(wrong);
    assert Effect(staged, PromoteTag(Stage(b, 0), Final(b)), PROMOTED) == wrong.store;
    OneStepBack(cfg, staged, Promoting(d), PROMOTED);
    OneStepBack(cfg, staged, ProbingAfter(d), seen);
    StepBack(
      [cfg], State(staged.(base := other), [ProbingAfter(d)]), Retag(b, true), State(staged, [ProbingAfter(d)]));
  }

  /** A base name that moves to another image and back during a staged build
      leaves a derived tag on the wrong base: both probes see what they expect.
      Any two images will do, and any launcher that builds. */
  lemma {:induction false} BackAndForthIsMissed(cfg: Config, b: Identity, other: Identity)
    requires b != other && BuildsWhenAbsent(cfg)
    ensures Initial([cfg], State(Store(b, true, map[]), [ProbingBase]))
    ensures LeadsToWrongBase([cfg], State(Store(b, true, map[]), [ProbingBase]))
  {
    var d := Descriptor(b, false);
    var seen, absent := Answer(false, Some(d), false), Answer(false, None, false);
    var before, moved := Store(b, true, map[]), Store(other, true, map[]);
    PromotedWrongly(cfg, b, other);
    assert Effect(moved, BuildFromName(Stage(b, 0)), PROMOTED) == Store(other, true, map[Stage(b, 0) := other]);
    OneStepBack(cfg, moved, BuildingStage(d), PROMOTED);
    StepBack([cfg], State(before, [BuildingStage(d)]), Retag(other, true), State(moved, [BuildingStage(d)]));
    OneStepBack(cfg, before, ProbingBefore(d), seen);
    OneStepBack(cfg, before, Suffixing(d), absent);
    OneStepBack(cfg, before, ProbingTag(d), absent);
    OneStepBack(cfg, before, Hashing(d), absent);
    OneStepBack(cfg, before, ProbingBase, seen);
  }
}
