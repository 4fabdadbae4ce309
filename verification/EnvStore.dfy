/** The ordered environment store (internal/env/env.go) and the project env
    file it loads (internal/env/parse.go). */
module EnvStore {
  import opened Text

  datatype Origin = Flag | File | Builtin

  datatype Pair = Pair(key: string, value: string)

  datatype Entry = Entry(key: string, value: string, origin: Origin)

  datatype Source = Named(name: string) | Line(number: nat)

  datatype Error =
    | NoEquals(source: Source, assignment: string)
    | BadName(source: Source, key: string)
    | ReservedName(source: Source, key: string)
    | ReservedInFile(source: Source, key: string)

  // ---- Validation ----------------------------------------------------------------------

  predicate Reserved(key: string) {
    || "HOST_" <= key || "SRT_" <= key || "CLAUDE_CONTAINED_" <= key
    || key in {"STAY_ROOT", "SSH_AUTH_SOCK", "GIT_PROTECT_DIRS", "HOME", "PATH"}
  }

  predicate KeepsOutOfFile(key: string) {
    key in {"LD_PRELOAD", "LD_LIBRARY_PATH", "NODE_OPTIONS"}
  }

  predicate IsKeyChar(c: char) {
    'A' <= c <= 'Z' || 'a' <= c <= 'z' || c == '_' || IsDigit(c)
  }

  predicate IsKey(key: string) {
    key != "" && !IsDigit(key[0]) && forall i :: 0 <= i < |key| ==> IsKeyChar(key[i])
  }

  method ValidKey(key: string) returns (ok: bool)
    ensures ok == IsKey(key)
  {
    if key == "" {
      return false;
    }
    for i := 0 to |key|
      invariant forall j :: 0 <= j < i ==> IsKeyChar(key[j])
      invariant i > 0 ==> !IsDigit(key[0])
    {
      var c := key[i];
      if 'A' <= c <= 'Z' || 'a' <= c <= 'z' || c == '_' {
      } else if IsDigit(c) && i > 0 {
      } else {
        return false;
      }
    }
    return true;
  }

  /** A key that may come from this origin. */
  predicate Accepts(origin: Origin, key: string) {
    IsKey(key) && !Reserved(key) && !(origin == File && KeepsOutOfFile(key))
  }

  /** What precedes the first '='; everything where there is none. */
  function KeyOf(assignment: string): (key: string)
    ensures '=' !in key && key <= assignment
    ensures key == assignment || assignment[|key|] == '='
  {
    if assignment == "" || assignment[0] == '=' then "" else [assignment[0]] + KeyOf(assignment[1..])
  }

  function ValueOf(assignment: string): string {
    if '=' in assignment then assignment[|KeyOf(assignment)| + 1..] else ""
  }

  function Validation(assignment: string, source: Source, origin: Origin): (e: Option<Error>)
    ensures e.None? <==> '=' in assignment && Accepts(origin, KeyOf(assignment))
  {
    var key := KeyOf(assignment);
    if '=' !in assignment then Some(NoEquals(source, assignment))
    else if !IsKey(key) then Some(BadName(source, key))
    else if Reserved(key) then Some(ReservedName(source, key))
    else if origin == File && KeepsOutOfFile(key) then Some(ReservedInFile(source, key))
    else None
  }

  // ---- The store ---------------------------------------------------------------------------

  type Entries = seq<Entry>

  function Keys(es: Entries): seq<string> {
    seq(|es|, i requires 0 <= i < |es| => es[i].key)
  }

  function IndexOf(es: Entries, key: string): (i: Option<nat>)
    ensures i.Some? ==> i.value < |es| && es[i.value].key == key
    ensures i.None? <==> key !in Keys(es)
  {
    if es == [] then None
    else
      assert Keys(es) == [es[0].key] + Keys(es[1..]);
      if es[0].key == key then Some(0)
      else match IndexOf(es[1..], key)
        case Some(i) => Some(i + 1)
        case None => None
  }

  function Found(es: Entries, key: string): (entry: Option<Entry>)
    ensures entry.Some? <==> key in Keys(es)
    ensures entry.Some? ==> entry.value.key == key
  {
    match IndexOf(es, key)
    case Some(i) => Some(es[i])
    case None => None
  }

  function Put(es: Entries, key: string, value: string, origin: Origin): Entries {
    match IndexOf(es, key)
    case Some(i) => es[i := Entry(key, value, origin)]
    case None => es + [Entry(key, value, origin)]
  }

  function SetIn(es: Entries, assignment: string, source: Source, origin: Origin): (Entries, Option<Error>) {
    match Validation(assignment, source, origin)
    case Some(e) => (es, Some(e))
    case None => (Put(es, KeyOf(assignment), ValueOf(assignment), origin), None)
  }

  function DefaultIn(es: Entries, assignment: string, source: Source, origin: Origin): (Entries, Option<Error>) {
    if IndexOf(es, KeyOf(assignment)).Some? then (es, None) else SetIn(es, assignment, source, origin)
  }

  predicate FlagHolds(es: Entries, key: string) {
    Found(es, key).Some? && Found(es, key).value.origin == Flag
  }

  // ---- The file's lines ----------------------------------------------------------------------

  function TrimLeft(s: string): string {
    if s != "" && s[0] in {' ', '\t', '\n', '\U{000B}', '\U{000C}', '\r'} then TrimLeft(s[1..]) else s
  }

  function StripOnePair(value: string): string {
    if |value| >= 2 && value[0] in {'"', '\''} && value[|value| - 1] == value[0] then value[1..|value| - 1] else value
  }

  function Trimmed(line: string): string {
    TrimLeft(TrimSuffix(line, '\r'))
  }

  predicate Says(line: string) {
    Trimmed(line) != "" && Trimmed(line)[0] != '#'
  }

  function LineIn(es: Entries, line: string, number: nat): (Entries, Option<Error>) {
    var t := Trimmed(line);
    if !Says(line) then (es, None)
    else if '=' !in t then (es, Validation(t, Line(number), File))
    else if FlagHolds(es, KeyOf(t)) then (es, None)
    else SetIn(es, KeyOf(t) + "=" + StripOnePair(ValueOf(t)), Line(number), File)
  }

  function LoadIn(es: Entries, lines: seq<string>): (Entries, Option<Error>) {
    if lines == [] then (es, None)
    else
      var (before, e) := LoadIn(es, lines[..|lines| - 1]);
      if e.Some? then (before, e) else LineIn(before, lines[|lines| - 1], |lines|)
  }

  lemma {:induction false} ErrorEndsLoad(es: Entries, lines: seq<string>, n: nat)
    requires n <= |lines| && LoadIn(es, lines[..n]).1.Some?
    ensures LoadIn(es, lines) == LoadIn(es, lines[..n])
    decreases |lines|
  {
    if n < |lines| {
      var shorter := lines[..|lines| - 1];
      assert shorter[..n] == lines[..n];
      ErrorEndsLoad(es, shorter, n);
    } else {
      assert lines[..n] == lines;
    }
  }

  lemma {:induction false} CutOfJoined(key: string, value: string)
    requires '=' !in key
    ensures '=' in key + "=" + value
    ensures KeyOf(key + "=" + value) == key && ValueOf(key + "=" + value) == value
  {
    var s := key + "=" + value;
    assert s[|key|] == '=';
    if key != "" {
      assert s[1..] == key[1..] + "=" + value;
      CutOfJoined(key[1..], value);
      assert key == [key[0]] + key[1..];
    }
  }

  class Store {
    var entries: Entries

    constructor ()
      ensures entries == []
    {
      entries := [];
    }

    method Validate(assignment: string, source: Source, origin: Origin) returns (e: Option<Error>)
      ensures e == Validation(assignment, source, origin)
    {
      var key := KeyOf(assignment);
      if '=' !in assignment {
        return Some(NoEquals(source, assignment));
      }
      var ok := ValidKey(key);
      if !ok {
        return Some(BadName(source, key));
      }
      if Reserved(key) {
        return Some(ReservedName(source, key));
      }
      if origin == File && KeepsOutOfFile(key) {
        return Some(ReservedInFile(source, key));
      }
      return None;
    }

    method Set(assignment: string, source: Source, origin: Origin) returns (e: Option<Error>)
      modifies this
      ensures (entries, e) == SetIn(old(entries), assignment, source, origin)
    {
      e := Validate(assignment, source, origin);
      if e.Some? {
        return;
      }
      var key, value := KeyOf(assignment), ValueOf(assignment);
      match IndexOf(entries, key)
      case Some(i) => entries := entries[i := entries[i].(value := value, origin := origin)];
      case None => entries := entries + [Entry(key, value, origin)];
    }

    method Default(assignment: string, source: Source, origin: Origin) returns (e: Option<Error>)
      modifies this
      ensures (entries, e) == DefaultIn(old(entries), assignment, source, origin)
    {
      if IndexOf(entries, KeyOf(assignment)).Some? {
        return None;
      }
      e := Set(assignment, source, origin);
    }

    method LoadFile(content: string) returns (e: Option<Error>)
      modifies this
      ensures (entries, e) == LoadIn(old(entries), SplitLines(content))
    {
      var lines := SplitLines(content);
      ghost var start := entries;
      for i := 0 to |lines|
        invariant (entries, None) == LoadIn(start, lines[..i])
      {
        assert lines[..i + 1][..i] == lines[..i];
        e := LoadLine(lines[i], i + 1);
        if e.Some? {
          ErrorEndsLoad(start, lines, i + 1);
          return;
        }
      }
      assert lines[..|lines|] == lines;
      return None;
    }

    /** The body of the loop over the file's lines. */
    method LoadLine(line: string, number: nat) returns (e: Option<Error>)
      modifies this
      ensures (entries, e) == LineIn(old(entries), line, number)
    {
      var trimmed := Trimmed(line);
      if !Says(line) {
        return None;
      }
      if '=' !in trimmed {
        e := Validate(trimmed, Line(number), File);
        return;
      }
      if FlagHolds(entries, KeyOf(trimmed)) {
        return None;
      }
      var value := StripOnePair(ValueOf(trimmed));
      e := Set(KeyOf(trimmed) + "=" + value, Line(number), File);
    }

    /** The launcher's whole use of the store: the flags, the project env file
        where there is one, then the built-ins. */
    method Complete(flags: seq<string>, file: Option<string>, builtins: seq<Pair>) returns (e: Option<Error>)
      modifies this
      ensures (entries, e)
           == Completed(old(entries), flags, if file.Some? then SplitLines(file.value) else [], builtins)
    {
      ghost var start := entries;
      for i := 0 to |flags|
        invariant (entries, None) == SetAll(start, flags[..i])
      {
        assert flags[..i + 1][..i] == flags[..i];
        e := Set(flags[i], Named("--env"), Flag);
        if e.Some? {
          ErrorEndsSets(start, flags, i + 1);
          return;
        }
      }
      assert flags[..|flags|] == flags;
      if file.Some? {
        e := LoadFile(file.value);
        if e.Some? {
          return;
        }
      }
      ghost var loaded := entries;
      for i := 0 to |builtins|
        invariant (entries, None) == DefaultAll(loaded, builtins[..i])
      {
        assert builtins[..i + 1][..i] == builtins[..i];
        e := Default(builtins[i].key + "=" + builtins[i].value, Named("built-in"), Builtin);
        if e.Some? {
          ErrorEndsDefaults(loaded, builtins, i + 1);
          return;
        }
      }
      assert builtins[..|builtins|] == builtins;
      return None;
    }

    method Pairs() returns (out: seq<Pair>)
      ensures out == PairsOf(entries)
    {
      out := [];
      for i := 0 to |entries|
        invariant out == PairsOf(entries[..i])
      {
        assert entries[..i + 1][..i] == entries[..i];
        out := out + [Pair(entries[i].key, entries[i].value)];
      }
      assert entries[..|entries|] == entries;
    }
  }

  function PairsOf(es: Entries): seq<Pair> {
    if es == [] then [] else PairsOf(es[..|es| - 1]) + [Pair(es[|es| - 1].key, es[|es| - 1].value)]
  }

  function KeysOf(ps: seq<Pair>): seq<string> {
    seq(|ps|, i requires 0 <= i < |ps| => ps[i].key)
  }

  // ---- The resolution the sources amount to ------------------------------------------------------

  /** The order of first appearance. */
  function Firsts(seen: seq<string>, ks: seq<string>): seq<string> {
    if ks == [] then seen
    else
      var before := Firsts(seen, ks[..|ks| - 1]);
      if ks[|ks| - 1] in before then before else before + [ks[|ks| - 1]]
  }

  function LastOf(ps: seq<Pair>, key: string): (v: Option<string>)
    ensures v.Some? <==> exists i :: 0 <= i < |ps| && ps[i].key == key
  {
    if ps == [] then None
    else if ps[|ps| - 1].key == key then Some(ps[|ps| - 1].value)
    else LastOf(ps[..|ps| - 1], key)
  }

  function FirstOf(ps: seq<Pair>, key: string): (v: Option<string>)
    ensures v.Some? <==> exists i :: 0 <= i < |ps| && ps[i].key == key
  {
    if ps == [] then None
    else
      var before := FirstOf(ps[..|ps| - 1], key);
      if before.None? && ps[|ps| - 1].key == key then Some(ps[|ps| - 1].value) else before
  }

  /** The last flag, or else the last line of the file, or else the first
      built-in, for this key. */
  function Winner(flags: seq<Pair>, file: seq<Pair>, builtins: seq<Pair>, key: string): Option<Entry> {
    match (LastOf(flags, key), LastOf(file, key), FirstOf(builtins, key))
    case (Some(v), _, _) => Some(Entry(key, v, Flag))
    case (None, Some(v), _) => Some(Entry(key, v, File))
    case (None, None, Some(v)) => Some(Entry(key, v, Builtin))
    case (None, None, None) => None
  }

  /** What the store promises at all times. */
  ghost predicate Sound(es: Entries) {
    && (forall i, j :: 0 <= i < j < |es| ==> es[i].key != es[j].key)
    && (forall i :: 0 <= i < |es| ==> Accepts(es[i].origin, es[i].key))
  }

  lemma {:induction false} PutIsSound(es: Entries, key: string, value: string, origin: Origin)
    requires Sound(es) && Accepts(origin, key)
    ensures Sound(Put(es, key, value, origin))
  {
    if IndexOf(es, key).None? {
      assert forall j :: 0 <= j < |es| ==> es[j].key == Keys(es)[j] != key;
    }
  }

  lemma {:induction false} PutKeys(es: Entries, key: string, value: string, origin: Origin)
    ensures Keys(Put(es, key, value, origin)) == if key in Keys(es) then Keys(es) else Keys(es) + [key]
  {
    var after := Put(es, key, value, origin);
    match IndexOf(es, key)
    case Some(i) => assert Keys(after) == Keys(es);
    case None => assert Keys(after) == Keys(es) + [key];
  }

  lemma {:induction false} PutFound(es: Entries, key: string, value: string, origin: Origin, other: string)
    requires Sound(es) && Accepts(origin, key)
    ensures Found(Put(es, key, value, origin), other)
         == if other == key then Some(Entry(key, value, origin)) else Found(es, other)
  {
    var after := Put(es, key, value, origin);
    PutIsSound(es, key, value, origin);
    PutKeys(es, key, value, origin);
    if other == key {
      FoundHere(after, match IndexOf(es, key) case Some(i) => i case None => |es|);
    } else if other in Keys(es) {
      var j := IndexOf(es, other).value;
      assert after[j] == es[j];
      FoundHere(after, j);
    }
  }

  lemma {:induction false} PutKeeps(es: Entries, key: string, value: string, origin: Origin, other: string)
    requires Sound(es) && Accepts(origin, key)
    ensures Sound(Put(es, key, value, origin))
    ensures Keys(Put(es, key, value, origin)) == if key in Keys(es) then Keys(es) else Keys(es) + [key]
    ensures Found(Put(es, key, value, origin), other)
         == if other == key then Some(Entry(key, value, origin)) else Found(es, other)
  {
    PutIsSound(es, key, value, origin);
    PutKeys(es, key, value, origin);
    PutFound(es, key, value, origin, other);
  }

  lemma {:induction false} FoundHere(es: Entries, i: nat)
    requires Sound(es) && i < |es|
    ensures IndexOf(es, es[i].key) == Some(i)
  {
    assert Keys(es)[i] == es[i].key;
  }

  predicate Skips(es: Entries, origin: Origin, key: string) {
    (origin == File && FlagHolds(es, key)) || (origin == Builtin && key in Keys(es))
  }

  /** Everything one source brings to the store: each pair in turn, replacing,
      or replacing what no flag holds, or only filling gaps. */
  function Offered(es: Entries, ps: seq<Pair>, origin: Origin): Entries {
    if ps == [] then es
    else
      var before, p := Offered(es, ps[..|ps| - 1], origin), ps[|ps| - 1];
      if Skips(before, origin, p.key) then before else Put(before, p.key, p.value, origin)
  }

  /** Whether each pair that the store looks at is acceptable. */
  ghost predicate Offerable(es: Entries, ps: seq<Pair>, origin: Origin) {
    forall i :: 0 <= i < |ps| ==> Accepts(origin, ps[i].key) || Skips(es, origin, ps[i].key)
  }

  /** The one entry that is left of a key. */
  function Claimed(held: Option<Entry>, ps: seq<Pair>, origin: Origin, key: string): Option<Entry> {
    var offer := if origin == Builtin then FirstOf(ps, key) else LastOf(ps, key);
    if offer.None? then held
    else if (origin == File && held.Some? && held.value.origin == Flag) || (origin == Builtin && held.Some?) then held
    else Some(Entry(key, offer.value, origin))
  }

  lemma {:induction false} OfferableStep(es: Entries, ps: seq<Pair>, origin: Origin)
    requires ps != []
    ensures var p := ps[|ps| - 1];
            Offerable(es, ps, origin) <==>
              Offerable(es, ps[..|ps| - 1], origin) && (Accepts(origin, p.key) || Skips(es, origin, p.key))
  {
    assert forall i :: 0 <= i < |ps| - 1 ==> ps[..|ps| - 1][i] == ps[i];
  }

  lemma {:induction false} ClaimedStep(held: Option<Entry>, ps: seq<Pair>, origin: Origin, key: string)
    requires ps != []
    ensures var before, p := Claimed(held, ps[..|ps| - 1], origin, key), ps[|ps| - 1];
            Claimed(held, ps, origin, key) ==
              if p.key != key
                 || (origin == File && before.Some? && before.value.origin == Flag)
                 || (origin == Builtin && before.Some?)
              then before
              else Some(Entry(key, p.value, origin))
  {
  }

  lemma {:induction false} OfferedIs(es: Entries, ps: seq<Pair>, origin: Origin, key: string)
    requires Sound(es) && Offerable(es, ps, origin)
    ensures Sound(Offered(es, ps, origin))
    ensures Found(Offered(es, ps, origin), key) == Claimed(Found(es, key), ps, origin, key)
    decreases |ps|
  {
    if ps != [] {
      var shorter, p := ps[..|ps| - 1], ps[|ps| - 1];
      OfferableStep(es, ps, origin);
      OfferedIs(es, shorter, origin, key);
      OfferedIs(es, shorter, origin, p.key);
      ClaimedStep(Found(es, key), ps, origin, key);
      var before := Offered(es, shorter, origin);
      if !Skips(before, origin, p.key) {
        PutKeeps(before, p.key, p.value, origin, key);
      }
    }
  }

  lemma {:induction false} FirstsStep(seen: seq<string>, ps: seq<Pair>)
    requires ps != []
    ensures var before, key := Firsts(seen, KeysOf(ps[..|ps| - 1])), ps[|ps| - 1].key;
            Firsts(seen, KeysOf(ps)) == if key in before then before else before + [key]
  {
    assert KeysOf(ps)[..|ps| - 1] == KeysOf(ps[..|ps| - 1]) && KeysOf(ps)[|ps| - 1] == ps[|ps| - 1].key;
  }

  lemma {:induction false} OfferedKeys(es: Entries, ps: seq<Pair>, origin: Origin)
    requires Sound(es) && Offerable(es, ps, origin)
    ensures Keys(Offered(es, ps, origin)) == Firsts(Keys(es), KeysOf(ps))
    decreases |ps|
  {
    if ps != [] {
      var n := |ps| - 1;
      var p := ps[n];
      FirstsStep(Keys(es), ps);
      OfferableStep(es, ps, origin);
      OfferedKeys(es, ps[..n], origin);
      OfferedIs(es, ps[..n], origin, p.key);
      var before := Offered(es, ps[..n], origin);
      if !Skips(before, origin, p.key) {
        PutKeeps(before, p.key, p.value, origin, p.key);
      }
    } else {
      assert KeysOf(ps) == [];
    }
  }

  // ---- From assignments and lines to pairs ---------------------------------------------------------

  function SetAll(es: Entries, assignments: seq<string>): (Entries, Option<Error>) {
    if assignments == [] then (es, None)
    else
      var n := |assignments| - 1;
      var (before, e) := SetAll(es, assignments[..n]);
      if e.Some? then (before, e) else SetIn(before, assignments[n], Named("--env"), Flag)
  }

  function DefaultAll(es: Entries, builtins: seq<Pair>): (Entries, Option<Error>) {
    if builtins == [] then (es, None)
    else
      var n := |builtins| - 1;
      var (before, e) := DefaultAll(es, builtins[..n]);
      if e.Some? then (before, e)
      else DefaultIn(before, builtins[n].key + "=" + builtins[n].value, Named("built-in"), Builtin)
  }

  function Completed(es: Entries, flags: seq<string>, lines: seq<string>, builtins: seq<Pair>)
    : (Entries, Option<Error>)
  {
    var (set0, e0) := SetAll(es, flags);
    if e0.Some? then (set0, e0)
    else
      var (loaded, e1) := LoadIn(set0, lines);
      if e1.Some? then (loaded, e1) else DefaultAll(loaded, builtins)
  }

  lemma {:induction false} ErrorEndsSets(es: Entries, assignments: seq<string>, n: nat)
    requires n <= |assignments| && SetAll(es, assignments[..n]).1.Some?
    ensures SetAll(es, assignments) == SetAll(es, assignments[..n])
    decreases |assignments|
  {
    if n < |assignments| {
      var shorter := assignments[..|assignments| - 1];
      assert shorter[..n] == assignments[..n];
      ErrorEndsSets(es, shorter, n);
    } else {
      assert assignments[..n] == assignments;
    }
  }

  lemma {:induction false} ErrorEndsDefaults(es: Entries, builtins: seq<Pair>, n: nat)
    requires n <= |builtins| && DefaultAll(es, builtins[..n]).1.Some?
    ensures DefaultAll(es, builtins) == DefaultAll(es, builtins[..n])
    decreases |builtins|
  {
    if n < |builtins| {
      var shorter := builtins[..|builtins| - 1];
      assert shorter[..n] == builtins[..n];
      ErrorEndsDefaults(es, shorter, n);
    } else {
      assert builtins[..n] == builtins;
    }
  }

  function Cut(assignments: seq<string>): seq<Pair> {
    if assignments == [] then []
    else
      var n := |assignments| - 1;
      Cut(assignments[..n]) + [Pair(KeyOf(assignments[n]), ValueOf(assignments[n]))]
  }

  /** The assignments that the lines of the file make, skipped or not. */
  function FilePairs(lines: seq<string>): seq<Pair> {
    if lines == [] then []
    else
      var before, t := FilePairs(lines[..|lines| - 1]), Trimmed(lines[|lines| - 1]);
      if Says(lines[|lines| - 1]) then before + [Pair(KeyOf(t), StripOnePair(ValueOf(t)))] else before
  }

  predicate FlagsFine(assignments: seq<string>) {
    forall i :: 0 <= i < |assignments| ==> '=' in assignments[i] && Accepts(Flag, KeyOf(assignments[i]))
  }

  predicate LineFine(es: Entries, line: string) {
    Says(line) ==> '=' in Trimmed(line) && (Accepts(File, KeyOf(Trimmed(line))) || FlagHolds(es, KeyOf(Trimmed(line))))
  }

  predicate LinesFine(es: Entries, lines: seq<string>) {
    forall i :: 0 <= i < |lines| ==> LineFine(es, lines[i])
  }

  lemma {:induction false} SetInKeeps(es: Entries, assignment: string, source: Source, origin: Origin)
    requires Sound(es)
    ensures Sound(SetIn(es, assignment, source, origin).0)
  {
    if Validation(assignment, source, origin).None? {
      PutKeeps(es, KeyOf(assignment), ValueOf(assignment), origin, "");
    }
  }

  /** One more pair from the same source. */
  lemma {:induction false} OfferedStep(es: Entries, ps: seq<Pair>, p: Pair, origin: Origin)
    ensures Offered(es, ps + [p], origin) ==
              var before := Offered(es, ps, origin);
              if Skips(before, origin, p.key) then before else Put(before, p.key, p.value, origin)
    ensures Offerable(es, ps + [p], origin) <==>
              Offerable(es, ps, origin) && (Accepts(origin, p.key) || Skips(es, origin, p.key))
  {
    assert (ps + [p])[..|ps|] == ps;
    OfferableStep(es, ps + [p], origin);
  }

  lemma {:induction false} SetAllSound(es: Entries, assignments: seq<string>)
    requires Sound(es)
    ensures Sound(SetAll(es, assignments).0)
    decreases |assignments|
  {
    if assignments != [] {
      var n := |assignments| - 1;
      SetAllSound(es, assignments[..n]);
      SetInKeeps(SetAll(es, assignments[..n]).0, assignments[n], Named("--env"), Flag);
    }
  }

  lemma {:induction false} FlagsFineStep(assignments: seq<string>)
    requires assignments != []
    ensures var n, a := |assignments| - 1, assignments[|assignments| - 1];
            FlagsFine(assignments) <==> FlagsFine(assignments[..n]) && '=' in a && Accepts(Flag, KeyOf(a))
  {
    var n := |assignments| - 1;
    assert forall i :: 0 <= i < n ==> assignments[i] == assignments[..n][i];
  }

  lemma {:induction false} SetAllIs(es: Entries, assignments: seq<string>)
    ensures SetAll(es, assignments).1.None? <==> FlagsFine(assignments)
    ensures FlagsFine(assignments) ==>
              SetAll(es, assignments).0 == Offered(es, Cut(assignments), Flag) && Offerable(es, Cut(assignments), Flag)
    decreases |assignments|
  {
    if assignments != [] {
      var n := |assignments| - 1;
      SetAllIs(es, assignments[..n]);
      FlagsFineStep(assignments);
      OfferedStep(es, Cut(assignments[..n]), Pair(KeyOf(assignments[n]), ValueOf(assignments[n])), Flag);
    }
  }

  lemma {:induction false} FlagsStay(es: Entries, ps: seq<Pair>, key: string)
    requires Sound(es) && Offerable(es, ps, File)
    ensures FlagHolds(Offered(es, ps, File), key) <==> FlagHolds(es, key)
  {
    OfferedIs(es, ps, File, key);
  }

  lemma {:induction false} LoadSound(es: Entries, lines: seq<string>)
    requires Sound(es)
    ensures Sound(LoadIn(es, lines).0)
    decreases |lines|
  {
    if lines != [] {
      LoadSound(es, lines[..|lines| - 1]);
      LineInIs(LoadIn(es, lines[..|lines| - 1]).0, lines[|lines| - 1], |lines|);
    }
  }

  lemma {:induction false} LinesFineStep(es: Entries, lines: seq<string>)
    requires lines != []
    ensures LinesFine(es, lines) <==> LinesFine(es, lines[..|lines| - 1]) && LineFine(es, lines[|lines| - 1])
  {
    var n := |lines| - 1;
    assert forall i :: 0 <= i < n ==> lines[i] == lines[..n][i];
  }

  lemma {:induction false} LoadInIs(es: Entries, lines: seq<string>)
    requires Sound(es)
    ensures LoadIn(es, lines).1.None? <==> LinesFine(es, lines)
    ensures LinesFine(es, lines) ==>
              LoadIn(es, lines).0 == Offered(es, FilePairs(lines), File) && Offerable(es, FilePairs(lines), File)
    decreases |lines|
  {
    if lines != [] {
      var n := |lines| - 1;
      LoadInIs(es, lines[..n]);
      LinesFineStep(es, lines);
      if LinesFine(es, lines[..n]) {
        LoadSound(es, lines[..n]);
        LineInIs(LoadIn(es, lines[..n]).0, lines[n], n + 1);
        var t := Trimmed(lines[n]);
        FlagsStay(es, FilePairs(lines[..n]), KeyOf(t));
        OfferedStep(es, FilePairs(lines[..n]), Pair(KeyOf(t), StripOnePair(ValueOf(t))), File);
      }
    }
  }

  lemma {:induction false} LineInIs(es: Entries, line: string, number: nat)
    requires Sound(es)
    ensures Sound(LineIn(es, line, number).0)
    ensures LineIn(es, line, number).1.None? <==> LineFine(es, line)
    ensures LineFine(es, line) ==>
              LineIn(es, line, number).0 ==
                var key := KeyOf(Trimmed(line));
                if !Says(line) || FlagHolds(es, key) then es
                else Put(es, key, StripOnePair(ValueOf(Trimmed(line))), File)
  {
    var t := Trimmed(line);
    CutOfJoined(KeyOf(t), StripOnePair(ValueOf(t)));
    SetInKeeps(es, KeyOf(t) + "=" + StripOnePair(ValueOf(t)), Line(number), File);
  }

  lemma {:induction false} DefaultAllIs(es: Entries, builtins: seq<Pair>)
    requires Sound(es) && forall i :: 0 <= i < |builtins| ==> '=' !in builtins[i].key
    ensures Sound(DefaultAll(es, builtins).0)
    ensures DefaultAll(es, builtins).1.None? <==> Offerable(es, builtins, Builtin)
    ensures Offerable(es, builtins, Builtin) ==> DefaultAll(es, builtins).0 == Offered(es, builtins, Builtin)
    decreases |builtins|
  {
    if builtins != [] {
      var n := |builtins| - 1;
      var p := builtins[n];
      DefaultAllIs(es, builtins[..n]);
      var before := DefaultAll(es, builtins[..n]).0;
      CutOfJoined(p.key, p.value);
      SetInKeeps(before, p.key + "=" + p.value, Named("built-in"), Builtin);
      assert builtins == builtins[..n] + [p];
      OfferedStep(es, builtins[..n], p, Builtin);
      if Offerable(es, builtins[..n], Builtin) {
        HeldByNow(es, builtins[..n], p.key);
      }
    }
  }

  /** A key that the built-ins so far have claimed is acceptable anyway. */
  lemma {:induction false} HeldByNow(es: Entries, ps: seq<Pair>, key: string)
    requires Sound(es) && Offerable(es, ps, Builtin)
    ensures key in Keys(es) ==> key in Keys(Offered(es, ps, Builtin))
    ensures key in Keys(Offered(es, ps, Builtin)) && key !in Keys(es) ==> Accepts(Builtin, key)
  {
    OfferedIs(es, ps, Builtin, key);
    if key !in Keys(es) && FirstOf(ps, key).Some? {
      var i :| 0 <= i < |ps| && ps[i].key == key;
    }
  }

  lemma {:induction false} FirstsAppend(seen: seq<string>, a: seq<string>, b: seq<string>)
    ensures Firsts(seen, a + b) == Firsts(Firsts(seen, a), b)
    decreases |b|
  {
    if b == [] {
      assert a + b == a;
    } else {
      assert (a + b)[..|a + b| - 1] == a + b[..|b| - 1];
      FirstsAppend(seen, a, b[..|b| - 1]);
    }
  }

  // ---- The main results ---------------------------------------------------------------------------

  ghost predicate LineAcceptable(flags: seq<Pair>, line: string) {
    Says(line) ==>
      var key := KeyOf(Trimmed(line));
      '=' in Trimmed(line) && (Accepts(File, key) || LastOf(flags, key).Some?)
  }

  ghost predicate BuiltinAcceptable(flags: seq<Pair>, file: seq<Pair>, key: string) {
    Accepts(Builtin, key) || LastOf(flags, key).Some? || LastOf(file, key).Some?
  }

  /** When the sources are accepted: every flag is; every line that says
      something is an assignment, acceptable unless a flag holds its key; and
      every built-in is acceptable unless its key is held. */
  ghost predicate Acceptable(flags: seq<string>, lines: seq<string>, builtins: seq<Pair>) {
    && FlagsFine(flags)
    && (forall i :: 0 <= i < |lines| ==> LineAcceptable(Cut(flags), lines[i]))
    && (forall i :: 0 <= i < |builtins| ==> BuiltinAcceptable(Cut(flags), FilePairs(lines), builtins[i].key))
  }

  lemma {:induction false} LinesFineIff(flags: seq<Pair>, lines: seq<string>)
    requires Offerable([], flags, Flag)
    ensures LinesFine(Offered([], flags, Flag), lines) <==>
              forall i :: 0 <= i < |lines| ==> LineAcceptable(flags, lines[i])
  {
    forall i | 0 <= i < |lines|
      ensures LineFine(Offered([], flags, Flag), lines[i]) <==> LineAcceptable(flags, lines[i])
    {
      OfferedIs([], flags, Flag, KeyOf(Trimmed(lines[i])));
    }
  }

  lemma {:induction false} BuiltinsFineIff(flags: seq<Pair>, file: seq<Pair>, builtins: seq<Pair>)
    requires Offerable([], flags, Flag) && Offerable(Offered([], flags, Flag), file, File)
    ensures Offerable(Offered(Offered([], flags, Flag), file, File), builtins, Builtin) <==>
              forall i :: 0 <= i < |builtins| ==> BuiltinAcceptable(flags, file, builtins[i].key)
  {
    OfferedIs([], flags, Flag, "");
    forall i | 0 <= i < |builtins|
      ensures builtins[i].key in Keys(Offered(Offered([], flags, Flag), file, File)) <==>
                LastOf(flags, builtins[i].key).Some? || LastOf(file, builtins[i].key).Some?
    {
      OfferedIs([], flags, Flag, builtins[i].key);
      OfferedIs(Offered([], flags, Flag), file, File, builtins[i].key);
    }
  }

  /** The three sources are accepted exactly when they are acceptable, and
      whether they are or not, every stored key is valid and unreserved and
      there once. */
  lemma {:induction false} AcceptedIff(flags: seq<string>, lines: seq<string>, builtins: seq<Pair>)
    requires forall i :: 0 <= i < |builtins| ==> '=' !in builtins[i].key
    ensures Sound(Completed([], flags, lines, builtins).0)
    ensures Completed([], flags, lines, builtins).1.None? <==> Acceptable(flags, lines, builtins)
  {
    var set0, loaded := SetAll([], flags).0, LoadIn(SetAll([], flags).0, lines).0;
    SetAllSound([], flags);
    LoadSound(set0, lines);
    DefaultAllIs(loaded, builtins);
    SetAllIs([], flags);
    if FlagsFine(flags) {
      LinesFineIff(Cut(flags), lines);
      LoadInIs(set0, lines);
      if LinesFine(set0, lines) {
        BuiltinsFineIff(Cut(flags), FilePairs(lines), builtins);
      }
    }
  }

  /** What the three sources put into the store, one after the other. */
  function AllOffered(flags: seq<Pair>, file: seq<Pair>, builtins: seq<Pair>): Entries {
    Offered(Offered(Offered([], flags, Flag), file, File), builtins, Builtin)
  }

  ghost predicate AllOfferable(flags: seq<Pair>, file: seq<Pair>, builtins: seq<Pair>) {
    && Offerable([], flags, Flag)
    && Offerable(Offered([], flags, Flag), file, File)
    && Offerable(Offered(Offered([], flags, Flag), file, File), builtins, Builtin)
  }

  lemma {:induction false} CompletedIsOffered(flags: seq<string>, lines: seq<string>, builtins: seq<Pair>)
    requires forall i :: 0 <= i < |builtins| ==> '=' !in builtins[i].key
    requires Completed([], flags, lines, builtins).1.None?
    ensures AllOfferable(Cut(flags), FilePairs(lines), builtins)
    ensures Completed([], flags, lines, builtins).0 == AllOffered(Cut(flags), FilePairs(lines), builtins)
  {
    var set0, loaded := SetAll([], flags).0, LoadIn(SetAll([], flags).0, lines).0;
    SetAllSound([], flags);
    SetAllIs([], flags);
    LoadSound(set0, lines);
    LoadInIs(set0, lines);
    DefaultAllIs(loaded, builtins);
  }

  lemma {:induction false} AllOfferedSound(flags: seq<Pair>, file: seq<Pair>, builtins: seq<Pair>)
    requires AllOfferable(flags, file, builtins)
    ensures Sound(Offered([], flags, Flag)) && Sound(Offered(Offered([], flags, Flag), file, File))
    ensures Sound(AllOffered(flags, file, builtins))
  {
    OfferedIs([], flags, Flag, "");
    OfferedIs(Offered([], flags, Flag), file, File, "");
    OfferedIs(Offered(Offered([], flags, Flag), file, File), builtins, Builtin, "");
  }

  lemma {:induction false} AllOfferedKeys(flags: seq<Pair>, file: seq<Pair>, builtins: seq<Pair>)
    requires AllOfferable(flags, file, builtins)
    ensures Keys(AllOffered(flags, file, builtins)) == Firsts([], KeysOf(flags) + KeysOf(file) + KeysOf(builtins))
  {
    AllOfferedSound(flags, file, builtins);
    OfferedKeys([], flags, Flag);
    OfferedKeys(Offered([], flags, Flag), file, File);
    OfferedKeys(Offered(Offered([], flags, Flag), file, File), builtins, Builtin);
    assert Keys([]) == [];
    FirstsAppend([], KeysOf(flags), KeysOf(file));
    FirstsAppend([], KeysOf(flags) + KeysOf(file), KeysOf(builtins));
  }

  lemma {:induction false} AllOfferedFound(flags: seq<Pair>, file: seq<Pair>, builtins: seq<Pair>, key: string)
    requires AllOfferable(flags, file, builtins)
    ensures Found(AllOffered(flags, file, builtins), key) == Winner(flags, file, builtins, key)
  {
    AllOfferedSound(flags, file, builtins);
    OfferedIs([], flags, Flag, key);
    OfferedIs(Offered([], flags, Flag), file, File, key);
    OfferedIs(Offered(Offered([], flags, Flag), file, File), builtins, Builtin, key);
  }

  /** The store ends up with each key once, where it first appeared, with the
      last flag, or else the last line, or else the first built-in for it. */
  lemma {:induction false} ResolvesTo(flags: seq<string>, lines: seq<string>, builtins: seq<Pair>)
    requires forall i :: 0 <= i < |builtins| ==> '=' !in builtins[i].key
    requires Completed([], flags, lines, builtins).1.None?
    ensures var es := Completed([], flags, lines, builtins).0;
            var all := Firsts([], KeysOf(Cut(flags)) + KeysOf(FilePairs(lines)) + KeysOf(builtins));
            && |es| == |all|
            && forall i :: 0 <= i < |es| ==> Winner(Cut(flags), FilePairs(lines), builtins, all[i]) == Some(es[i])
  {
    CompletedIsOffered(flags, lines, builtins);
    OfferedResolves(Cut(flags), FilePairs(lines), builtins);
  }

  lemma {:induction false} OfferedResolves(flags: seq<Pair>, file: seq<Pair>, builtins: seq<Pair>)
    requires AllOfferable(flags, file, builtins)
    ensures var es := AllOffered(flags, file, builtins);
            var all := Firsts([], KeysOf(flags) + KeysOf(file) + KeysOf(builtins));
            && |es| == |all|
            && forall i :: 0 <= i < |es| ==> Winner(flags, file, builtins, all[i]) == Some(es[i])
  {
    var es := AllOffered(flags, file, builtins);
    AllOfferedSound(flags, file, builtins);
    AllOfferedKeys(flags, file, builtins);
    forall i | 0 <= i < |es|
      ensures Winner(flags, file, builtins, Keys(es)[i]) == Some(es[i])
    {
      AllOfferedFound(flags, file, builtins, es[i].key);
      FoundHere(es, i);
    }
  }

  // ---- The marker of the explicit keys ------------------------------------------------------------

  function ExplicitKeysValue(pairs: seq<Pair>): string {
    Join(KeysOf(pairs), ",")
  }

  /** The marker splits back into the stored keys; the empty one is the only
      one that does not. */
  lemma {:induction false} ExplicitKeysSplitIff(es: Entries)
    requires Sound(es)
    ensures Split(ExplicitKeysValue(PairsOf(es)), ',') == Keys(es) <==> es != []
  {
    KeysOfPairs(es);
    if es == [] {
      assert Keys(es) == [];
    } else {
      forall i | 0 <= i < |es|
        ensures ',' !in Keys(es)[i]
      {
        assert Accepts(es[i].origin, es[i].key);
      }
      SplitJoin(Keys(es), ',');
    }
  }

  lemma {:induction false} KeysOfPairs(es: Entries)
    ensures KeysOf(PairsOf(es)) == Keys(es)
  {
    if es != [] {
      var n := |es| - 1;
      KeysOfPairs(es[..n]);
      assert KeysOf(PairsOf(es)) == KeysOf(PairsOf(es[..n])) + [es[n].key];
      assert Keys(es) == Keys(es[..n]) + [es[n].key];
    }
  }

  // ---- The forms of a line ---------------------------------------------------------------------------

  predicate IsIndent(s: string) {
    forall i :: 0 <= i < |s| ==> s[i] == ' ' || s[i] == '\t'
  }

  lemma {:induction false} IndentIsTrimmed(indent: string, rest: string)
    requires IsIndent(indent)
    ensures TrimLeft(indent + rest) == TrimLeft(rest)
    decreases |indent|
  {
    if indent == "" {
      assert indent + rest == rest;
    } else {
      var s := indent + rest;
      assert s[0] == indent[0] && s[1..] == indent[1..] + rest;
      IndentIsTrimmed(indent[1..], rest);
    }
  }

  lemma {:induction false} IndentedLine(indent: string, rest: string)
    requires IsIndent(indent) && rest != ""
    ensures Trimmed(indent + rest) == Trimmed(rest)
  {
    var s := indent + rest;
    assert s[|s| - 1] == rest[|rest| - 1];
    if rest[|rest| - 1] == '\r' {
      assert s[..|s| - 1] == indent + rest[..|rest| - 1];
      IndentIsTrimmed(indent, rest[..|rest| - 1]);
    } else {
      IndentIsTrimmed(indent, rest);
    }
  }

  /** Indentation and a carriage return at the end make no difference to a line. */
  lemma {:induction false} IndentMeansNothing(es: Entries, indent: string, line: string, number: nat)
    requires IsIndent(indent) && line != ""
    ensures LineIn(es, indent + line, number) == LineIn(es, line, number)
    ensures line[|line| - 1] != '\r' ==> LineIn(es, line + "\r", number) == LineIn(es, line, number)
  {
    IndentedLine(indent, line);
    assert (line + "\r")[..|line|] == line;
  }

  /** A comment or an indented blank changes nothing, whatever it contains. */
  lemma {:induction false} CommentsMeanNothing(es: Entries, indent: string, text: string, number: nat)
    requires IsIndent(indent)
    ensures LineIn(es, indent + "#" + text, number) == (es, None)
    ensures LineIn(es, indent, number) == (es, None)
  {
    var comment := "#" + text;
    assert indent + "#" + text == indent + comment;
    IndentedLine(indent, comment);
    IndentIsTrimmed(indent, "");
    assert indent + "" == indent && TrimLeft("") == "";
    assert TrimSuffix(indent, '\r') == indent;
    assert TrimSuffix(comment, '\r')[0] == '#' || comment == "#";
  }

  /** Between quotes of one kind. */
  predicate IsQuoted(value: string) {
    |value| >= 2 && (value[0] == value[|value| - 1] == '"' || value[0] == value[|value| - 1] == '\'')
  }

  /** What a line's value stands for: what one pair of quotes encloses, or else
      itself, trailing blanks and unmatched quotes included. */
  lemma {:induction false} LineSets(es: Entries, key: string, shown: string, value: string, number: nat)
    requires Accepts(File, key) && key !in Keys(es) && (shown != "" ==> shown[|shown| - 1] != '\r')
    requires shown == "\"" + value + "\"" || shown == "'" + value + "'" || (shown == value && !IsQuoted(value))
    ensures LineIn(es, key + "=" + shown, number) == (es + [Entry(key, value, File)], None)
  {
    var line := key + "=" + shown;
    forall i | 0 <= i < |key|
      ensures key[i] != '=' && key[i] != '#'
    {
      assert IsKeyChar(key[i]);
    }
    assert line[|line| - 1] != '\r' && line[0] == key[0] && IsKeyChar(key[0]);
    assert Trimmed(line) == line && Says(line);
    CutOfJoined(key, shown);
    UnquotedIs(shown, value);
    CutOfJoined(key, value);
  }

  lemma {:induction false} UnquotedIs(shown: string, value: string)
    requires shown == "\"" + value + "\"" || shown == "'" + value + "'" || (shown == value && !IsQuoted(value))
    ensures StripOnePair(shown) == value
  {
    if shown != value || IsQuoted(value) {
      assert shown[1..|shown| - 1] == value;
    }
  }

  // ---- Which error -------------------------------------------------------------------------------------

  /** What is wrong with an assignment, and where. */
  ghost predicate Describes(e: Error, assignment: string, source: Source, origin: Origin) {
    var key := KeyOf(assignment);
    && e.source == source
    && (e.NoEquals? <==> '=' !in assignment)
    && (e.BadName? <==> '=' in assignment && !IsKey(key))
    && (e.ReservedName? <==> '=' in assignment && IsKey(key) && Reserved(key))
    && (e.ReservedInFile? <==> '=' in assignment && IsKey(key) && !Reserved(key))
    && (e.ReservedInFile? ==> origin == File && KeepsOutOfFile(key))
  }

  lemma {:induction false} ValidationDescribes(assignment: string, source: Source, origin: Origin)
    ensures Validation(assignment, source, origin).Some? ==>
              Describes(Validation(assignment, source, origin).value, assignment, source, origin)
  {
  }

  /** The error of a file is that of its first bad line, by its number. */
  lemma {:induction false} FirstBadLine(es: Entries, lines: seq<string>) returns (n: nat)
    requires Sound(es) && LoadIn(es, lines).1.Some?
    ensures n < |lines| && LoadIn(es, lines[..n]).1.None?
    ensures !LineFine(LoadIn(es, lines[..n]).0, lines[n])
    ensures LoadIn(es, lines).0 == LoadIn(es, lines[..n]).0
    ensures LoadIn(es, lines).1.value.source == Line(n + 1)
    ensures LoadIn(es, lines).1.value.NoEquals? <==> '=' !in Trimmed(lines[n])
    decreases |lines|
  {
    var shorter := lines[..|lines| - 1];
    if LoadIn(es, shorter).1.Some? {
      n := FirstBadLine(es, shorter);
      assert shorter[..n] == lines[..n];
    } else {
      n := |lines| - 1;
      LoadSound(es, shorter);
      BadLine(LoadIn(es, shorter).0, lines[n], n + 1);
    }
  }

  lemma {:induction false} BadLine(es: Entries, line: string, number: nat)
    requires Sound(es) && LineIn(es, line, number).1.Some?
    ensures LineIn(es, line, number).0 == es && !LineFine(es, line)
    ensures LineIn(es, line, number).1.value.source == Line(number)
    ensures LineIn(es, line, number).1.value.NoEquals? <==> '=' !in Trimmed(line)
  {
    var t := Trimmed(line);
    LineInIs(es, line, number);
    CutOfJoined(KeyOf(t), StripOnePair(ValueOf(t)));
  }

  /** A whole namespace is the launcher's. */
  lemma {:induction false} NamespaceIsReserved(space: string, name: string, origin: Origin)
    requires space in {"HOST_", "SRT_", "CLAUDE_CONTAINED_"}
    ensures !Accepts(origin, space + name)
  {
    assert space <= space + name;
  }

  /** Everything that the launcher sets in a container's environment itself is
      reserved: no flag, file or built-in can stand in for it. */
  lemma {:induction false} LauncherKeysAreReserved(name: string, origin: Origin)
    ensures name in {"HOME", "UID", "GID", "FORWARD_PORTS"} ==> !Accepts(origin, "HOST_" + name)
    ensures name in {"DISABLE", "ALLOW_HOSTS"} ==> !Accepts(origin, "SRT_" + name)
    ensures name in {"ZELLIJ", "ZELLIJ_SESSION", "ZELLIJ_ROOT", "EXPLICIT_ENV_KEYS"} ==>
              !Accepts(origin, "CLAUDE_CONTAINED_" + name)
    ensures name in {"GIT_PROTECT_DIRS", "HOME", "PATH", "STAY_ROOT", "SSH_AUTH_SOCK"} ==> !Accepts(origin, name)
  {
    NamespaceIsReserved("HOST_", name, origin);
    NamespaceIsReserved("SRT_", name, origin);
    NamespaceIsReserved("CLAUDE_CONTAINED_", name, origin);
  }

  // ---- Printing and loading -------------------------------------------------------------------------

  function Quoted(p: Pair): string {
    p.key + "=" + "\"" + p.value + "\""
  }

  function QuotedAll(ps: seq<Pair>): seq<string> {
    if ps == [] then [] else QuotedAll(ps[..|ps| - 1]) + [Quoted(ps[|ps| - 1])]
  }

  /** The file that holds one quoted assignment a line. */
  function PrintedFile(ps: seq<Pair>): string {
    Unlines(QuotedAll(ps))
  }

  ghost predicate Printable(ps: seq<Pair>) {
    && (forall i :: 0 <= i < |ps| ==> Accepts(File, ps[i].key) && '\n' !in ps[i].value)
    && (forall i, j :: 0 <= i < j < |ps| ==> ps[i].key != ps[j].key)
  }

  lemma {:induction false} QuotedLine(p: Pair)
    requires IsKey(p.key)
    ensures Says(Quoted(p)) && Trimmed(Quoted(p)) == Quoted(p)
    ensures '=' in Quoted(p) && KeyOf(Quoted(p)) == p.key && StripOnePair(ValueOf(Quoted(p))) == p.value
  {
    var s := Quoted(p);
    assert s[|s| - 1] == '"';
    assert s[0] == p.key[0];
    var value := "\"" + p.value + "\"";
    assert s == p.key + "=" + value;
    forall i | 0 <= i < |p.key|
      ensures p.key[i] != '='
    {
      assert IsKeyChar(p.key[i]);
    }
    CutOfJoined(p.key, value);
    assert value[1..|value| - 1] == p.value;
  }

  lemma {:induction false} QuotedAllFree(ps: seq<Pair>)
    requires forall i :: 0 <= i < |ps| ==> IsKey(ps[i].key) && '\n' !in ps[i].value
    ensures forall i :: 0 <= i < |QuotedAll(ps)| ==> '\n' !in QuotedAll(ps)[i]
  {
    if ps != [] {
      var p := ps[|ps| - 1];
      QuotedAllFree(ps[..|ps| - 1]);
      assert forall i :: 0 <= i < |p.key| ==> IsKeyChar(p.key[i]);
    }
  }

  /** Distinct acceptable keys with any values but newlines survive being
      printed and loaded. */
  lemma {:induction false} LoadUndoesPrint(ps: seq<Pair>)
    requires Printable(ps)
    ensures LoadIn([], SplitLines(PrintedFile(ps))).1.None?
    ensures PairsOf(LoadIn([], SplitLines(PrintedFile(ps))).0) == ps
  {
    QuotedAllFree(ps);
    SplitUnlines(QuotedAll(ps));
    LoadQuoted(ps);
  }

  lemma {:induction false} LoadQuotedLine(es: Entries, p: Pair, number: nat)
    requires Accepts(File, p.key) && p.key !in Keys(es)
    ensures LineIn(es, Quoted(p), number) == (es + [Entry(p.key, p.value, File)], None)
  {
    QuotedLine(p);
    CutOfJoined(p.key, p.value);
  }

  lemma {:induction false} PairsAppend(es: Entries, e: Entry)
    ensures PairsOf(es + [e]) == PairsOf(es) + [Pair(e.key, e.value)]
  {
    assert (es + [e])[..|es|] == es;
  }

  lemma {:induction false} PrintableStep(ps: seq<Pair>)
    requires Printable(ps) && ps != []
    ensures var n := |ps| - 1;
            Printable(ps[..n]) && Accepts(File, ps[n].key) && ps[n].key !in KeysOf(ps[..n]) && ps == ps[..n] + [ps[n]]
  {
    var n := |ps| - 1;
    assert forall i :: 0 <= i < n ==> ps[..n][i] == ps[i];
  }

  lemma {:induction false} LoadStep(es: Entries, lines: seq<string>, line: string)
    requires LoadIn(es, lines).1.None?
    ensures LoadIn(es, lines + [line]) == LineIn(LoadIn(es, lines).0, line, |lines| + 1)
  {
    assert (lines + [line])[..|lines|] == lines;
  }

  lemma {:induction false} LoadQuoted(ps: seq<Pair>)
    requires Printable(ps)
    ensures LoadIn([], QuotedAll(ps)).1.None?
    ensures PairsOf(LoadIn([], QuotedAll(ps)).0) == ps
    decreases |ps|
  {
    if ps == [] {
      assert LoadIn([], []) == ([], None);
    } else {
      var n := |ps| - 1;
      var p := ps[n];
      PrintableStep(ps);
      LoadQuoted(ps[..n]);
      var before := LoadIn([], QuotedAll(ps[..n])).0;
      KeysOfPairs(before);
      LoadStep([], QuotedAll(ps[..n]), Quoted(p));
      LoadQuotedLine(before, p, |QuotedAll(ps[..n])| + 1);
      PairsAppend(before, Entry(p.key, p.value, File));
    }
  }
}
