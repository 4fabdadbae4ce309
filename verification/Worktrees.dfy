/** Which linked worktrees the container cannot see (internal/host/worktree.go). */
module Worktrees {
  import opened Text
  import opened Paths
  import AutoLock

  // ---- Visibility ------------------------------------------------------------------

  ghost predicate Visible(path: string, roots: seq<string>) {
    exists i :: 0 <= i < |roots| && PathIsAtOrUnder(path, roots[i])
  }

  method PathVisibleInContainer(path: string, roots: seq<string>) returns (visible: bool)
    ensures visible <==> Visible(path, roots)
  {
    for i := 0 to |roots|
      invariant forall j :: 0 <= j < i ==> !PathIsAtOrUnder(path, roots[j])
    {
      if PathIsAtOrUnder(path, roots[i]) {
        return true;
      }
    }
    return false;
  }

  // ---- The parser -------------------------------------------------------------------

  /** What the parser knows of the worktree it is reading about. */
  datatype Reading = Reading(path: string, lockReason: string, locked: bool, prunable: bool)

  const NOTHING := Reading("", "", false, false)

  /** The repository, the mounted roots and the existing directories. */
  datatype Host = Host(repoRoot: string, roots: seq<string>, dirs: set<string>)

  /** A worktree that a prune inside the container would drop, and that nobody
      but the launcher has locked. */
  ghost predicate AtRisk(host: Host, w: Reading) {
    && w.path != "" && w.path != host.repoRoot && !w.prunable
    && w.path in host.dirs
    && !Visible(w.path, host.roots)
    && (w.locked ==> AutoLock.AUTO_LOCK_PREFIX <= w.lockReason)
  }

  ghost function Kept(host: Host, hidden: seq<string>, w: Reading): seq<string> {
    if AtRisk(host, w) then hidden + [w.path] else hidden
  }

  function Noted(w: Reading, line: string): Reading {
    if "worktree " <= line then w.(path := TrimPrefix(line, "worktree "))
    else if "locked" <= line then
      w.(locked := true, lockReason := TrimPrefix(TrimPrefix(line, "locked"), " "))
    else if "prunable" <= line then w.(prunable := true)
    else w
  }

  ghost function Parsed(host: Host, hidden: seq<string>, w: Reading, lines: seq<string>): (r: (seq<string>, Reading))
    decreases lines
  {
    if lines == [] then (hidden, w)
    else if lines[0] == "" then Parsed(host, Kept(host, hidden, w), NOTHING, lines[1..])
    else Parsed(host, hidden, Noted(w, lines[0]), lines[1..])
  }

  ghost function ParsedAll(host: Host, out: string): seq<string> {
    var (hidden, w) := Parsed(host, [], NOTHING, Split(out, '\n'));
    Kept(host, hidden, w)
  }

  method Flush(host: Host, hidden: seq<string>, w: Reading) returns (hidden': seq<string>)
    ensures hidden' == Kept(host, hidden, w)
  {
    if w.path == "" || w.path == host.repoRoot || w.prunable {
      return hidden;
    }
    if w.path !in host.dirs {
      return hidden;
    }
    var visible := PathVisibleInContainer(w.path, host.roots);
    if visible {
      return hidden;
    }
    if w.locked && !(AutoLock.AUTO_LOCK_PREFIX <= w.lockReason) {
      return hidden;
    }
    return hidden + [w.path];
  }

  /** `git` is the porcelain listing, absent where git fails. */
  method HiddenWorktrees(host: Host, git: Option<string>) returns (hidden: seq<string>)
    ensures host.repoRoot == "" || !Visible(Joined(host.repoRoot, ".git"), host.roots) || git.None? ==> hidden == []
    ensures host.repoRoot != "" && Visible(Joined(host.repoRoot, ".git"), host.roots) && git.Some? ==>
              hidden == ParsedAll(host, git.value)
  {
    hidden := [];
    if host.repoRoot == "" {
      return;
    }
    var visible := PathVisibleInContainer(Joined(host.repoRoot, ".git"), host.roots);
    if !visible || git.None? {
      return;
    }
    var lines := Split(git.value, '\n');
    var w := NOTHING;
    for i := 0 to |lines|
      invariant Parsed(host, hidden, w, lines[i..]) == Parsed(host, [], NOTHING, lines)
    {
      assert lines[i..][1..] == lines[i + 1..];
      if lines[i] == "" {
        hidden := Flush(host, hidden, w);
        w := NOTHING;
        continue;
      }
      w := Noted(w, lines[i]);
    }
    assert lines[|lines|..] == [];
    hidden := Flush(host, hidden, w);
  }

  // ---- What git prints ------------------------------------------------------------------

  datatype Attribute = Locked(reason: string) | Prunable(why: string) | Unrelated(line: string)

  datatype Record = Record(path: string, attributes: seq<Attribute>)

  function AttributeLine(a: Attribute): string {
    match a
    case Locked(reason) => if reason == "" then "locked" else "locked " + reason
    case Prunable(why) => "prunable " + why
    case Unrelated(line) => line
  }

  function AttributeLines(attributes: seq<Attribute>): seq<string> {
    if attributes == [] then [] else [AttributeLine(attributes[0])] + AttributeLines(attributes[1..])
  }

  function RecordLines(r: Record): seq<string> {
    ["worktree " + r.path] + AttributeLines(r.attributes) + [""]
  }

  function ListingLines(records: seq<Record>): seq<string> {
    if records == [] then [] else RecordLines(records[0]) + ListingLines(records[1..])
  }

  /** Fields on one line each, and no other attribute mistaken for one of the three. */
  ghost predicate WellFormed(a: Attribute) {
    match a
    case Locked(reason) => '\n' !in reason
    case Prunable(why) => '\n' !in why
    case Unrelated(line) =>
      line != "" && '\n' !in line && !("worktree " <= line) && !("locked" <= line) && !("prunable" <= line)
  }

  ghost predicate WellFormedAll(records: seq<Record>) {
    forall i :: 0 <= i < |records| ==>
      '\n' !in records[i].path && forall j :: 0 <= j < |records[i].attributes| ==> WellFormed(records[i].attributes[j])
  }

  /** Locked by somebody else: the last lock it reports is not the launcher's. */
  ghost predicate LockedByUser(attributes: seq<Attribute>) {
    exists i :: 0 <= i < |attributes| && attributes[i].Locked?
      && !(AutoLock.AUTO_LOCK_PREFIX <= attributes[i].reason)
      && forall j :: i < j < |attributes| ==> !attributes[j].Locked?
  }

  /** The filter the parser is meant to be, on one record by itself. */
  ghost predicate Selected(host: Host, r: Record) {
    && r.path != "" && r.path != host.repoRoot
    && r.path in host.dirs
    && !Visible(r.path, host.roots)
    && (forall i :: 0 <= i < |r.attributes| ==> !r.attributes[i].Prunable?)
    && !LockedByUser(r.attributes)
  }

  ghost function SelectedPaths(host: Host, records: seq<Record>): seq<string> {
    if records == [] then []
    else (if Selected(host, records[0]) then [records[0].path] else []) + SelectedPaths(host, records[1..])
  }

  function NotedAll(w: Reading, attributes: seq<Attribute>): Reading
    decreases attributes
  {
    if attributes == [] then w else NotedAll(Noted(w, AttributeLine(attributes[0])), attributes[1..])
  }

  lemma {:induction false} NotedAttribute(w: Reading, a: Attribute)
    requires WellFormed(a)
    ensures AttributeLine(a) != "" && '\n' !in AttributeLine(a)
    ensures Noted(w, AttributeLine(a)) ==
              match a
              case Locked(reason) => w.(locked := true, lockReason := reason)
              case Prunable(_) => w.(prunable := true)
              case Unrelated(_) => w
  {
    var line := AttributeLine(a);
    if a.Locked? {
      assert line[0] == 'l';
      assert "locked" <= line;
      assert a.reason != "" ==> line[6..] == " " + a.reason;
    } else if a.Prunable? {
      assert line[0] == 'p';
      assert "prunable" <= line;
    }
  }

  /** Whatever the order of the attributes. */
  lemma {:induction false} NotedAllIs(w: Reading, attributes: seq<Attribute>)
    requires forall i :: 0 <= i < |attributes| ==> WellFormed(attributes[i])
    ensures var after := NotedAll(w, attributes);
            && after.path == w.path
            && (after.prunable <==> w.prunable || exists i :: 0 <= i < |attributes| && attributes[i].Prunable?)
            && ((after.locked && !(AutoLock.AUTO_LOCK_PREFIX <= after.lockReason)) <==>
                  LockedByUser(attributes)
                  || (w.locked && !(AutoLock.AUTO_LOCK_PREFIX <= w.lockReason)
                      && forall i :: 0 <= i < |attributes| ==> !attributes[i].Locked?))
    decreases attributes
  {
    if attributes != [] {
      var a, rest := attributes[0], attributes[1..];
      NotedAttribute(w, a);
      NotedAllIs(Noted(w, AttributeLine(a)), rest);
      assert forall i :: 0 <= i < |rest| ==> rest[i] == attributes[i + 1];
      LockedByUserStep(attributes);
    }
  }

  lemma {:induction false} LockedByUserStep(attributes: seq<Attribute>)
    requires attributes != []
    ensures var a, rest := attributes[0], attributes[1..];
            && (LockedByUser(attributes) <==>
                 LockedByUser(rest)
                 || (a.Locked? && !(AutoLock.AUTO_LOCK_PREFIX <= a.reason)
                     && forall i :: 0 <= i < |rest| ==> !rest[i].Locked?))
            && ((exists i :: 0 <= i < |attributes| && attributes[i].Prunable?) <==>
                 a.Prunable? || exists i :: 0 <= i < |rest| && rest[i].Prunable?)
            && ((forall i :: 0 <= i < |attributes| ==> !attributes[i].Locked?) <==>
                 !a.Locked? && forall i :: 0 <= i < |rest| ==> !rest[i].Locked?)
  {
    var rest := attributes[1..];
    assert forall i :: 0 < i < |attributes| ==> attributes[i] == rest[i - 1];
    if LockedByUser(rest) {
      var i :| 0 <= i < |rest| && rest[i].Locked? && !(AutoLock.AUTO_LOCK_PREFIX <= rest[i].reason)
        && forall j :: i < j < |rest| ==> !rest[j].Locked?;
      assert attributes[i + 1] == rest[i];
    }
    if LockedByUser(attributes) {
      var i :| 0 <= i < |attributes| && attributes[i].Locked? && !(AutoLock.AUTO_LOCK_PREFIX <= attributes[i].reason)
        && forall j :: i < j < |attributes| ==> !attributes[j].Locked?;
      if i > 0 {
        assert rest[i - 1] == attributes[i];
      } else {
        assert forall j :: 0 <= j < |rest| ==> rest[j] == attributes[j + 1];
      }
    }
    assert forall i :: 0 <= i < |rest| ==> rest[i] == attributes[i + 1];
  }

  lemma {:induction false} ParsedAppend(host: Host, hidden: seq<string>, w: Reading, a: seq<string>, b: seq<string>)
    ensures var (mid, v) := Parsed(host, hidden, w, a);
            Parsed(host, hidden, w, a + b) == Parsed(host, mid, v, b)
    decreases a
  {
    if a == [] {
      assert a + b == b;
    } else {
      assert (a + b)[1..] == a[1..] + b;
      if a[0] == "" {
        ParsedAppend(host, Kept(host, hidden, w), NOTHING, a[1..], b);
      } else {
        ParsedAppend(host, hidden, Noted(w, a[0]), a[1..], b);
      }
    }
  }

  lemma {:induction false} ParsedAttributes(host: Host, hidden: seq<string>, w: Reading, attributes: seq<Attribute>)
    requires forall i :: 0 <= i < |attributes| ==> WellFormed(attributes[i])
    ensures Parsed(host, hidden, w, AttributeLines(attributes)) == (hidden, NotedAll(w, attributes))
    decreases attributes
  {
    if attributes != [] {
      NotedAttribute(w, attributes[0]);
      ParsedAttributes(host, hidden, Noted(w, AttributeLine(attributes[0])), attributes[1..]);
    }
  }

  lemma {:induction false} AtRiskIffSelected(host: Host, r: Record)
    requires forall i :: 0 <= i < |r.attributes| ==> WellFormed(r.attributes[i])
    ensures AtRisk(host, NotedAll(NOTHING.(path := r.path), r.attributes)) <==> Selected(host, r)
  {
    NotedAllIs(NOTHING.(path := r.path), r.attributes);
  }

  lemma {:induction false} ParsedEnd(host: Host, hidden: seq<string>, w: Reading)
    ensures Parsed(host, hidden, w, [""]) == (Kept(host, hidden, w), NOTHING)
  {
    assert [""][1..] == [];
    assert Parsed(host, Kept(host, hidden, w), NOTHING, []) == (Kept(host, hidden, w), NOTHING);
  }

  lemma {:induction false} ParsedHead(host: Host, hidden: seq<string>, path: string, rest: seq<string>)
    ensures Parsed(host, hidden, NOTHING, ["worktree " + path] + rest) ==
              Parsed(host, hidden, NOTHING.(path := path), rest)
  {
    var head := "worktree " + path;
    assert "worktree " <= head && head[9..] == path;
    assert ([head] + rest)[1..] == rest;
  }

  /** One record contributes what the filter says and leaves nothing behind. */
  lemma {:induction false} ParsedRecord(host: Host, hidden: seq<string>, r: Record)
    requires forall i :: 0 <= i < |r.attributes| ==> WellFormed(r.attributes[i])
    ensures Parsed(host, hidden, NOTHING, RecordLines(r)) ==
              (hidden + (if Selected(host, r) then [r.path] else []), NOTHING)
  {
    var lines, w := AttributeLines(r.attributes), NOTHING.(path := r.path);
    assert RecordLines(r) == ["worktree " + r.path] + (lines + [""]);
    ParsedHead(host, hidden, r.path, lines + [""]);
    ParsedAttributes(host, hidden, w, r.attributes);
    ParsedAppend(host, hidden, w, lines, [""]);
    ParsedEnd(host, hidden, NotedAll(w, r.attributes));
    AtRiskIffSelected(host, r);
    NotedAllIs(w, r.attributes);
    assert hidden + [] == hidden;
  }

  lemma {:induction false} ParsedListing(host: Host, hidden: seq<string>, records: seq<Record>)
    requires WellFormedAll(records)
    ensures Parsed(host, hidden, NOTHING, ListingLines(records)) == (hidden + SelectedPaths(host, records), NOTHING)
    decreases records
  {
    if records == [] {
      assert hidden + [] == hidden;
      assert Parsed(host, hidden, NOTHING, []) == (hidden, NOTHING);
    } else {
      var found := if Selected(host, records[0]) then [records[0].path] else [];
      var rest := SelectedPaths(host, records[1..]);
      ParsedRecord(host, hidden, records[0]);
      ParsedAppend(host, hidden, NOTHING, RecordLines(records[0]), ListingLines(records[1..]));
      ParsedListing(host, hidden + found, records[1..]);
      assert (hidden + found) + rest == hidden + (found + rest);
    }
  }

  function Blanks(n: nat): seq<string> {
    if n == 0 then [] else [""] + Blanks(n - 1)
  }

  lemma {:induction false} BlanksAddNothing(host: Host, hidden: seq<string>, n: nat)
    ensures Parsed(host, hidden, NOTHING, Blanks(n)) == (hidden, NOTHING)
    ensures forall i :: 0 <= i < |Blanks(n)| ==> Blanks(n)[i] == ""
    ensures Blanks(n) + [""] == Blanks(n + 1)
  {
    if n > 0 {
      BlanksAddNothing(host, hidden, n - 1);
    }
  }

  lemma {:induction false} AttributeLinesFree(attributes: seq<Attribute>)
    requires forall i :: 0 <= i < |attributes| ==> WellFormed(attributes[i])
    ensures forall i :: 0 <= i < |AttributeLines(attributes)| ==> '\n' !in AttributeLines(attributes)[i]
  {
    if attributes != [] {
      NotedAttribute(NOTHING, attributes[0]);
      AttributeLinesFree(attributes[1..]);
    }
  }

  lemma {:induction false} ListingFree(records: seq<Record>)
    requires WellFormedAll(records)
    ensures forall i :: 0 <= i < |ListingLines(records)| ==> '\n' !in ListingLines(records)[i]
  {
    if records != [] {
      AttributeLinesFree(records[0].attributes);
      ListingFree(records[1..]);
    }
  }

  /** On whatever git prints, however its attributes are ordered and however
      many blank lines end the listing, the parser is the per-record filter. */
  lemma {:induction false} ParserIsFilter(host: Host, records: seq<Record>, trailing: nat)
    requires WellFormedAll(records)
    ensures ParsedAll(host, Unlines(ListingLines(records) + Blanks(trailing))) == SelectedPaths(host, records)
  {
    var listing, chosen := ListingLines(records), SelectedPaths(host, records);
    ListingFree(records);
    BlanksAddNothing(host, chosen, trailing);
    SplitUnlines(listing + Blanks(trailing));
    assert (listing + Blanks(trailing)) + [""] == listing + Blanks(trailing + 1);
    ParsedListing(host, [], records);
    assert [] + chosen == chosen;
    ParsedAppend(host, [], NOTHING, listing, Blanks(trailing + 1));
    BlanksAddNothing(host, chosen, trailing + 1);
  }
}
