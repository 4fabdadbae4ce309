/** The identity of a tooling layer (internal/layer/hash.go): its directory tree
    as a list of entries, and the entries as one canonical byte stream. */
module LayerHash {
  import opened Text

  const SCHEME := "claude-contained-layer"
  const VERSION := "v1"
  const NUL := '\0'

  datatype Kind = KindDir | KindFile | KindSymlink | KindOther

  datatype Entry = Entry(rel: string, kind: Kind, mode: string, size: string, content: string)

  /** A directory tree as the walk meets it. */
  datatype Node =
    | Directory(kids: seq<Kid>)
    | Regular(perm: bv9, bytes: string)
    | Symlink(target: string)
    | Special

  datatype Kid = Kid(name: string, node: Node)

  /** The digest of file contents and link targets. */
  type Digest = string -> string

  function KindName(k: Kind): string {
    match k
    case KindDir => "dir"
    case KindFile => "file"
    case KindSymlink => "symlink"
    case KindOther => "other"
  }

  function GitMode(perm: bv9): string {
    if perm & 0x49 != 0 then "0755" else "0644"
  }

  /** Any of the three execute bits makes a file executable to git; no other bit
      counts. */
  lemma {:induction false} AnyExecuteBitCounts(perm: bv9)
    ensures GitMode(perm) == "0755" <==> perm & 0x40 != 0 || perm & 0x08 != 0 || perm & 0x01 != 0
    ensures GitMode(perm) != "0755" ==> GitMode(perm) == "0644"
  {
    assert perm & 0x49 != 0 <==> perm & 0x40 != 0 || perm & 0x08 != 0 || perm & 0x01 != 0;
  }

  // ---- The tree as entries -----------------------------------------------------------

  function EntryOf(digest: Digest, rel: string, node: Node): Entry {
    match node
    case Directory(_) => Entry(rel, KindDir, "", "", "")
    case Regular(perm, bytes) => Entry(rel, KindFile, GitMode(perm), Decimal(|bytes|), digest(bytes))
    case Symlink(target) => Entry(rel, KindSymlink, "", Decimal(|target|), digest(target))
    case Special => Entry(rel, KindOther, "", "", "")
  }

  function EntriesOf(digest: Digest, rel: string, node: Node): seq<Entry>
    decreases node
  {
    [EntryOf(digest, rel, node)] + if node.Directory? then Enumerate(digest, rel + "/", node.kids) else []
  }

  /** The entries of a directory's contents, below the given prefix. */
  function Enumerate(digest: Digest, prefix: string, kids: seq<Kid>): seq<Entry>
    decreases kids
  {
    if kids == [] then []
    else EntriesOf(digest, prefix + kids[0].name, kids[0].node) + Enumerate(digest, prefix, kids[1..])
  }

  // ---- Sorting by path ------------------------------------------------------------------

  /** Byte order on paths. */
  predicate Before(a: string, b: string) {
    b != "" && (a == "" || a[0] < b[0] || (a[0] == b[0] && Before(a[1..], b[1..])))
  }

  lemma {:induction false} BeforeIsTotal(a: string, b: string)
    ensures a == b || Before(a, b) || Before(b, a)
    ensures !(Before(a, b) && Before(b, a))
    ensures a == b ==> !Before(a, b)
  {
    if a != "" && b != "" && a[0] == b[0] {
      BeforeIsTotal(a[1..], b[1..]);
      assert a == [a[0]] + a[1..] && b == [b[0]] + b[1..];
    }
  }

  lemma {:induction false} BeforeIsTransitive(a: string, b: string, c: string)
    requires Before(a, b) && Before(b, c)
    ensures Before(a, c)
  {
    if a != "" && a[0] == b[0] == c[0] {
      BeforeIsTransitive(a[1..], b[1..], c[1..]);
    }
  }

  function Inserted(es: seq<Entry>, e: Entry): seq<Entry> {
    if es == [] then [e]
    else if Before(e.rel, es[|es| - 1].rel) then Inserted(es[..|es| - 1], e) + [es[|es| - 1]]
    else es + [e]
  }

  function SortedByRel(es: seq<Entry>): seq<Entry> {
    if es == [] then [] else Inserted(SortedByRel(es[..|es| - 1]), es[|es| - 1])
  }

  method InsertEntry(sorted: seq<Entry>, e: Entry) returns (r: seq<Entry>)
    ensures r == Inserted(sorted, e)
  {
    var j := |sorted|;
    assert sorted[..j] == sorted && sorted[j..] == [];
    while j > 0 && Before(e.rel, sorted[j - 1].rel)
      invariant j <= |sorted|
      invariant Inserted(sorted, e) == Inserted(sorted[..j], e) + sorted[j..]
    {
      assert sorted[..j][..j - 1] == sorted[..j - 1];
      assert sorted[j - 1..] == [sorted[j - 1]] + sorted[j..];
      j := j - 1;
    }
    r := sorted[..j] + [e] + sorted[j..];
  }

  method SortEntries(entries: seq<Entry>) returns (sorted: seq<Entry>)
    ensures sorted == SortedByRel(entries)
  {
    sorted := [];
    for i := 0 to |entries|
      invariant sorted == SortedByRel(entries[..i])
    {
      assert entries[..i + 1][..i] == entries[..i];
      sorted := InsertEntry(sorted, entries[i]);
    }
    assert entries[..|entries|] == entries;
  }

  lemma {:induction false} InsertedPermutes(es: seq<Entry>, e: Entry)
    ensures multiset(Inserted(es, e)) == multiset(es) + multiset{e}
  {
    if es != [] {
      InsertedPermutes(es[..|es| - 1], e);
      assert es == es[..|es| - 1] + [es[|es| - 1]];
    }
  }

  lemma {:induction false} MultisetLast(es: seq<Entry>)
    requires es != []
    ensures multiset(es) == multiset(es[..|es| - 1]) + multiset{es[|es| - 1]}
  {
    assert es == es[..|es| - 1] + [es[|es| - 1]];
  }

  lemma {:induction false} MultisetFirst(es: seq<Entry>)
    requires es != []
    ensures multiset(es) == multiset{es[0]} + multiset(es[1..])
  {
    assert es == [es[0]] + es[1..];
  }

  lemma {:induction false} SortPermutes(es: seq<Entry>)
    ensures multiset(SortedByRel(es)) == multiset(es)
  {
    if es != [] {
      var front, last := es[..|es| - 1], es[|es| - 1];
      var sorted := SortedByRel(front);
      SortPermutes(front);
      InsertedPermutes(sorted, last);
      MultisetLast(es);
      assert SortedByRel(es) == Inserted(sorted, last);
    }
  }

  ghost predicate Ascending(es: seq<Entry>) {
    forall i, j :: 0 <= i < j < |es| ==> Before(es[i].rel, es[j].rel)
  }

  ghost predicate DistinctPaths(es: seq<Entry>) {
    forall i, j :: 0 <= i < j < |es| ==> es[i].rel != es[j].rel
  }

  lemma {:induction false} InsertedAscends(es: seq<Entry>, e: Entry)
    requires Ascending(es) && forall i :: 0 <= i < |es| ==> es[i].rel != e.rel
    ensures Ascending(Inserted(es, e))
  {
    if es != [] {
      var front, last := es[..|es| - 1], es[|es| - 1];
      BeforeIsTotal(e.rel, last.rel);
      if Before(e.rel, last.rel) {
        InsertedAscends(front, e);
        InsertedPermutes(front, e);
        var r := Inserted(front, e);
        forall i | 0 <= i < |r|
          ensures Before(r[i].rel, last.rel)
        {
          assert r[i] in multiset(r);
          assert r[i] == e || r[i] in front;
        }
      } else {
        forall i | 0 <= i < |front|
          ensures Before(es[i].rel, e.rel)
        {
          BeforeIsTransitive(es[i].rel, last.rel, e.rel);
        }
      }
    }
  }

  lemma {:induction false} SortAscends(es: seq<Entry>)
    requires DistinctPaths(es)
    ensures Ascending(SortedByRel(es))
  {
    if es != [] {
      var front, last := es[..|es| - 1], es[|es| - 1];
      SortAscends(front);
      SortPermutes(front);
      forall i | 0 <= i < |SortedByRel(front)|
        ensures SortedByRel(front)[i].rel != last.rel
      {
        assert SortedByRel(front)[i] in multiset(front);
      }
      InsertedAscends(SortedByRel(front), last);
    }
  }

  lemma {:induction false} FirstIsLeast(s: seq<Entry>, e: Entry)
    requires Ascending(s) && s != [] && e in s
    ensures e == s[0] || Before(s[0].rel, e.rel)
  {
  }

  lemma {:induction false} HeadsAgree(s: seq<Entry>, t: seq<Entry>)
    requires Ascending(s) && Ascending(t) && multiset(s) == multiset(t) && s != []
    ensures t != [] && s[0] == t[0]
    ensures multiset(s[1..]) == multiset(t[1..])
  {
    assert s[0] in multiset(t);
    assert t[0] in multiset(s);
    FirstIsLeast(s, t[0]);
    FirstIsLeast(t, s[0]);
    BeforeIsTotal(s[0].rel, t[0].rel);
    MultisetFirst(s);
    MultisetFirst(t);
    assert multiset(s[1..]) == multiset(s) - multiset{s[0]};
    assert multiset(t[1..]) == multiset(t) - multiset{t[0]};
  }

  lemma {:induction false} AscendingIsUnique(s: seq<Entry>, t: seq<Entry>)
    requires Ascending(s) && Ascending(t) && multiset(s) == multiset(t)
    ensures s == t
  {
    if s == [] {
      assert |t| == |multiset(t)| == |multiset(s)|;
    } else {
      HeadsAgree(s, t);
      AscendingIsUnique(s[1..], t[1..]);
      assert s == [s[0]] + s[1..] && t == [t[0]] + t[1..];
    }
  }

  /** Sorting by distinct paths forgets the order of enumeration. */
  lemma {:induction false} SortForgetsOrder(s: seq<Entry>, t: seq<Entry>)
    requires DistinctPaths(s) && DistinctPaths(t)
    ensures SortedByRel(s) == SortedByRel(t) <==> multiset(s) == multiset(t)
  {
    SortAscends(s);
    SortAscends(t);
    SortPermutes(s);
    SortPermutes(t);
    if multiset(s) == multiset(t) {
      AscendingIsUnique(SortedByRel(s), SortedByRel(t));
    }
  }

  // ---- The stream -------------------------------------------------------------------------

  function FieldsOf(e: Entry): seq<string> {
    [e.rel, KindName(e.kind), e.mode, e.size, e.content]
  }

  function Flat(es: seq<Entry>): seq<string> {
    if es == [] then [] else Flat(es[..|es| - 1]) + FieldsOf(es[|es| - 1])
  }

  /** Every field followed by a NUL. */
  function Terminated(fields: seq<string>): string {
    if fields == [] then "" else Terminated(fields[..|fields| - 1]) + fields[|fields| - 1] + [NUL]
  }

  function Header(base: string): seq<string> {
    [SCHEME, VERSION, "base", base]
  }

  function Stream(base: string, entries: seq<Entry>): string {
    Terminated(Header(base) + Flat(SortedByRel(entries)))
  }

  /** Appends each field and its NUL to the buffer. */
  method WriteFields(buf: string, ghost written: seq<string>, fields: seq<string>) returns (r: string)
    requires buf == Terminated(written)
    ensures r == Terminated(written + fields)
  {
    r := buf;
    assert written + fields[..0] == written;
    for k := 0 to |fields|
      invariant r == Terminated(written + fields[..k])
    {
      assert (written + fields[..k + 1])[..|written| + k] == written + fields[..k];
      r := r + fields[k] + [NUL];
    }
    assert fields[..|fields|] == fields;
  }

  method CanonicalStream(base: string, entries: seq<Entry>) returns (buf: string)
    ensures buf == Stream(base, entries)
  {
    var sorted := SortEntries(entries);
    buf := WriteFields("", [], Header(base));
    assert [] + Header(base) == Header(base) + Flat(sorted[..0]);
    for i := 0 to |sorted|
      invariant buf == Terminated(Header(base) + Flat(sorted[..i]))
    {
      assert sorted[..i + 1][..i] == sorted[..i];
      ghost var written := Header(base) + Flat(sorted[..i]);
      buf := WriteFields(buf, written, FieldsOf(sorted[i]));
      assert written + FieldsOf(sorted[i]) == Header(base) + Flat(sorted[..i + 1]);
    }
    assert sorted[..|sorted|] == sorted;
  }

  predicate NulFree(e: Entry) {
    NUL !in e.rel && NUL !in e.mode && NUL !in e.size && NUL !in e.content
  }

  predicate AllNulFree(es: seq<Entry>) {
    forall i :: 0 <= i < |es| ==> NulFree(es[i])
  }

  function KindOf(name: string): Option<Kind> {
    if name == "dir" then Some(KindDir)
    else if name == "file" then Some(KindFile)
    else if name == "symlink" then Some(KindSymlink)
    else if name == "other" then Some(KindOther)
    else None
  }

  /** Reads entries off the end, five fields each. */
  function ParseEntries(fields: seq<string>): Option<seq<Entry>> {
    if fields == [] then Some([])
    else if |fields| < 5 then None
    else
      var n := |fields| - 5;
      var kind := KindOf(fields[n + 1]);
      var front := ParseEntries(fields[..n]);
      if kind.None? || front.None? then None
      else Some(front.value + [Entry(fields[n], kind.value, fields[n + 2], fields[n + 3], fields[n + 4])])
  }

  function ParseStream(stream: string): Option<(string, seq<Entry>)> {
    var parts := Split(stream, NUL);
    if |parts| < 5 || parts[..3] != [SCHEME, VERSION, "base"] then None
    else match ParseEntries(parts[4..|parts| - 1])
      case None => None
      case Some(entries) => Some((parts[3], entries))
  }

  lemma {:induction false} ParseOneMore(fields: seq<string>, es: seq<Entry>, e: Entry)
    requires ParseEntries(fields) == Some(es)
    ensures ParseEntries(fields + FieldsOf(e)) == Some(es + [e])
  {
    var more := fields + FieldsOf(e);
    assert more[..|more| - 5] == fields;
    assert KindOf(KindName(e.kind)) == Some(e.kind);
  }

  lemma {:induction false} ParseEntriesUndoesFlat(es: seq<Entry>)
    ensures ParseEntries(Flat(es)) == Some(es)
  {
    if es != [] {
      var front, last := es[..|es| - 1], es[|es| - 1];
      ParseEntriesUndoesFlat(front);
      ParseOneMore(Flat(front), front, last);
      assert es == front + [last];
    }
  }

  lemma {:induction false} SplitTerminated(fields: seq<string>, rest: string)
    requires forall i :: 0 <= i < |fields| ==> NUL !in fields[i]
    ensures Split(Terminated(fields) + rest, NUL) == fields + Split(rest, NUL)
  {
    if fields == [] {
      assert Terminated(fields) + rest == rest;
    } else {
      var front, last := fields[..|fields| - 1], fields[|fields| - 1];
      assert Terminated(fields) + rest == Terminated(front) + (last + [NUL] + rest);
      SplitTerminated(front, last + [NUL] + rest);
      SplitAt(last, NUL, rest);
      assert fields == front + [last];
    }
  }

  lemma {:induction false} FlatIsNulFree(es: seq<Entry>)
    requires AllNulFree(es)
    ensures forall i :: 0 <= i < |Flat(es)| ==> NUL !in Flat(es)[i]
  {
    if es != [] {
      FlatIsNulFree(es[..|es| - 1]);
    }
  }

  lemma {:induction false} StreamSplits(base: string, sorted: seq<Entry>)
    requires NUL !in base && AllNulFree(sorted)
    ensures Split(Terminated(Header(base) + Flat(sorted)), NUL) == Header(base) + Flat(sorted) + [""]
  {
    FlatIsNulFree(sorted);
    var fields := Header(base) + Flat(sorted);
    SplitTerminated(fields, "");
    assert Terminated(fields) + "" == Terminated(fields);
  }

  lemma {:induction false} ParsePartsOf(base: string, flat: seq<string>)
    ensures var parts := Header(base) + flat + [""];
            |parts| >= 5 && parts[..3] == [SCHEME, VERSION, "base"] && parts[3] == base && parts[4..|parts| - 1] == flat
  {
  }

  lemma {:induction false} SortedStaysNulFree(entries: seq<Entry>)
    requires AllNulFree(entries)
    ensures AllNulFree(SortedByRel(entries))
  {
    var sorted := SortedByRel(entries);
    SortPermutes(entries);
    forall i | 0 <= i < |sorted|
      ensures NulFree(sorted[i])
    {
      assert sorted[i] in multiset(entries);
    }
  }

  /** A parser recovers the base and the sorted entries from the stream. */
  lemma {:induction false} ParseUndoesStream(base: string, entries: seq<Entry>)
    requires NUL !in base && AllNulFree(entries)
    ensures ParseStream(Stream(base, entries)) == Some((base, SortedByRel(entries)))
  {
    var sorted := SortedByRel(entries);
    SortedStaysNulFree(entries);
    StreamSplits(base, sorted);
    ParsePartsOf(base, Flat(sorted));
    ParseEntriesUndoesFlat(sorted);
  }

  /** Two streams are equal exactly when the bases are and the same entries went
      in, in whatever order. */
  lemma {:induction false} StreamIsInjective(base: string, es: seq<Entry>, base': string, es': seq<Entry>)
    requires NUL !in base && NUL !in base' && AllNulFree(es) && AllNulFree(es')
    requires DistinctPaths(es) && DistinctPaths(es')
    ensures Stream(base, es) == Stream(base', es') <==> base == base' && multiset(es) == multiset(es')
  {
    ParseUndoesStream(base, es);
    ParseUndoesStream(base', es');
    SortForgetsOrder(es, es');
  }

  // ---- The stream determines the tree --------------------------------------------------------

  predicate IsFileName(name: string) {
    name != "" && '/' !in name && NUL !in name
  }

  ghost predicate WellFormed(node: Node) {
    node.Directory? ==> WellFormedKids(node.kids)
  }

  ghost predicate WellFormedKids(kids: seq<Kid>) {
    && (forall i :: 0 <= i < |kids| ==> IsFileName(kids[i].name) && WellFormed(kids[i].node))
    && (forall i, j :: 0 <= i < j < |kids| ==> kids[i].name != kids[j].name)
  }

  /** The same build context: equal up to the order of a directory's entries and
      the permission bits that git does not track. */
  ghost predicate SameNode(a: Node, b: Node) {
    match (a, b)
    case (Directory(ks), Directory(ls)) => SameKids(ks, ls)
    case (Regular(p, x), Regular(q, y)) => GitMode(p) == GitMode(q) && x == y
    case (Symlink(x), Symlink(y)) => x == y
    case (Special, Special) => true
    case _ => false
  }

  ghost predicate SameKids(ks: seq<Kid>, ls: seq<Kid>) {
    && Names(ks) == Names(ls)
    && forall i, j :: 0 <= i < |ks| && 0 <= j < |ls| && ks[i].name == ls[j].name ==> SameNode(ks[i].node, ls[j].node)
  }

  function Names(ks: seq<Kid>): set<string> {
    set i | 0 <= i < |ks| :: ks[i].name
  }

  ghost predicate FaithfulDigest(digest: Digest) {
    && (forall x, y :: digest(x) == digest(y) ==> x == y)
    && (forall x :: NUL !in digest(x))
  }

  /** An entry of a directory is one of exactly one kid. */
  lemma {:induction false} EnumerateIsUnion(digest: Digest, prefix: string, kids: seq<Kid>, e: Entry)
    ensures e in Enumerate(digest, prefix, kids) <==>
              exists i :: 0 <= i < |kids| && e in EntriesOf(digest, prefix + kids[i].name, kids[i].node)
  {
    if kids != [] {
      EnumerateIsUnion(digest, prefix, kids[1..], e);
      assert forall i :: 1 <= i < |kids| ==> kids[1..][i - 1] == kids[i];
      if i :| 0 <= i < |kids[1..]| && e in EntriesOf(digest, prefix + kids[1..][i].name, kids[1..][i].node) {
        assert kids[i + 1] == kids[1..][i];
      }
    }
  }

  lemma {:induction false} EntriesAreBelow(digest: Digest, rel: string, node: Node, e: Entry)
    requires e in EntriesOf(digest, rel, node)
    ensures || e == EntryOf(digest, rel, node)
            || (node.Directory? && e in Enumerate(digest, rel + "/", node.kids) && rel + "/" <= e.rel)
    decreases node, 1
  {
    if e != EntryOf(digest, rel, node) {
      EnumeratedAreBelow(digest, rel + "/", node.kids, e);
    }
  }

  lemma {:induction false} EnumeratedAreBelow(digest: Digest, prefix: string, kids: seq<Kid>, e: Entry)
    requires e in Enumerate(digest, prefix, kids)
    ensures prefix <= e.rel
    decreases kids
  {
    if e in EntriesOf(digest, prefix + kids[0].name, kids[0].node) {
      EntriesAreBelow(digest, prefix + kids[0].name, kids[0].node, e);
    } else {
      EnumeratedAreBelow(digest, prefix, kids[1..], e);
    }
  }

  /** Names without a slash tell the paths below them apart. */
  lemma {:induction false} NamesSeparate(prefix: string, m: string, n: string, rel: string)
    requires '/' !in m && '/' !in n
    requires rel == prefix + m || prefix + m + "/" <= rel
    requires rel == prefix + n || prefix + n + "/" <= rel
    ensures m == n
  {
    var k := |prefix|;
    var r := rel[k..];
    assert r == m || (m + "/" <= r && r[|m|] == '/' && r[..|m|] == m);
    assert r == n || (n + "/" <= r && r[|n|] == '/' && r[..|n|] == n);
    assert |m| == |n|;
  }

  /** Where an entry of a directory comes from. */
  lemma {:induction false} EntryHasKid(digest: Digest, prefix: string, kids: seq<Kid>, e: Entry) returns (i: nat)
    requires e in Enumerate(digest, prefix, kids)
    ensures i < |kids| && e in EntriesOf(digest, prefix + kids[i].name, kids[i].node)
    ensures e.rel == prefix + kids[i].name || prefix + kids[i].name + "/" <= e.rel
  {
    EnumerateIsUnion(digest, prefix, kids, e);
    i :| 0 <= i < |kids| && e in EntriesOf(digest, prefix + kids[i].name, kids[i].node);
    EntriesAreBelow(digest, prefix + kids[i].name, kids[i].node, e);
  }

  /** Every entry of `ks` is one of `ls`. */
  ghost predicate Included(digest: Digest, prefix: string, ks: seq<Kid>, ls: seq<Kid>) {
    forall e :: e in Enumerate(digest, prefix, ks) ==> e in Enumerate(digest, prefix, ls)
  }

  /** The kid of the same name, found through its own entry. */
  lemma {:induction false} CounterpartOf(
    digest: Digest, prefix: string, ks: seq<Kid>, ls: seq<Kid>, i: nat) returns (j: nat)
    requires WellFormedKids(ks) && WellFormedKids(ls) && i < |ks|
    requires Included(digest, prefix, ks, ls)
    ensures j < |ls| && ls[j].name == ks[i].name
    ensures EntryOf(digest, prefix + ks[i].name, ks[i].node) == EntryOf(digest, prefix + ls[j].name, ls[j].node)
  {
    var rel := prefix + ks[i].name;
    var e := EntryOf(digest, rel, ks[i].node);
    EnumerateIsUnion(digest, prefix, ks, e);
    assert e in EntriesOf(digest, rel, ks[i].node);
    assert e in Enumerate(digest, prefix, ls);
    j := EntryHasKid(digest, prefix, ls, e);
    NamesSeparate(prefix, ks[i].name, ls[j].name, e.rel);
    EntriesAreBelow(digest, prefix + ls[j].name, ls[j].node, e);
    assert !(rel + "/" <= rel);
  }

  /** Below two directories of the same name the entries are included too. */
  lemma {:induction false} IncludedBelow(digest: Digest, prefix: string, ks: seq<Kid>, ls: seq<Kid>, i: nat, j: nat)
    requires WellFormedKids(ks) && WellFormedKids(ls) && i < |ks| && j < |ls|
    requires Included(digest, prefix, ks, ls)
    requires ks[i].name == ls[j].name && ks[i].node.Directory? && ls[j].node.Directory?
    ensures Included(digest, prefix + ks[i].name + "/", ks[i].node.kids, ls[j].node.kids)
  {
    var rel := prefix + ks[i].name;
    forall e | e in Enumerate(digest, rel + "/", ks[i].node.kids)
      ensures e in Enumerate(digest, rel + "/", ls[j].node.kids)
    {
      EnumeratedAreBelow(digest, rel + "/", ks[i].node.kids, e);
      assert e in EntriesOf(digest, rel, ks[i].node);
      EnumerateIsUnion(digest, prefix, ks, e);
      var m := EntryHasKid(digest, prefix, ls, e);
      NamesSeparate(prefix, ks[i].name, ls[m].name, e.rel);
      assert m == j;
      EntriesAreBelow(digest, rel, ls[j].node, e);
    }
  }

  lemma {:induction false} SameLeaf(digest: Digest, rel: string, a: Node, b: Node)
    requires FaithfulDigest(digest)
    requires EntryOf(digest, rel, a) == EntryOf(digest, rel, b)
    ensures a.Directory? <==> b.Directory?
    ensures !a.Directory? ==> SameNode(a, b)
  {
  }

  lemma {:induction false} IncludedNames(digest: Digest, prefix: string, ks: seq<Kid>, ls: seq<Kid>)
    requires WellFormedKids(ks) && WellFormedKids(ls) && Included(digest, prefix, ks, ls)
    ensures Names(ks) <= Names(ls)
  {
    forall i | 0 <= i < |ks|
      ensures ks[i].name in Names(ls)
    {
      var j := CounterpartOf(digest, prefix, ks, ls, i);
    }
  }

  lemma {:induction false} EntriesDetermineKids(digest: Digest, prefix: string, ks: seq<Kid>, ls: seq<Kid>)
    requires FaithfulDigest(digest) && WellFormedKids(ks) && WellFormedKids(ls)
    requires Included(digest, prefix, ks, ls) && Included(digest, prefix, ls, ks)
    ensures SameKids(ks, ls)
    decreases ks
  {
    IncludedNames(digest, prefix, ks, ls);
    IncludedNames(digest, prefix, ls, ks);
    forall i, j | 0 <= i < |ks| && 0 <= j < |ls| && ks[i].name == ls[j].name
      ensures SameNode(ks[i].node, ls[j].node)
    {
      var m := CounterpartOf(digest, prefix, ks, ls, i);
      assert m == j;
      PairIsSame(digest, prefix, ks, ls, i, j);
    }
  }

  lemma {:induction false} PairIsSame(digest: Digest, prefix: string, ks: seq<Kid>, ls: seq<Kid>, i: nat, j: nat)
    requires FaithfulDigest(digest) && WellFormedKids(ks) && WellFormedKids(ls) && i < |ks| && j < |ls|
    requires Included(digest, prefix, ks, ls) && Included(digest, prefix, ls, ks)
    requires ks[i].name == ls[j].name
    requires EntryOf(digest, prefix + ks[i].name, ks[i].node) == EntryOf(digest, prefix + ls[j].name, ls[j].node)
    ensures SameNode(ks[i].node, ls[j].node)
    decreases ks, 0
  {
    SameLeaf(digest, prefix + ks[i].name, ks[i].node, ls[j].node);
    if ks[i].node.Directory? {
      IncludedBelow(digest, prefix, ks, ls, i, j);
      IncludedBelow(digest, prefix, ls, ks, j, i);
      EntriesDetermineKids(digest, prefix + ks[i].name + "/", ks[i].node.kids, ls[j].node.kids);
    }
  }

  /** And the same context has the same entries. */
  lemma {:induction false} SameNodeSameEntries(digest: Digest, rel: string, a: Node, b: Node, e: Entry)
    requires SameNode(a, b) && e in EntriesOf(digest, rel, a)
    ensures e in EntriesOf(digest, rel, b)
    decreases a, 1
  {
    if a.Directory? && e != EntryOf(digest, rel, a) {
      SameKidsSameEntries(digest, rel + "/", a.kids, b.kids, e);
    }
  }

  lemma {:induction false} SameKidsSameEntries(digest: Digest, prefix: string, ks: seq<Kid>, ls: seq<Kid>, e: Entry)
    requires SameKids(ks, ls) && e in Enumerate(digest, prefix, ks)
    ensures e in Enumerate(digest, prefix, ls)
    decreases ks
  {
    var i := EntryHasKid(digest, prefix, ks, e);
    assert ks[i].name in Names(ls);
    var j :| 0 <= j < |ls| && ks[i].name == ls[j].name;
    SameNodeSameEntries(digest, prefix + ks[i].name, ks[i].node, ls[j].node, e);
    EnumerateIsUnion(digest, prefix, ls, e);
  }

  lemma {:induction false} SameNodeSymmetric(a: Node, b: Node)
    requires SameNode(a, b)
    ensures SameNode(b, a)
    decreases a, 1
  {
    if a.Directory? {
      SameKidsSymmetric(a.kids, b.kids);
    }
  }

  lemma {:induction false} SameKidsSymmetric(ks: seq<Kid>, ls: seq<Kid>)
    requires SameKids(ks, ls)
    ensures SameKids(ls, ks)
    decreases ks
  {
    forall i, j | 0 <= i < |ks| && 0 <= j < |ls| && ks[i].name == ls[j].name
      ensures SameNode(ls[j].node, ks[i].node)
    {
      SameNodeSymmetric(ks[i].node, ls[j].node);
    }
  }

  lemma {:induction false} EnumerationIsClean(digest: Digest, prefix: string, kids: seq<Kid>)
    requires WellFormedKids(kids) && FaithfulDigest(digest) && NUL !in prefix
    ensures AllNulFree(Enumerate(digest, prefix, kids)) && DistinctPaths(Enumerate(digest, prefix, kids))
    decreases kids
  {
    if kids != [] {
      var rel, rest := prefix + kids[0].name, Enumerate(digest, prefix, kids[1..]);
      var first := EntriesOf(digest, rel, kids[0].node);
      EnumerationIsClean(digest, prefix, kids[1..]);
      NodeIsClean(digest, rel, kids[0].node);
      forall i, j | 0 <= i < |first| && 0 <= j < |rest|
        ensures first[i].rel != rest[j].rel
      {
        EntriesAreBelow(digest, rel, kids[0].node, first[i]);
        var k := EntryHasKid(digest, prefix, kids[1..], rest[j]);
        if first[i].rel == rest[j].rel {
          NamesSeparate(prefix, kids[0].name, kids[1..][k].name, rest[j].rel);
          assert false;
        }
      }
    }
  }

  lemma {:induction false} NodeIsClean(digest: Digest, rel: string, node: Node)
    requires WellFormed(node) && FaithfulDigest(digest) && NUL !in rel
    ensures AllNulFree(EntriesOf(digest, rel, node)) && DistinctPaths(EntriesOf(digest, rel, node))
    decreases node
  {
    if node.Directory? {
      var below := Enumerate(digest, rel + "/", node.kids);
      EnumerationIsClean(digest, rel + "/", node.kids);
      forall j | 0 <= j < |below|
        ensures below[j].rel != rel
      {
        EnumeratedAreBelow(digest, rel + "/", node.kids, below[j]);
      }
    }
  }

  lemma {:induction false} DistinctMultiset(es: seq<Entry>, e: Entry)
    requires DistinctPaths(es)
    ensures multiset(es)[e] == if e in es then 1 else 0
  {
    if es != [] {
      MultisetFirst(es);
      DistinctMultiset(es[1..], e);
      assert es == [es[0]] + es[1..];
    }
  }

  /** The stream of a layer directory covers its whole context: two layers have
      one stream exactly when their bases are equal and so are their trees, up
      to directory order and permission bits that git does not track. */
  lemma {:induction false} StreamDeterminesLayer(
    digest: Digest, base: string, ks: seq<Kid>, base': string, ls: seq<Kid>)
    requires FaithfulDigest(digest) && NUL !in base && NUL !in base'
    requires WellFormedKids(ks) && WellFormedKids(ls)
    ensures Stream(base, Enumerate(digest, "", ks)) == Stream(base', Enumerate(digest, "", ls))
       <==> base == base' && SameKids(ks, ls)
  {
    var es, fs := Enumerate(digest, "", ks), Enumerate(digest, "", ls);
    EnumerationIsClean(digest, "", ks);
    EnumerationIsClean(digest, "", ls);
    StreamIsInjective(base, es, base', fs);
    if multiset(es) == multiset(fs) {
      assert forall e :: e in es <==> e in multiset(es);
      assert forall e :: e in fs <==> e in multiset(fs);
      EntriesDetermineKids(digest, "", ks, ls);
    }
    if SameKids(ks, ls) {
      SameKidsSymmetric(ks, ls);
      forall e
        ensures multiset(es)[e] == multiset(fs)[e]
      {
        DistinctMultiset(es, e);
        DistinctMultiset(fs, e);
        if e in es {
          SameKidsSameEntries(digest, "", ks, ls, e);
        }
        if e in fs {
          SameKidsSameEntries(digest, "", ls, ks, e);
        }
      }
    }
  }

  // ---- The format by example ----------------------------------------------------------------

  /** One entry's text, field by field. */
  function EntryText(rel: string, kind: string, mode: string, size: string, content: string): string {
    rel + "\0" + kind + "\0" + mode + "\0" + size + "\0" + content + "\0"
  }

  lemma {:induction false} TerminatedOneMore(fields: seq<string>, last: string)
    ensures Terminated(fields + [last]) == Terminated(fields) + last + "\0"
  {
    assert (fields + [last])[..|fields|] == fields;
    assert [NUL] == "\0";
  }

  lemma {:induction false} TerminatedConcat(a: seq<string>, b: seq<string>)
    ensures Terminated(a + b) == Terminated(a) + Terminated(b)
    decreases |b|
  {
    if b == [] {
      assert a + b == a;
    } else {
      var front, last := b[..|b| - 1], b[|b| - 1];
      assert a + b == (a + front) + [last] && b == front + [last];
      TerminatedConcat(a, front);
      TerminatedOneMore(a + front, last);
      TerminatedOneMore(front, last);
    }
  }

  lemma {:induction false} TerminatedFive(a: string, b: string, c: string, d: string, e: string)
    ensures Terminated([a, b, c, d, e]) == EntryText(a, b, c, d, e)
  {
    TerminatedOneMore([], a);
    TerminatedOneMore([a], b);
    TerminatedOneMore([a, b], c);
    TerminatedOneMore([a, b, c], d);
    TerminatedOneMore([a, b, c, d], e);
    assert [] + [a] == [a] && [a] + [b] == [a, b] && [a, b] + [c] == [a, b, c];
    assert [a, b, c] + [d] == [a, b, c, d] && [a, b, c, d] + [e] == [a, b, c, d, e];
  }

  lemma {:induction false} TerminatedHeader(base: string)
    ensures Terminated(Header(base)) == "claude-contained-layer" + "\0" + "v1" + "\0" + "base" + "\0" + base + "\0"
  {
    TerminatedOneMore([], SCHEME);
    TerminatedOneMore([SCHEME], VERSION);
    TerminatedOneMore([SCHEME, VERSION], "base");
    TerminatedOneMore([SCHEME, VERSION, "base"], base);
    assert [] + [SCHEME] == [SCHEME] && [SCHEME] + [VERSION] == [SCHEME, VERSION];
    assert [SCHEME, VERSION] + ["base"] == [SCHEME, VERSION, "base"];
    assert [SCHEME, VERSION, "base"] + [base] == Header(base);
  }

  function TextOf(e: Entry): string {
    EntryText(e.rel, KindName(e.kind), e.mode, e.size, e.content)
  }

  /** The texts of entries one after the other. */
  function TextsOf(es: seq<Entry>): string {
    if es == [] then "" else TextsOf(es[..|es| - 1]) + TextOf(es[|es| - 1])
  }

  lemma {:induction false} TerminatedFlat(es: seq<Entry>)
    ensures Terminated(Flat(es)) == TextsOf(es)
  {
    if es != [] {
      var front, e := es[..|es| - 1], es[|es| - 1];
      TerminatedFlat(front);
      TerminatedConcat(Flat(front), FieldsOf(e));
      TerminatedFive(e.rel, KindName(e.kind), e.mode, e.size, e.content);
    }
  }

  /** A stream is the scheme, its version, the base and the entries' texts in the
      order of their paths. */
  lemma {:induction false} StreamText(base: string, sorted: seq<Entry>)
    requires Ascending(sorted)
    ensures Stream(base, sorted)
         == "claude-contained-layer" + "\0" + "v1" + "\0" + "base" + "\0" + base + "\0" + TextsOf(sorted)
  {
    AscendingIsDistinct(sorted);
    SortAscends(sorted);
    SortPermutes(sorted);
    AscendingIsUnique(SortedByRel(sorted), sorted);
    TerminatedConcat(Header(base), Flat(sorted));
    TerminatedHeader(base);
    TerminatedFlat(sorted);
  }

  lemma {:induction false} AscendingIsDistinct(es: seq<Entry>)
    requires Ascending(es)
    ensures DistinctPaths(es)
  {
    forall i, j | 0 <= i < j < |es|
      ensures es[i].rel != es[j].rel
    {
      BeforeIsTotal(es[i].rel, es[j].rel);
    }
  }

  lemma {:induction false} DirectoryBeforeItsFiles(dir: string, below: string)
    requires below != ""
    ensures Before(dir, dir + below)
  {
    if dir == "" {
      assert dir + below == below;
    } else {
      assert (dir + below)[1..] == dir[1..] + below;
      DirectoryBeforeItsFiles(dir[1..], below);
    }
  }

  /** A file for anyone to read, one that the owner may run, an empty directory,
      a link that leads nowhere, and a directory: the tree of the format's
      description. */
  function SampleKids(): seq<Kid> {
    [Kid("Dockerfile", Regular(0x1A4, "FROM scratch\n")),
     Kid("empty", Directory([])),
     Kid("link", Symlink("target-does-not-exist")),
     Kid("scripts", Directory([Kid("a.sh", Regular(0x1ED, "echo hi\n"))]))]
  }

  function SampleEntries(digest: Digest): seq<Entry> {
    [Entry("Dockerfile", KindFile, "0644", "13", digest("FROM scratch\n")),
     Entry("empty", KindDir, "", "", ""),
     Entry("link", KindSymlink, "", "21", digest("target-does-not-exist")),
     Entry("scripts", KindDir, "", "", ""),
     Entry("scripts/a.sh", KindFile, "0755", "8", digest("echo hi\n"))]
  }

  lemma {:induction false} SampleNumbers()
    ensures Decimal(13) == "13" && Decimal(21) == "21" && Decimal(8) == "8"
    ensures |"FROM scratch\n"| == 13 && |"target-does-not-exist"| == 21 && |"echo hi\n"| == 8
    ensures GitMode(0x1A4) == "0644" && GitMode(0x1ED) == "0755"
  {
  }

  lemma {:induction false} LeafEntries(digest: Digest, rel: string, node: Node)
    requires !node.Directory?
    ensures EntriesOf(digest, rel, node) == [EntryOf(digest, rel, node)]
  {
  }

  lemma {:induction false} EnumerateFirst(digest: Digest, prefix: string, kid: Kid, rest: seq<Kid>)
    ensures Enumerate(digest, prefix, [kid] + rest)
         == EntriesOf(digest, prefix + kid.name, kid.node) + Enumerate(digest, prefix, rest)
  {
    assert ([kid] + rest)[1..] == rest;
  }

  lemma {:induction false} SampleEnumerates(digest: Digest)
    ensures Enumerate(digest, "", SampleKids()) == SampleEntries(digest)
  {
    var kids := SampleKids();
    var script := Kid("a.sh", Regular(0x1ED, "echo hi\n"));
    SampleNumbers();
    assert kids == [kids[0]] + ([kids[1]] + ([kids[2]] + ([kids[3]] + [])));
    EnumerateFirst(digest, "", kids[0], [kids[1]] + ([kids[2]] + ([kids[3]] + [])));
    EnumerateFirst(digest, "", kids[1], [kids[2]] + ([kids[3]] + []));
    EnumerateFirst(digest, "", kids[2], [kids[3]] + []);
    EnumerateFirst(digest, "", kids[3], []);
    LeafEntries(digest, "Dockerfile", kids[0].node);
    LeafEntries(digest, "link", kids[2].node);
    LeafEntries(digest, "scripts/a.sh", script.node);
    EnumerateFirst(digest, "scripts/", script, []);
    assert [script] + [] == [script] && "scripts/" + "a.sh" == "scripts/a.sh";
    assert "" + "Dockerfile" == "Dockerfile" && "" + "empty" == "empty";
    assert "" + "link" == "link" && "" + "scripts" == "scripts" && "scripts" + "/" == "scripts/";
  }

  lemma {:induction false} BeforeByFirst(a: string, b: string)
    requires a != "" && b != "" && a[0] < b[0]
    ensures Before(a, b)
  {
  }

  lemma {:induction false} SampleAscends(digest: Digest)
    ensures Ascending(SampleEntries(digest))
  {
    var es := SampleEntries(digest);
    var firsts := ['D', 'e', 'l', 's', 's'];
    assert |es| == 5 && es[3].rel == "scripts" && es[4].rel == "scripts" + "/a.sh";
    forall i, j | 0 <= i < j < 5
      ensures Before(es[i].rel, es[j].rel)
    {
      assert es[i].rel != "" && es[i].rel[0] == firsts[i] && es[j].rel != "" && es[j].rel[0] == firsts[j];
      if i == 3 {
        DirectoryBeforeItsFiles("scripts", "/a.sh");
      } else {
        BeforeByFirst(es[i].rel, es[j].rel);
      }
    }
  }

  /** The bytes of the documented example. */
  lemma {:induction false} SampleStream(digest: Digest, base: string)
    ensures Stream(base, Enumerate(digest, "", SampleKids())) ==
              "claude-contained-layer" + "\0" + "v1" + "\0" + "base" + "\0" + base + "\0"
              + (EntryText("Dockerfile", "file", "0644", "13", digest("FROM scratch\n"))
                 + EntryText("empty", "dir", "", "", "")
                 + EntryText("link", "symlink", "", "21", digest("target-does-not-exist"))
                 + EntryText("scripts", "dir", "", "", "")
                 + EntryText("scripts/a.sh", "file", "0755", "8", digest("echo hi\n")))
  {
    var es := SampleEntries(digest);
    SampleEnumerates(digest);
    SampleAscends(digest);
    StreamText(base, es);
    TextsOfFive(es);
  }

  lemma {:induction false} TextsOfFive(es: seq<Entry>)
    requires |es| == 5
    ensures TextsOf(es) == TextOf(es[0]) + TextOf(es[1]) + TextOf(es[2]) + TextOf(es[3]) + TextOf(es[4])
  {
    assert es[..4][..3] == es[..3] && es[..3][..2] == es[..2] && es[..2][..1] == es[..1] && es[..1][..0] == [];
    assert TextsOf(es[..1]) == "" + TextOf(es[0]) == TextOf(es[0]);
    assert TextsOf(es[..2]) == TextsOf(es[..1]) + TextOf(es[1]);
    assert TextsOf(es[..3]) == TextsOf(es[..2]) + TextOf(es[2]);
    assert TextsOf(es[..4]) == TextsOf(es[..3]) + TextOf(es[3]);
  }
}
