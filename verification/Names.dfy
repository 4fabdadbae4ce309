/** Generated container names (internal/host/sanitize.go and deduplicateName in
    internal/plan/plan.go). */
module Names {
  import opened Text

  const MAX_FOLDER_NAME_LEN := 20

  // ---- Folder names --------------------------------------------------------------------

  function AfterLastSlash(s: string): (r: string)
    ensures '/' !in r
  {
    if '/' !in s then s else AfterLastSlash(s[1..])
  }

  function BaseName(path: string): (r: string)
    ensures '/' !in r && !("-" <= r && "-" <= path)
  {
    if "-" <= path then "" else AfterLastSlash(TrimRight(path, '/'))
  }

  function Lower(c: char): char {
    if 'A' <= c <= 'Z' then ('a' as int + (c as int - 'A' as int)) as char else c
  }

  predicate IsSlugLetter(c: char) {
    'a' <= c <= 'z' || IsDigit(c)
  }

  function SlugChar(c: char): char {
    if IsSlugLetter(Lower(c)) then Lower(c) else '-'
  }

  function Dashed(s: string): (r: string)
    ensures |r| == |s|
    ensures forall i :: 0 <= i < |s| ==> r[i] == SlugChar(s[i])
  {
    seq(|s|, i requires 0 <= i < |s| => SlugChar(s[i]))
  }

  predicate EndsInDash(s: string) {
    s != "" && s[|s| - 1] == '-'
  }

  /** Runs of dashes become one dash. */
  function Collapsed(s: string): string {
    if s == "" then ""
    else
      var before, c := Collapsed(s[..|s| - 1]), s[|s| - 1];
      if c == '-' && EndsInDash(before) then before else before + [c]
  }

  function Finished(collapsed: string): string {
    var trimmed := TrimSuffix(TrimPrefix(collapsed, "-"), '-');
    var cut := if |trimmed| > MAX_FOLDER_NAME_LEN then trimmed[..MAX_FOLDER_NAME_LEN] else trimmed;
    if cut == "" then "root" else cut
  }

  function Slug(path: string): string {
    Finished(Collapsed(Dashed(BaseName(path))))
  }

  method SanitizeFolderName(path: string) returns (name: string)
    ensures name == Slug(path)
  {
    var b := BaseName(path);
    ghost var base := b;
    for i := 0 to |b|
      invariant |b| == |base|
      invariant forall j :: 0 <= j < i ==> b[j] == SlugChar(base[j])
      invariant forall j :: i <= j < |b| ==> b[j] == base[j]
    {
      var c := Lower(b[i]);
      b := b[i := if IsSlugLetter(c) then c else '-'];
    }
    assert b == Dashed(base);
    var collapsed, prevDash := "", false;
    for i := 0 to |b|
      invariant collapsed == Collapsed(b[..i])
      invariant prevDash <==> EndsInDash(collapsed)
    {
      assert b[..i + 1][..i] == b[..i];
      if b[i] == '-' {
        if prevDash {
          continue;
        }
        prevDash := true;
      } else {
        prevDash := false;
      }
      collapsed := collapsed + [b[i]];
    }
    assert b[..|b|] == b;
    name := TrimSuffix(TrimPrefix(collapsed, "-"), '-');
    if |name| > MAX_FOLDER_NAME_LEN {
      name := name[..MAX_FOLDER_NAME_LEN];
    }
    if name == "" {
      name := "root";
    }
  }

  // ---- What a slug looks like ---------------------------------------------------------------

  ghost predicate SlugText(s: string) {
    && (forall i :: 0 <= i < |s| ==> IsSlugLetter(s[i]) || s[i] == '-')
    && (forall i :: 0 <= i < |s| - 1 ==> !(s[i] == '-' && s[i + 1] == '-'))
  }

  ghost predicate IsSlug(s: string) {
    1 <= |s| <= MAX_FOLDER_NAME_LEN && SlugText(s) && s[0] != '-'
  }

  lemma {:induction false} CollapsedIsSlugText(s: string)
    requires forall i :: 0 <= i < |s| ==> IsSlugLetter(s[i]) || s[i] == '-'
    ensures SlugText(Collapsed(s))
  {
    if s != "" {
      CollapsedIsSlugText(s[..|s| - 1]);
    }
  }

  lemma {:induction false} SliceIsSlugText(s: string, i: nat, j: nat)
    requires SlugText(s) && i <= j <= |s|
    ensures SlugText(s[i..j])
  {
    var t := s[i..j];
    assert forall k :: 0 <= k < |t| ==> t[k] == s[i + k];
  }

  lemma {:induction false} FinishedIsSlug(c: string)
    requires SlugText(c)
    ensures IsSlug(Finished(c))
  {
    var p := TrimPrefix(c, "-");
    if "-" <= c {
      SliceIsSlugText(c, 1, |c|);
      assert p == c[1..|c|] && c[0] == '-';
    } else {
      assert c != "" && c[0] == '-' ==> "-" <= c;
    }
    assert SlugText(p) && (p != "" ==> p[0] != '-');
    var t := TrimSuffix(p, '-');
    SliceIsSlugText(p, 0, |t|);
    assert t == p[0..|t|];
    if |t| > MAX_FOLDER_NAME_LEN {
      SliceIsSlugText(t, 0, MAX_FOLDER_NAME_LEN);
      assert t[..MAX_FOLDER_NAME_LEN] == t[0..MAX_FOLDER_NAME_LEN];
    }
    assert "root"[0] == 'r';
  }

  /** Every slug has 1 to 20 characters, all of them lower-case letters, digits
      or dashes, no leading dash and no two dashes in a row. */
  lemma {:induction false} SlugIsSlug(path: string)
    ensures IsSlug(Slug(path))
  {
    CollapsedIsSlugText(Dashed(BaseName(path)));
    FinishedIsSlug(Collapsed(Dashed(BaseName(path))));
  }

  lemma {:induction false} CollapsedFixes(s: string)
    requires SlugText(s)
    ensures Collapsed(s) == s
  {
    if s != "" {
      CollapsedFixes(s[..|s| - 1]);
      assert s == s[..|s| - 1] + [s[|s| - 1]];
    }
  }

  lemma {:induction false} SlugTextStays(s: string)
    requires SlugText(s) && s != "" && s[0] != '-'
    ensures Collapsed(Dashed(BaseName(s))) == s
  {
    assert forall i :: 0 <= i < |s| ==> s[i] != '/' && SlugChar(s[i]) == s[i];
    assert TrimRight(s, '/') == s;
    assert BaseName(s) == s;
    assert Dashed(s) == s;
    CollapsedFixes(s);
  }

  lemma {:induction false} OneDash(s: string, i: nat)
    requires SlugText(s) && i + 1 < |s| && s[i + 1] == '-'
    ensures s[i] != '-'
  {
  }

  /** What a second application does to a slug. */
  lemma {:induction false} SlugOfSlug(s: string)
    requires IsSlug(s)
    ensures Slug(s) == TrimSuffix(s, '-')
    ensures IsSlug(TrimSuffix(s, '-')) && !EndsInDash(TrimSuffix(s, '-'))
  {
    SlugTextStays(s);
    assert TrimPrefix(s, "-") == s;
    var t := TrimSuffix(s, '-');
    SliceIsSlugText(s, 0, |t|);
    assert t == s[0..|t|];
    if EndsInDash(s) {
      OneDash(s, |s| - 2);
    }
  }

  /** Applying the sanitizer again changes nothing exactly when the truncation
      has not left a dash at the end; the second application is always stable. */
  lemma {:induction false} StableAfterTwo(path: string)
    ensures Slug(Slug(path)) == Slug(path) <==> !EndsInDash(Slug(path))
    ensures Slug(Slug(Slug(path))) == Slug(Slug(path))
  {
    SlugIsSlug(path);
    SlugOfSlug(Slug(path));
    SlugOfSlug(Slug(Slug(path)));
  }

  lemma {:induction false} LongSlug(s: string)
    requires SlugText(s) && |s| > MAX_FOLDER_NAME_LEN && s[0] != '-' && !EndsInDash(s)
    ensures Slug(s) == s[..MAX_FOLDER_NAME_LEN]
  {
    SlugTextStays(s);
    assert TrimPrefix(s, "-") == s && TrimSuffix(s, '-') == s;
  }

  /** Truncation does leave such a dash: nineteen letters, a dash, and more. */
  lemma {:induction false} TruncationLeavesDash(w: string, v: string)
    requires |w| == MAX_FOLDER_NAME_LEN - 1 && v != ""
    requires forall i :: 0 <= i < |w| ==> IsSlugLetter(w[i])
    requires forall i :: 0 <= i < |v| ==> IsSlugLetter(v[i])
    ensures Slug(w + "-" + v) == w + "-" && Slug(Slug(w + "-" + v)) == w
  {
    var s := w + "-" + v;
    DashedTogether(w, v);
    assert s[0] == w[0] && s[|s| - 1] == v[|v| - 1];
    LongSlug(s);
    assert s[..MAX_FOLDER_NAME_LEN] == w + "-";
    SlugIsSlug(s);
    SlugOfSlug(w + "-");
    assert (w + "-")[..|w|] == w;
  }

  lemma {:induction false} DashedTogether(w: string, v: string)
    requires forall i :: 0 <= i < |w| ==> IsSlugLetter(w[i])
    requires forall i :: 0 <= i < |v| ==> IsSlugLetter(v[i])
    ensures SlugText(w + "-" + v)
  {
    var s := w + "-" + v;
    assert forall i :: 0 <= i < |s| && i != |w| ==> IsSlugLetter(s[i]);
  }

  // ---- What a slug spells ------------------------------------------------------------------

  const UPPER_CASE := "ABCDEFGHIJKLMNOPQRSTUVWXYZ"
  const LOWER_CASE := "abcdefghijklmnopqrstuvwxyz"

  /** The same letter, small, or the same digit. */
  ghost predicate Spells(c: char, small: char) {
    || (exists k :: 0 <= k < |LOWER_CASE| && c in {UPPER_CASE[k], LOWER_CASE[k]} && small == LOWER_CASE[k])
    || (c in "0123456789" && small == c)
  }

  ghost predicate SpellsAll(w: string, small: string) {
    |w| == |small| && forall i :: 0 <= i < |w| ==> Spells(w[i], small[i])
  }

  predicate IsOther(c: char) {
    c !in UPPER_CASE && c !in LOWER_CASE && c !in "0123456789"
  }

  lemma {:induction false} AlphabetAt(k: nat)
    requires k < 26
    ensures LOWER_CASE[k] as int == 'a' as int + k && UPPER_CASE[k] as int == 'A' as int + k
  {
  }

  lemma {:induction false} DigitsAre(c: char)
    ensures c in "0123456789" <==> IsDigit(c)
  {
    if IsDigit(c) {
      var k := c as int - '0' as int;
      assert "0123456789"[k] == c;
    }
  }

  lemma {:induction false} SpelledChar(c: char, small: char)
    requires Spells(c, small)
    ensures SlugChar(c) == small && IsSlugLetter(small) && c != '/' && c != '-'
  {
    DigitsAre(c);
    if k :| 0 <= k < |LOWER_CASE| && c in {UPPER_CASE[k], LOWER_CASE[k]} && small == LOWER_CASE[k] {
      AlphabetAt(k);
    }
  }

  lemma {:induction false} LettersAreIn(c: char)
    ensures 'A' <= c <= 'Z' ==> c in UPPER_CASE
    ensures 'a' <= c <= 'z' ==> c in LOWER_CASE
  {
    if 'A' <= c <= 'Z' {
      var k := c as int - 'A' as int;
      AlphabetAt(k);
      assert UPPER_CASE[k] == c;
    } else if 'a' <= c <= 'z' {
      var k := c as int - 'a' as int;
      AlphabetAt(k);
      assert LOWER_CASE[k] == c;
    }
  }

  lemma {:induction false} OtherChar(c: char)
    requires IsOther(c)
    ensures SlugChar(c) == '-'
  {
    DigitsAre(c);
    LettersAreIn(c);
  }

  lemma {:induction false} OthersAreDashes(s: string)
    requires forall i :: 0 <= i < |s| ==> IsOther(s[i])
    ensures forall i :: 0 <= i < |s| ==> Dashed(s)[i] == '-'
  {
    forall i | 0 <= i < |s|
      ensures SlugChar(s[i]) == '-'
    {
      OtherChar(s[i]);
    }
  }

  lemma {:induction false} SpelledWord(w: string, small: string)
    requires SpellsAll(w, small)
    ensures Dashed(w) == small && '/' !in w
    ensures forall i :: 0 <= i < |small| ==> IsSlugLetter(small[i])
    ensures w != "" ==> w[0] != '-' && w[|w| - 1] != '/'
  {
    forall i | 0 <= i < |w|
      ensures SlugChar(w[i]) == small[i] && IsSlugLetter(small[i]) && w[i] != '/' && w[i] != '-'
    {
      SpelledChar(w[i], small[i]);
    }
  }

  lemma {:induction false} BaseIsLast(dir: string, name: string, n: nat)
    requires '/' !in name && name != "" && !("-" <= dir + "/" + name)
    ensures BaseName(dir + "/" + name + seq(n, _ => '/')) == name
  {
    var path := dir + "/" + name;
    TrimSlashes(path, n);
    assert n > 0 ==> path + seq(n, _ => '/') != "";
    assert path[0] == (path + seq(n, _ => '/'))[0];
    AfterLast(dir, name);
  }

  lemma {:induction false} TrimSlashes(s: string, n: nat)
    requires s != "" && s[|s| - 1] != '/'
    ensures TrimRight(s + seq(n, _ => '/'), '/') == s
    decreases n
  {
    if n == 0 {
      assert s + seq(0, _ => '/') == s;
    } else {
      var longer := s + seq(n, _ => '/');
      assert longer[..|longer| - 1] == s + seq(n - 1, _ => '/');
      TrimSlashes(s, n - 1);
    }
  }

  lemma {:induction false} AfterLast(dir: string, name: string)
    requires '/' !in name
    ensures AfterLastSlash(dir + "/" + name) == name
  {
    var s := dir + "/" + name;
    assert s[|dir|] == '/';
    if dir == "" {
      assert s[1..] == name;
    } else {
      assert s[1..] == dir[1..] + "/" + name;
      AfterLast(dir[1..], name);
    }
  }

  /** A folder name of at most 20 letters and digits is its own slug, in small
      letters, wherever the folder is. */
  lemma {:induction false} SlugSpellsName(dir: string, w: string, small: string, n: nat)
    requires SpellsAll(w, small) && 1 <= |w| <= MAX_FOLDER_NAME_LEN && !("-" <= dir + "/" + w)
    ensures Slug(dir + "/" + w + seq(n, _ => '/')) == small
  {
    SpelledWord(w, small);
    BaseIsLast(dir, w, n);
    CollapsedFixes(small);
    FinishedFixes(small);
  }

  /** Whatever stands between two words, other than letters, digits and slashes,
      becomes one dash. */
  lemma {:induction false} SlugSeparatesWords(
    dir: string, w: string, between: string, v: string, small: string, little: string)
    requires SpellsAll(w, small) && SpellsAll(v, little) && w != "" && v != "" && between != ""
    requires |w| + 1 + |v| <= MAX_FOLDER_NAME_LEN && !("-" <= dir + "/" + (w + between + v))
    requires forall i :: 0 <= i < |between| ==> between[i] != '/' && IsOther(between[i])
    ensures Slug(dir + "/" + (w + between + v)) == small + "-" + little
  {
    var name := w + between + v;
    SpelledWord(w, small);
    SpelledWord(v, little);
    assert dir + "/" + name + seq(0, _ => '/') == dir + "/" + name;
    BaseIsLast(dir, name, 0);
    OthersAreDashes(between);
    DashedParts(w, between, v);
    CollapsedRun(small, Dashed(between), little);
    var s := small + "-" + little;
    assert s[0] == small[0] && s[|s| - 1] == little[|little| - 1];
    FinishedFixes(s);
  }

  lemma {:induction false} DashedParts(a: string, b: string, c: string)
    ensures Dashed(a + b + c) == Dashed(a) + Dashed(b) + Dashed(c)
  {
  }

  lemma {:induction false} FinishedFixes(s: string)
    requires s != "" && s[0] != '-' && s[|s| - 1] != '-' && |s| <= MAX_FOLDER_NAME_LEN
    ensures Finished(s) == s
  {
    assert TrimPrefix(s, "-") == s && TrimSuffix(s, '-') == s;
  }

  lemma {:induction false} CollapsedDashes(w: string, dashes: string)
    requires forall i :: 0 <= i < |w| ==> IsSlugLetter(w[i])
    requires dashes != "" && forall i :: 0 <= i < |dashes| ==> dashes[i] == '-'
    ensures Collapsed(w + dashes) == w + "-"
    decreases |dashes|
  {
    var s := w + dashes;
    assert s[..|s| - 1] == w + dashes[..|dashes| - 1];
    if |dashes| == 1 {
      assert w + dashes[..0] == w;
      CollapsedFixes(w);
      assert !EndsInDash(w);
    } else {
      CollapsedDashes(w, dashes[..|dashes| - 1]);
    }
  }

  lemma {:induction false} CollapsedRun(w: string, dashes: string, v: string)
    requires forall i :: 0 <= i < |w| ==> IsSlugLetter(w[i])
    requires dashes != "" && forall i :: 0 <= i < |dashes| ==> dashes[i] == '-'
    requires forall i :: 0 <= i < |v| ==> IsSlugLetter(v[i])
    ensures Collapsed(w + dashes + v) == w + "-" + v
    decreases |v|
  {
    if v == "" {
      assert w + dashes + v == w + dashes && w + "-" + v == w + "-";
      CollapsedDashes(w, dashes);
    } else {
      var s, front, c := w + dashes + v, v[..|v| - 1], v[|v| - 1];
      assert s[..|s| - 1] == w + dashes + front && s[|s| - 1] == c;
      CollapsedRun(w, dashes, front);
      assert w + "-" + front + [c] == w + "-" + v;
    }
  }

  lemma {:induction false} OnlyDashes(w: string)
    requires w != "" && forall i :: 0 <= i < |w| ==> IsOther(w[i])
    ensures Finished(Collapsed(Dashed(w))) == "root"
  {
    var dashes := Dashed(w);
    OthersAreDashes(w);
    CollapsedDashes("", dashes);
    assert "" + dashes == dashes && "" + "-" == "-";
    OneDashIsRoot();
  }

  lemma {:induction false} OneDashIsRoot()
    ensures Finished("-") == "root"
  {
    assert TrimPrefix("-", "-") == "" && TrimSuffix("", '-') == "";
  }

  lemma {:induction false} DashFirstIsRoot(path: string)
    requires "-" <= path
    ensures Slug(path) == "root"
  {
    assert Dashed("") == "" && Collapsed("") == "" && Finished("") == "root";
  }

  /** A folder name without a letter or digit gives the name "root", and so does
      any path that starts with a dash. */
  lemma {:induction false} NothingLeftIsRoot(dir: string, w: string)
    requires w != "" && forall i :: 0 <= i < |w| ==> w[i] != '/' && IsOther(w[i])
    ensures Slug(dir + "/" + w) == "root"
  {
    var path := dir + "/" + w;
    if "-" <= path {
      DashFirstIsRoot(path);
    } else {
      assert path + seq(0, _ => '/') == path;
      BaseIsLast(dir, w, 0);
      OnlyDashes(w);
    }
  }

  // ---- The first free name ----------------------------------------------------------------

  function Candidate(base: string, k: nat): string {
    if k <= 1 then base else base + "-" + Decimal(k)
  }

  ghost predicate TakenBelow(base: string, taken: set<string>, k: nat) {
    forall j :: 1 <= j < k ==> Candidate(base, j) in taken
  }

  lemma {:induction false} CandidatesDiffer(base: string, j: nat, k: nat)
    requires 1 <= j < k
    ensures Candidate(base, j) != Candidate(base, k)
  {
    if Candidate(base, j) == Candidate(base, k) {
      assert |Candidate(base, k)| > |base|;
      assert Candidate(base, j)[|base| + 1..] == Decimal(j) && Candidate(base, k)[|base| + 1..] == Decimal(k);
      DecimalInjective(j, k);
    }
  }

  function Tried(base: string, k: nat): set<string> {
    if k <= 1 then {} else Tried(base, k - 1) + {Candidate(base, k - 1)}
  }

  lemma {:induction false} TriedCount(base: string, k: nat)
    requires 1 <= k
    ensures |Tried(base, k)| == k - 1
    ensures forall c :: c in Tried(base, k) <==> exists j :: 1 <= j < k && c == Candidate(base, j)
  {
    if k > 1 {
      TriedCount(base, k - 1);
      forall j | 1 <= j < k - 1
        ensures Candidate(base, j) != Candidate(base, k - 1)
      {
        CandidatesDiffer(base, j, k - 1);
      }
    }
  }

  lemma {:induction false} SubsetIsSmaller(a: set<string>, b: set<string>)
    requires a <= b
    ensures |a| <= |b|
  {
    assert b == a + (b - a);
  }

  /** Distinct candidates, all taken: no more of them than there are names. */
  lemma {:induction false} TakenFit(base: string, taken: set<string>, k: nat)
    requires 1 <= k && TakenBelow(base, taken, k)
    ensures k - 1 <= |taken|
  {
    TriedCount(base, k);
    SubsetIsSmaller(Tried(base, k), taken);
  }

  function FirstFree(base: string, taken: set<string>, k: nat): (r: nat)
    requires 1 <= k && TakenBelow(base, taken, k)
    ensures k <= r && Candidate(base, r) !in taken && TakenBelow(base, taken, r)
    decreases |taken| + 1 - k
  {
    if Candidate(base, k) !in taken then k
    else
      TakenFit(base, taken, k + 1);
      FirstFree(base, taken, k + 1)
  }

  function TakenNames(running: seq<string>): set<string> {
    set r | r in running
  }

  function FreeName(name: string, running: seq<string>): string {
    Candidate(name, FirstFree(name, TakenNames(running), 1))
  }

  /** Looks at no more candidates than one more than the distinct names taken. */
  method DeduplicateName(name: string, running: seq<string>) returns (r: string, ghost tried: nat)
    ensures r == FreeName(name, running)
    ensures r == Candidate(name, tried) && 1 <= tried <= |TakenNames(running)| + 1
    ensures r !in running && forall j :: 1 <= j < tried ==> Candidate(name, j) in running
  {
    var taken := TakenNames(running);
    r, tried := name, 1;
    var suffix := 2;
    while r in taken
      invariant suffix == tried + 1 && r == Candidate(name, tried) && TakenBelow(name, taken, tried)
      invariant FirstFree(name, taken, tried) == FirstFree(name, taken, 1)
      decreases |taken| + 1 - tried
    {
      TakenFit(name, taken, tried + 1);
      r := name + "-" + Decimal(suffix);
      suffix, tried := suffix + 1, tried + 1;
    }
    TakenFit(name, taken, tried);
  }

  // ---- Names as lock owners ---------------------------------------------------------------

  function GeneratedName(projectDir: string, hourMinute: string): string {
    "aic-" + Slug(projectDir) + "-" + hourMinute
  }

  lemma {:induction false} CandidateIsWord(base: string, k: nat)
    requires IsWord(base)
    ensures IsWord(Candidate(base, k))
  {
    assert forall c :: IsDigit(c) ==> !IsSpace(c);
  }

  /** Every generated name can be an entry of an owner list. */
  lemma {:induction false} GeneratedNameIsWord(projectDir: string, hourMinute: string, running: seq<string>)
    requires forall i :: 0 <= i < |hourMinute| ==> IsDigit(hourMinute[i])
    ensures IsWord(FreeName(GeneratedName(projectDir, hourMinute), running))
  {
    SlugIsSlug(projectDir);
    assert forall c :: IsDigit(c) || IsSlugLetter(c) || c == '-' ==> !IsSpace(c);
    var name := GeneratedName(projectDir, hourMinute);
    assert IsWord(name);
    CandidateIsWord(name, FirstFree(name, TakenNames(running), 1));
  }
}
