/** The line-aware relocation of the launcher's output
    (internal/diagnostic/stream.go). */
module Stream {
  import opened Text

  datatype Route = Stdout | Stderr

  /** One line handed to the destination. */
  datatype Record = Record(route: Route, line: string)

  datatype Failure = Closed | Io(code: int)

  /** What the destination answers to its nth record. */
  type Destination = nat -> Option<Failure>

  datatype State = State(
    closed: bool, out: string, err: string, first: Option<Failure>, attempts: seq<Record>)
  {
    function Pending(route: Route): string {
      if route.Stdout? then out else err
    }

    function WithPending(route: Route, text: string): State {
      if route.Stdout? then this.(out := text) else this.(err := text)
    }
  }

  const INITIAL := State(false, "", "", None, [])

  function OrElse(first: Option<Failure>, next: Option<Failure>): Option<Failure> {
    if first.Some? then first else next
  }

  /** What follows the last newline. */
  function Fragment(s: string): (f: string)
    ensures '\n' !in f
  {
    if s == "" || s[|s| - 1] == '\n' then "" else Fragment(s[..|s| - 1]) + [s[|s| - 1]]
  }

  /** The lines that are ended by a newline. */
  function Complete(s: string): seq<string> {
    if s == "" then []
    else if s[|s| - 1] == '\n' then Complete(s[..|s| - 1]) + [Fragment(s[..|s| - 1])]
    else Complete(s[..|s| - 1])
  }

  /** One record attempted; the first failure of all is remembered. */
  function Emitted(s: State, d: Destination, record: Record): State {
    s.(first := OrElse(s.first, d(|s.attempts|)), attempts := s.attempts + [record])
  }

  function EmittedAll(s: State, d: Destination, route: Route, lines: seq<string>): State {
    if lines == [] then s
    else Emitted(EmittedAll(s, d, route, lines[..|lines| - 1]), d, Record(route, lines[|lines| - 1]))
  }

  /** The first failure among `count` records from the nth on. */
  function FirstFailure(d: Destination, n: nat, count: nat): Option<Failure> {
    if count == 0 then None else OrElse(FirstFailure(d, n, count - 1), d(n + count - 1))
  }

  function Written(s: State, d: Destination, route: Route, text: string): State {
    if s.closed then s.(first := OrElse(s.first, Some(Closed)))
    else
      var text' := s.Pending(route) + text;
      EmittedAll(s, d, route, Complete(text')).WithPending(route, Fragment(text'))
  }

  function FlushedRoute(s: State, d: Destination, route: Route): State {
    if s.Pending(route) == "" then s
    else Emitted(s.WithPending(route, ""), d, Record(route, s.Pending(route)))
  }

  function Flushed(s: State, d: Destination): State {
    if s.closed then s else FlushedRoute(FlushedRoute(s, d, Stdout), d, Stderr)
  }

  function Ended(s: State, d: Destination, closing: Option<Failure>): State {
    if s.closed then s
    else
      var flushed := Flushed(s, d);
      flushed.(first := OrElse(flushed.first, closing), closed := true)
  }

  class DiagnosticStream {
    const destination: Destination
    /** What closing the destination answers, where the stream owns it. */
    const closing: Option<Failure>
    var closed: bool
    var out: string
    var err: string
    var first: Option<Failure>
    var attempts: seq<Record>

    constructor (destination: Destination, closing: Option<Failure>)
      ensures View() == INITIAL && this.destination == destination && this.closing == closing
    {
      this.destination, this.closing := destination, closing;
      closed, out, err, first, attempts := false, "", "", None, [];
    }

    function View(): State
      reads this
    {
      State(closed, out, err, first, attempts)
    }

    method Remember(e: Option<Failure>)
      modifies this`first
      ensures first == OrElse(old(first), e)
    {
      if first.None? {
        first := e;
      }
    }

    method EmitOutput(route: Route, line: string) returns (e: Option<Failure>)
      modifies this`first, this`attempts
      ensures View() == Emitted(old(View()), destination, Record(route, line))
      ensures e == destination(|old(attempts)|)
    {
      e := destination(|attempts|);
      attempts := attempts + [Record(route, line)];
      Remember(e);
    }

    method Write(route: Route, text: string) returns (n: nat, e: Option<Failure>)
      modifies this
      ensures View() == Written(old(View()), destination, route, text)
      ensures old(closed) ==> n == 0 && e == Some(Closed)
      ensures !old(closed) ==>
                && n == |text|
                && e == FirstFailure(destination, |old(attempts)|, |Complete(old(View()).Pending(route) + text)|)
    {
      if closed {
        Remember(Some(Closed));
        return 0, Some(Closed);
      }
      ghost var text' := View().Pending(route) + text;
      var pending := (if route.Stdout? then out else err) + text;
      pending, e := EmitLines(route, pending);
      PendingStays(old(View()), destination, route, Complete(text'));
      if route.Stdout? {
        out := pending;
      } else {
        err := pending;
      }
      n := |text|;
    }

    /** The loop that consumes the buffer line by line. */
    method EmitLines(route: Route, text: string) returns (pending: string, e: Option<Failure>)
      modifies this`first, this`attempts
      ensures View() == EmittedAll(old(View()), destination, route, Complete(text))
      ensures pending == Fragment(text)
      ensures e == FirstFailure(destination, |old(attempts)|, |Complete(text)|)
    {
      ghost var start, lines, done := View(), Complete(text), 0;
      pending, e := text, None;
      while '\n' in pending
        invariant done <= |lines| && Complete(pending) == lines[done..]
        invariant Fragment(pending) == Fragment(text)
        invariant View() == EmittedAll(start, destination, route, lines[..done])
        invariant |attempts| == |start.attempts| + done
        invariant e == FirstFailure(destination, |start.attempts|, done)
        decreases |pending|
      {
        var i := FirstIndex(pending, '\n');
        LineEmitted(start, destination, route, lines, done, pending, i);
        var failure := EmitOutput(route, pending[..i]);
        e := OrElse(e, failure);
        pending := pending[i + 1..];
        done := done + 1;
      }
      NoNewline(pending);
      assert lines[..done] == lines;
    }

    method FlushRoute(route: Route)
      modifies this
      ensures View() == FlushedRoute(old(View()), destination, route)
    {
      var message := if route.Stdout? then out else err;
      if message == "" {
        return;
      }
      if route.Stdout? {
        out := "";
      } else {
        err := "";
      }
      var _ := EmitOutput(route, message);
    }

    method Flush() returns (e: Option<Failure>)
      modifies this
      ensures View() == Flushed(old(View()), destination) && e == first
    {
      if !closed {
        FlushRoute(Stdout);
        FlushRoute(Stderr);
      }
      e := first;
    }

    method Close() returns (e: Option<Failure>)
      modifies this
      ensures View() == Ended(old(View()), destination, closing) && e == first
    {
      if closed {
        return first;
      }
      FlushRoute(Stdout);
      FlushRoute(Stderr);
      Remember(closing);
      closed := true;
      e := first;
    }
  }

  lemma {:induction false} NoNewline(s: string)
    requires '\n' !in s
    ensures Complete(s) == [] && Fragment(s) == s
  {
    if s != "" {
      NoNewline(s[..|s| - 1]);
      assert s == s[..|s| - 1] + [s[|s| - 1]];
    }
  }

  lemma {:induction false} CutSnoc(s: string, c: char)
    ensures Complete(s + [c]) == if c == '\n' then Complete(s) + [Fragment(s)] else Complete(s)
    ensures Fragment(s + [c]) == if c == '\n' then "" else Fragment(s) + [c]
  {
    assert (s + [c])[..|s|] == s;
  }

  /** Cutting into lines goes on where it stopped. */
  lemma {:induction false} CutAppend(a: string, b: string)
    ensures Complete(a + b) == Complete(a) + Complete(Fragment(a) + b)
    ensures Fragment(a + b) == Fragment(Fragment(a) + b)
    decreases |b|
  {
    var f := Fragment(a);
    if b == "" {
      NoNewline(f);
      assert a + b == a && f + b == f;
    } else {
      var shorter, c := b[..|b| - 1], b[|b| - 1];
      CutAppend(a, shorter);
      CutAppendOne(a, f, shorter, c);
      assert shorter + [c] == b;
    }
  }

  lemma {:induction false} CutAppendOne(a: string, f: string, b: string, c: char)
    requires Complete(a + b) == Complete(a) + Complete(f + b) && Fragment(a + b) == Fragment(f + b)
    ensures Complete(a + (b + [c])) == Complete(a) + Complete(f + (b + [c]))
    ensures Fragment(a + (b + [c])) == Fragment(f + (b + [c]))
  {
    Reassociate(a, b, [c]);
    Reassociate(f, b, [c]);
    CutSnoc(a + b, c);
    CutSnoc(f + b, c);
    Reassociate(Complete(a), Complete(f + b), [Fragment(f + b)]);
  }

  lemma {:induction false} NextLine(pending: string, i: nat)
    requires i < |pending| && pending[i] == '\n' && '\n' !in pending[..i]
    ensures Complete(pending) == [pending[..i]] + Complete(pending[i + 1..])
    ensures Fragment(pending) == Fragment(pending[i + 1..])
  {
    var line, rest := pending[..i + 1], pending[i + 1..];
    assert line[..i] == pending[..i] && pending == line + rest && "" + rest == rest;
    NoNewline(pending[..i]);
    CutAppend(line, rest);
  }

  lemma {:induction false} DropFirst(lines: seq<string>, n: nat, line: string, rest: seq<string>)
    requires n <= |lines| && lines[n..] == [line] + rest
    ensures n < |lines| && lines[n] == line && lines[n + 1..] == rest
  {
    assert lines[n..][0] == line;
    assert lines[n + 1..] == lines[n..][1..];
  }

  lemma {:induction false} EmittedStep(s: State, d: Destination, route: Route, lines: seq<string>, n: nat)
    requires n < |lines|
    ensures EmittedAll(s, d, route, lines[..n + 1]) ==
              Emitted(EmittedAll(s, d, route, lines[..n]), d, Record(route, lines[n]))
  {
    assert lines[..n + 1][..n] == lines[..n];
  }

  /** One turn of the loop over the buffer. */
  lemma {:induction false} LineEmitted(
    s: State, d: Destination, route: Route, lines: seq<string>, n: nat, pending: string, i: nat)
    requires i < |pending| && pending[i] == '\n' && '\n' !in pending[..i]
    requires n <= |lines| && Complete(pending) == lines[n..]
    ensures n < |lines| && Complete(pending[i + 1..]) == lines[n + 1..]
    ensures Fragment(pending[i + 1..]) == Fragment(pending)
    ensures EmittedAll(s, d, route, lines[..n + 1]) ==
              Emitted(EmittedAll(s, d, route, lines[..n]), d, Record(route, pending[..i]))
  {
    NextLine(pending, i);
    DropFirst(lines, n, pending[..i], Complete(pending[i + 1..]));
    EmittedStep(s, d, route, lines, n);
  }

  lemma {:induction false} PendingStays(s: State, d: Destination, route: Route, lines: seq<string>)
    ensures var after := EmittedAll(s, d, route, lines);
            after.out == s.out && after.err == s.err && after.closed == s.closed
    decreases |lines|
  {
    if lines != [] {
      PendingStays(s, d, route, lines[..|lines| - 1]);
    }
  }

  // ---- Whole runs ------------------------------------------------------------------------

  datatype Op = Write(route: Route, text: string) | Flush | Close

  function Step(s: State, d: Destination, closing: Option<Failure>, op: Op): State {
    match op
    case Write(route, text) => Written(s, d, route, text)
    case Flush => Flushed(s, d)
    case Close => Ended(s, d, closing)
  }

  function Run(s: State, d: Destination, closing: Option<Failure>, ops: seq<Op>): State {
    if ops == [] then s else Step(Run(s, d, closing, ops[..|ops| - 1]), d, closing, ops[|ops| - 1])
  }

  /** The lines attempted on one route, in order. */
  function Lines(records: seq<Record>, route: Route): seq<string> {
    if records == [] then []
    else
      var last := records[|records| - 1];
      Lines(records[..|records| - 1], route) + if last.route == route then [last.line] else []
  }

  /** The bytes written to one route: those of each flushed stretch, and those
      since the last flush. */
  datatype Cuts = Cuts(flushed: seq<string>, open: string)

  function Cut(c: Cuts, op: Op, route: Route): Cuts {
    match op
    case Write(r, text) => if r == route then c.(open := c.open + text) else c
    case Flush => Cuts(c.flushed + [c.open], "")
    case Close => c
  }

  function CutsOf(ops: seq<Op>, route: Route): Cuts {
    if ops == [] then Cuts([], "") else Cut(CutsOf(ops[..|ops| - 1], route), ops[|ops| - 1], route)
  }

  function FlatLines(stretches: seq<string>): seq<string> {
    if stretches == [] then []
    else FlatLines(stretches[..|stretches| - 1]) + SplitLines(stretches[|stretches| - 1])
  }

  /** The lines of every stretch. */
  function LinesOf(c: Cuts): seq<string> {
    FlatLines(c.flushed) + SplitLines(c.open)
  }

  ghost predicate NoClose(ops: seq<Op>) {
    forall i :: 0 <= i < |ops| ==> !ops[i].Close?
  }

  lemma {:induction false} LinesSnoc(records: seq<Record>, last: Record, route: Route)
    ensures Lines(records + [last], route) == Lines(records, route) + if last.route == route then [last.line] else []
  {
    assert (records + [last])[..|records|] == records;
  }

  function Records(route: Route, lines: seq<string>): seq<Record> {
    if lines == [] then [] else Records(route, lines[..|lines| - 1]) + [Record(route, lines[|lines| - 1])]
  }

  lemma {:induction false} EmittedRecords(s: State, d: Destination, route: Route, lines: seq<string>)
    ensures EmittedAll(s, d, route, lines).attempts == s.attempts + Records(route, lines)
    decreases |lines|
  {
    if lines == [] {
      assert s.attempts + [] == s.attempts;
    } else {
      var n := |lines| - 1;
      EmittedRecords(s, d, route, lines[..n]);
      Reassociate(s.attempts, Records(route, lines[..n]), [Record(route, lines[n])]);
    }
  }

  lemma {:induction false} LinesOfRecords(before: seq<Record>, route: Route, lines: seq<string>, other: Route)
    ensures Lines(before + Records(route, lines), other) == Lines(before, other) + if other == route then lines else []
    decreases |lines|
  {
    if lines == [] {
      assert before + [] == before && Lines(before, other) + [] == Lines(before, other);
    } else {
      var n := |lines| - 1;
      var shorter, last := Records(route, lines[..n]), Record(route, lines[n]);
      LinesOfRecords(before, route, lines[..n], other);
      Reassociate(before, shorter, [last]);
      LinesSnoc(before + shorter, last, other);
      Reassociate(Lines(before, other), lines[..n], [lines[n]]);
      assert lines == lines[..n] + [lines[n]];
    }
  }

  /** A write, seen from one route. */
  lemma {:induction false} LinesOfWrite(s: State, d: Destination, r: Route, text: string, route: Route)
    requires !s.closed
    ensures var after := Written(s, d, r, text);
            && !after.closed
            && Lines(after.attempts, route) ==
                 Lines(s.attempts, route) + (if r == route then Complete(s.Pending(r) + text) else [])
            && after.Pending(route) == if r == route then Fragment(s.Pending(r) + text) else s.Pending(route)
  {
    var lines := Complete(s.Pending(r) + text);
    EmittedRecords(s, d, r, lines);
    LinesOfRecords(s.attempts, r, lines, route);
    PendingStays(s, d, r, lines);
  }

  lemma {:induction false} LinesOfFlush(s: State, d: Destination, r: Route, route: Route)
    ensures var after := FlushedRoute(s, d, r);
            && Lines(after.attempts, route) ==
                 Lines(s.attempts, route) + (if r == route && s.Pending(r) != "" then [s.Pending(r)] else [])
            && after.Pending(route) == if r == route then "" else s.Pending(route)
  {
    if s.Pending(r) != "" {
      LinesSnoc(s.attempts, Record(r, s.Pending(r)), route);
    }
  }

  lemma {:induction false} LinesOfFlushes(s: State, d: Destination, route: Route)
    requires !s.closed
    ensures var after := Flushed(s, d);
            && after.Pending(route) == "" && !after.closed
            && Lines(after.attempts, route) ==
               Lines(s.attempts, route) + if s.Pending(route) != "" then [s.Pending(route)] else []
  {
    LinesOfFlush(s, d, Stdout, route);
    LinesOfFlush(FlushedRoute(s, d, Stdout), d, Stderr, route);
  }

  lemma {:induction false} SplitIs(s: string)
    ensures Split(s, '\n') == Complete(s) + [Fragment(s)]
    decreases |s|
  {
    if '\n' in s {
      var i := FirstIndex(s, '\n');
      NextLine(s, i);
      SplitAt(s[..i], '\n', s[i + 1..]);
      assert s == s[..i] + ['\n'] + s[i + 1..];
      SplitIs(s[i + 1..]);
    } else {
      NoNewline(s);
      SplitWhole(s, '\n');
    }
  }

  lemma {:induction false} LinesAreSplit(s: string)
    ensures SplitLines(s) == Complete(s) + if Fragment(s) == "" then [] else [Fragment(s)]
  {
    SplitIs(s);
  }

  /** Where a route stands: the lines of the flushed stretches, the complete
      lines since, and the last fragment still pending. */
  ghost predicate StandsAt(lines: seq<string>, pending: string, c: Cuts) {
    lines == FlatLines(c.flushed) + Complete(c.open) && pending == Fragment(c.open)
  }

  ghost predicate OnRoute(s: State, c: Cuts, route: Route) {
    StandsAt(Lines(s.attempts, route), s.Pending(route), c)
  }

  lemma {:induction false} WriteKeeps(s: State, d: Destination, c: Cuts, r: Route, text: string, route: Route)
    requires !s.closed && OnRoute(s, c, route)
    ensures OnRoute(Written(s, d, r, text), Cut(c, Write(r, text), route), route)
  {
    LinesOfWrite(s, d, r, text, route);
    if r == route {
      CutAppend(c.open, text);
      Reassociate(FlatLines(c.flushed), Complete(c.open), Complete(Fragment(c.open) + text));
    } else {
      assert Lines(s.attempts, route) + [] == Lines(s.attempts, route);
    }
  }

  lemma {:induction false} FlatLinesSnoc(stretches: seq<string>, last: string)
    ensures FlatLines(stretches + [last]) == FlatLines(stretches) + SplitLines(last)
  {
    assert (stretches + [last])[..|stretches|] == stretches;
  }

  lemma {:induction false} FlushKeeps(s: State, d: Destination, c: Cuts, route: Route)
    requires !s.closed && OnRoute(s, c, route)
    ensures OnRoute(Flushed(s, d), Cut(c, Flush, route), route)
    ensures Lines(Flushed(s, d).attempts, route) == LinesOf(c)
  {
    LinesOfFlushes(s, d, route);
    LinesAreSplit(c.open);
    FlatLinesSnoc(c.flushed, c.open);
    Reassociate(FlatLines(c.flushed), Complete(c.open), if Fragment(c.open) == "" then [] else [Fragment(c.open)]);
    assert Complete("") == [];
  }

  lemma {:induction false} StepKeeps(s: State, d: Destination, closing: Option<Failure>, c: Cuts, op: Op, route: Route)
    requires !s.closed && OnRoute(s, c, route) && !op.Close?
    ensures !Step(s, d, closing, op).closed && OnRoute(Step(s, d, closing, op), Cut(c, op, route), route)
  {
    match op
    case Write(r, text) =>
      WriteKeeps(s, d, c, r, text, route);
      LinesOfWrite(s, d, r, text, route);
    case Flush =>
      FlushKeeps(s, d, c, route);
      LinesOfFlushes(s, d, route);
  }

  lemma {:induction false} RunKeeps(d: Destination, closing: Option<Failure>, ops: seq<Op>, route: Route)
    requires NoClose(ops)
    ensures !Run(INITIAL, d, closing, ops).closed
    ensures OnRoute(Run(INITIAL, d, closing, ops), CutsOf(ops, route), route)
    decreases |ops|
  {
    if ops != [] {
      var n := |ops| - 1;
      RunKeeps(d, closing, ops[..n], route);
      StepKeeps(Run(INITIAL, d, closing, ops[..n]), d, closing, CutsOf(ops[..n], route), ops[n], route);
    }
  }

  lemma {:induction false} ClosedEmitsNothing(s: State, d: Destination, closing: Option<Failure>, ops: seq<Op>)
    requires s.closed
    ensures var after := Run(s, d, closing, ops);
            after.closed && after.attempts == s.attempts && after.out == s.out && after.err == s.err
    decreases |ops|
  {
    if ops != [] {
      ClosedEmitsNothing(s, d, closing, ops[..|ops| - 1]);
    }
  }

  lemma {:induction false} RunAppend(s: State, d: Destination, closing: Option<Failure>, a: seq<Op>, b: seq<Op>)
    ensures Run(s, d, closing, a + b) == Run(Run(s, d, closing, a), d, closing, b)
    decreases |b|
  {
    if b == [] {
      assert a + b == a;
    } else {
      assert (a + b)[..|a + b| - 1] == a + b[..|b| - 1];
      RunAppend(s, d, closing, a, b[..|b| - 1]);
    }
  }

  lemma {:induction false} RunSnoc(s: State, d: Destination, closing: Option<Failure>, ops: seq<Op>, op: Op)
    ensures Run(s, d, closing, ops + [op]) == Step(Run(s, d, closing, ops), d, closing, op)
  {
    assert (ops + [op])[..|ops|] == ops;
  }

  /** However the writes to the two routes interleave and are chunked, whatever
      fails, and whatever comes after the close: each route's attempted lines
      are the lines of its bytes, cut at the flushes and nowhere else. */
  lemma {:induction false} LinesDependOnBytesOnly(
    d: Destination, closing: Option<Failure>, ops: seq<Op>, later: seq<Op>, route: Route)
    requires NoClose(ops)
    ensures Lines(Run(INITIAL, d, closing, ops + [Close] + later).attempts, route) == LinesOf(CutsOf(ops, route))
  {
    var before, at := Run(INITIAL, d, closing, ops), Run(INITIAL, d, closing, ops + [Close]);
    RunKeeps(d, closing, ops, route);
    FlushKeeps(before, d, CutsOf(ops, route), route);
    RunSnoc(INITIAL, d, closing, ops, Close);
    RunAppend(INITIAL, d, closing, ops + [Close], later);
    ClosedEmitsNothing(at, d, closing, later);
  }

  function Bytes(ops: seq<Op>, route: Route): string {
    if ops == [] then ""
    else
      var before, op := Bytes(ops[..|ops| - 1], route), ops[|ops| - 1];
      if op.Write? && op.route == route then before + op.text else before
  }

  /** Without flushes: exactly the lines of everything written to the route. */
  lemma {:induction false} LinesOfWrites(
    d: Destination, closing: Option<Failure>, ops: seq<Op>, later: seq<Op>, route: Route)
    requires forall i :: 0 <= i < |ops| ==> ops[i].Write?
    ensures Lines(Run(INITIAL, d, closing, ops + [Close] + later).attempts, route) == SplitLines(Bytes(ops, route))
  {
    LinesDependOnBytesOnly(d, closing, ops, later, route);
    OneStretch(ops, route);
    assert [] + SplitLines(Bytes(ops, route)) == SplitLines(Bytes(ops, route));
  }

  lemma {:induction false} OneStretch(ops: seq<Op>, route: Route)
    requires forall i :: 0 <= i < |ops| ==> ops[i].Write?
    ensures CutsOf(ops, route) == Cuts([], Bytes(ops, route))
    decreases |ops|
  {
    if ops != [] {
      OneStretch(ops[..|ops| - 1], route);
    }
  }

  function Flat(lines: seq<string>): string {
    if lines == [] then "" else Flat(lines[..|lines| - 1]) + lines[|lines| - 1]
  }

  function WithoutNewlines(s: string): string {
    if s == "" then ""
    else WithoutNewlines(s[..|s| - 1]) + if s[|s| - 1] == '\n' then "" else [s[|s| - 1]]
  }

  lemma {:induction false} FlatSnoc(lines: seq<string>, last: string)
    ensures Flat(lines + [last]) == Flat(lines) + last
  {
    assert (lines + [last])[..|lines|] == lines;
  }

  lemma {:induction false} FlatAppend(a: seq<string>, b: seq<string>)
    ensures Flat(a + b) == Flat(a) + Flat(b)
    decreases |b|
  {
    if b == [] {
      assert a + b == a;
    } else {
      var shorter, last := b[..|b| - 1], b[|b| - 1];
      FlatAppend(a, shorter);
      FlatSnoc(a + shorter, last);
      FlatSnoc(shorter, last);
      assert a + b == a + shorter + [last] && b == shorter + [last];
    }
  }

  /** Cutting into lines loses nothing but the newlines. */
  lemma {:induction false} CutIsFlat(s: string)
    ensures Flat(Complete(s)) + Fragment(s) == WithoutNewlines(s)
  {
    if s != "" {
      var shorter := s[..|s| - 1];
      CutIsFlat(shorter);
      FlatSnoc(Complete(shorter), Fragment(shorter));
    }
  }

  lemma {:induction false} SplitLinesIsFlat(s: string)
    ensures Flat(SplitLines(s)) == WithoutNewlines(s)
  {
    CutIsFlat(s);
    LinesAreSplit(s);
    FlatSnoc(Complete(s), Fragment(s));
    assert Complete(s) + [] == Complete(s) && Flat(Complete(s)) + "" == Flat(Complete(s));
  }

  lemma {:induction false} WithoutNewlinesAppend(a: string, b: string)
    ensures WithoutNewlines(a + b) == WithoutNewlines(a) + WithoutNewlines(b)
    decreases |b|
  {
    if b == "" {
      assert a + b == a;
    } else {
      assert (a + b)[..|a + b| - 1] == a + b[..|b| - 1];
      WithoutNewlinesAppend(a, b[..|b| - 1]);
    }
  }

  lemma {:induction false} FlatLinesAreBytes(stretches: seq<string>)
    ensures Flat(FlatLines(stretches)) == WithoutNewlines(Flat(stretches))
    decreases |stretches|
  {
    if stretches != [] {
      var shorter, last := stretches[..|stretches| - 1], stretches[|stretches| - 1];
      FlatLinesAreBytes(shorter);
      FlatAppend(FlatLines(shorter), SplitLines(last));
      SplitLinesIsFlat(last);
      WithoutNewlinesAppend(Flat(shorter), last);
    }
  }

  lemma {:induction false} CutsAreBytes(ops: seq<Op>, route: Route)
    ensures var c := CutsOf(ops, route); Flat(c.flushed) + c.open == Bytes(ops, route)
    decreases |ops|
  {
    if ops != [] {
      var c, op := CutsOf(ops[..|ops| - 1], route), ops[|ops| - 1];
      CutsAreBytes(ops[..|ops| - 1], route);
      FlatSnoc(c.flushed, c.open);
      if op.Write? && op.route == route {
        Reassociate(Flat(c.flushed), c.open, op.text);
      } else if op.Flush? {
        assert Flat(c.flushed + [c.open]) + "" == Flat(c.flushed) + c.open;
      }
    }
  }

  /** Flushing anywhere neither drops nor repeats a byte. */
  lemma {:induction false} BytesAreConserved(
    d: Destination, closing: Option<Failure>, ops: seq<Op>, later: seq<Op>, route: Route)
    requires NoClose(ops)
    ensures Flat(Lines(Run(INITIAL, d, closing, ops + [Close] + later).attempts, route))
         == WithoutNewlines(Bytes(ops, route))
  {
    var c := CutsOf(ops, route);
    LinesDependOnBytesOnly(d, closing, ops, later, route);
    FlatAppend(FlatLines(c.flushed), SplitLines(c.open));
    FlatLinesAreBytes(c.flushed);
    SplitLinesIsFlat(c.open);
    WithoutNewlinesAppend(Flat(c.flushed), c.open);
    CutsAreBytes(ops, route);
  }

  // ---- The sticky failure ---------------------------------------------------------------------

  lemma {:induction false} EmittedFirst(s: State, d: Destination, route: Route, lines: seq<string>)
    ensures var after := EmittedAll(s, d, route, lines);
            && |after.attempts| == |s.attempts| + |lines|
            && after.first == OrElse(s.first, FirstFailure(d, |s.attempts|, |lines|))
    decreases |lines|
  {
    if lines != [] {
      EmittedFirst(s, d, route, lines[..|lines| - 1]);
    }
  }

  lemma {:induction false} FirstFailureJoins(d: Destination, m: nat, n: nat)
    ensures FirstFailure(d, 0, m + n) == OrElse(FirstFailure(d, 0, m), FirstFailure(d, m, n))
    decreases n
  {
    if n > 0 {
      FirstFailureJoins(d, m, n - 1);
    }
  }

  lemma {:induction false} WriteRemembers(s: State, d: Destination, route: Route, text: string)
    requires !s.closed && s.first == FirstFailure(d, 0, |s.attempts|)
    ensures var after := Written(s, d, route, text);
            !after.closed && after.first == FirstFailure(d, 0, |after.attempts|)
  {
    var lines := Complete(s.Pending(route) + text);
    EmittedFirst(s, d, route, lines);
    PendingStays(s, d, route, lines);
    FirstFailureJoins(d, |s.attempts|, |lines|);
  }

  lemma {:induction false} StepRemembers(s: State, d: Destination, closing: Option<Failure>, op: Op)
    requires !s.closed && !op.Close? && s.first == FirstFailure(d, 0, |s.attempts|)
    ensures var after := Step(s, d, closing, op);
            !after.closed && after.first == FirstFailure(d, 0, |after.attempts|)
  {
    if op.Write? {
      WriteRemembers(s, d, op.route, op.text);
    }
  }

  /** While the stream is open, what it remembers is its first failed record. */
  lemma {:induction false} RemembersFirstFailure(d: Destination, closing: Option<Failure>, ops: seq<Op>)
    requires NoClose(ops)
    ensures var s := Run(INITIAL, d, closing, ops);
            !s.closed && s.first == FirstFailure(d, 0, |s.attempts|)
    decreases |ops|
  {
    if ops != [] {
      var n := |ops| - 1;
      RemembersFirstFailure(d, closing, ops[..n]);
      StepRemembers(Run(INITIAL, d, closing, ops[..n]), d, closing, ops[n]);
    }
  }

  /** Once something is remembered, nothing replaces it. */
  lemma {:induction false} FirstNeverChanges(s: State, d: Destination, closing: Option<Failure>, ops: seq<Op>)
    requires s.first.Some?
    ensures Run(s, d, closing, ops).first == s.first
    decreases |ops|
  {
    if ops != [] {
      var n := |ops| - 1;
      FirstNeverChanges(s, d, closing, ops[..n]);
      var before := Run(s, d, closing, ops[..n]);
      if ops[n].Write? && !before.closed {
        EmittedFirst(before, d, ops[n].route, Complete(before.Pending(ops[n].route) + ops[n].text));
      }
    }
  }

  // ---- Order across the routes, and the end --------------------------------------------------

  function Fragments(s: State): seq<Record> {
    (if s.out != "" then [Record(Stdout, s.out)] else []) + (if s.err != "" then [Record(Stderr, s.err)] else [])
  }

  lemma {:induction false} EmittedOnOneRoute(s: State, d: Destination, route: Route, lines: seq<string>)
    ensures var after := EmittedAll(s, d, route, lines);
            && |after.attempts| == |s.attempts| + |lines| && s.attempts <= after.attempts
            && forall i :: 0 <= i < |lines| ==> after.attempts[|s.attempts| + i] == Record(route, lines[i])
    decreases |lines|
  {
    if lines != [] {
      EmittedOnOneRoute(s, d, route, lines[..|lines| - 1]);
    }
  }

  /** A call's records follow those of the calls before it: a write's are all of
      its own route, in order; a flush and a close attempt the fragment of
      standard output before that of standard error. */
  lemma {:induction false} CallsAttemptInOrder(s: State, d: Destination, closing: Option<Failure>, op: Op)
    requires !s.closed
    ensures var after := Step(s, d, closing, op).attempts;
            if op.Write? then
              && s.attempts <= after
              && forall i :: |s.attempts| <= i < |after| ==>
                   && i - |s.attempts| < |Complete(s.Pending(op.route) + op.text)|
                   && after[i] == Record(op.route, Complete(s.Pending(op.route) + op.text)[i - |s.attempts|])
            else after == s.attempts + Fragments(s)
  {
    match op
    case Write(route, text) =>
      EmittedOnOneRoute(s, d, route, Complete(s.Pending(route) + text));
    case Flush =>
      FlushedInOrder(s, d);
    case Close =>
      FlushedInOrder(s, d);
  }

  lemma {:induction false} FlushedInOrder(s: State, d: Destination)
    requires !s.closed
    ensures Flushed(s, d).attempts == s.attempts + Fragments(s)
    ensures Flushed(s, d).first == OrElse(s.first, FirstFailure(d, |s.attempts|, |Fragments(s)|))
  {
    var mid := FlushedRoute(s, d, Stdout);
    assert mid.err == s.err;
    assert FirstFailure(d, |s.attempts|, 0) == None;
    assert FirstFailure(d, |s.attempts|, 1) == OrElse(None, d(|s.attempts| + 1 - 1));
    assert FirstFailure(d, |s.attempts|, 2) == OrElse(FirstFailure(d, |s.attempts|, 1), d(|s.attempts| + 2 - 1));
  }

  ghost predicate AnyWrite(ops: seq<Op>) {
    exists i :: 0 <= i < |ops| && ops[i].Write?
  }

  lemma {:induction false} ClosedRemembersWrites(s: State, d: Destination, closing: Option<Failure>, ops: seq<Op>)
    requires s.closed
    ensures Run(s, d, closing, ops).closed
    ensures Run(s, d, closing, ops).first == OrElse(s.first, if AnyWrite(ops) then Some(Closed) else None)
    decreases |ops|
  {
    if ops != [] {
      var n := |ops| - 1;
      ClosedRemembersWrites(s, d, closing, ops[..n]);
      assert AnyWrite(ops) <==> AnyWrite(ops[..n]) || ops[n].Write? by {
        assert forall i :: 0 <= i < n ==> ops[..n][i] == ops[i];
      }
    }
  }

  lemma {:induction false} CloseRemembers(s: State, d: Destination, closing: Option<Failure>)
    requires !s.closed && s.first == FirstFailure(d, 0, |s.attempts|)
    ensures var shut := Ended(s, d, closing);
            shut.closed && shut.first == OrElse(FirstFailure(d, 0, |shut.attempts|), closing)
  {
    FlushedInOrder(s, d);
    FirstFailureJoins(d, |s.attempts|, |Fragments(s)|);
  }

  /** What a stream that is closed once remembers, whatever is done to it
      afterwards: its first failed record, or else the failure to close its
      destination, or else that someone has written to it since. */
  lemma {:induction false} RemembersToTheEnd(
    d: Destination, closing: Option<Failure>, ops: seq<Op>, later: seq<Op>)
    requires NoClose(ops)
    ensures var s := Run(INITIAL, d, closing, ops + [Close] + later);
            s.closed && s.first == OrElse(
              FirstFailure(d, 0, |s.attempts|), OrElse(closing, if AnyWrite(later) then Some(Closed) else None))
  {
    var shut := Run(INITIAL, d, closing, ops + [Close]);
    RemembersFirstFailure(d, closing, ops);
    RunSnoc(INITIAL, d, closing, ops, Close);
    CloseRemembers(Run(INITIAL, d, closing, ops), d, closing);
    RunAppend(INITIAL, d, closing, ops + [Close], later);
    ClosedRemembersWrites(shut, d, closing, later);
    ClosedEmitsNothing(shut, d, closing, later);
  }
}
