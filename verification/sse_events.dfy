/** Events of a server-sent stream (featureSSEEvent of feature/sse.go and its use in
    feature/flags.go): fields accumulate under one size bound, a blank line dispatches them. */
module SseEvents {
  import opened Options
  import opened SseScanner

  const MAX: nat := 16777216        // 16 MiB

  const COLON: Byte := 58
  const SPACE: Byte := 32
  const EVENT: seq<Byte> := [101, 118, 101, 110, 116]
  const DATA: seq<Byte> := [100, 97, 116, 97]

  datatype Fields = Fields(name: seq<Byte>, data: seq<Byte>, bytes: nat, dataLines: nat)

  const BLANK := Fields([], [], 0, 0)

  predicate IsComment(line: seq<Byte>) {
    line != [] && line[0] == COLON
  }

  /** The length of the field name, up to the first colon. */
  function NameLength(line: seq<Byte>): (n: nat)
    ensures n <= |line|
  {
    if line == [] || line[0] == COLON then 0 else 1 + NameLength(line[1..])
  }

  function ValueOf(line: seq<Byte>): seq<Byte> {
    var n := NameLength(line);
    if n == |line| then []
    else if n + 1 < |line| && line[n + 1] == SPACE then line[n + 2..]
    else line[n + 1..]
  }

  /** appendLine: None if the event would grow beyond the bound. */
  function Appended(e: Fields, line: seq<Byte>): Option<Fields> {
    if IsComment(line) then Some(e)
    else if e.bytes + |line| + 1 > MAX then None
    else
      var counted := e.(bytes := e.bytes + |line| + 1);
      var field := line[..NameLength(line)];
      if field == EVENT then Some(counted.(name := ValueOf(line)))
      else if field == DATA then
        Some(counted.(data := e.data + (if e.dataLines > 0 then [LF] else []) + ValueOf(line),
          dataLines := e.dataLines + 1))
      else Some(counted)
  }

  predicate IsEmpty(e: Fields) {
    e.name == [] && e.dataLines == 0
  }

  datatype Message = Message(name: seq<Byte>, data: seq<Byte>)

  /** What the stream loop has dispatched, and whether it had to give up on an event. */
  datatype Progress = Progress(current: Fields, sent: seq<Message>, tooLarge: bool)

  const START := Progress(BLANK, [], false)

  function Next(p: Progress, line: seq<Byte>): Progress {
    if p.tooLarge then p
    else if line == [] then
      Progress(BLANK, if IsEmpty(p.current) then p.sent else p.sent + [Message(p.current.name, p.current.data)], false)
    else match Appended(p.current, line)
      case None => p.(tooLarge := true)
      case Some(e) => p.(current := e)
  }

  function Parse(p: Progress, lines: seq<seq<Byte>>): Progress
    decreases |lines|
  {
    if lines == [] then p else Parse(Next(p, lines[0]), lines[1..])
  }

  /** strings.Cut at the first colon, and one leading space dropped from the value. */
  method CutField(line: seq<Byte>) returns (n: nat, value: seq<Byte>)
    ensures n == NameLength(line) && value == ValueOf(line)
  {
    n := 0;
    while n < |line| && line[n] != COLON
      invariant 0 <= n <= |line|
      invariant NameLength(line) == n + NameLength(line[n..])
    {
      assert line[n..][1..] == line[n + 1..];
      n := n + 1;
    }
    value := [];
    if n < |line| {
      value := line[n + 1..];
      if value != [] && value[0] == SPACE {
        value := value[1..];
      }
    }
  }

  class Event {
    var name: seq<Byte>
    var data: seq<Byte>
    var bytes: nat
    var dataLines: nat

    ghost function Value(): Fields
      reads this
    {
      Fields(name, data, bytes, dataLines)
    }

    ghost predicate Valid()
      reads this
    {
      Bounded(Value())
    }

    constructor ()
      ensures Valid() && Value() == BLANK
    {
      name, data, bytes, dataLines := [], [], 0, 0;
    }

    method AppendLine(line: seq<Byte>) returns (ok: bool)
      requires Valid()
      modifies this
      ensures Valid()
      ensures ok <==> Appended(old(Value()), line).Some?
      ensures Value() == if ok then Appended(old(Value()), line).value else old(Value())
    {
      AppendedIsBounded(Value(), line);
      if line != [] && line[0] == COLON {
        return true;
      }
      if |line| >= MAX - bytes {
        return false;
      }
      bytes := bytes + |line| + 1;
      var n, value := CutField(line);
      if line[..n] == EVENT {
        name := value;
      } else if line[..n] == DATA {
        if dataLines > 0 {
          data := data + [LF];
        }
        data := data + value;
        dataLines := dataLines + 1;
      }
      ok := true;
    }

    method Reset()
      modifies this
      ensures Valid() && Value() == BLANK
    {
      name, data, bytes, dataLines := [], [], 0, 0;
    }
  }

  /** The stream loop over the lines of the scanner. */
  method Dispatch(lines: seq<seq<Byte>>) returns (sent: seq<Message>, tooLarge: bool)
    ensures sent == Parse(START, lines).sent && tooLarge == Parse(START, lines).tooLarge
  {
    var event := new Event();
    sent, tooLarge := [], false;
    var i := 0;
    while i < |lines| && !tooLarge
      invariant 0 <= i <= |lines| && fresh(event) && event.Valid()
      invariant Parse(START, lines) == Parse(Progress(event.Value(), sent, tooLarge), lines[i..])
    {
      var line := lines[i];
      assert lines[i..][1..] == lines[i + 1..];
      if line == [] {
        if !(event.name == [] && event.dataLines == 0) {
          sent := sent + [Message(event.name, event.data)];
        }
        event.Reset();
      } else {
        var ok := event.AppendLine(line);
        tooLarge := !ok;
      }
      i := i + 1;
    }
    if tooLarge {
      GivenUp(Progress(event.Value(), sent, tooLarge), lines[i..]);
    }
  }

  lemma {:induction false} GivenUp(p: Progress, lines: seq<seq<Byte>>)
    requires p.tooLarge
    ensures Parse(p, lines) == p
    decreases |lines|
  {
    if lines != [] {
      GivenUp(p, lines[1..]);
    }
  }

  // ------------------------------------------------------------------------
  // The bound
  // ------------------------------------------------------------------------

  predicate Bounded(e: Fields) {
    e.bytes <= MAX && |e.data| <= e.bytes && |e.name| <= e.bytes
  }

  lemma {:induction false} NameInLine(line: seq<Byte>)
    ensures forall i :: 0 <= i < NameLength(line) ==> line[i] != COLON
    ensures NameLength(line) < |line| ==> line[NameLength(line)] == COLON
  {
    if line != [] && line[0] != COLON {
      NameInLine(line[1..]);
    }
  }

  /** A line is refused exactly when the event would exceed the bound, comments never; and what is
      kept of an event never exceeds what was counted. */
  lemma AppendedIsBounded(e: Fields, line: seq<Byte>)
    requires Bounded(e)
    ensures Appended(e, line).None? <==> !IsComment(line) && e.bytes + |line| + 1 > MAX
    ensures Appended(e, line).Some? ==> Bounded(Appended(e, line).value)
  {
  }

  /** Accumulated data never exceeds the bound, whatever the stream holds. */
  lemma {:induction false} ParseIsBounded(p: Progress, lines: seq<seq<Byte>>)
    requires Bounded(p.current) && forall m :: m in p.sent ==> |m.data| <= MAX && |m.name| <= MAX
    ensures Bounded(Parse(p, lines).current)
    ensures forall m :: m in Parse(p, lines).sent ==> |m.data| <= MAX && |m.name| <= MAX
    decreases |lines|
  {
    if lines != [] {
      AppendedIsBounded(p.current, lines[0]);
      ParseIsBounded(Next(p, lines[0]), lines[1..]);
    }
  }

  // ------------------------------------------------------------------------
  // Printing
  // ------------------------------------------------------------------------

  function EventLine(name: seq<Byte>): seq<Byte> {
    EVENT + [COLON, SPACE] + name
  }

  function DataLine(d: seq<Byte>): seq<Byte> {
    DATA + [COLON, SPACE] + d
  }

  function DataLines(ds: seq<seq<Byte>>): seq<seq<Byte>> {
    if ds == [] then [] else [DataLine(ds[0])] + DataLines(ds[1..])
  }

  /** The pieces of the data between its LFs; there is always one. */
  function Pieces(data: seq<Byte>): seq<seq<Byte>> {
    Lines(data) + [Unfinished(data)]
  }

  function Print(m: Message): seq<seq<Byte>> {
    (if m.name == [] then [] else [EventLine(m.name)]) + DataLines(Pieces(m.data)) + [[]]
  }

  function PrintAll(ms: seq<Message>): seq<seq<Byte>> {
    if ms == [] then [] else Print(ms[0]) + PrintAll(ms[1..])
  }

  function Cost(lines: seq<seq<Byte>>): nat {
    if lines == [] then 0 else |lines[0]| + 1 + Cost(lines[1..])
  }

  function Join(ds: seq<seq<Byte>>): seq<Byte> {
    if ds == [] then [] else if |ds| == 1 then ds[0] else ds[0] + [LF] + Join(ds[1..])
  }

  lemma PrintedFields(d: seq<Byte>)
    ensures NameLength(DataLine(d)) == 4 && ValueOf(DataLine(d)) == d && DataLine(d)[..4] == DATA &&
      !IsComment(DataLine(d))
    ensures NameLength(EventLine(d)) == 5 && ValueOf(EventLine(d)) == d && EventLine(d)[..5] == EVENT &&
      !IsComment(EventLine(d))
    ensures EventLine(d)[..5] != DATA && DataLine(d)[..4] != EVENT
  {
    NameInLine(DataLine(d));
    NameInLine(EventLine(d));
    assert DataLine(d)[4] == COLON && EventLine(d)[5] == COLON;
  }

  lemma {:induction false} ParseAppend(p: Progress, a: seq<seq<Byte>>, b: seq<seq<Byte>>)
    ensures Parse(p, a + b) == Parse(Parse(p, a), b)
    decreases |a|
  {
    if a == [] {
      assert a + b == b;
    } else {
      assert (a + b)[1..] == a[1..] + b;
      ParseAppend(Next(p, a[0]), a[1..], b);
    }
  }

  function WithData(e: Fields, ds: seq<seq<Byte>>): Fields {
    Fields(e.name, e.data + (if e.dataLines > 0 then [LF] else []) + Join(ds), e.bytes + Cost(DataLines(ds)),
      e.dataLines + |ds|)
  }

  lemma {:induction false} ParseData(p: Progress, ds: seq<seq<Byte>>)
    requires !p.tooLarge && ds != []
    ensures if p.current.bytes + Cost(DataLines(ds)) <= MAX
            then Parse(p, DataLines(ds)) == p.(current := WithData(p.current, ds))
            else Parse(p, DataLines(ds)).tooLarge && Parse(p, DataLines(ds)).sent == p.sent
    decreases |ds|
  {
    PrintedFields(ds[0]);
    var lines := DataLines(ds);
    assert lines[0] == DataLine(ds[0]) && lines[1..] == DataLines(ds[1..]);
    var q := Next(p, lines[0]);
    if q.tooLarge {
      GivenUp(q, lines[1..]);
    } else if |ds| == 1 {
      assert ds[1..] == [];
      assert Parse(q, []) == q;
    } else {
      ParseData(q, ds[1..]);
      JoinOneMore(p.current.data + (if p.current.dataLines > 0 then [LF] else []), ds);
    }
  }

  lemma JoinOneMore(prefix: seq<Byte>, ds: seq<seq<Byte>>)
    requires |ds| > 1
    ensures prefix + ds[0] + [LF] + Join(ds[1..]) == prefix + Join(ds)
  {
  }

  lemma {:induction false} JoinLines(line: seq<Byte>, s: seq<Byte>)
    ensures Join(LinesFrom(line, s) + [UnfinishedFrom(line, s)]) == line + s
    decreases |s|
  {
    if s == [] {
      assert LinesFrom(line, s) + [UnfinishedFrom(line, s)] == [line];
    } else {
      assert s == [s[0]] + s[1..];
      if s[0] == LF {
        JoinLines([], s[1..]);
        var rest := LinesFrom([], s[1..]) + [UnfinishedFrom([], s[1..])];
        var all := LinesFrom(line, s) + [UnfinishedFrom(line, s)];
        assert all == [line] + rest && all[1..] == rest;
      } else {
        JoinLines(line + [s[0]], s[1..]);
        assert line + [s[0]] + s[1..] == line + s;
      }
    }
  }

  /** What an event costs against the bound. */
  function PrintCost(m: Message): nat {
    (if m.name == [] then 0 else |EventLine(m.name)| + 1) + Cost(DataLines(Pieces(m.data)))
  }

  /** Printing an event and parsing it gives the event back, exactly if it is within the bound. */
  lemma ParsePrinted(sent: seq<Message>, m: Message)
    ensures var p := Parse(Progress(BLANK, sent, false), Print(m));
      if PrintCost(m) <= MAX then p == Progress(BLANK, sent + [m], false) else p.tooLarge && p.sent == sent
  {
    var start, body := Progress(BLANK, sent, false), DataLines(Pieces(m.data));
    var head := if m.name == [] then [] else [EventLine(m.name)];
    assert Print(m) == head + body + [[]];
    ParseAppend(start, head + body, [[]]);
    ParseAppend(start, head, body);
    ParseName(start, m.name);
    var p := Parse(start, head);
    if p.tooLarge {
      GivenUp(p, body);
      GivenUp(p, [[]]);
    } else {
      ParseData(p, Pieces(m.data));
      JoinLines([], m.data);
      assert [] + m.data == m.data;
      ParseBlank(Parse(p, body));
      assert [] + Join(Pieces(m.data)) == m.data && p.current.data + [] + Join(Pieces(m.data)) == m.data;
    }
  }

  lemma ParseBlank(p: Progress)
    ensures Parse(p, [[]]) == Next(p, [])
  {
    var blank: seq<seq<Byte>> := [[]];
    assert blank[1..] == [];
    assert Parse(Next(p, []), []) == Next(p, []);
  }

  lemma ParseName(p: Progress, name: seq<Byte>)
    requires p.current == BLANK && !p.tooLarge
    ensures var head := if name == [] then [] else [EventLine(name)];
      var q := Parse(p, head);
      if name == [] then q == p
      else if |EventLine(name)| + 1 <= MAX then q == p.(current := Fields(name, [], |EventLine(name)| + 1, 0))
      else q.tooLarge && q.sent == p.sent
  {
    if name != [] {
      PrintedFields(name);
      var head := [EventLine(name)];
      assert head[1..] == [];
      assert Parse(Next(p, head[0]), []) == Next(p, head[0]);
    }
  }

  lemma {:induction false} ParsePrintedAll(sent: seq<Message>, ms: seq<Message>)
    requires forall m :: m in ms ==> PrintCost(m) <= MAX
    ensures Parse(Progress(BLANK, sent, false), PrintAll(ms)) == Progress(BLANK, sent + ms, false)
    decreases |ms|
  {
    if ms == [] {
      assert sent + ms == sent;
    } else {
      assert ms[0] in ms;
      ParsePrintedAll(sent + [ms[0]], ms[1..]);
      ParsePrintedThen(sent, ms[0], PrintAll(ms[1..]));
      assert sent + [ms[0]] + ms[1..] == sent + ms;
    }
  }

  lemma ParsePrintedThen(sent: seq<Message>, m: Message, rest: seq<seq<Byte>>)
    requires PrintCost(m) <= MAX
    ensures Parse(Progress(BLANK, sent, false), Print(m) + rest) == Parse(Progress(BLANK, sent + [m], false), rest)
  {
    ParsePrinted(sent, m);
    ParseOn(Progress(BLANK, sent, false), Print(m), rest, Progress(BLANK, sent + [m], false),
      Parse(Progress(BLANK, sent + [m], false), rest));
  }

  lemma ParseOn(p: Progress, a: seq<seq<Byte>>, b: seq<seq<Byte>>, q: Progress, r: Progress)
    requires Parse(p, a) == q && Parse(q, b) == r
    ensures Parse(p, a + b) == r
  {
    ParseAppend(p, a, b);
  }

  // ------------------------------------------------------------------------
  // Through the scanner
  // ------------------------------------------------------------------------

  function Encode(lines: seq<seq<Byte>>): seq<Byte> {
    if lines == [] then [] else lines[0] + [LF] + Encode(lines[1..])
  }

  predicate Clean(lines: seq<seq<Byte>>) {
    forall line :: line in lines ==> NoBreak(line)
  }

  lemma {:induction false} EncodedLines(lines: seq<seq<Byte>>)
    requires Clean(lines)
    ensures Normalize(Encode(lines)) == Encode(lines)
    ensures Lines(Encode(lines)) == lines && Unfinished(Encode(lines)) == []
    decreases |lines|
  {
    if lines != [] {
      var line, rest := lines[0], lines[1..];
      assert line in lines && forall l :: l in rest ==> l in lines;
      EncodedLines(rest);
      NormalizeAppend(line + [LF], Encode(rest));
      NormalizeLine(line, LF);
      LinesAppend(line + [LF], Encode(rest));
      LinesOfOne(line);
    }
  }

  /** The event's text can be printed: the name has no line break, the data no CR. */
  predicate Printable(m: Message) {
    NoBreak(m.name) && CR !in m.data
  }

  lemma {:induction false} CleanData(ds: seq<seq<Byte>>)
    requires Clean(ds)
    ensures Clean(DataLines(ds))
    decreases |ds|
  {
    if ds != [] {
      assert ds[0] in ds && forall d :: d in ds[1..] ==> d in ds;
      CleanData(ds[1..]);
      assert NoBreak(DataLine(ds[0]));
    }
  }

  lemma {:induction false} CleanPieces(line: seq<Byte>, s: seq<Byte>)
    requires NoBreak(line) && CR !in s
    ensures Clean(LinesFrom(line, s) + [UnfinishedFrom(line, s)])
    decreases |s|
  {
    if s != [] {
      assert s[0] in s && forall b :: b in s[1..] ==> b in s;
      CleanPieces(if s[0] == LF then [] else line + [s[0]], s[1..]);
    }
  }

  lemma CleanPrint(m: Message)
    requires Printable(m)
    ensures Clean(Print(m))
  {
    CleanPieces([], m.data);
    CleanData(Pieces(m.data));
    assert NoBreak(EventLine(m.name));
  }

  lemma {:induction false} CleanPrintAll(ms: seq<Message>)
    requires forall m :: m in ms ==> Printable(m)
    ensures Clean(PrintAll(ms))
    decreases |ms|
  {
    if ms != [] {
      assert ms[0] in ms && forall m :: m in ms[1..] ==> m in ms;
      CleanPrint(ms[0]);
      CleanPrintAll(ms[1..]);
    }
  }

  lemma NoBOMPrinted(ms: seq<Message>)
    ensures !HasBOM(Encode(PrintAll(ms)))
  {
    if ms != [] {
      var first := Print(ms[0])[0];
      assert PrintAll(ms)[0] == first && first[0] == (if ms[0].name == [] then DATA[0] else EVENT[0]);
      assert Encode(PrintAll(ms))[0] == first[0];
    }
  }

  /** Printed events come back from the stream, however it is cut into reads. */
  lemma StreamRoundTrip(ms: seq<Message>, chunks: seq<seq<Byte>>)
    requires forall m :: m in ms ==> Printable(m) && PrintCost(m) <= MAX
    requires Concat(chunks) == Encode(PrintAll(ms))
    ensures Parse(START, AllLines(Concat(chunks))) == Progress(BLANK, ms, false)
  {
    CleanPrintAll(ms);
    EncodedLines(PrintAll(ms));
    NoBOMPrinted(ms);
    assert AllLines(Concat(chunks)) == PrintAll(ms);
    ParsePrintedAll([], ms);
    assert [] + ms == ms;
  }

  /** Scanner and stream loop together. */
  method ReadStream(chunks: seq<seq<Byte>>) returns (sent: seq<Message>, tooLarge: bool)
    ensures sent == Parse(START, AllLines(Concat(chunks))).sent
    ensures tooLarge == Parse(START, AllLines(Concat(chunks))).tooLarge
  {
    var lines, prompt := ScanStream(chunks);
    sent, tooLarge := Dispatch(lines);
  }
}
