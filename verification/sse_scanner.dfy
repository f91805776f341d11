/** The incremental line scanner of feature/sse.go. However a stream is cut into reads, the lines
    emitted after any of them are those of the text read so far, under the line endings and the
    byte order mark of sections 9.2.5 and 9.2.6 of the WHATWG HTML Standard. */
module SseScanner {
  import opened Options

  type Byte = x: int | 0 <= x < 256

  const LF: Byte := 10
  const CR: Byte := 13

  // ------------------------------------------------------------------------
  // The lines of a text
  // ------------------------------------------------------------------------

  /** What follows the first byte or CRLF. */
  function Rest(s: seq<Byte>): (r: seq<Byte>)
    requires s != []
    ensures |r| < |s|
  {
    if s[0] == CR && |s| > 1 && s[1] == LF then s[2..] else s[1..]
  }

  /** CRLF and lone CR become LF. */
  function Normalize(s: seq<Byte>): seq<Byte>
    decreases |s|
  {
    if s == [] then [] else [if s[0] == CR then LF else s[0]] + Normalize(Rest(s))
  }

  /** The lines that an LF ends, of a text that follows `line` without a break between. */
  function LinesFrom(line: seq<Byte>, s: seq<Byte>): seq<seq<Byte>>
    decreases |s|
  {
    if s == [] then []
    else if s[0] == LF then [line] + LinesFrom([], s[1..])
    else LinesFrom(line + [s[0]], s[1..])
  }

  function Lines(s: seq<Byte>): seq<seq<Byte>> {
    LinesFrom([], s)
  }

  /** What follows the last LF. */
  function UnfinishedFrom(line: seq<Byte>, s: seq<Byte>): seq<Byte>
    decreases |s|
  {
    if s == [] then line
    else if s[0] == LF then UnfinishedFrom([], s[1..])
    else UnfinishedFrom(line + [s[0]], s[1..])
  }

  function Unfinished(s: seq<Byte>): seq<Byte> {
    UnfinishedFrom([], s)
  }

  /** The UTF-8 byte order mark. */
  predicate HasBOM(s: seq<Byte>) {
    |s| >= 3 && s[0] == 0xef && s[1] == 0xbb && s[2] == 0xbf
  }

  /** Too little to tell whether a byte order mark is coming. */
  predicate MayBecomeBOM(s: seq<Byte>) {
    |s| < 3 && (|s| > 0 ==> s[0] == 0xef) && (|s| > 1 ==> s[1] == 0xbb)
  }

  function StripBOM(s: seq<Byte>): seq<Byte> {
    if HasBOM(s) then s[3..] else s
  }

  /** The complete lines of a text of which only this much has been read. While it may still turn
      out to be a byte order mark it has none. */
  function LinesOf(s: seq<Byte>): seq<seq<Byte>> {
    Lines(Normalize(StripBOM(s)))
  }

  predicate Ended(s: seq<Byte>) {
    s == [] || s[|s| - 1] == LF || s[|s| - 1] == CR
  }

  predicate NoBreak(s: seq<Byte>) {
    LF !in s && CR !in s
  }

  predicate CutsCRLF(a: seq<Byte>, b: seq<Byte>) {
    a != [] && a[|a| - 1] == CR && b != [] && b[0] == LF
  }

  lemma RestAppend(a: seq<Byte>, b: seq<Byte>)
    requires a != [] && !CutsCRLF(a, b)
    ensures Rest(a + b) == Rest(a) + b && !CutsCRLF(Rest(a), b)
  {
    assert (a + b)[1..] == a[1..] + b;
    assert |a| > 1 ==> (a + b)[2..] == a[2..] + b;
  }

  lemma {:induction false} NormalizeAppend(a: seq<Byte>, b: seq<Byte>)
    requires !CutsCRLF(a, b)
    ensures Normalize(a + b) == Normalize(a) + Normalize(b)
    decreases |a|
  {
    if a == [] {
      assert a + b == b;
    } else {
      RestAppend(a, b);
      NormalizeAppend(Rest(a), b);
    }
  }

  /** The LF of a CRLF adds nothing to what its CR has ended. */
  lemma {:induction false} NormalizeCRLF(a: seq<Byte>)
    requires a != [] && a[|a| - 1] == CR
    ensures Normalize(a + [LF]) == Normalize(a)
    decreases |a|
  {
    if |a| > 1 {
      var front, last := a[..|a| - 1], [CR, LF];
      assert a == front + [CR] && a + [LF] == front + last;
      NormalizeAppend(front, last);
      NormalizeAppend(front, [CR]);
      assert Rest(last) == [];
    }
  }

  lemma {:induction false} NormalizePlain(s: seq<Byte>)
    requires NoBreak(s)
    ensures Normalize(s) == s
  {
    if s != [] {
      assert s == [s[0]] + s[1..];
      NormalizePlain(s[1..]);
    }
  }

  lemma {:induction false} LinesFromAppend(line: seq<Byte>, a: seq<Byte>, b: seq<Byte>)
    ensures LinesFrom(line, a + b) == LinesFrom(line, a) + LinesFrom(UnfinishedFrom(line, a), b)
    ensures UnfinishedFrom(line, a + b) == UnfinishedFrom(UnfinishedFrom(line, a), b)
    decreases |a|
  {
    if a == [] {
      assert a + b == b;
    } else {
      assert (a + b)[1..] == a[1..] + b;
      LinesFromAppend(if a[0] == LF then [] else line + [a[0]], a[1..], b);
    }
  }

  lemma {:induction false} FinishedByLF(line: seq<Byte>, s: seq<Byte>)
    requires s != [] && s[|s| - 1] == LF
    ensures UnfinishedFrom(line, s) == []
    decreases |s|
  {
    if |s| > 1 {
      FinishedByLF(if s[0] == LF then [] else line + [s[0]], s[1..]);
    }
  }

  lemma LinesAppend(a: seq<Byte>, b: seq<Byte>)
    requires a == [] || a[|a| - 1] == LF
    ensures Lines(a + b) == Lines(a) + Lines(b)
    ensures Unfinished(a + b) == Unfinished(b)
  {
    LinesFromAppend([], a, b);
    if a != [] {
      FinishedByLF([], a);
    }
  }

  lemma {:induction false} PlainLines(line: seq<Byte>, s: seq<Byte>)
    requires NoBreak(s)
    ensures LinesFrom(line, s) == [] && UnfinishedFrom(line, s) == line + s
    decreases |s|
  {
    if s != [] {
      assert s == [s[0]] + s[1..];
      PlainLines(line + [s[0]], s[1..]);
      assert line + [s[0]] + s[1..] == line + s;
    }
  }

  lemma LinesOfOne(line: seq<Byte>)
    requires NoBreak(line)
    ensures Lines(line + [LF]) == [line] && Lines(line) == [] && Unfinished(line) == line
  {
    PlainLines([], line);
    LinesFromAppend([], line, [LF]);
    assert [LF][1..] == [] && [] + line == line;
  }

  lemma {:induction false} NormalizeEnded(s: seq<Byte>)
    requires Ended(s)
    ensures Normalize(s) == [] || Normalize(s)[|Normalize(s)| - 1] == LF
    ensures s != [] ==> Normalize(s) != []
    decreases |s|
  {
    if s != [] && s[0] == CR {
      NormalizeEnded(Rest(s));
    } else if s != [] {
      NormalizeEnded(s[1..]);
    }
  }

  /** One more line: it may be preceded by the LF of a CRLF whose CR has already ended a line. */
  lemma OneMoreLine(c: seq<Byte>, skip: seq<Byte>, line: seq<Byte>, end: Byte)
    requires Ended(c) && NoBreak(line) && (end == LF || end == CR)
    requires skip == [] || (skip == [LF] && c != [] && c[|c| - 1] == CR)
    requires !(skip == [] && line == [] && end == LF && c != [] && c[|c| - 1] == CR)
    ensures Lines(Normalize(c + skip + (line + [end]))) == Lines(Normalize(c)) + [line]
  {
    SkippedLF(c, skip);
    NormalizeAppend(c + skip, line + [end]);
    NormalizeLine(line, end);
    NormalizeEnded(c);
    LinesAppend(Normalize(c), line + [LF]);
    LinesOfOne(line);
  }

  lemma NormalizeLine(line: seq<Byte>, end: Byte)
    requires NoBreak(line) && (end == LF || end == CR)
    ensures Normalize(line + [end]) == line + [LF]
  {
    NormalizeAppend(line, [end]);
    NormalizePlain(line);
    assert Rest([end]) == [];
  }

  lemma SkippedLF(c: seq<Byte>, skip: seq<Byte>)
    requires skip == [] || (skip == [LF] && c != [] && c[|c| - 1] == CR)
    ensures Normalize(c + skip) == Normalize(c)
  {
    if skip == [] {
      assert c + skip == c;
    } else {
      NormalizeCRLF(c);
    }
  }

  /** Text without a line break adds no line. */
  lemma NoMoreLines(c: seq<Byte>, rest: seq<Byte>)
    requires Ended(c) && NoBreak(rest)
    ensures Lines(Normalize(c + rest)) == Lines(Normalize(c)) && Unfinished(Normalize(c + rest)) == rest
  {
    NormalizeAppend(c, rest);
    NormalizePlain(rest);
    NormalizeEnded(c);
    LinesAppend(Normalize(c), rest);
    LinesOfOne(rest);
  }

  // ------------------------------------------------------------------------
  // The scanner
  // ------------------------------------------------------------------------

  predicate EndsInCR(s: seq<Byte>) {
    s != [] && s[|s| - 1] == CR
  }

  /** The loop over the bytes of a line. */
  method FindBreak(data: seq<Byte>) returns (index: nat)
    ensures IsLine(data, index)
  {
    index := 0;
    while index < |data| && data[index] != LF && data[index] != CR
      invariant 0 <= index <= |data| && NoBreak(data[..index])
    {
      index := index + 1;
    }
  }

  /** The first `index` bytes are all there is up to the next break. */
  predicate IsLine(data: seq<Byte>, index: nat) {
    index <= |data| && NoBreak(data[..index]) && (index < |data| ==> IsBreak(data[index]))
  }

  predicate IsBreak(b: Byte) {
    b == LF || b == CR
  }

  lemma SliceOfRest(data: seq<Byte>, from: nat, n: nat)
    requires from + n <= |data|
    ensures data[from..][..n] == data[from..from + n]
    ensures from + n < |data| ==> data[from..][n] == data[from + n]
    ensures from + n == |data| ==> data[from..] == data[from..from + n]
  {
  }

  class Scanner {
    var leading: bool
    var skipLF: bool
    var buffer: seq<Byte>              // read and not yet consumed
    ghost var seen: seq<Byte>          // everything read
    ghost var consumed: seq<Byte>      // ... consumed, without the byte order mark
    ghost var emitted: seq<seq<Byte>>

    /** Everything consumed ends with a line break, and the lines emitted are its lines. */
    ghost predicate Valid()
      reads this
    {
      && Holds(leading, skipLF, buffer, seen, consumed) && emitted == Lines(Normalize(consumed))
    }

    /** It is known whether the stream starts with a byte order mark. */
    ghost predicate Open()
      reads this
    {
      leading || Decided(seen)
    }

    constructor ()
      ensures Valid() && Open() && seen == [] && emitted == []
    {
      leading, skipLF, buffer, seen, consumed, emitted := true, false, [], [], [], [];
    }

    /** The byte order mark, once, and the LF of a CRLF that was cut apart. */
    method Settle(data: seq<Byte>) returns (advance: nat)
      requires data != []
      modifies this`leading, this`skipLF
      ensures advance == SettleLength(old(leading), old(skipLF), data)
      ensures !leading && (skipLF <==> old(skipLF) && data[BomLength(old(leading), data)..] == [])
    {
      advance := 0;
      if leading {
        leading := false;
        if HasBOM(data) {
          advance := 3;
        }
      }
      if skipLF && advance < |data| {
        skipLF := false;
        if data[advance] == LF {
          advance := advance + 1;
        }
      }
    }

    /** The split function, applied to what is buffered. */
    method Split(data: seq<Byte>, atEOF: bool) returns (advance: nat, token: Option<seq<Byte>>)
      modifies this`leading, this`skipLF
      ensures IsSplit(old(leading), old(skipLF), data, atEOF, Cut(advance, token, leading, skipLF))
    {
      if data == [] || (leading && MayBecomeBOM(data) && !atEOF) {
        return 0, None;
      }
      advance := Settle(data);
      var rest := data[advance..];
      if rest == [] {
        return advance, None;
      }
      var index := FindBreak(rest);
      if index < |rest| {
        SliceOfRest(data, advance, index);
        skipLF := rest[index] == CR;
        return advance + index + 1, Some(rest[..index]);
      }
      SliceOfRest(data, advance, index);
      if atEOF {
        return advance + |rest|, Some(rest);
      }
      return advance, None;
    }

    /** One turn of bufio.Scanner's loop: split, then drop what was consumed. At the end of the
        stream a last line without a break is handed out too, and `ended` says so. */
    method Scan(atEOF: bool) returns (token: Option<seq<Byte>>, ghost ended: bool)
      requires Valid()
      modifies this
      ensures seen == old(seen) && |buffer| <= |old(buffer)| && (!atEOF && old(Open()) ==> Open())
      ensures token.None? ==> !ended && Valid() && emitted == old(emitted) == LinesOf(seen)
      ensures token.None? && atEOF ==> AllLines(seen) == emitted
      ensures token.Some? && !ended ==> Valid() && emitted == old(emitted) + [token.value] && |buffer| < |old(buffer)|
      ensures ended ==> atEOF && token.Some? && AllLines(seen) == old(emitted) + [token.value] && buffer == []
    {
      ghost var led, was, data := leading, skipLF, buffer;
      ghost var bom := BomLength(led, data);
      var advance;
      advance, token := Split(buffer, atEOF);
      ended := false;
      if Waits(led, data, atEOF) {
        WaitingHasNoLines(led, was, data, seen, consumed, atEOF);
      } else {
        Advances(led, was, data, seen, consumed, atEOF, Cut(advance, token, leading, skipLF));
        if !atEOF {
          DecidedBySplit(led, was, data, seen, consumed);
        }
        ended := TakesRest(led, was, data, token);
        if !ended {
          consumed := consumed + data[bom..advance];
          emitted := if token.Some? then emitted + [token.value] else emitted;
        }
      }
      buffer := buffer[advance..];
    }

    /** A read: everything it completes is handed out at once. */
    method Feed(chunk: seq<Byte>) returns (lines: seq<seq<Byte>>)
      requires Valid() && Open() && emitted == LinesOf(seen)
      modifies this
      ensures Valid() && Open() && seen == old(seen) + chunk && emitted == LinesOf(seen) == old(emitted) + lines
    {
      MoreRead(leading, skipLF, buffer, seen, consumed, chunk);
      buffer, seen := buffer + chunk, seen + chunk;
      lines := [];
      while true
        invariant Valid() && Open() && seen == old(seen) + chunk && emitted == old(emitted) + lines
        decreases |buffer|
      {
        var token, ended := Scan(false);
        if token.None? {
          return;
        }
        lines := lines + [token.value];
      }
    }

    /** The end of the stream: a last line without a break is handed out as well. */
    method Finish() returns (lines: seq<seq<Byte>>)
      requires Valid()
      modifies this
      ensures seen == old(seen) && old(emitted) + lines == AllLines(seen)
    {
      lines := [];
      while true
        invariant Valid() && seen == old(seen) && emitted == old(emitted) + lines
        decreases |buffer|
      {
        ghost var ended;
        var token;
        token, ended := Scan(true);
        if token.None? {
          return;
        }
        lines := lines + [token.value];
        if buffer == [] {
          if !ended {
            WaitingHasNoLines(leading, skipLF, buffer, seen, consumed, true);
          }
          return;
        }
      }
    }
  }

  /** The lines of a whole stream: one that the end cuts short counts unless it is empty. */
  function AllLines(s: seq<Byte>): seq<seq<Byte>> {
    var rest := Unfinished(Normalize(StripBOM(s)));
    LinesOf(s) + if rest == [] then [] else [rest]
  }

  /** However a stream is cut into reads: after each read exactly the lines completed so far have
      been handed out, and after the last one the unfinished rest as well. */
  method ScanStream(chunks: seq<seq<Byte>>) returns (lines: seq<seq<Byte>>, ghost prompt: seq<seq<seq<Byte>>>)
    ensures Prompt(chunks, prompt, |chunks|)
    ensures lines == AllLines(Concat(chunks))
  {
    var scanner := new Scanner();
    NothingRead();
    lines, prompt := FeedAll(scanner, chunks);
    var more := scanner.Finish();
    lines := lines + more;
  }

  method FeedAll(scanner: Scanner, chunks: seq<seq<Byte>>)
    returns (lines: seq<seq<Byte>>, ghost prompt: seq<seq<seq<Byte>>>)
    requires scanner.Valid() && scanner.Open() && scanner.seen == [] && scanner.emitted == LinesOf(scanner.seen) == []
    modifies scanner
    ensures scanner.Valid() && scanner.seen == Concat(chunks) && scanner.emitted == lines
    ensures Prompt(chunks, prompt, |chunks|)
  {
    lines, prompt := [], [];
    var i := 0;
    while i < |chunks|
      invariant 0 <= i <= |chunks| && Prompt(chunks, prompt, i)
      invariant scanner.Valid() && scanner.Open() && scanner.seen == Concat(chunks[..i])
      invariant lines == scanner.emitted == LinesOf(scanner.seen)
    {
      ConcatNext(chunks, i);
      var more := scanner.Feed(chunks[i]);
      lines := lines + more;
      PromptNext(chunks, prompt, i, lines);
      prompt := prompt + [lines];
      i := i + 1;
    }
    assert chunks[..i] == chunks;
  }

  lemma PromptNext(chunks: seq<seq<Byte>>, prompt: seq<seq<seq<Byte>>>, i: nat, lines: seq<seq<Byte>>)
    requires i < |chunks| && Prompt(chunks, prompt, i) && lines == LinesOf(Concat(chunks[..i + 1]))
    ensures Prompt(chunks, prompt + [lines], i + 1)
  {
  }

  /** After each of the first `n` reads, exactly the lines of the text so far. */
  predicate Prompt(chunks: seq<seq<Byte>>, prompt: seq<seq<seq<Byte>>>, n: nat)
    requires n <= |chunks|
  {
    |prompt| == n && forall i :: 0 <= i < n ==> prompt[i] == LinesSoFar(chunks, i + 1)
  }

  function LinesSoFar(chunks: seq<seq<Byte>>, n: nat): seq<seq<Byte>>
    requires n <= |chunks|
  {
    LinesOf(Concat(chunks[..n]))
  }

  lemma NothingRead()
    ensures LinesOf([]) == []
  {
  }

  lemma ConcatNext(chunks: seq<seq<Byte>>, i: nat)
    requires i < |chunks|
    ensures Concat(chunks[..i + 1]) == Concat(chunks[..i]) + chunks[i]
  {
    assert chunks[..i + 1][..i] == chunks[..i];
  }

  function Concat(chunks: seq<seq<Byte>>): seq<Byte> {
    if chunks == [] then [] else Concat(chunks[..|chunks| - 1]) + chunks[|chunks| - 1]
  }

  // ------------------------------------------------------------------------
  // What the scanner keeps
  // ------------------------------------------------------------------------

  predicate Decided(seen: seq<Byte>) {
    !MayBecomeBOM(seen)
  }

  /** Everything consumed ends with a line break, or nothing was; and the LF of a CRLF that was cut
      apart is still expected, unless something else has come. */
  predicate Holds(leading: bool, skipLF: bool, buffer: seq<Byte>, seen: seq<Byte>, consumed: seq<Byte>) {
    if leading then consumed == [] && buffer == seen && !skipLF
    else
      && StripBOM(seen) == consumed + buffer && Ended(consumed)
      && (skipLF ==> EndsInCR(consumed))
      && (EndsInCR(consumed) && !skipLF ==> buffer != [] && buffer[0] != LF)
  }

  lemma MoreRead(leading: bool, skipLF: bool, buffer: seq<Byte>, seen: seq<Byte>, consumed: seq<Byte>, chunk: seq<Byte>)
    requires Holds(leading, skipLF, buffer, seen, consumed) && (leading || Decided(seen))
    ensures Holds(leading, skipLF, buffer + chunk, seen + chunk, consumed)
    ensures leading || Decided(seen + chunk)
  {
    if !leading {
      assert HasBOM(seen + chunk) <==> HasBOM(seen);
      assert HasBOM(seen) ==> (seen + chunk)[3..] == seen[3..] + chunk;
      SameConcat(consumed, buffer, chunk);
    }
  }

  lemma WaitingHasNoLines(led: bool, was: bool, data: seq<Byte>, seen: seq<Byte>, consumed: seq<Byte>, atEOF: bool)
    requires Holds(led, was, data, seen, consumed) && Waits(led, data, atEOF)
    ensures LinesOf(seen) == Lines(Normalize(consumed))
    ensures atEOF ==> AllLines(seen) == Lines(Normalize(consumed))
  {
    NoMoreLines(consumed, []);
    assert consumed + [] == consumed;
    if led && data != [] {
      NoMoreLines([], seen);
      assert [] + seen == seen;
    } else if led {
      assert StripBOM(seen) == [];
    }
  }

  /** What one split does to the text consumed so far. */
  ghost predicate SplitEffect(cut: Cut, data: seq<Byte>, seen: seq<Byte>, consumed: seq<Byte>, after: seq<Byte>,
        atEOF: bool, ended: bool) {
    var lines := Lines(Normalize(consumed));
    && !cut.leading && cut.advance <= |data|
    && (!ended ==> Holds(false, cut.skipLF, data[cut.advance..], seen, after))
    && (cut.token.None? ==> !ended && Lines(Normalize(after)) == lines == LinesOf(seen))
    && (cut.token.None? && atEOF ==> AllLines(seen) == lines)
    && (cut.token.Some? && !ended ==> cut.advance > 0 && Lines(Normalize(after)) == lines + [cut.token.value])
    && (ended ==>
      atEOF && cut.token.Some? && lines == LinesOf(seen) && AllLines(seen) == lines + [cut.token.value] &&
        cut.advance == |data|)
  }

  /** What is known of the text when the split goes to work on it. */
  predicate Ready(was: bool, text: seq<Byte>, seen: seq<Byte>, consumed: seq<Byte>) {
    && StripBOM(seen) == consumed + text && Ended(consumed)
    && (was ==> EndsInCR(consumed))
    && (EndsInCR(consumed) && !was ==> text != [] && text[0] != LF)
  }

  lemma HoldsIsReady(led: bool, was: bool, data: seq<Byte>, seen: seq<Byte>, consumed: seq<Byte>)
    requires Holds(led, was, data, seen, consumed)
    ensures Ready(was, data[BomLength(led, data)..], seen, consumed)
  {
  }

  lemma Advances(led: bool, was: bool, data: seq<Byte>, seen: seq<Byte>, consumed: seq<Byte>, atEOF: bool, cut: Cut)
    requires Holds(led, was, data, seen, consumed) && !Waits(led, data, atEOF) && IsSplit(led, was, data, atEOF, cut)
    ensures BomLength(led, data) <= cut.advance <= |data|
    ensures SplitEffect(cut, data, seen, consumed, consumed + data[BomLength(led, data)..cut.advance], atEOF,
      TakesRest(led, was, data, cut.token))
  {
    HoldsIsReady(led, was, data, seen, consumed);
    var bom, n := BomLength(led, data), SettleLength(led, was, data);
    if cut.token.Some? && |cut.token.value| < |data| - n {
      AdvancesOverLine(was, data, bom, n, seen, consumed, atEOF, cut);
    } else {
      RestIsPlain(led, was, data, atEOF, cut);
      AdvancesOverRest(was, data, bom, n, seen, consumed, atEOF, cut);
    }
  }

  lemma RestIsPlain(led: bool, was: bool, data: seq<Byte>, atEOF: bool, cut: Cut)
    requires !Waits(led, data, atEOF) && IsSplit(led, was, data, atEOF, cut)
    requires cut.token.None? || |cut.token.value| == |data| - SettleLength(led, was, data)
    ensures NoBreak(data[SettleLength(led, was, data)..])
    ensures cut.token.Some? ==> cut.token.value == data[SettleLength(led, was, data)..]
  {
  }

  lemma DecidedBySplit(led: bool, was: bool, data: seq<Byte>, seen: seq<Byte>, consumed: seq<Byte>)
    requires Holds(led, was, data, seen, consumed) && !Waits(led, data, false)
    ensures led ==> Decided(seen)
  {
  }

  lemma AdvancesOverLine(was: bool, data: seq<Byte>, bom: nat, n: nat, seen: seq<Byte>, consumed: seq<Byte>,
        atEOF: bool, cut: Cut)
    requires bom <= |data| && Ready(was, data[bom..], seen, consumed) && n == bom + SkipLength(was, data[bom..])
    requires cut.token.Some? && NoBreak(cut.token.value) && !cut.leading
    requires n + |cut.token.value| < |data| && cut.token.value == data[n..n + |cut.token.value|]
    requires IsBreak(data[n + |cut.token.value|]) && cut.advance == n + |cut.token.value| + 1
    requires cut.skipLF <==> data[cut.advance - 1] == CR
    ensures SplitEffect(cut, data, seen, consumed, consumed + data[bom..cut.advance], atEOF, false)
  {
    var skip, line, end, tail, taken := data[bom..n], cut.token.value, data[cut.advance - 1], data[cut.advance..],
      data[bom..cut.advance];
    Pieces(data, bom, n, |line|);
    SkipIsLF(was, data, bom, n);
    LineTaken(was, seen, consumed, skip, line, end, tail, taken);
    EffectOfLine(cut, data, seen, consumed, consumed + taken, atEOF);
  }

  lemma SkipIsLF(was: bool, data: seq<Byte>, bom: nat, n: nat)
    requires bom <= |data| && n == bom + SkipLength(was, data[bom..])
    ensures data[bom..n] == [] || (data[bom..n] == [LF] && was)
  {
  }

  lemma EffectOfLine(cut: Cut, data: seq<Byte>, seen: seq<Byte>, consumed: seq<Byte>, after: seq<Byte>, atEOF: bool)
    requires 0 < cut.advance <= |data| && !cut.leading && cut.token.Some?
    requires Holds(false, cut.skipLF, data[cut.advance..], seen, after)
    requires Lines(Normalize(after)) == Lines(Normalize(consumed)) + [cut.token.value]
    ensures SplitEffect(cut, data, seen, consumed, after, atEOF, false)
  {
  }

  lemma AdvancesOverRest(was: bool, data: seq<Byte>, bom: nat, n: nat, seen: seq<Byte>, consumed: seq<Byte>,
        atEOF: bool, cut: Cut)
    requires bom <= |data| && Ready(was, data[bom..], seen, consumed) && n == bom + SkipLength(was, data[bom..])
    requires NoBreak(data[n..]) && !cut.leading
    requires cut.token.None? ==>
      (data[n..] == [] || !atEOF) && cut.advance == n && (cut.skipLF <==> was && data[bom..] == [])
    requires cut.token.Some? ==> atEOF && cut.token.value == data[n..] != [] && cut.advance == |data|
    ensures SplitEffect(cut, data, seen, consumed, consumed + data[bom..cut.advance], atEOF, cut.token.Some?)
  {
    var skip, rest := data[bom..n], data[n..];
    assert data[bom..] == skip + rest;
    RestTaken(was, seen, consumed, skip, rest);
  }

  lemma Pieces(data: seq<Byte>, bom: nat, n: nat, i: nat)
    requires bom <= n <= |data| && n + i < |data|
    ensures data[bom..n + i + 1] == data[bom..n] + data[n..n + i] + [data[n + i]]
    ensures data[bom..] == data[bom..n + i + 1] + data[n + i + 1..]
  {
  }

  /** The last line of the stream, without a break. */
  predicate TakesRest(led: bool, was: bool, data: seq<Byte>, token: Option<seq<Byte>>) {
    token.Some? && |token.value| == |data| - SettleLength(led, was, data)
  }

  lemma LineTaken(was: bool, seen: seq<Byte>, consumed: seq<Byte>, skip: seq<Byte>, line: seq<Byte>, end: Byte,
        tail: seq<Byte>, taken: seq<Byte>)
    requires StripBOM(seen) == consumed + (taken + tail) && Ended(consumed)
    requires taken == skip + line + [end] && NoBreak(line) && (end == LF || end == CR)
    requires skip == [] || (skip == [LF] && was)
    requires was ==> EndsInCR(consumed)
    requires skip == [] && EndsInCR(consumed) ==> taken[0] != LF
    ensures Holds(false, end == CR, tail, seen, consumed + taken) &&
      Lines(Normalize(consumed + taken)) == Lines(Normalize(consumed)) + [line]
  {
    SameConcat(consumed, skip, line + [end]);
    assert taken == skip + (line + [end]);
    OneMoreLine(consumed, skip, line, end);
    AfterBreak(seen, consumed, taken, end, tail);
  }

  lemma SameConcat(a: seq<Byte>, b: seq<Byte>, c: seq<Byte>)
    ensures a + (b + c) == a + b + c
  {
  }

  lemma AfterBreak(seen: seq<Byte>, consumed: seq<Byte>, taken: seq<Byte>, end: Byte, tail: seq<Byte>)
    requires StripBOM(seen) == consumed + (taken + tail) && taken != [] && taken[|taken| - 1] == end &&
      (end == LF || end == CR)
    ensures Holds(false, end == CR, tail, seen, consumed + taken)
  {
    SameConcat(consumed, taken, tail);
    assert (consumed + taken)[|consumed + taken| - 1] == end;
  }

  lemma RestTaken(was: bool, seen: seq<Byte>, consumed: seq<Byte>, skip: seq<Byte>, rest: seq<Byte>)
    requires StripBOM(seen) == consumed + (skip + rest) && Ended(consumed) && NoBreak(rest)
    requires skip == [] || (skip == [LF] && was)
    requires was ==> EndsInCR(consumed)
    requires skip == [] && EndsInCR(consumed) && rest != [] ==> rest[0] != LF
    ensures Lines(Normalize(consumed + skip)) == Lines(Normalize(consumed)) == LinesOf(seen)
    ensures Unfinished(Normalize(StripBOM(seen))) == rest
    ensures StripBOM(seen) == (consumed + skip) + rest && Ended(consumed + skip)
    ensures EndsInCR(consumed + skip) <==> EndsInCR(consumed) && skip == []
  {
    SkippedLF(consumed, skip);
    assert skip == [] ==> consumed + skip == consumed;
    assert consumed + (skip + rest) == (consumed + skip) + rest;
    NoMoreLines(consumed + skip, rest);
  }

  // ------------------------------------------------------------------------
  // The split function
  // ------------------------------------------------------------------------

  datatype Cut = Cut(advance: nat, token: Option<seq<Byte>>, leading: bool, skipLF: bool)

  /** More is needed to tell a byte order mark from text. */
  predicate Waits(leading: bool, data: seq<Byte>, atEOF: bool) {
    data == [] || (leading && MayBecomeBOM(data) && !atEOF)
  }

  function BomLength(leading: bool, data: seq<Byte>): (n: nat)
    ensures n <= |data|
  {
    if leading && HasBOM(data) then 3 else 0
  }

  function SkipLength(skipLF: bool, data: seq<Byte>): (n: nat)
    ensures n <= |data|
  {
    if skipLF && data != [] && data[0] == LF then 1 else 0
  }

  function SettleLength(leading: bool, skipLF: bool, data: seq<Byte>): (n: nat)
    ensures BomLength(leading, data) <= n <= |data|
  {
    var bom := BomLength(leading, data);
    bom + SkipLength(skipLF, data[bom..])
  }

  /** A split consumes the byte order mark and the LF of a CRLF cut apart, and after them a line with
      its break if there is one; at the end of the stream the rest is a line. */
  predicate IsSplit(leading: bool, skipLF: bool, data: seq<Byte>, atEOF: bool, cut: Cut) {
    if Waits(leading, data, atEOF) then cut == Cut(0, None, leading, skipLF)
    else
      var bom, n := BomLength(leading, data), SettleLength(leading, skipLF, data);
      !cut.leading &&
      match cut.token
      case None =>
        NoBreak(data[n..]) && (data[n..] == [] || !atEOF) && cut.advance == n &&
          (cut.skipLF <==> skipLF && data[bom..] == [])
      case Some(line) =>
        && n + |line| <= |data| && line == data[n..n + |line|] && NoBreak(line)
        && if n + |line| < |data|
           then IsBreak(data[n + |line|]) && cut.advance == n + |line| + 1 && (cut.skipLF <==> data[n + |line|] == CR)
           else atEOF && line != [] && cut.advance == |data|
  }
}
