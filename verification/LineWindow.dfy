/** `readLineWindow` of extensions/builtin-tools/src/lines.ts: streaming a text in chunks gives the window that
    splitting the whole text would give. */
module LineWindow {
  import opened Outcomes
  import opened SourceText

  const COUNT_TOTAL_BYTES := 16 * 1024 * 1024

  // ----- The window of a whole text

  function Cut(line: string, keep: nat): (cut: string)
    ensures |cut| <= keep
  {
    if |line| <= keep then line else line[..keep]
  }

  /** The lines the reader counts: an unfinished last line of which nothing is kept is not noticed. */
  function Counted(text: string, keep: nat): seq<string> {
    var parts := SplitOnNewline(text);
    if Cut(parts[|parts| - 1], keep) == "" then parts[..|parts| - 1] else parts
  }

  /** With at least one character kept, every line is counted; with none, exactly an unfinished last line is missed. */
  lemma {:induction false} EveryLineIsCounted(text: string, keep: nat)
    ensures Counted(text, keep) == AllLines(text) <==> keep >= 1 || text == "" || text[|text| - 1] == '\n'
  {
    LastPartEmpty(text);
    var parts := SplitOnNewline(text);
    assert parts[..|parts| - 1] != parts;
  }

  lemma {:induction false} LastPartEmpty(text: string)
    ensures SplitOnNewline(text)[|SplitOnNewline(text)| - 1] == "" <==> text == "" || text[|text| - 1] == '\n'
  {
    if text != "" {
      LastPartEmpty(text[1..]);
      assert |text| > 1 ==> text[1..][|text| - 2] == text[|text| - 1];
    }
  }

  /** A line as it is shown: cut, then without one trailing carriage return. */
  function Shown(line: string, keep: nat): string { DropCr(Cut(line, keep)) }

  /** Lines number `start` to `last` of some lines, as shown. */
  function Window(lines: seq<string>, start: nat, last: int, keep: nat): seq<string> {
    if lines == [] then []
    else
      var n := |lines|;
      Window(lines[..n - 1], start, last, keep) + if start <= n <= last then [Shown(lines[n - 1], keep)] else []
  }

  /** The window is a slice of the shown lines, and never longer than asked for. */
  lemma {:induction false} WindowIsSlice(lines: seq<string>, start: nat, last: int, keep: nat)
    requires 1 <= start
    ensures var low := if start - 1 < |lines| then start - 1 else |lines|;
            var high := if last < low then low else if last < |lines| then last else |lines|;
            var w := Window(lines, start, last, keep);
            |w| == high - low && forall k | 0 <= k < |w| :: w[k] == Shown(lines[low + k], keep)
  {
    if lines != [] {
      WindowIsSlice(lines[..|lines| - 1], start, last, keep);
    }
  }

  lemma {:induction false} WindowIsShort(lines: seq<string>, start: nat, last: int, keep: nat)
    ensures var end := if last < |lines| then last else |lines|;
            |Window(lines, start, last, keep)| <= if end < start then 0 else end - start + 1
  {
    if lines != [] {
      WindowIsShort(lines[..|lines| - 1], start, last, keep);
    }
  }

  lemma {:induction false} WindowMore(lines: seq<string>, line: string, start: nat, last: int, keep: nat)
    ensures Window(lines + [line], start, last, keep) ==
              Window(lines, start, last, keep) + if start <= |lines| + 1 <= last then [Shown(line, keep)] else []
  {
    assert (lines + [line])[..|lines|] == lines;
  }

  /** Lines past the window do not change it. */
  lemma {:induction false} WindowEnds(lines: seq<string>, rest: seq<string>, start: nat, last: int, keep: nat)
    requires last <= |lines|
    ensures Window(lines + rest, start, last, keep) == Window(lines, start, last, keep)
  {
    if rest == [] {
      assert lines + rest == lines;
    } else {
      var n := |rest| - 1;
      assert lines + rest == lines + rest[..n] + [rest[n]];
      WindowMore(lines + rest[..n], rest[n], start, last, keep);
      WindowEnds(lines, rest[..n], start, last, keep);
    }
  }

  // ----- Cutting lines

  lemma {:induction false} CutLonger(line: string, piece: string, keep: nat)
    ensures Cut(line + piece, keep) == if |Cut(line, keep)| < keep then Cut(line, keep) + Cut(piece, keep - |Cut(line, keep)|) else Cut(line, keep)
  {
  }

  lemma {:induction false} CutIsPrefix(text: string, at: nat, stop: nat, room: nat)
    requires at <= stop <= |text|
    ensures Cut(text[at..stop], room) == text[at..if stop < at + room then stop else at + room]
  {
  }

  // ----- The reader

  /** What has arrived: its bytes count towards the limit, its text is decoded. */
  datatype Chunk = Chunk(bytes: nat, text: string)

  datatype ReadResult = Aborted | LineWindow(lines: seq<string>, total: Option<nat>, more: bool)

  function TextOf(chunks: seq<Chunk>): string { if chunks == [] then "" else TextOf(chunks[..|chunks| - 1]) + chunks[|chunks| - 1].text }

  function BytesOf(chunks: seq<Chunk>): nat { if chunks == [] then 0 else BytesOf(chunks[..|chunks| - 1]) + chunks[|chunks| - 1].bytes }

  /** The first `n` chunks end the reading: they are many bytes and hold complete lines past the window. */
  predicate Enough(chunks: seq<Chunk>, n: nat, last: int) {
    && 0 < n <= |chunks| && BytesOf(chunks[..n]) >= COUNT_TOTAL_BYTES
    && |SplitOnNewline(TextOf(chunks[..n]))| - 1 > (if last > 0 then last else 0)
  }

  predicate EnoughBy(chunks: seq<Chunk>, m: nat, last: int) { exists n | 0 <= n <= m :: Enough(chunks, n, last) }

  /** Complete lines are counted and kept, the rest is carried. */
  ghost predicate Holds(text: string, lines: seq<string>, lineNo: nat, more: bool, carry: string, start: nat, last: int, keep: nat) {
    var parts := SplitOnNewline(text);
    var full := parts[..|parts| - 1];
    && lineNo == |full| && more == (lineNo > 0 && lineNo > last)
    && carry == Cut(parts[|parts| - 1], keep)
    && lines == Window(full, start, last, keep)
  }

  lemma {:induction false} PieceHeld(text: string, piece: string, lines: seq<string>, lineNo: nat, more: bool, carry: string,
                                     start: nat, last: int, keep: nat)
    requires Holds(text, lines, lineNo, more, carry, start, last, keep) && '\n' !in piece
    ensures Holds(text + piece, lines, lineNo, more, if |carry| < keep then carry + Cut(piece, keep - |carry|) else carry, start, last, keep)
  {
    hide SplitOnNewline, Window;
    SplitLonger(text, piece);
    var p := SplitOnNewline(text);
    CutLonger(p[|p| - 1], piece, keep);
    assert SplitOnNewline(text + piece)[..|p| - 1] == p[..|p| - 1];
  }

  lemma {:induction false} BreakHeld(text: string, lines: seq<string>, lineNo: nat, more: bool, carry: string, start: nat, last: int, keep: nat)
    requires Holds(text, lines, lineNo, more, carry, start, last, keep)
    ensures Holds(text + "\n", lines + (if start <= lineNo + 1 <= last then [DropCr(carry)] else []), lineNo + 1, more || lineNo + 1 > last, "",
                  start, last, keep)
  {
    hide SplitOnNewline, Window;
    SplitBreak(text);
    var p := SplitOnNewline(text);
    WindowMore(p[..|p| - 1], p[|p| - 1], start, last, keep);
    assert SplitOnNewline(text + "\n")[..|p|] == p && p == p[..|p| - 1] + [p[|p| - 1]];
  }

  lemma {:induction false} CarryIsShort(text: string, lines: seq<string>, lineNo: nat, more: bool, carry: string, start: nat, last: int, keep: nat)
    requires Holds(text, lines, lineNo, more, carry, start, last, keep)
    ensures |carry| <= keep
  {
  }

  /** The closures of `readLineWindow` and the variables they share. */
  class Reader {
    const start: nat
    const last: int
    const keep: nat
    var lines: seq<string>
    var lineNo: nat
    var more: bool
    var carry: string

    constructor (start: nat, last: int, keep: nat)
      ensures this.start == start && this.last == last && this.keep == keep && Has("")
    {
      this.start, this.last, this.keep := start, last, keep;
      lines, lineNo, more, carry := [], 0, false, "";
    }

    /** The reader has taken in exactly `text`: complete lines are counted and kept, the rest is carried. */
    ghost predicate Has(text: string)
      reads this
    {
      Holds(text, lines, lineNo, more, carry, start, last, keep)
    }

    method Emit(line: string)
      modifies this
      ensures lineNo == old(lineNo) + 1 && carry == old(carry)
      ensures more == (old(more) || lineNo > last)
      ensures lines == old(lines) + if start <= lineNo <= last then [DropCr(line)] else []
    {
      lineNo := lineNo + 1;
      if lineNo > last {
        more := true;
      } else if lineNo >= start {
        lines := lines + [DropCr(line)];
      }
    }

    /** `feed`: takes in one piece of text, holding at most `keep` characters of an unfinished line. */
    method Feed(text: string, ghost before: string)
      requires Has(before)
      modifies this
      ensures Has(before + text) && |carry| <= keep
    {
      hide Holds;
      var at := 0;
      assert before + text[..0] == before;
      while true
        invariant 0 <= at <= |text| && Has(before + text[..at])
        decreases |text| - at
      {
        var nl := IndexOfBreak(text, at);
        var stop := if nl.None? then |text| else nl.value;
        var piece := text[at..stop];
        PieceHeld(before + text[..at], piece, lines, lineNo, more, carry, start, last, keep);
        assert before + text[..at] + piece == before + text[..stop];
        if |carry| < keep {
          CutIsPrefix(text, at, stop, keep - |carry|);
        }
        ghost var grown := if |carry| < keep then carry + Cut(piece, keep - |carry|) else carry;
        if |carry| < keep {
          carry := carry + text[at..if stop < at + keep - |carry| then stop else at + keep - |carry|];
        }
        assert carry == grown;
        if nl.None? {
          assert before + text[..stop] == before + text;
          CarryIsShort(before + text, lines, lineNo, more, carry, start, last, keep);
          return;
        }
        BreakHeld(before + text[..stop], lines, lineNo, more, carry, start, last, keep);
        assert before + text[..stop] + "\n" == before + text[..stop + 1];
        Emit(carry);
        carry := "";
        at := stop + 1;
      }
    }
  }

  lemma {:induction false} AllOrLess(text: string, keep: nat)
    ensures var parts := SplitOnNewline(text);
            Counted(text, keep) == parts[..|parts| - 1] + if Cut(parts[|parts| - 1], keep) == "" then [] else [parts[|parts| - 1]]
  {
    var parts := SplitOnNewline(text);
    assert parts == parts[..|parts| - 1] + [parts[|parts| - 1]];
  }

  /** The rest of a text only adds lines after the complete ones. */
  lemma {:induction false} CompleteStay(text: string, rest: string, keep: nat)
    ensures var full := SplitOnNewline(text)[..|SplitOnNewline(text)| - 1];
            |full| <= |Counted(text + rest, keep)| && Counted(text + rest, keep)[..|full|] == full
  {
    SplitConcat(text, rest);
    AllOrLess(text + rest, keep);
    var p, q := SplitOnNewline(text), SplitOnNewline(rest);
    var whole := SplitOnNewline(text + rest);
    assert whole[..|p| - 1] == p[..|p| - 1];
  }

  /** A reader past its window holds the window of every text that goes on from here. */
  lemma {:induction false} WindowIsFinal(text: string, rest: string, lines: seq<string>, lineNo: nat, carry: string, start: nat, last: int, keep: nat)
    requires Holds(text, lines, lineNo, true, carry, start, last, keep)
    ensures lines == Window(Counted(text + rest, keep), start, last, keep) && |Counted(text + rest, keep)| > last && |Counted(text + rest, keep)| > 0
  {
    CompleteStay(text, rest, keep);
    var full := SplitOnNewline(text)[..|SplitOnNewline(text)| - 1];
    var all := Counted(text + rest, keep);
    assert all == full + all[|full|..];
    WindowEnds(full, all[|full|..], start, last, keep);
  }

  /** The last line counts when it is not empty. */
  lemma {:induction false} EndHeld(text: string, lines: seq<string>, lineNo: nat, more: bool, carry: string, start: nat, last: int, keep: nat)
    requires Holds(text, lines, lineNo, more, carry, start, last, keep)
    ensures var extra := carry != "";
            && |Counted(text, keep)| == lineNo + (if extra then 1 else 0)
            && Window(Counted(text, keep), start, last, keep) == lines + if extra && start <= lineNo + 1 <= last then [DropCr(carry)] else []
  {
    AllOrLess(text, keep);
    var p := SplitOnNewline(text);
    WindowMore(p[..|p| - 1], p[|p| - 1], start, last, keep);
    assert p[..|p| - 1] + [] == p[..|p| - 1];
    hide Window, SplitOnNewline;
  }

  lemma {:induction false} TextUpTo(chunks: seq<Chunk>, n: nat)
    requires n < |chunks|
    ensures TextOf(chunks[..n + 1]) == TextOf(chunks[..n]) + chunks[n].text
    ensures BytesOf(chunks[..n + 1]) == BytesOf(chunks[..n]) + chunks[n].bytes
  {
    assert chunks[..n + 1][..n] == chunks[..n];
  }

  /** The text after the first chunks. */
  lemma {:induction false} TextSplits(chunks: seq<Chunk>, n: nat) returns (rest: string)
    requires n <= |chunks|
    ensures TextOf(chunks) == TextOf(chunks[..n]) + rest && BytesOf(chunks[..n]) <= BytesOf(chunks)
    decreases |chunks| - n
  {
    if n == |chunks| {
      assert chunks[..n] == chunks;
      rest := "";
    } else {
      TextUpTo(chunks, n);
      var more := TextSplits(chunks, n + 1);
      rest := chunks[n].text + more;
      assert TextOf(chunks[..n]) + chunks[n].text + more == TextOf(chunks[..n]) + rest;
    }
  }

  /** `readLineWindow` once the file is known to be text: `tail` is what the decoder gives at the end, and the
      signal is found aborted before chunk `abortedAt`, if at all. However the text is chunked, the lines are
      those of the whole text; the total is left out exactly when a large file is past the window before its end,
      and an abort counts unless it comes after that. */
  method ReadLineWindow(chunks: seq<Chunk>, tail: string, start: nat, count: nat, keep: nat, abortedAt: Option<nat>) returns (r: ReadResult)
    ensures r.Aborted? <==>
              && abortedAt.Some? && abortedAt.value <= |chunks|
              && !EnoughBy(chunks, abortedAt.value, start + count - 1)
    ensures r.LineWindow? ==> (r.total.None? <==> EnoughBy(chunks, |chunks|, start + count - 1))
    ensures r.LineWindow? ==>
              var all := Counted(TextOf(chunks) + tail, keep);
              var last := start + count - 1;
              && r.lines == Window(all, start, last, keep) && |r.lines| <= count && r.more == (|all| > 0 && |all| > last)
              && match r.total
                 case Some(total) => total == |all|
                 case None => r.more && BytesOf(chunks) >= COUNT_TOTAL_BYTES
  {
    var last := start + count - 1;
    WindowIsShort(Counted(TextOf(chunks) + tail, keep), start, last, keep);
    var reader := new Reader(start, last, keep);
    var consumed := 0;
    hide Holds, Window, Counted, SplitOnNewline, Cut, Enough, EnoughBy, TextOf, BytesOf;
    NothingArrived(chunks);
    NotYet(chunks, last);
    for n := 0 to |chunks|
      invariant fresh(reader) && reader.start == start && reader.last == last && reader.keep == keep
      invariant reader.Has(TextOf(chunks[..n])) && consumed == BytesOf(chunks[..n])
      invariant !EnoughBy(chunks, n, last) && (abortedAt.Some? ==> n <= abortedAt.value)
    {
      if abortedAt == Some(n) {
        return Aborted;
      }
      consumed := consumed + chunks[n].bytes;
      TextUpTo(chunks, n);
      reader.Feed(chunks[n].text, TextOf(chunks[..n]));
      EnoughIsMore(chunks, n + 1, reader.lines, reader.lineNo, reader.more, reader.carry, start, last, keep);
      EnoughByOneMore(chunks, n, last);
      if reader.more && consumed >= COUNT_TOTAL_BYTES {
        EnoughStays(chunks, n + 1, |chunks|, last);
        if abortedAt.Some? {
          EnoughStays(chunks, n + 1, abortedAt.value, last);
        }
        ghost var rest := TextSplits(chunks, n + 1);
        WindowIsFinal(TextOf(chunks[..n + 1]), rest + tail, reader.lines, reader.lineNo, reader.carry, start, last, keep);
        assert TextOf(chunks[..n + 1]) + (rest + tail) == TextOf(chunks) + tail;
        return LineWindow(reader.lines, None, reader.more);
      }
    }
    if abortedAt == Some(|chunks|) {
      return Aborted;
    }
    assert chunks[..|chunks|] == chunks;
    reader.Feed(tail, TextOf(chunks));
    EndHeld(TextOf(chunks) + tail, reader.lines, reader.lineNo, reader.more, reader.carry, start, last, keep);
    MoreHeld(TextOf(chunks) + tail, reader.lines, reader.lineNo, reader.more, reader.carry, start, last, keep);
    if reader.carry != "" {
      reader.Emit(reader.carry);
    }
    r := LineWindow(reader.lines, Some(reader.lineNo), reader.more);
  }

  lemma {:induction false} NothingArrived(chunks: seq<Chunk>)
    ensures TextOf(chunks[..0]) == "" && BytesOf(chunks[..0]) == 0
  {
  }

  lemma {:induction false} NotYet(chunks: seq<Chunk>, last: int)
    ensures !EnoughBy(chunks, 0, last)
  {
  }

  lemma {:induction false} EnoughByOneMore(chunks: seq<Chunk>, n: nat, last: int)
    ensures EnoughBy(chunks, n + 1, last) <==> EnoughBy(chunks, n, last) || Enough(chunks, n + 1, last)
  {
    hide Enough;
  }

  lemma {:induction false} EnoughStays(chunks: seq<Chunk>, n: nat, m: nat, last: int)
    requires n <= m
    ensures EnoughBy(chunks, n, last) ==> EnoughBy(chunks, m, last)
  {
    hide Enough;
  }

  lemma {:induction false} EnoughIsMore(chunks: seq<Chunk>, n: nat, lines: seq<string>, lineNo: nat, more: bool, carry: string,
                                        start: nat, last: int, keep: nat)
    requires 0 < n <= |chunks| && Holds(TextOf(chunks[..n]), lines, lineNo, more, carry, start, last, keep)
    ensures Enough(chunks, n, last) <==> more && BytesOf(chunks[..n]) >= COUNT_TOTAL_BYTES
  {
    hide Window, Cut, TextOf, BytesOf;
  }

  lemma {:induction false} MoreHeld(text: string, lines: seq<string>, lineNo: nat, more: bool, carry: string, start: nat, last: int, keep: nat)
    requires Holds(text, lines, lineNo, more, carry, start, last, keep)
    ensures more == (lineNo > 0 && lineNo > last)
  {
  }
}
