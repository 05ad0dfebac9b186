/** Lines of a text: `splitLines` of extensions/builtin-tools/src/diff.ts, `sourceLines` and the line
    transforms of extensions/builtin-tools/src/patch-format.ts. */
module SourceText {
  import opened Outcomes

  predicate IsBreak(c: char) { c == '\r' || c == '\n' }

  predicate CrFree(text: string) { '\r' !in text }

  predicate EndsInBreak(text: string) { text != "" && IsBreak(text[|text| - 1]) }

  // ----- Lines without endings

  function SplitOnNewline(text: string): (parts: seq<string>)
    ensures parts != []
  {
    if text == "" then [""]
    else
      var rest := SplitOnNewline(text[1..]);
      if text[0] == '\n' then [""] + rest else [[text[0]] + rest[0]] + rest[1..]
  }

  function DropCr(line: string): string {
    if line != "" && line[|line| - 1] == '\r' then line[..|line| - 1] else line
  }

  function DropCrs(lines: seq<string>): (r: seq<string>)
    ensures |r| == |lines|
  {
    seq(|lines|, i requires 0 <= i < |lines| => DropCr(lines[i]))
  }

  function DropLastEmpty(lines: seq<string>): seq<string> {
    if lines != [] && lines[|lines| - 1] == "" then lines[..|lines| - 1] else lines
  }

  /** Lines of a text without their line endings; a final line break does not start a line. */
  function SplitLines(text: string): seq<string> {
    if text == "" then [] else DropLastEmpty(DropCrs(SplitOnNewline(text)))
  }

  // ----- Lines with endings

  datatype SourceLine = SourceLine(text: string, eol: string)

  /** Where the first line of a text ends. */
  function FirstBreak(text: string): (k: nat)
    ensures k <= |text| && (k < |text| ==> IsBreak(text[k]))
    ensures forall i | 0 <= i < k :: !IsBreak(text[i])
  {
    if text == "" || IsBreak(text[0]) then 0 else 1 + FirstBreak(text[1..])
  }

  /** How long the line break at the start of a text is. */
  function BreakLength(text: string): (n: nat)
    ensures n <= |text|
  {
    if text == "" then 0
    else if text[0] == '\r' && |text| > 1 && text[1] == '\n' then 2
    else if IsBreak(text[0]) then 1
    else 0
  }

  function SourceLines(text: string): (lines: seq<SourceLine>)
    decreases |text|
  {
    if text == "" then []
    else
      var k := FirstBreak(text);
      var n := BreakLength(text[k..]);
      [SourceLine(text[..k], text[k..k + n])] + SourceLines(text[k + n..])
  }

  function Join(lines: seq<SourceLine>): string {
    if lines == [] then "" else lines[0].text + lines[0].eol + Join(lines[1..])
  }

  function Texts(lines: seq<SourceLine>): (texts: seq<string>)
    ensures |texts| == |lines|
    ensures forall i | 0 <= i < |lines| :: texts[i] == lines[i].text
  {
    seq(|lines|, i requires 0 <= i < |lines| => lines[i].text)
  }

  lemma {:induction false} SplitInThree(text: string, k: nat, m: nat)
    requires k <= m <= |text|
    ensures text[..k] + text[k..m] + text[m..] == text
  {
  }

  lemma {:induction false} JoinCons(line: SourceLine, lines: seq<SourceLine>)
    ensures Join([line] + lines) == line.text + line.eol + Join(lines)
  {
    assert ([line] + lines)[1..] == lines;
  }

  /** Nothing of a text is lost when it is taken apart into lines. */
  lemma {:induction false} JoinSourceLines(text: string)
    ensures Join(SourceLines(text)) == text
    decreases |text|
  {
    if text != "" {
      var k := FirstBreak(text);
      var n := BreakLength(text[k..]);
      var line, rest := SourceLine(text[..k], text[k..k + n]), text[k + n..];
      JoinSourceLines(rest);
      calc {
        Join(SourceLines(text));
        Join([line] + SourceLines(rest));
        { JoinCons(line, SourceLines(rest)); }
        text[..k] + text[k..k + n] + rest;
        { SplitInThree(text, k, k + n); }
        text;
      }
    }
  }

  /** A text's lines hold no breaks, and only the last may lack its ending. */
  predicate Terminated(lines: seq<SourceLine>) {
    forall i | 0 <= i < |lines| - 1 :: lines[i].eol != ""
  }

  predicate IsEol(eol: string) { eol == "\n" || eol == "\r" || eol == "\r\n" }

  lemma {:induction false} FirstEol(text: string)
    requires text != ""
    ensures var k := FirstBreak(text);
            var n := BreakLength(text[k..]);
            && (n == 0 <==> k == |text|) && 0 < k + n
            && (text[k..k + n] == "" || IsEol(text[k..k + n]))
            && (k + n == |text| ==> (n == 0 <==> !EndsInBreak(text)))
            && (k + n < |text| ==> (EndsInBreak(text) <==> EndsInBreak(text[k + n..])))
  {
    var k := FirstBreak(text);
    var n := BreakLength(text[k..]);
    if k < |text| {
      assert text[k..k + n] == if n == 2 then "\r\n" else [text[k]];
    }
  }

  lemma {:induction false} SourceLinesUnfold(text: string, k: nat, n: nat)
    requires text != "" && k == FirstBreak(text) && n == BreakLength(text[k..])
    ensures SourceLines(text) == [SourceLine(text[..k], text[k..k + n])] + SourceLines(text[k + n..])
  {
  }

  predicate GoodEols(lines: seq<SourceLine>) {
    forall i | 0 <= i < |lines| :: lines[i].eol == "" || IsEol(lines[i].eol)
  }

  /** Good endings, missing at most from the last line, and missing there unless the text `ends` in a break. */
  predicate WellEnded(lines: seq<SourceLine>, ends: bool) {
    && Terminated(lines) && GoodEols(lines)
    && (lines != [] ==> (lines[|lines| - 1].eol != "" <==> ends))
  }

  lemma {:induction false} WellEndedCons(line: SourceLine, rest: seq<SourceLine>, ends: bool)
    requires WellEnded(rest, ends) && (line.eol == "" || IsEol(line.eol)) && (line.eol == "" ==> rest == [])
    ensures WellEnded([line] + rest, if rest == [] then line.eol != "" else ends)
  {
  }

  /** Only the last line of a text may lack its ending, and it does just when the text does. */
  lemma {:induction false} SourceLinesShape(text: string)
    ensures SourceLines(text) == [] <==> text == ""
    ensures WellEnded(SourceLines(text), EndsInBreak(text))
    decreases |text|
  {
    if text != "" {
      FirstEol(text);
      var k := FirstBreak(text);
      var n := BreakLength(text[k..]);
      var rest := text[k + n..];
      SourceLinesShape(rest);
      WellEndedCons(SourceLine(text[..k], text[k..k + n]), SourceLines(rest), EndsInBreak(rest));
      SourceLinesUnfold(text, k, n);
    }
  }

  lemma {:induction false} JoinConcat(p: seq<SourceLine>, q: seq<SourceLine>)
    ensures Join(p + q) == Join(p) + Join(q)
  {
    if p == [] {
      assert p + q == q;
    } else {
      assert (p + q)[1..] == p[1..] + q;
      JoinConcat(p[1..], q);
    }
  }

  // ----- The two notions of line agree on texts without carriage returns

  lemma {:induction false} SplitAtBreak(text: string)
    requires CrFree(text)
    ensures var k := FirstBreak(text);
            SplitOnNewline(text) == if k == |text| then [text] else [text[..k]] + SplitOnNewline(text[k + 1..])
  {
    if text != "" && text[0] != '\n' {
      SplitAtBreak(text[1..]);
      var k := FirstBreak(text[1..]);
      assert text[1..][k..] == text[k + 1..];
      assert [text[0]] + text[1..][..k] == text[..k + 1];
      if k < |text[1..]| {
        assert text[1..][k + 1..] == text[k + 2..];
      } else {
        assert [text[0]] + text[1..] == text;
      }
    }
  }

  lemma {:induction false} SplitKeepsCrFree(text: string)
    requires CrFree(text)
    ensures DropCrs(SplitOnNewline(text)) == SplitOnNewline(text)
    ensures forall i | 0 <= i < |SplitOnNewline(text)| :: CrFree(SplitOnNewline(text)[i])
  {
    if text != "" {
      SplitKeepsCrFree(text[1..]);
      assert text[0] in text;
    }
  }

  lemma {:induction false} SplitLinesPlain(text: string)
    requires CrFree(text)
    ensures SplitLines(text) == DropLastEmpty(SplitOnNewline(text))
  {
    SplitKeepsCrFree(text);
  }

  lemma {:induction false} DropLastEmptyCons(line: string, rest: seq<string>)
    requires rest != []
    ensures DropLastEmpty([line] + rest) == [line] + DropLastEmpty(rest)
  {
  }

  lemma {:induction false} SplitNotEmpty(text: string)
    ensures SplitOnNewline(text) != []
  {
  }

  lemma {:induction false} SplitLinesFirst(text: string, k: nat)
    requires CrFree(text) && k == FirstBreak(text) < |text|
    ensures SplitLines(text) == [text[..k]] + SplitLines(text[k + 1..])
  {
    hide SplitLines, SplitOnNewline, DropLastEmpty;
    SplitNotEmpty(text[k + 1..]);
    SplitAtBreak(text);
    SplitLinesPlain(text);
    SplitLinesPlain(text[k + 1..]);
    DropLastEmptyCons(text[..k], SplitOnNewline(text[k + 1..]));
  }

  lemma {:induction false} SplitLinesLast(text: string)
    requires CrFree(text) && text != "" && FirstBreak(text) == |text|
    ensures SplitLines(text) == [text]
  {
    SplitAtBreak(text);
    SplitLinesPlain(text);
  }

  lemma {:induction false} NewlineBreak(s: string)
    requires s != "" && s[0] == '\n'
    ensures BreakLength(s) == 1
  {
  }

  lemma {:induction false} BreakIsNewline(text: string, k: nat)
    requires CrFree(text) && k < |text| && IsBreak(text[k])
    ensures text[k] == '\n' && BreakLength(text[k..]) == 1 && text[k..k + 1] == "\n"
  {
    assert text[k] in text;
    NewlineBreak(text[k..]);
  }

  lemma {:induction false} SourceLinesFirst(text: string, k: nat)
    requires CrFree(text) && k == FirstBreak(text) < |text|
    ensures SourceLines(text) == [SourceLine(text[..k], "\n")] + SourceLines(text[k + 1..])
  {
    BreakIsNewline(text, k);
    SourceLinesUnfold(text, k, 1);
  }

  lemma {:induction false} SourceLinesLast(text: string)
    requires text != "" && FirstBreak(text) == |text|
    ensures SourceLines(text) == [SourceLine(text, "")]
  {
    var k := |text|;
    assert text[..k] == text && text[k..] == "" && text[k..k] == "";
    SourceLinesUnfold(text, k, 0);
    assert SourceLines("") == [];
  }

  /** Every line ends in a newline, except that the last need not. */
  predicate UnixLines(lines: seq<SourceLine>) {
    forall i | 0 <= i < |lines| :: lines[i].eol == "\n" || (lines[i].eol == "" && i == |lines| - 1)
  }

  lemma {:induction false} ConsLine(line: SourceLine, lines: seq<SourceLine>)
    ensures Texts([line] + lines) == [line.text] + Texts(lines)
    ensures UnixLines(lines) && (line.eol == "\n" || (line.eol == "" && lines == [])) ==> UnixLines([line] + lines)
  {
  }

  /** For a text without carriage returns: every ending is a newline, only the last may be missing, and
      the lines are those of `SplitLines`. */
  lemma {:induction false} SourceLinesAreSplitLines(text: string)
    requires CrFree(text)
    ensures Texts(SourceLines(text)) == SplitLines(text)
    ensures UnixLines(SourceLines(text))
    decreases |text|
  {
    if text != "" {
      var k := FirstBreak(text);
      if k < |text| {
        var line, rest := SourceLine(text[..k], "\n"), text[k + 1..];
        SourceLinesAreSplitLines(rest);
        ConsLine(line, SourceLines(rest));
        SourceLinesFirst(text, k);
        SplitLinesFirst(text, k);
      } else {
        ConsLine(SourceLine(text, ""), []);
        SourceLinesLast(text);
        SplitLinesLast(text);
      }
    }
  }

  // ----- Line transforms of the fuzzy match

  predicate IsSpace(c: char) {
    || '\U{9}' <= c <= '\U{d}' || c == ' ' || c == '\U{a0}' || c == '\U{1680}'
    || '\U{2000}' <= c <= '\U{200a}' || c == '\U{2028}' || c == '\U{2029}'
    || c == '\U{202f}' || c == '\U{205f}' || c == '\U{3000}' || c == '\U{feff}'
  }

  function TrimEnd(s: string): string {
    if s != "" && IsSpace(s[|s| - 1]) then TrimEnd(s[..|s| - 1]) else s
  }

  function TrimStart(s: string): string {
    if s != "" && IsSpace(s[0]) then TrimStart(s[1..]) else s
  }

  function Trim(s: string): string { TrimStart(TrimEnd(s)) }

  function PlainChar(c: char): char {
    if '\U{2010}' <= c <= '\U{2015}' || c == '\U{2212}' then '-'
    else if '\U{2018}' <= c <= '\U{201b}' then '\''
    else if '\U{201c}' <= c <= '\U{201f}' then '\"'
    else if c == '\U{a0}' || '\U{2002}' <= c <= '\U{200a}' || c == '\U{202f}' || c == '\U{205f}' || c == '\U{3000}' then ' '
    else c
  }

  function Plain(s: string): (r: string)
    ensures |r| == |s|
    ensures forall i | 0 <= i < |s| :: r[i] == PlainChar(s[i])
  {
    seq(|s|, i requires 0 <= i < |s| => PlainChar(s[i]))
  }

  function Normalize(s: string): string { Plain(Trim(s)) }

  const LEVELS: nat := 4

  /** The comparisons of a match, strictest first. */
  function Transform(level: nat, s: string): string {
    if level == 0 then s
    else if level == 1 then TrimEnd(s)
    else if level == 2 then Trim(s)
    else Normalize(s)
  }

  // ----- What the comparisons mean

  predicate IsPadding(s: string) { forall c | c in s :: IsSpace(c) }

  lemma {:induction false} TrimEndShorter(s: string)
    ensures |TrimEnd(s)| <= |s| && TrimEnd(s) == s[..|TrimEnd(s)|]
  {
    if s != "" && IsSpace(s[|s| - 1]) {
      TrimEndShorter(s[..|s| - 1]);
    }
  }

  lemma {:induction false} EndIsTrimmed(s: string, padding: string)
    requires IsPadding(padding)
    ensures TrimEnd(s + padding) == TrimEnd(s)
    decreases |padding|
  {
    if padding == "" {
      assert s + padding == s;
    } else {
      var n := |padding| - 1;
      assert (s + padding)[..|s + padding| - 1] == s + padding[..n] && padding[n] in padding;
      assert forall c | c in padding[..n] :: c in padding;
      EndIsTrimmed(s, padding[..n]);
    }
  }

  lemma {:induction false} PaddingIsTrimmed(s: string, padding: string)
    requires IsPadding(padding)
    ensures Trim(s + padding) == Trim(s)
  {
    EndIsTrimmed(s, padding);
  }

  /** What trimming the end takes off. */
  lemma {:induction false} TrimmedOff(s: string) returns (padding: string)
    ensures IsPadding(padding) && s == TrimEnd(s) + padding
  {
    if s != "" && IsSpace(s[|s| - 1]) {
      var more := TrimmedOff(s[..|s| - 1]);
      padding := more + [s[|s| - 1]];
      assert s == s[..|s| - 1] + [s[|s| - 1]];
    } else {
      padding := "";
    }
  }

  lemma {:induction false} StartIsTrimmed(padding: string, s: string)
    requires IsPadding(padding)
    ensures TrimStart(padding + s) == TrimStart(s)
  {
    if padding == "" {
      assert padding + s == s;
    } else {
      assert (padding + s)[1..] == padding[1..] + s && padding[0] in padding;
      assert forall c | c in padding[1..] :: c in padding;
      StartIsTrimmed(padding[1..], s);
    }
  }

  lemma {:induction false} TrimmedOffStart(s: string) returns (padding: string)
    ensures IsPadding(padding) && s == padding + TrimStart(s)
  {
    if s != "" && IsSpace(s[0]) {
      var more := TrimmedOffStart(s[1..]);
      padding := [s[0]] + more;
      assert s == [s[0]] + s[1..];
    } else {
      padding := "";
    }
  }

  lemma {:induction false} BothTrimmed(before: string, s: string, after: string)
    requires IsPadding(before) && IsPadding(after)
    ensures Trim(before + s + after) == Trim(s)
  {
    EndIsTrimmed(before + s, after);
    if IsPadding(s) {
      AllTrimmed(before + s);
      AllTrimmed(s);
    } else {
      TrimEndPrefix(before, s);
      StartIsTrimmed(before, TrimEnd(s));
    }
  }

  lemma {:induction false} AllTrimmed(s: string)
    requires IsPadding(s)
    ensures TrimEnd(s) == ""
  {
    EndIsTrimmed("", s);
    assert "" + s == s;
  }

  lemma {:induction false} TrimEndPrefix(before: string, s: string)
    requires !IsPadding(s)
    ensures TrimEnd(before + s) == before + TrimEnd(s)
  {
    if IsSpace(s[|s| - 1]) {
      assert (before + s)[..|before + s| - 1] == before + s[..|s| - 1];
      assert s == s[..|s| - 1] + [s[|s| - 1]];
      TrimEndPrefix(before, s[..|s| - 1]);
    }
  }

  /** Two texts are one up to white space at the end, or at both ends. */
  ghost predicate SameButEnd(a: string, b: string) {
    exists core, p, q :: IsPadding(p) && IsPadding(q) && a == core + p && b == core + q
  }

  ghost predicate SameButEnds(a: string, b: string) {
    exists core, o, p, q, r :: IsPadding(o) && IsPadding(p) && IsPadding(q) && IsPadding(r) && a == o + core + p && b == q + core + r
  }

  lemma {:induction false} EndAlike(a: string, b: string)
    ensures TrimEnd(a) == TrimEnd(b) <==> SameButEnd(a, b)
  {
    hide IsPadding, TrimEnd;
    if SameButEnd(a, b) {
      var core, p, q :| IsPadding(p) && IsPadding(q) && a == core + p && b == core + q;
      EndIsTrimmed(core, p);
      EndIsTrimmed(core, q);
    }
    if TrimEnd(a) == TrimEnd(b) {
      var p := TrimmedOff(a);
      var q := TrimmedOff(b);
      assert a == TrimEnd(a) + p && b == TrimEnd(a) + q;
    }
  }

  lemma {:induction false} TrimmedOffBoth(s: string) returns (o: string, p: string)
    ensures IsPadding(o) && IsPadding(p) && s == o + Trim(s) + p
  {
    hide IsPadding;
    p := TrimmedOff(s);
    o := TrimmedOffStart(TrimEnd(s));
  }

  lemma {:induction false} EndsAlike(a: string, b: string)
    ensures Trim(a) == Trim(b) <==> SameButEnds(a, b)
  {
    hide IsPadding, Trim;
    if SameButEnds(a, b) {
      var core, o, p, q, r :| IsPadding(o) && IsPadding(p) && IsPadding(q) && IsPadding(r) && a == o + core + p && b == q + core + r;
      BothTrimmed(o, core, p);
      BothTrimmed(q, core, r);
    }
    if Trim(a) == Trim(b) {
      var o, p := TrimmedOffBoth(a);
      var q, r := TrimmedOffBoth(b);
      SameByWitness(a, b, Trim(a), o, p, q, r);
    }
  }

  lemma {:induction false} SameByWitness(a: string, b: string, core: string, o: string, p: string, q: string, r: string)
    requires IsPadding(o) && IsPadding(p) && IsPadding(q) && IsPadding(r) && a == o + core + p && b == q + core + r
    ensures SameButEnds(a, b)
  {
    hide IsPadding;
  }

  /** The looser comparisons ignore white space at the end, or at both ends, and nothing else. */
  lemma {:induction false} TrimmedAlike(a: string, b: string)
    ensures Transform(1, a) == Transform(1, b) <==> SameButEnd(a, b)
    ensures Transform(2, a) == Transform(2, b) <==> SameButEnds(a, b)
  {
    EndAlike(a, b);
    EndsAlike(a, b);
    hide SameButEnd, SameButEnds, TrimEnd, Trim;
  }

  /** The last comparison takes characters of one kind for each other: dashes, quotes, double quotes, spaces. */
  predicate OneKind(c: char, d: char) {
    exists kind | kind in KINDS :: c in kind && d in kind
  }

  const KINDS: set<string> := {
    "-\U{2010}\U{2011}\U{2012}\U{2013}\U{2014}\U{2015}\U{2212}",
    "'\U{2018}\U{2019}\U{201a}\U{201b}",
    "\"\U{201c}\U{201d}\U{201e}\U{201f}",
    " \U{a0}\U{2002}\U{2003}\U{2004}\U{2005}\U{2006}\U{2007}\U{2008}\U{2009}\U{200a}\U{202f}\U{205f}\U{3000}"
  }

  predicate LooksLike(s: string, t: string) { |s| == |t| && forall i | 0 <= i < |s| :: s[i] == t[i] || OneKind(s[i], t[i]) }

  lemma {:induction false} LookAlikes(a: string, b: string)
    ensures Transform(3, a) == Transform(3, b) <==> LooksLike(Trim(a), Trim(b))
  {
    PlainLines(Trim(a), Trim(b));
    hide Trim, LooksLike, Plain;
  }

  lemma {:induction false} PlainLines(s: string, t: string)
    ensures Plain(s) == Plain(t) <==> LooksLike(s, t)
  {
    forall i | 0 <= i < |s| && i < |t| ensures PlainChar(s[i]) == PlainChar(t[i]) <==> s[i] == t[i] || OneKind(s[i], t[i]) {
      PlainAlike(s[i], t[i]);
    }
    hide OneKind, PlainChar;
    if Plain(s) == Plain(t) {
      assert |Plain(s)| == |Plain(t)|;
      assert forall i | 0 <= i < |s| :: Plain(s)[i] == Plain(t)[i];
    }
    if LooksLike(s, t) {
      assert Plain(s) == Plain(t);
    }
  }

  lemma {:induction false} PlainAlike(c: char, d: char)
    ensures PlainChar(c) == PlainChar(d) <==> c == d || OneKind(c, d)
  {
  }

  // ----- Splitting a text that arrives in pieces

  /** Two lists of parts put together: the last of one and the first of the other become one part. */
  function Glue(p: seq<string>, q: seq<string>): seq<string>
    requires p != [] && q != []
  {
    p[..|p| - 1] + [p[|p| - 1] + q[0]] + q[1..]
  }

  lemma {:induction false} GlueMore(c: char, p: seq<string>, q: seq<string>)
    requires p != [] && q != []
    ensures Glue([""] + p, q) == [""] + Glue(p, q)
    ensures Glue([[c] + p[0]] + p[1..], q) == [[c] + Glue(p, q)[0]] + Glue(p, q)[1..]
  {
    if |p| == 1 {
      assert [c] + p[0] + q[0] == [c] + (p[0] + q[0]);
    }
  }

  lemma {:induction false} SplitConcat(a: string, b: string)
    ensures SplitOnNewline(a + b) == Glue(SplitOnNewline(a), SplitOnNewline(b))
  {
    if a == "" {
      assert a + b == b;
      assert "" + SplitOnNewline(b)[0] == SplitOnNewline(b)[0];
    } else {
      assert (a + b)[1..] == a[1..] + b && (a + b)[0] == a[0];
      SplitConcat(a[1..], b);
      GlueMore(a[0], SplitOnNewline(a[1..]), SplitOnNewline(b));
      hide Glue;
    }
  }

  lemma {:induction false} SplitNoBreak(s: string)
    requires '\n' !in s
    ensures SplitOnNewline(s) == [s]
  {
    if s != "" {
      SplitNoBreak(s[1..]);
      assert s[0] in s && SplitOnNewline(s[1..])[1..] == [];
      assert [s[0]] + s[1..] == s;
    }
  }

  /** A piece without a line break makes the last line longer. */
  lemma {:induction false} SplitLonger(text: string, piece: string)
    requires '\n' !in piece
    ensures var p := SplitOnNewline(text); SplitOnNewline(text + piece) == p[..|p| - 1] + [p[|p| - 1] + piece]
  {
    SplitConcat(text, piece);
    SplitNoBreak(piece);
  }

  /** A line break starts an empty line. */
  lemma {:induction false} SplitBreak(text: string)
    ensures SplitOnNewline(text + "\n") == SplitOnNewline(text) + [""]
  {
    SplitConcat(text, "\n");
    assert SplitOnNewline("\n") == ["", ""] by {
      assert "\n"[1..] == "";
    }
    var p := SplitOnNewline(text);
    assert p[|p| - 1] + "" == p[|p| - 1] && p == p[..|p| - 1] + [p[|p| - 1]];
  }

  /** All lines; a final line break does not start one. */
  function AllLines(text: string): seq<string> {
    var parts := SplitOnNewline(text);
    if parts[|parts| - 1] == "" then parts[..|parts| - 1] else parts
  }

  /** `text.indexOf` of a line break. */
  method IndexOfBreak(text: string, at: nat) returns (nl: Option<nat>)
    requires at <= |text|
    ensures nl.None? ==> '\n' !in text[at..]
    ensures nl.Some? ==> at <= nl.value < |text| && text[nl.value] == '\n' && '\n' !in text[at..nl.value]
  {
    for k := at to |text|
      invariant '\n' !in text[at..k]
    {
      if text[k] == '\n' {
        return Some(k);
      }
      assert text[at..k + 1] == text[at..k] + [text[k]];
    }
    assert text[at..|text|] == text[at..];
    nl := None;
  }

  // ----- Texts written line by line

  predicate BreakFree(s: string) { '\r' !in s && '\n' !in s }

  /** Lines as a text may be cut into, and one way only. */
  predicate Separated(lines: seq<SourceLine>) {
    forall i | 0 <= i < |lines| ::
      && BreakFree(lines[i].text)
      && (IsEol(lines[i].eol) || (lines[i].eol == "" && lines[i].text != "" && i == |lines| - 1))
      && (lines[i].eol == "\r" && i < |lines| - 1 ==> lines[i + 1].text != "" || lines[i + 1].eol != "\n")
  }

  lemma {:induction false} FirstBreakIs(text: string, k: nat)
    requires k <= |text| && (k < |text| ==> IsBreak(text[k])) && forall i | 0 <= i < k :: !IsBreak(text[i])
    ensures FirstBreak(text) == k
  {
  }

  /** The first line of a text. */
  lemma {:induction false} LineRead(line: SourceLine, tail: string)
    requires BreakFree(line.text) && IsEol(line.eol) && (line.eol == "\r" ==> tail == "" || tail[0] != '\n')
    ensures SourceLines(line.text + line.eol + tail) == [line] + SourceLines(tail)
  {
    var text, k, n := line.text + line.eol + tail, |line.text|, |line.eol|;
    forall i | 0 <= i < k ensures !IsBreak(text[i]) {
      assert text[i] == line.text[i] && line.text[i] in line.text;
    }
    assert text[k] == line.eol[0];
    FirstBreakIs(text, k);
    assert text[k..] == line.eol + tail;
    BreakRead(line.eol, tail);
    SourceLinesUnfold(text, k, n);
    assert text[..k] == line.text && text[k..k + n] == line.eol && text[k + n..] == tail;
    hide SourceLines;
  }

  lemma {:induction false} BreakRead(eol: string, tail: string)
    requires IsEol(eol) && (eol == "\r" ==> tail == "" || tail[0] != '\n')
    ensures BreakLength(eol + tail) == |eol|
  {
  }

  lemma {:induction false} NextStarts(lines: seq<SourceLine>)
    requires Separated(lines) && lines != [] && lines[0].eol == "\r"
    ensures Join(lines[1..]) == "" || Join(lines[1..])[0] != '\n'
  {
    var rest := lines[1..];
    if rest != [] {
      assert rest[0] == lines[1] && lines[0].eol == "\r";
      var text := rest[0].text + rest[0].eol + Join(rest[1..]);
      if rest[0].text != "" {
        assert text[0] == rest[0].text[0] && rest[0].text[0] in rest[0].text;
      } else {
        assert text[0] == rest[0].eol[0];
      }
    }
  }

  lemma {:induction false} RestSeparated(lines: seq<SourceLine>)
    requires Separated(lines) && lines != []
    ensures Separated(lines[1..]) && BreakFree(lines[0].text)
    ensures if lines[0].eol == "" then lines[1..] == [] && lines[0].text != "" else IsEol(lines[0].eol)
  {
    var rest := lines[1..];
    assert forall i | 0 <= i < |rest| :: rest[i] == lines[i + 1];
    hide BreakFree, IsEol;
  }

  /** Lines are read back from their text: a line ends at the first break, and a carriage return with a newline after it
      is one break. */
  lemma {:induction false} SeparatedLinesAreRead(lines: seq<SourceLine>)
    requires Separated(lines)
    ensures SourceLines(Join(lines)) == lines
  {
    if lines != [] {
      var line, rest := lines[0], lines[1..];
      RestSeparated(lines);
      if line.eol == "" {
        LastLineRead(line);
        assert line.text + "" + "" == line.text;
      } else {
        SeparatedLinesAreRead(rest);
        if line.eol == "\r" {
          NextStarts(lines);
        }
        LineRead(line, Join(rest));
      }
      hide SourceLines, Separated, BreakFree, IsEol;
    }
  }

  lemma {:induction false} LastLineRead(line: SourceLine)
    requires line.eol == "" && line.text != "" && BreakFree(line.text)
    ensures SourceLines(line.text) == [line]
  {
    forall i | 0 <= i < |line.text| ensures !IsBreak(line.text[i]) {
      assert line.text[i] in line.text;
    }
    FirstBreakIs(line.text, |line.text|);
    SourceLinesLast(line.text);
  }

  predicate EndsInCr(s: string) { s != "" && s[|s| - 1] == '\r' }

  /** Lines as a diff or a patch reads them: a line break is a newline, with a carriage return before it or not; a last line
      without a newline may end in a carriage return too. */
  predicate Broken(lines: seq<SourceLine>) {
    forall i | 0 <= i < |lines| ::
      && '\n' !in lines[i].text
      && (lines[i].eol == "\r\n" || (lines[i].eol == "\n" && !EndsInCr(lines[i].text))
          || (i == |lines| - 1 && lines[i].text != "" && (lines[i].eol == "\r" || (lines[i].eol == "" && !EndsInCr(lines[i].text)))))
  }

  /** A line with its carriage return, if it has one. */
  function Raw(line: SourceLine): string { if line.eol == "\r\n" || line.eol == "\r" then line.text + "\r" else line.text }

  function Raws(lines: seq<SourceLine>): (r: seq<string>)
    ensures |r| == |lines|
    ensures forall i | 0 <= i < |lines| :: r[i] == Raw(lines[i])
  {
    seq(|lines|, i requires 0 <= i < |lines| => Raw(lines[i]))
  }

  predicate Unfinished(lines: seq<SourceLine>) { lines != [] && (lines[|lines| - 1].eol == "" || lines[|lines| - 1].eol == "\r") }

  lemma {:induction false} SplitFirst(line: string, rest: string)
    requires '\n' !in line
    ensures SplitOnNewline(line + "\n" + rest) == [line] + SplitOnNewline(rest)
  {
    SplitNoBreak(line);
    SplitBreak(line);
    SplitConcat(line + "\n", rest);
    assert "" + SplitOnNewline(rest)[0] == SplitOnNewline(rest)[0];
    assert SplitOnNewline(rest) == [SplitOnNewline(rest)[0]] + SplitOnNewline(rest)[1..];
    hide SplitOnNewline;
  }

  lemma {:induction false} RestBroken(lines: seq<SourceLine>)
    requires Broken(lines) && lines != []
    ensures Broken(lines[1..]) && '\n' !in lines[0].text
    ensures if Unfinished([lines[0]]) then lines[1..] == [] && lines[0].text != "" else lines[0].eol == "\n" || lines[0].eol == "\r\n"
  {
    var rest := lines[1..];
    assert forall i | 0 <= i < |rest| :: rest[i] == lines[i + 1];
  }

  lemma {:induction false} RawText(line: SourceLine)
    requires '\n' !in line.text
    ensures '\n' !in Raw(line)
    ensures line.eol == "\n" || line.eol == "\r\n" ==> line.text + line.eol == Raw(line) + "\n"
    ensures line.eol == "" || line.eol == "\r" ==> line.text + line.eol == Raw(line)
  {
  }

  lemma {:induction false} BrokenLinesAreParts(lines: seq<SourceLine>)
    requires Broken(lines)
    ensures SplitOnNewline(Join(lines)) == Raws(lines) + if Unfinished(lines) then [] else [""]
  {
    hide SplitOnNewline, Broken, Raw;
    if lines == [] {
      NothingSplit();
      assert Raws(lines) == [];
    } else {
      var line, rest := lines[0], lines[1..];
      RestBroken(lines);
      RawText(line);
      assert Raws(lines) == [Raw(line)] + Raws(rest);
      if Unfinished([line]) {
        SplitNoBreak(Raw(line));
        assert Raw(line) + "" == Raw(line) && Raws(rest) == [];
      } else {
        BrokenLinesAreParts(rest);
        SplitFirst(Raw(line), Join(rest));
        assert rest == [] || lines[|lines| - 1] == rest[|rest| - 1];
      }
    }
  }

  lemma {:induction false} NothingSplit()
    ensures SplitOnNewline("") == [""]
  {
  }

  lemma {:induction false} RawDropped(line: SourceLine)
    requires line.eol == "\r\n" || line.eol == "\r" || !EndsInCr(line.text)
    ensures DropCr(Raw(line)) == line.text
  {
  }

  lemma {:induction false} RawsDropped(lines: seq<SourceLine>)
    requires Broken(lines)
    ensures DropCrs(Raws(lines)) == Texts(lines) && DropCrs(Raws(lines) + [""]) == Texts(lines) + [""]
  {
    forall i | 0 <= i < |lines| ensures DropCr(Raws(lines)[i]) == lines[i].text {
      RawDropped(lines[i]);
    }
    hide Broken, Raw;
  }

  lemma {:induction false} LastKept(lines: seq<SourceLine>)
    requires Broken(lines)
    ensures if Unfinished(lines) then DropLastEmpty(Texts(lines)) == Texts(lines) else DropLastEmpty(Texts(lines) + [""]) == Texts(lines)
  {
  }

  lemma {:induction false} SomeText(lines: seq<SourceLine>)
    requires Broken(lines) && lines != []
    ensures Join(lines) != ""
  {
    assert |Join(lines)| >= |lines[0].text| + |lines[0].eol|;
  }

  /** A diff sees the lines of a text without their breaks, one carriage return of each taken off. */
  lemma {:induction false} BrokenLinesAreSplit(lines: seq<SourceLine>)
    requires Broken(lines)
    ensures SplitLines(Join(lines)) == Texts(lines)
  {
    if lines != [] {
      BrokenLinesAreParts(lines);
      RawsDropped(lines);
      LastKept(lines);
      SomeText(lines);
      hide Broken, Raws, Texts, DropCrs, DropLastEmpty, SplitOnNewline, Join;
      assert Raws(lines) + [] == Raws(lines);
    }
  }
}
