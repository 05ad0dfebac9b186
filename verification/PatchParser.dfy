/** `parsePatch` of extensions/builtin-tools/src/patch-format.ts: it reads back what a canonical printer writes,
    and everything it accepts is fit for `applyUpdate`. */
module PatchParser {
  import opened Outcomes
  import opened SourceText
  import opened PatchApply

  datatype PatchOperation =
    | AddFile(path: string, content: string)
    | DeleteFile(path: string)
    | UpdateFile(path: string, moveTo: Option<string>, hunks: seq<UpdateHunk>)

  const BEGIN := "*** Begin Patch"
  const END := "*** End Patch"
  const EOF := "*** End of File"
  const MOVE := "*** Move to: "
  const ADD := "*** Add File: "
  const DELETE := "*** Delete File: "
  const UPDATE := "*** Update File: "

  // ----- One line at a time

  predicate StartsWith(s: string, prefix: string) { prefix <= s }

  /** What `.` in a regular expression does not match. */
  predicate IsTerminator(c: char) { c == '\n' || c == '\r' || c == '\U{2028}' || c == '\U{2029}' }

  predicate OneLine(s: string) { s != "" && forall c | c in s :: !IsTerminator(c) }

  function After(marker: string, prefix: string): Option<string> {
    if StartsWith(marker, prefix) && OneLine(marker[|prefix|..]) then Some(marker[|prefix|..]) else None
  }

  /** The operation a header line starts. */
  function HeaderOf(marker: string): Option<PatchOperation> {
    if After(marker, ADD).Some? then Some(AddFile(After(marker, ADD).value, ""))
    else if After(marker, DELETE).Some? then Some(DeleteFile(After(marker, DELETE).value))
    else if After(marker, UPDATE).Some? then Some(UpdateFile(After(marker, UPDATE).value, None, []))
    else None
  }

  predicate HasLines(h: UpdateHunk) { h.oldLines != [] || h.newLines != [] }

  /** `checkUpdate`: an update being read must have hunks, and its last one lines. */
  predicate Finished(operations: seq<PatchOperation>) {
    operations != [] && operations[|operations| - 1].UpdateFile? ==>
      var hunks := operations[|operations| - 1].hunks; hunks != [] && HasLines(hunks[|hunks| - 1])
  }

  datatype Step = Refused | Finish | Next(operations: seq<PatchOperation>)

  function WithLast<T>(s: seq<T>, x: T): seq<T>
    requires s != []
  {
    s[..|s| - 1] + [x]
  }

  /** A line of a hunk: context, removed or added. */
  function HunkLine(h: UpdateHunk, line: string): UpdateHunk {
    var value := if line == "" then "" else line[1..];
    if line == "" || line[0] == ' ' then
      h.(contextLineIndices := h.contextLineIndices + [(|h.oldLines|, |h.newLines|)], oldLines := h.oldLines + [value], newLines := h.newLines + [value])
    else if line[0] == '-' then h.(oldLines := h.oldLines + [value])
    else h.(newLines := h.newLines + [value])
  }

  const NO_LINES := UpdateHunk(None, [], [], [], false)

  /** A line while an update is being read: what becomes of the update. */
  function UpdateLine(u: PatchOperation, line: string, marker: string): Option<PatchOperation>
    requires u.UpdateFile?
  {
    var open := if u.hunks == [] then None else Some(u.hunks[|u.hunks| - 1]);
    var opens := marker == "@@" || StartsWith(marker, "@@ ");
    if open.Some? && open.value.endOfFile && marker == "" then Some(u)
    else if open.Some? && open.value.endOfFile && !opens then None
    else if u.hunks == [] && u.moveTo.None? && StartsWith(marker, MOVE) then Some(u.(moveTo := Some(marker[|MOVE|..])))
    else if opens then
      if open.Some? && !HasLines(open.value) then None
      else Some(u.(hunks := u.hunks + [NO_LINES.(context := if marker == "@@" then None else Some(marker[3..]))]))
    else if marker == EOF then
      if open.None? || !HasLines(open.value) then None else Some(u.(hunks := WithLast(u.hunks, open.value.(endOfFile := true))))
    else if line != "" && line[0] !in {' ', '+', '-'} then None
    else if open.None? then Some(u.(hunks := [HunkLine(NO_LINES, line)]))
    else Some(u.(hunks := WithLast(u.hunks, HunkLine(open.value, line))))
  }

  /** A line of the patch after the first. */
  function StepLine(operations: seq<PatchOperation>, line: string, isLast: bool): Step {
    var current := if operations == [] then None else Some(operations[|operations| - 1]);
    var marker := if current.Some? && current.value.UpdateFile? then TrimEnd(line) else Trim(line);
    if StartsWith(marker, "*** Environment ID:") then Refused
    else if marker == END || (isLast && Trim(line) == END) then
      if Finished(operations) && isLast then Finish else Refused
    else if HeaderOf(marker).Some? then
      if Finished(operations) then Next(operations + [HeaderOf(marker).value]) else Refused
    else if current.None? || current.value.DeleteFile? then Refused
    else if current.value.AddFile? then
      if line == "" || line[0] != '+' then Refused
      else Next(WithLast(operations, current.value.(content := current.value.content + line[1..] + "\n")))
    else
      match UpdateLine(current.value, line, marker)
      case None => Refused
      case Some(u) => Next(WithLast(operations, u))
  }

  /** What the loop makes of the lines from `i` on. */
  function ParseFrom(lines: seq<string>, i: nat, operations: seq<PatchOperation>): Option<seq<PatchOperation>>
    requires i <= |lines|
    decreases |lines| - i
  {
    if i == |lines| then None
    else
      match StepLine(operations, lines[i], i == |lines| - 1)
      case Refused => None
      case Finish => Some(operations)
      case Next(more) => ParseFrom(lines, i + 1, more)
  }

  // ----- The lines of the input

  /** `split(/\r?\n/)`: a carriage return right before a line break belongs to the break. */
  function InputLines(input: string): seq<string> {
    var parts := SplitOnNewline(Trim(input));
    DropCrs(parts[..|parts| - 1]) + [parts[|parts| - 1]]
  }

  predicate IsHeredoc(line: string) { line in {"<<EOF", "<<'EOF'", "<<\"EOF\""} }

  predicate EndsWith(s: string, suffix: string) { |suffix| <= |s| && s[|s| - |suffix|..] == suffix }

  function Unwrapped(lines: seq<string>): seq<string>
    requires lines != []
  {
    if IsHeredoc(lines[0]) && EndsWith(lines[|lines| - 1], "EOF") then (if |lines| < 2 then [] else lines[1..|lines| - 1]) else lines
  }

  function Parse(input: string): Option<seq<PatchOperation>> {
    var lines := Unwrapped(InputLines(input));
    if lines == [] || Trim(lines[0]) != BEGIN || Trim(lines[|lines| - 1]) != END then None else ParseFrom(lines, 1, [])
  }

  method ParsePatch(input: string) returns (r: Option<seq<PatchOperation>>)
    ensures r == Parse(input)
  {
    var lines := Unwrapped(InputLines(input));
    if lines == [] || Trim(lines[0]) != BEGIN || Trim(lines[|lines| - 1]) != END {
      return None;
    }
    var operations := [];
    for i := 1 to |lines|
      invariant ParseFrom(lines, 1, []) == ParseFrom(lines, i, operations)
    {
      match StepLine(operations, lines[i], i == |lines| - 1) {
        case Refused => return None;
        case Finish => return Some(operations);
        case Next(more) => operations := more;
      }
    }
    r := None;
  }

  // ----- What is accepted

  /** Context lines are paired in order, and the two of a pair are equal. */
  ghost predicate Paired(h: UpdateHunk) {
    && (forall k | 0 <= k < |h.contextLineIndices| ::
          var (o, n) := h.contextLineIndices[k]; o < |h.oldLines| && n < |h.newLines| && h.oldLines[o] == h.newLines[n])
    && forall j, k | 0 <= j < k < |h.contextLineIndices| ::
         h.contextLineIndices[j].0 < h.contextLineIndices[k].0 && h.contextLineIndices[j].1 < h.contextLineIndices[k].1
  }

  /** Hunks are paired and, but for one still being read, not empty. */
  ghost predicate GoodHunks(hunks: seq<UpdateHunk>, open: bool) {
    && (forall h | h in hunks :: Paired(h))
    && forall k | 0 <= k < |hunks| - (if open then 1 else 0) :: HasLines(hunks[k])
  }

  ghost predicate GoodOperation(op: PatchOperation, open: bool) {
    op.UpdateFile? ==> GoodHunks(op.hunks, open) && (!open ==> op.hunks != [])
  }

  ghost predicate GoodOperations(operations: seq<PatchOperation>) {
    forall k | 0 <= k < |operations| :: GoodOperation(operations[k], k == |operations| - 1)
  }

  lemma {:induction false} HunkLinePaired(h: UpdateHunk, line: string)
    requires Paired(h)
    ensures Paired(HunkLine(h, line)) && HasLines(HunkLine(h, line))
  {
  }

  lemma {:induction false} UpdateLineGood(u: PatchOperation, line: string, marker: string)
    requires u.UpdateFile? && GoodOperation(u, true) && UpdateLine(u, line, marker).Some?
    ensures UpdateLine(u, line, marker).value.UpdateFile? && GoodOperation(UpdateLine(u, line, marker).value, true)
  {
    if u.hunks != [] {
      HunkLinePaired(u.hunks[|u.hunks| - 1], line);
    }
    HunkLinePaired(NO_LINES, line);
    hide HunkLine, Paired;
    var last := if u.hunks == [] then NO_LINES else u.hunks[|u.hunks| - 1];
    assert Paired(NO_LINES.(context := Some(""))) && Paired(last.(endOfFile := true)) && Paired(NO_LINES) by {
      PairedIgnores(NO_LINES, Some(""), false);
      PairedIgnores(last, last.context, true);
    }
    PairedIgnores(NO_LINES, if marker == "@@" then None else if |marker| < 3 then None else Some(marker[3..]), false);
  }

  lemma {:induction false} PairedIgnores(h: UpdateHunk, context: Option<string>, endOfFile: bool)
    requires h == NO_LINES || Paired(h)
    ensures Paired(h.(context := context, endOfFile := endOfFile)) && Paired(h)
  {
  }

  lemma {:induction false} FinishedGood(operations: seq<PatchOperation>)
    requires GoodOperations(operations) && Finished(operations)
    ensures forall k | 0 <= k < |operations| :: GoodOperation(operations[k], false)
  {
    hide Paired;
    forall k | 0 <= k < |operations| ensures GoodOperation(operations[k], false) {
      if k == |operations| - 1 && operations[k].UpdateFile? {
        var hunks := operations[k].hunks;
        assert forall j | 0 <= j < |hunks| :: j == |hunks| - 1 || HasLines(hunks[j]);
      }
    }
  }

  lemma {:induction false} StepGood(operations: seq<PatchOperation>, line: string, isLast: bool)
    requires GoodOperations(operations) && StepLine(operations, line, isLast).Next?
    ensures GoodOperations(StepLine(operations, line, isLast).operations)
  {
    var current := if operations == [] then None else Some(operations[|operations| - 1]);
    var marker := if current.Some? && current.value.UpdateFile? then TrimEnd(line) else Trim(line);
    if HeaderOf(marker).Some? && Finished(operations) {
      FinishedGood(operations);
    } else if current.Some? && current.value.UpdateFile? && UpdateLine(current.value, line, marker).Some? {
      UpdateLineGood(current.value, line, marker);
    }
    hide Trim, TrimEnd, UpdateLine, Finished, GoodHunks;
  }

  /** Every accepted patch: updates have hunks, hunks have lines, and their context pairs are in order and equal. */
  lemma {:induction false} AcceptedIsGood(lines: seq<string>, i: nat, operations: seq<PatchOperation>)
    requires i <= |lines| && GoodOperations(operations) && ParseFrom(lines, i, operations).Some?
    ensures forall op | op in ParseFrom(lines, i, operations).value :: GoodOperation(op, false)
    decreases |lines| - i
  {
    match StepLine(operations, lines[i], i == |lines| - 1)
    case Finish =>
      FinishedGood(operations);
      forall op | op in operations ensures GoodOperation(op, false) {
        var k :| 0 <= k < |operations| && operations[k] == op;
      }
    case Next(more) =>
      StepGood(operations, lines[i], i == |lines| - 1);
      hide StepLine, GoodOperations;
      AcceptedIsGood(lines, i + 1, more);
  }

  lemma {:induction false} ParsedIsGood(input: string)
    requires Parse(input).Some?
    ensures forall op | op in Parse(input).value :: GoodOperation(op, false)
  {
    hide InputLines, Trim, StepLine;
    AcceptedIsGood(Unwrapped(InputLines(input)), 1, []);
  }

  // ----- Printing

  /** Positions a hunk may be read up to: `k` context pairs, `o` old and `n` new lines. */
  ghost predicate At(h: UpdateHunk, o: nat, n: nat, k: nat) {
    && Paired(h) && k <= |h.contextLineIndices| && o <= |h.oldLines| && n <= |h.newLines|
    && (k < |h.contextLineIndices| ==> o <= h.contextLineIndices[k].0 && n <= h.contextLineIndices[k].1)
  }

  /** The lines of a hunk from given positions on: before each context line what is removed, then what is added. */
  function BodyFrom(h: UpdateHunk, o: nat, n: nat, k: nat): seq<string>
    requires At(h, o, n, k)
    decreases |h.oldLines| - o + |h.newLines| - n
  {
    var (a, b) := if k < |h.contextLineIndices| then h.contextLineIndices[k] else (|h.oldLines|, |h.newLines|);
    if o < a then [['-'] + h.oldLines[o]] + BodyFrom(h, o + 1, n, k)
    else if n < b then [['+'] + h.newLines[n]] + BodyFrom(h, o, n + 1, k)
    else if k < |h.contextLineIndices| then [[' '] + h.oldLines[o]] + BodyFrom(h, o + 1, n + 1, k + 1)
    else []
  }

  function OpeningText(context: Option<string>): string { if context.Some? then "@@ " + context.value else "@@" }

  function PrintHunk(h: UpdateHunk): seq<string>
    requires Paired(h)
  {
    [OpeningText(h.context)] + BodyFrom(h, 0, 0, 0) + if h.endOfFile then [EOF] else []
  }

  function PrintHunks(hunks: seq<UpdateHunk>): seq<string>
    requires forall h | h in hunks :: Paired(h)
  {
    if hunks == [] then [] else PrintHunks(hunks[..|hunks| - 1]) + PrintHunk(hunks[|hunks| - 1])
  }

  function Marked(lines: seq<string>): (r: seq<string>)
    ensures |r| == |lines| && forall i | 0 <= i < |r| :: r[i] == "+" + lines[i]
  {
    seq(|lines|, i requires 0 <= i < |lines| => "+" + lines[i])
  }

  function PrintOperation(op: PatchOperation): seq<string>
    requires op.UpdateFile? ==> forall h | h in op.hunks :: Paired(h)
  {
    match op
    case AddFile(path, content) => [ADD + path] + Marked(AllLines(content))
    case DeleteFile(path) => [DELETE + path]
    case UpdateFile(path, moveTo, hunks) => [UPDATE + path] + (if moveTo.Some? then [MOVE + moveTo.value] else []) + PrintHunks(hunks)
  }

  function PrintOperations(operations: seq<PatchOperation>): seq<string>
    requires forall op | op in operations :: op.UpdateFile? ==> forall h | h in op.hunks :: Paired(h)
  {
    if operations == [] then [] else PrintOperations(operations[..|operations| - 1]) + PrintOperation(operations[|operations| - 1])
  }

  // ----- What can be printed

  /** A line of text: no line break inside, no carriage return at its end. */
  predicate IsText(s: string) { '\n' !in s && (s != "" ==> s[|s| - 1] != '\r') }

  /** A name that fills the rest of a line. */
  predicate IsName(s: string) { OneLine(s) && TrimEnd(s) == s }

  ghost predicate Printable(op: PatchOperation) {
    IsName(op.path) &&
    match op
    case AddFile(_, content) => (content == "" || content[|content| - 1] == '\n') && forall l | l in AllLines(content) :: IsText(l)
    case DeleteFile(_) => true
    case UpdateFile(_, moveTo, hunks) =>
      && (moveTo.Some? ==> IsText(moveTo.value) && moveTo.value != "" && TrimEnd(moveTo.value) == moveTo.value)
      && GoodOperation(op, false)
      && forall h | h in hunks ::
           && (h.context.Some? ==> IsText(h.context.value) && h.context.value != "" && TrimEnd(h.context.value) == h.context.value)
           && (forall l | l in h.oldLines :: IsText(l)) && forall l | l in h.newLines :: IsText(l)
  }

  // ----- Feeding printed lines

  /** What several lines, none of them the last, make of the operations. */
  function Feed(operations: seq<PatchOperation>, lines: seq<string>): Option<seq<PatchOperation>>
    decreases lines
  {
    if lines == [] then Some(operations)
    else
      match StepLine(operations, lines[0], false)
      case Refused => None
      case Finish => None
      case Next(more) => Feed(more, lines[1..])
  }

  lemma {:induction false} FeedConcat(operations: seq<PatchOperation>, a: seq<string>, b: seq<string>)
    ensures Feed(operations, a + b) == match Feed(operations, a) case None => None case Some(mid) => Feed(mid, b)
    decreases a
  {
    hide StepLine;
    if a == [] {
      assert a + b == b;
    } else {
      assert (a + b)[1..] == a[1..] + b;
      match StepLine(operations, a[0], false)
      case Refused =>
      case Finish =>
      case Next(more) => FeedConcat(more, a[1..], b);
    }
  }

  /** Feeding is what the loop does before its last line. */
  lemma {:induction false} ParseFeeds(lines: seq<string>, i: nat, j: nat, operations: seq<PatchOperation>)
    requires i <= j < |lines| && Feed(operations, lines[i..j]).Some?
    ensures ParseFrom(lines, i, operations) == ParseFrom(lines, j, Feed(operations, lines[i..j]).value)
    decreases j - i
  {
    hide StepLine;
    if i < j {
      assert lines[i..j][0] == lines[i] && lines[i..j][1..] == lines[i + 1..j];
      match StepLine(operations, lines[i], false)
      case Next(more) => ParseFeeds(lines, i + 1, j, more);
    }
  }

  // ----- Trimming

  /** A name that trimming leaves alone does not end in a space, so trimming leaves a line that ends in it alone. */
  lemma {:induction false} TrimEndKeeps(prefix: string, name: string)
    requires name != "" && TrimEnd(name) == name
    ensures TrimEnd(prefix + name) == prefix + name && !IsSpace(name[|name| - 1])
  {
    if IsSpace(name[|name| - 1]) {
      TrimEndShorter(name[..|name| - 1]);
    }
  }

  /** Trimming keeps what a line starts with, unless nothing is left. */
  lemma {:induction false} TrimEndStart(s: string)
    requires s != ""
    ensures TrimEnd(s) == "" || TrimEnd(s)[0] == s[0]
    ensures !IsSpace(s[0]) ==> TrimEnd(s) != "" && Trim(s) == TrimEnd(s)
  {
    if |s| > 1 && IsSpace(s[|s| - 1]) {
      TrimEndStart(s[..|s| - 1]);
    }
  }

  /** Strings that differ somewhere are not prefixes of each other. */
  lemma {:induction false} Differ(prefix: string, s: string, k: nat)
    requires k < |prefix| && (k < |s| ==> prefix[k] != s[k])
    ensures !StartsWith(s, prefix) && s != prefix
  {
    if StartsWith(s, prefix) {
      PrefixAt(prefix, s, k);
    }
  }

  lemma {:induction false} PrefixAt(prefix: string, s: string, k: nat)
    requires StartsWith(s, prefix) && k < |prefix|
    ensures k < |s| && s[k] == prefix[k]
  {
    assert s[..|prefix|][k] == prefix[k];
  }

  /** A line that does not start with an asterisk is no header and no marker. */
  lemma {:induction false} NoMarker(marker: string)
    requires marker == "" || marker[0] != '*'
    ensures HeaderOf(marker) == None && marker != END && marker != EOF && !StartsWith(marker, "*** Environment ID:") && !StartsWith(marker, MOVE)
  {
    Differ("*** Environment ID:", marker, 0);
    Differ(MOVE, marker, 0);
    Differ(END, marker, 0);
    Differ(EOF, marker, 0);
    Differ(ADD, marker, 0);
    Differ(DELETE, marker, 0);
    Differ(UPDATE, marker, 0);
  }

  /** The word after the asterisks tells markers apart. */
  lemma {:induction false} OtherMarker(marker: string, c: char)
    requires |marker| > 4 && marker[4] == c
    ensures c != 'A' ==> After(marker, ADD) == None
    ensures c != 'D' ==> After(marker, DELETE) == None
    ensures c != 'U' ==> After(marker, UPDATE) == None
    ensures c != 'M' ==> !StartsWith(marker, MOVE)
    ensures c != 'E' ==> !StartsWith(marker, "*** Environment ID:") && marker != END && marker != EOF
  {
    if c != 'A' { Differ(ADD, marker, 4); }
    if c != 'D' { Differ(DELETE, marker, 4); }
    if c != 'U' { Differ(UPDATE, marker, 4); }
    if c != 'M' { Differ(MOVE, marker, 4); }
    if c != 'E' {
      Differ("*** Environment ID:", marker, 4);
      Differ(END, marker, 4);
      Differ(EOF, marker, 4);
    }
  }

  lemma {:induction false} AfterPrefix(prefix: string, name: string)
    requires OneLine(name)
    ensures After(prefix + name, prefix) == Some(name)
  {
  }

  lemma {:induction false} HeaderRead(op: PatchOperation)
    requires OneLine(op.path)
    ensures HeaderOf(ADD + op.path) == Some(AddFile(op.path, ""))
    ensures HeaderOf(DELETE + op.path) == Some(DeleteFile(op.path))
    ensures HeaderOf(UPDATE + op.path) == Some(UpdateFile(op.path, None, []))
  {
    AfterPrefix(ADD, op.path);
    AfterPrefix(DELETE, op.path);
    AfterPrefix(UPDATE, op.path);
    OtherMarker(DELETE + op.path, 'D');
    OtherMarker(UPDATE + op.path, 'U');
  }

  /** A header line, with white space around it or after an update behind it, starts its operation when the one before is finished. */
  lemma {:induction false} HeaderStep(operations: seq<PatchOperation>, line: string, prefix: string, path: string, op: PatchOperation)
    requires Finished(operations) && HeaderOf(prefix + path) == Some(op)
    requires |prefix| > 4 && prefix[0] == '*' && prefix[4] in {'A', 'D', 'U'}
    requires (if operations != [] && operations[|operations| - 1].UpdateFile? then TrimEnd(line) else Trim(line)) == prefix + path
    ensures StepLine(operations, line, false) == Next(operations + [op])
  {
    OtherMarker(prefix + path, prefix[4]);
    hide TrimEnd, Trim, HeaderOf, Finished, UpdateLine;
  }

  /** A header line without white space around it. */
  lemma {:induction false} PlainHeader(operations: seq<PatchOperation>, prefix: string, path: string, op: PatchOperation)
    requires Finished(operations) && IsName(path) && HeaderOf(prefix + path) == Some(op)
    requires |prefix| > 4 && prefix[0] == '*' && prefix[4] in {'A', 'D', 'U'}
    ensures StepLine(operations, prefix + path, false) == Next(operations + [op])
  {
    TrimEndKeeps(prefix, path);
    TrimEndStart(prefix + path);
    hide StepLine, TrimEnd, Trim, HeaderOf, Finished;
    HeaderStep(operations, prefix + path, prefix, path, op);
  }

  // ----- Reading back added files

  /** Lines of text, each with its line break. */
  function Unlines(lines: seq<string>): string { if lines == [] then "" else lines[0] + "\n" + Unlines(lines[1..]) }

  lemma {:induction false} MarkedStep(operations: seq<PatchOperation>, path: string, content: string, line: string)
    ensures StepLine(operations + [AddFile(path, content)], "+" + line, false) == Next(operations + [AddFile(path, content + line + "\n")])
  {
    TrimEndStart("+" + line);
    NoMarker(Trim("+" + line));
    hide TrimEnd, Trim, HeaderOf, Finished, UpdateLine;
    assert ("+" + line)[1..] == line;
    assert (operations + [AddFile(path, content)])[..|operations|] == operations;
  }

  lemma {:induction false} MarkedFeed(operations: seq<PatchOperation>, path: string, content: string, lines: seq<string>)
    ensures Feed(operations + [AddFile(path, content)], Marked(lines)) == Some(operations + [AddFile(path, content + Unlines(lines))])
    decreases lines
  {
    if lines == [] {
      assert content + "" == content;
    } else {
      MarkedStep(operations, path, content, lines[0]);
      MarkedFeed(operations, path, content + lines[0] + "\n", lines[1..]);
      assert Marked(lines)[1..] == Marked(lines[1..]);
      assert content + lines[0] + "\n" + Unlines(lines[1..]) == content + Unlines(lines);
      hide StepLine;
    }
  }

  /** A text of complete lines is its lines with their breaks. */
  lemma {:induction false} UnlinesAll(content: string)
    requires content == "" || content[|content| - 1] == '\n'
    ensures Unlines(AllLines(content)) == content
    decreases |content|
  {
    if content != "" {
      var nl := FirstNewline(content);
      var line, rest := content[..nl], content[nl + 1..];
      assert content == line + "\n" + rest;
      assert rest != "" ==> rest[|rest| - 1] == content[|content| - 1];
      SplitFirst(line, rest);
      UnlinesAll(rest);
      hide SplitOnNewline;
      assert AllLines(content) == [line] + AllLines(rest);
    }
  }

  function FirstNewline(s: string): (k: nat)
    requires s != "" && s[|s| - 1] == '\n'
    ensures k < |s| && s[k] == '\n' && '\n' !in s[..k]
  {
    if s[0] == '\n' then 0
    else
      var k := FirstNewline(s[1..]);
      assert s[..k + 1] == [s[0]] + s[1..][..k];
      k + 1
  }

  // ----- Reading back hunks

  /** An update being read. */
  function Open(operations: seq<PatchOperation>, path: string, moveTo: Option<string>, hunks: seq<UpdateHunk>): seq<PatchOperation> {
    operations + [UpdateFile(path, moveTo, hunks)]
  }

  /** What of a hunk has been read at given positions. */
  function Partly(h: UpdateHunk, o: nat, n: nat, k: nat): UpdateHunk {
    if o <= |h.oldLines| && n <= |h.newLines| && k <= |h.contextLineIndices|
    then UpdateHunk(h.context, h.oldLines[..o], h.newLines[..n], h.contextLineIndices[..k], false)
    else h
  }

  lemma {:induction false} WithLastOf<T>(s: seq<T>, x: T, y: T)
    ensures WithLast(s + [x], y) == s + [y]
  {
  }

  lemma {:induction false} BodyMarker(line: string)
    requires line == "" || line[0] in {' ', '+', '-'}
    ensures TrimEnd(line) == "" || TrimEnd(line)[0] in {' ', '+', '-'}
  {
    if line != "" {
      TrimEndStart(line);
    }
  }

  /** A line of a hunk is read into the hunk. */
  lemma {:induction false} BodyStep(operations: seq<PatchOperation>, path: string, moveTo: Option<string>, hunks: seq<UpdateHunk>, h: UpdateHunk, line: string)
    requires (line == "" || line[0] in {' ', '+', '-'}) && !h.endOfFile
    ensures StepLine(Open(operations, path, moveTo, hunks + [h]), line, false) == Next(Open(operations, path, moveTo, hunks + [HunkLine(h, line)]))
  {
    BodyMarker(line);
    var marker := TrimEnd(line);
    NoMarker(marker);
    Differ("@@ ", marker, 0);
    Differ("@@", marker, 0);
    WithLastOf(hunks, h, HunkLine(h, line));
    WithLastOf(operations, UpdateFile(path, moveTo, hunks + [h]), UpdateFile(path, moveTo, hunks + [HunkLine(h, line)]));
    assert UpdateLine(UpdateFile(path, moveTo, hunks + [h]), line, marker) == Some(UpdateFile(path, moveTo, hunks + [HunkLine(h, line)])) by {
      hide TrimEnd, HunkLine;
    }
    hide TrimEnd, Trim, HeaderOf, Finished, UpdateLine, HunkLine;
  }

  lemma {:induction false} LongerPart(h: UpdateHunk, o: nat, n: nat, k: nat)
    requires At(h, o, n, k)
    ensures !Partly(h, o, n, k).endOfFile
    ensures o < |h.oldLines| ==> HunkLine(Partly(h, o, n, k), ['-'] + h.oldLines[o]) == Partly(h, o + 1, n, k)
    ensures n < |h.newLines| ==> HunkLine(Partly(h, o, n, k), ['+'] + h.newLines[n]) == Partly(h, o, n + 1, k)
    ensures k < |h.contextLineIndices| && NextPair(h, k) == (o, n) ==>
              (o < |h.oldLines| && n < |h.newLines| && HunkLine(Partly(h, o, n, k), [' '] + h.oldLines[o]) == Partly(h, o + 1, n + 1, k + 1))
  {
    if o < |h.oldLines| {
      assert (['-'] + h.oldLines[o])[1..] == h.oldLines[o] && ([' '] + h.oldLines[o])[1..] == h.oldLines[o];
      assert h.oldLines[..o + 1] == h.oldLines[..o] + [h.oldLines[o]];
    }
    if n < |h.newLines| {
      assert (['+'] + h.newLines[n])[1..] == h.newLines[n];
      assert h.newLines[..n + 1] == h.newLines[..n] + [h.newLines[n]];
    }
    if k < |h.contextLineIndices| {
      assert h.contextLineIndices[..k + 1] == h.contextLineIndices[..k] + [h.contextLineIndices[k]];
    }
  }

  lemma {:induction false} BodyFeed(operations: seq<PatchOperation>, path: string, moveTo: Option<string>, hunks: seq<UpdateHunk>,
                                    h: UpdateHunk, o: nat, n: nat, k: nat)
    requires At(h, o, n, k)
    ensures Feed(Open(operations, path, moveTo, hunks + [Partly(h, o, n, k)]), BodyFrom(h, o, n, k)) ==
              Some(Open(operations, path, moveTo, hunks + [h.(endOfFile := false)]))
    decreases |h.oldLines| - o + |h.newLines| - n
  {
    hide StepLine, HunkLine, Feed, BodyFrom, Paired, Open, Partly, At, NextPair;
    LongerPart(h, o, n, k);
    BodyUnfold(h, o, n, k);
    var (a, b) := NextPair(h, k);
    if o < a {
      BodyFeed(operations, path, moveTo, hunks, h, o + 1, n, k);
      BodyMore(operations, path, moveTo, hunks, Partly(h, o, n, k), '-', h.oldLines[o], BodyFrom(h, o + 1, n, k));
    } else if n < b {
      BodyFeed(operations, path, moveTo, hunks, h, o, n + 1, k);
      BodyMore(operations, path, moveTo, hunks, Partly(h, o, n, k), '+', h.newLines[n], BodyFrom(h, o, n + 1, k));
    } else if k < |h.contextLineIndices| {
      BodyFeed(operations, path, moveTo, hunks, h, o + 1, n + 1, k + 1);
      BodyMore(operations, path, moveTo, hunks, Partly(h, o, n, k), ' ', h.oldLines[o], BodyFrom(h, o + 1, n + 1, k + 1));
    } else {
      FeedNothing(Open(operations, path, moveTo, hunks + [Partly(h, o, n, k)]));
      WholePart(h);
    }
  }

  lemma {:induction false} WholePart(h: UpdateHunk)
    ensures Partly(h, |h.oldLines|, |h.newLines|, |h.contextLineIndices|) == h.(endOfFile := false)
  {
  }

  lemma {:induction false} BodyMore(operations: seq<PatchOperation>, path: string, moveTo: Option<string>, hunks: seq<UpdateHunk>,
                                    part: UpdateHunk, mark: char, text: string, rest: seq<string>)
    requires mark in {' ', '+', '-'} && !part.endOfFile
    ensures Feed(Open(operations, path, moveTo, hunks + [part]), [[mark] + text] + rest) ==
              Feed(Open(operations, path, moveTo, hunks + [HunkLine(part, [mark] + text)]), rest)
  {
    BodyStep(operations, path, moveTo, hunks, part, [mark] + text);
    FeedCons(Open(operations, path, moveTo, hunks + [part]), [mark] + text, rest);
  }

  /** Where the next context line is. */
  function NextPair(h: UpdateHunk, k: nat): (nat, nat) {
    if k < |h.contextLineIndices| then h.contextLineIndices[k] else (|h.oldLines|, |h.newLines|)
  }

  lemma {:induction false} BodyUnfold(h: UpdateHunk, o: nat, n: nat, k: nat)
    requires At(h, o, n, k)
    ensures var (a, b) := NextPair(h, k);
            && o <= a <= |h.oldLines| && n <= b <= |h.newLines|
            && (o < a ==> At(h, o + 1, n, k) && BodyFrom(h, o, n, k) == [['-'] + h.oldLines[o]] + BodyFrom(h, o + 1, n, k))
            && (o == a && n < b ==> At(h, o, n + 1, k) && BodyFrom(h, o, n, k) == [['+'] + h.newLines[n]] + BodyFrom(h, o, n + 1, k))
            && (o == a && n == b && k < |h.contextLineIndices| ==>
                  && o < |h.oldLines| && n < |h.newLines| && At(h, o + 1, n + 1, k + 1)
                  && BodyFrom(h, o, n, k) == [[' '] + h.oldLines[o]] + BodyFrom(h, o + 1, n + 1, k + 1))
            && (o == a && n == b && k >= |h.contextLineIndices| ==>
                  BodyFrom(h, o, n, k) == [] && o == |h.oldLines| && n == |h.newLines| && k == |h.contextLineIndices|)
  {
  }

  lemma {:induction false} FeedCons(operations: seq<PatchOperation>, line: string, rest: seq<string>)
    requires StepLine(operations, line, false).Next?
    ensures Feed(operations, [line] + rest) == Feed(StepLine(operations, line, false).operations, rest)
  {
    hide StepLine;
    assert ([line] + rest)[1..] == rest;
  }

  lemma {:induction false} FeedNothing(operations: seq<PatchOperation>)
    ensures Feed(operations, []) == Some(operations)
  {
  }

  /** The line that opens a hunk. */
  lemma {:induction false} OpenStep(operations: seq<PatchOperation>, path: string, moveTo: Option<string>, hunks: seq<UpdateHunk>, line: string, context: Option<string>)
    requires hunks != [] ==> HasLines(hunks[|hunks| - 1])
    requires TrimEnd(line) == OpeningText(context) && (context.Some? ==> context.value != "")
    ensures StepLine(Open(operations, path, moveTo, hunks), line, false) == Next(Open(operations, path, moveTo, hunks + [NO_LINES.(context := context)]))
  {
    var marker := OpeningText(context);
    assert context.Some? ==> marker[3..] == context.value && |marker| > 3;
    NoMarker(marker);
    var u := UpdateFile(path, moveTo, hunks);
    assert UpdateLine(u, line, marker) == Some(u.(hunks := hunks + [NO_LINES.(context := context)])) by {
      hide TrimEnd;
    }
    WithLastOf(operations, u, u.(hunks := hunks + [NO_LINES.(context := context)]));
    hide TrimEnd, Trim, HeaderOf, Finished, UpdateLine;
  }

  lemma {:induction false} PlainOpening(context: Option<string>)
    requires context.Some? ==> context.value != "" && TrimEnd(context.value) == context.value
    ensures TrimEnd(OpeningText(context)) == OpeningText(context)
  {
    if context.Some? {
      TrimEndKeeps("@@ ", context.value);
    }
  }

  lemma {:induction false} EofStep(operations: seq<PatchOperation>, path: string, moveTo: Option<string>, hunks: seq<UpdateHunk>, h: UpdateHunk, line: string)
    requires HasLines(h) && !h.endOfFile && TrimEnd(line) == EOF
    ensures StepLine(Open(operations, path, moveTo, hunks + [h]), line, false) == Next(Open(operations, path, moveTo, hunks + [h.(endOfFile := true)]))
  {
    OtherMarker(EOF, 'E');
    Differ("*** Environment ID:", EOF, 6);
    Differ(END, EOF, 8);
    Differ("@@", EOF, 0);
    Differ("@@ ", EOF, 0);
    var u := UpdateFile(path, moveTo, hunks + [h]);
    WithLastOf(hunks, h, h.(endOfFile := true));
    WithLastOf(operations, u, UpdateFile(path, moveTo, hunks + [h.(endOfFile := true)]));
    assert HeaderOf(EOF) == None;
    hide TrimEnd, Trim, HeaderOf, Finished;
  }

  lemma {:induction false} FeedOne(operations: seq<PatchOperation>, line: string)
    ensures Feed(operations, [line]) == match StepLine(operations, line, false) case Next(more) => Some(more) case _ => None
  {
    hide StepLine;
    assert [line][1..] == [];
  }

  lemma {:induction false} HunkFeed(operations: seq<PatchOperation>, path: string, moveTo: Option<string>, hunks: seq<UpdateHunk>, h: UpdateHunk)
    requires Paired(h) && HasLines(h) && (hunks != [] ==> HasLines(hunks[|hunks| - 1]))
    requires h.context.Some? ==> h.context.value != "" && TrimEnd(h.context.value) == h.context.value
    ensures Feed(Open(operations, path, moveTo, hunks), PrintHunk(h)) == Some(Open(operations, path, moveTo, hunks + [h]))
  {
    var head := OpeningText(h.context);
    var body := BodyFrom(h, 0, 0, 0);
    PlainOpening(h.context);
    OpenStep(operations, path, moveTo, hunks, head, h.context);
    FeedOne(Open(operations, path, moveTo, hunks), head);
    assert Partly(h, 0, 0, 0) == NO_LINES.(context := h.context) && At(h, 0, 0, 0);
    BodyFeed(operations, path, moveTo, hunks, h, 0, 0, 0);
    FeedConcat(Open(operations, path, moveTo, hunks), [head], body);
    if h.endOfFile {
      assert TrimEnd(EOF) == EOF;
      EofStep(operations, path, moveTo, hunks, h.(endOfFile := false), EOF);
      FeedOne(Open(operations, path, moveTo, hunks + [h.(endOfFile := false)]), EOF);
      FeedConcat(Open(operations, path, moveTo, hunks), [head] + body, [EOF]);
    } else {
      assert [head] + body + [] == [head] + body;
      assert h.(endOfFile := false) == h;
    }
    hide Feed, StepLine, BodyFrom;
  }

  // ----- Reading back whole patches

  lemma {:induction false} MoveStep(operations: seq<PatchOperation>, path: string, line: string, dest: string)
    requires TrimEnd(line) == MOVE + dest
    ensures StepLine(Open(operations, path, None, []), line, false) == Next(Open(operations, path, Some(dest), []))
  {
    var marker := MOVE + dest;
    OtherMarker(marker, 'M');
    Differ("@@", marker, 0);
    Differ("@@ ", marker, 0);
    assert marker[|MOVE|..] == dest;
    var u := UpdateFile(path, None, []);
    WithLastOf(operations, u, UpdateFile(path, Some(dest), []));
    hide TrimEnd, Trim, HeaderOf, Finished, IsSpace;
  }

  lemma {:induction false} HunksFeed(operations: seq<PatchOperation>, path: string, moveTo: Option<string>, hunks: seq<UpdateHunk>)
    requires forall h | h in hunks :: Paired(h) && HasLines(h) && (h.context.Some? ==> h.context.value != "" && TrimEnd(h.context.value) == h.context.value)
    ensures Feed(Open(operations, path, moveTo, []), PrintHunks(hunks)) == Some(Open(operations, path, moveTo, hunks))
  {
    hide StepLine, PrintHunk, Paired, TrimEnd;
    if hunks != [] {
      var n := |hunks| - 1;
      HunksFeed(operations, path, moveTo, hunks[..n]);
      HunkFeed(operations, path, moveTo, hunks[..n], hunks[n]);
      FeedConcat(Open(operations, path, moveTo, []), PrintHunks(hunks[..n]), PrintHunk(hunks[n]));
      assert hunks == hunks[..n] + [hunks[n]];
    }
  }

  /** Each printed operation is read back after the ones before. */
  lemma {:induction false} OperationFeed(operations: seq<PatchOperation>, op: PatchOperation)
    requires Finished(operations) && Printable(op)
    ensures op.UpdateFile? ==> forall h | h in op.hunks :: Paired(h)
    ensures Feed(operations, PrintOperation(op)) == Some(operations + [op])
  {
    HeaderRead(op);
    match op {
      case AddFile(path, content) => AddFeed(operations, path, content);
      case DeleteFile(path) => DeleteFeed(operations, path);
      case UpdateFile(path, moveTo, hunks) =>
        GoodHunk(op);
        UpdateFeed(operations, path, moveTo, hunks);
    }
  }

  lemma {:induction false} AddFeed(operations: seq<PatchOperation>, path: string, content: string)
    requires Finished(operations) && Printable(AddFile(path, content)) && HeaderOf(ADD + path) == Some(AddFile(path, ""))
    ensures Feed(operations, PrintOperation(AddFile(path, content))) == Some(operations + [AddFile(path, content)])
  {
    hide Feed, StepLine, IsText, Marked, AllLines, Unlines;
    PlainHeader(operations, ADD, path, AddFile(path, ""));
    FeedCons(operations, ADD + path, Marked(AllLines(content)));
    MarkedFeed(operations, path, "", AllLines(content));
    UnlinesAll(content);
    assert "" + content == content;
  }

  lemma {:induction false} DeleteFeed(operations: seq<PatchOperation>, path: string)
    requires Finished(operations) && Printable(DeleteFile(path)) && HeaderOf(DELETE + path) == Some(DeleteFile(path))
    ensures Feed(operations, PrintOperation(DeleteFile(path))) == Some(operations + [DeleteFile(path)])
  {
    hide Feed, StepLine;
    PlainHeader(operations, DELETE, path, DeleteFile(path));
    FeedOne(operations, DELETE + path);
  }

  lemma {:induction false} UpdateFeed(operations: seq<PatchOperation>, path: string, moveTo: Option<string>, hunks: seq<UpdateHunk>)
    requires Finished(operations) && Printable(UpdateFile(path, moveTo, hunks)) && HeaderOf(UPDATE + path) == Some(UpdateFile(path, None, []))
    requires forall h | h in hunks :: Paired(h) && HasLines(h)
    ensures Feed(operations, PrintOperation(UpdateFile(path, moveTo, hunks))) == Some(operations + [UpdateFile(path, moveTo, hunks)])
  {
    hide Feed, StepLine, Paired, PrintHunks;
    PlainHeader(operations, UPDATE, path, UpdateFile(path, None, []));
    var move := if moveTo.Some? then [MOVE + moveTo.value] else [];
    HunksFeed(operations, path, moveTo, hunks);
    MoveFeed(operations, path, moveTo);
    FeedConcat(Open(operations, path, None, []), move, PrintHunks(hunks));
    FeedCons(operations, UPDATE + path, move + PrintHunks(hunks));
    assert [UPDATE + path] + move + PrintHunks(hunks) == [UPDATE + path] + (move + PrintHunks(hunks));
  }

  lemma {:induction false} GoodHunk(op: PatchOperation)
    requires op.UpdateFile? && GoodOperation(op, false)
    ensures forall h | h in op.hunks :: Paired(h) && HasLines(h)
  {
    hide Paired;
    forall h | h in op.hunks ensures HasLines(h) {
      var k :| 0 <= k < |op.hunks| && op.hunks[k] == h;
    }
  }

  lemma {:induction false} MoveFeed(operations: seq<PatchOperation>, path: string, moveTo: Option<string>)
    requires moveTo.Some? ==> moveTo.value != "" && TrimEnd(moveTo.value) == moveTo.value
    ensures Feed(Open(operations, path, None, []), if moveTo.Some? then [MOVE + moveTo.value] else []) == Some(Open(operations, path, moveTo, []))
  {
    if moveTo.Some? {
      TrimEndKeeps(MOVE, moveTo.value);
      MoveStep(operations, path, MOVE + moveTo.value, moveTo.value);
      FeedOne(Open(operations, path, None, []), MOVE + moveTo.value);
      hide Feed, StepLine;
    }
  }

  lemma {:induction false} OperationsFeed(operations: seq<PatchOperation>)
    requires forall op | op in operations :: Printable(op)
    ensures forall op | op in operations :: op.UpdateFile? ==> forall h | h in op.hunks :: Paired(h)
    ensures Feed([], PrintOperations(operations)) == Some(operations) && Finished(operations)
  {
    hide Feed, StepLine, PrintOperation, Paired;
    FeedNothing([]);
    if operations != [] {
      var n := |operations| - 1;
      OperationsFeed(operations[..n]);
      OperationFeed(operations[..n], operations[n]);
      FeedConcat([], PrintOperations(operations[..n]), PrintOperation(operations[n]));
      assert operations == operations[..n] + [operations[n]];
      if operations[n].UpdateFile? {
        GoodHunk(operations[n]);
      }
    }
  }

  // ----- The text of a patch

  function PatchLines(operations: seq<PatchOperation>): seq<string>
    requires forall op | op in operations :: op.UpdateFile? ==> forall h | h in op.hunks :: Paired(h)
  {
    [BEGIN] + PrintOperations(operations)
  }

  function PrintPatch(operations: seq<PatchOperation>): string
    requires forall op | op in operations :: op.UpdateFile? ==> forall h | h in op.hunks :: Paired(h)
  {
    Unlines(PatchLines(operations)) + END
  }

  lemma {:induction false} MarkedText(mark: char, s: string)
    requires IsText(s) && mark != '\n' && mark != '\r'
    ensures IsText([mark] + s)
  {
  }

  lemma {:induction false} PrefixText(prefix: string, s: string)
    requires IsText(prefix) && IsText(s)
    ensures IsText(prefix + s)
  {
  }

  lemma {:induction false} NameText(s: string)
    requires OneLine(s)
    ensures IsText(s)
  {
    assert s[|s| - 1] in s;
  }

  lemma {:induction false} BodyText(h: UpdateHunk, o: nat, n: nat, k: nat)
    requires At(h, o, n, k) && (forall l | l in h.oldLines :: IsText(l)) && forall l | l in h.newLines :: IsText(l)
    ensures forall l | l in BodyFrom(h, o, n, k) :: IsText(l)
    decreases |h.oldLines| - o + |h.newLines| - n
  {
    hide At, Paired, BodyFrom, IsText, NextPair;
    BodyUnfold(h, o, n, k);
    var (a, b) := NextPair(h, k);
    if o < a {
      MarkedText('-', h.oldLines[o]);
      BodyText(h, o + 1, n, k);
    } else if n < b {
      MarkedText('+', h.newLines[n]);
      BodyText(h, o, n + 1, k);
    } else if k < |h.contextLineIndices| {
      MarkedText(' ', h.oldLines[o]);
      BodyText(h, o + 1, n + 1, k + 1);
    }
  }

  lemma {:induction false} HunkText(h: UpdateHunk)
    requires Paired(h) && (forall l | l in h.oldLines :: IsText(l)) && (forall l | l in h.newLines :: IsText(l))
    requires h.context.Some? ==> IsText(h.context.value)
    ensures forall l | l in PrintHunk(h) :: IsText(l)
  {
    assert At(h, 0, 0, 0) && IsText("@@") && IsText(EOF) && IsText("@@ ");
    BodyText(h, 0, 0, 0);
    if h.context.Some? {
      PrefixText("@@ ", h.context.value);
    }
    hide IsText, BodyFrom, At, Paired;
  }

  lemma {:induction false} HunksText(hunks: seq<UpdateHunk>)
    requires forall h | h in hunks :: Paired(h) && (h.context.Some? ==> IsText(h.context.value))
    requires forall h | h in hunks :: (forall l | l in h.oldLines :: IsText(l)) && forall l | l in h.newLines :: IsText(l)
    ensures forall l | l in PrintHunks(hunks) :: IsText(l)
  {
    hide IsText, PrintHunk, Paired;
    if hunks != [] {
      HunksText(hunks[..|hunks| - 1]);
      HunkText(hunks[|hunks| - 1]);
    }
  }

  lemma {:induction false} OperationText(op: PatchOperation)
    requires Printable(op)
    ensures op.UpdateFile? ==> forall h | h in op.hunks :: Paired(h)
    ensures forall l | l in PrintOperation(op) :: IsText(l)
  {
    NameText(op.path);
    assert IsText(ADD) && IsText(DELETE) && IsText(UPDATE) && IsText(MOVE);
    match op {
      case AddFile(path, content) =>
        PrefixText(ADD, path);
        forall l | l in Marked(AllLines(content)) ensures IsText(l) {
          var i :| 0 <= i < |AllLines(content)| && Marked(AllLines(content))[i] == l;
          MarkedText('+', AllLines(content)[i]);
          assert l == ['+'] + AllLines(content)[i];
        }
      case DeleteFile(path) => PrefixText(DELETE, path);
      case UpdateFile(path, moveTo, hunks) =>
        PrefixText(UPDATE, path);
        if moveTo.Some? {
          PrefixText(MOVE, moveTo.value);
        }
        GoodHunk(op);
        hide IsText;
        HunksText(hunks);
    }
  }

  lemma {:induction false} OperationsText(operations: seq<PatchOperation>)
    requires forall op | op in operations :: Printable(op)
    requires forall op | op in operations :: op.UpdateFile? ==> forall h | h in op.hunks :: Paired(h)
    ensures forall l | l in PrintOperations(operations) :: IsText(l)
  {
    hide IsText, PrintOperation, Printable, Paired;
    if operations != [] {
      OperationsText(operations[..|operations| - 1]);
      OperationText(operations[|operations| - 1]);
    }
  }

  lemma {:induction false} SplitUnlines(lines: seq<string>, last: string)
    requires (forall l | l in lines :: '\n' !in l) && '\n' !in last
    ensures SplitOnNewline(Unlines(lines) + last) == lines + [last]
    decreases lines
  {
    if lines == [] {
      assert "" + last == last;
      SplitNoBreak(last);
    } else {
      SplitUnlines(lines[1..], last);
      SplitFirst(lines[0], Unlines(lines[1..]) + last);
      assert lines[0] + "\n" + (Unlines(lines[1..]) + last) == Unlines(lines) + last;
      assert lines == [lines[0]] + lines[1..];
      hide SplitOnNewline;
    }
  }

  lemma {:induction false} TrimLeaves(s: string)
    requires s != "" && !IsSpace(s[0]) && !IsSpace(s[|s| - 1])
    ensures Trim(s) == s
  {
    TrimEndStart(s);
  }

  lemma {:induction false} NoCrs(lines: seq<string>)
    requires forall l | l in lines :: IsText(l)
    ensures DropCrs(lines) == lines
  {
    forall i | 0 <= i < |lines| ensures DropCrs(lines)[i] == lines[i] {
      assert lines[i] in lines;
    }
  }

  lemma {:induction false} LinesOfPatch(lines: seq<string>)
    requires lines != [] && lines[0] == BEGIN && forall l | l in lines :: IsText(l)
    ensures InputLines(Unlines(lines) + END) == lines + [END]
  {
    var text := Unlines(lines) + END;
    assert text[0] == '*' && text[|text| - 1] == 'h';
    TrimLeaves(text);
    SplitUnlines(lines, END);
    hide SplitOnNewline, Trim, Unlines, DropCrs;
    assert (lines + [END])[..|lines|] == lines;
    NoCrs(lines);
  }

  lemma {:induction false} BeginIsText()
    ensures IsText(BEGIN)
  {
  }

  /** A printed patch is read back as the operations it was printed from. */
  lemma {:induction false} PrintedPatchIsRead(operations: seq<PatchOperation>)
    requires forall op | op in operations :: Printable(op)
    ensures forall op | op in operations :: op.UpdateFile? ==> forall h | h in op.hunks :: Paired(h)
    ensures Parse(PrintPatch(operations)) == Some(operations)
  {
    hide Printable, Paired, PrintOperations, Feed, InputLines, Unlines, IsText, Finished, Parse, ParseFrom, StepLine;
    OperationsFeed(operations);
    OperationsText(operations);
    var lines := PatchLines(operations);
    assert lines[0] == BEGIN;
    BeginIsText();
    LinesOfPatch(lines);
    var all := lines + [END];
    assert all[1..|all| - 1] == PrintOperations(operations);
    ParseOfLines(PrintPatch(operations), all);
    ParseFeeds(all, 1, |all| - 1, []);
    EndStep(operations);
    LastStep(all, operations);
  }

  lemma {:induction false} ParseOfLines(input: string, lines: seq<string>)
    requires InputLines(input) == lines && |lines| >= 2 && lines[0] == BEGIN && lines[|lines| - 1] == END
    ensures Parse(input) == ParseFrom(lines, 1, [])
  {
    hide InputLines, ParseFrom;
    TrimLeaves(BEGIN);
    TrimLeaves(END);
    hide Trim;
  }

  lemma {:induction false} LastStep(lines: seq<string>, operations: seq<PatchOperation>)
    requires lines != [] && StepLine(operations, lines[|lines| - 1], true) == Finish
    ensures ParseFrom(lines, |lines| - 1, operations) == Some(operations)
  {
    hide StepLine;
  }

  lemma {:induction false} EndStep(operations: seq<PatchOperation>)
    requires Finished(operations)
    ensures StepLine(operations, END, true) == Finish
  {
    TrimLeaves(END);
    TrimEndStart(END);
    Differ("*** Environment ID:", END, 6);
    hide Trim, TrimEnd;
  }
}
