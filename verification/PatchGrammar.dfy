/** The language of patches: which lines `parsePatch` of extensions/builtin-tools/src/patch-format.ts accepts, and what they
    mean, said on the lines as written and not on the loop that reads them. */
module PatchGrammar {
  import opened Outcomes
  import opened SourceText
  import opened PatchApply
  import opened PatchParser

  // ----- What is written

  /** A hunk: the line that opens it and the context named there, its lines, the line that says the file ends here, and blank
      lines after that one. */
  datatype WrittenHunk = WrittenHunk(opening: Option<string>, context: Option<string>, body: seq<string>, closing: Option<string>, blanks: seq<string>)

  datatype Written =
    | WrittenAdd(header: string, path: string, added: seq<string>)
    | WrittenDelete(header: string, path: string)
    | WrittenUpdate(header: string, path: string, move: Option<string>, moveTo: Option<string>, hunks: seq<WrittenHunk>)

  function Only(line: Option<string>): seq<string> { if line.Some? then [line.value] else [] }

  function HunkLines(h: WrittenHunk): seq<string> { Only(h.opening) + h.body + Only(h.closing) + h.blanks }

  function HunksLines(hunks: seq<WrittenHunk>): seq<string> {
    if hunks == [] then [] else HunksLines(hunks[..|hunks| - 1]) + HunkLines(hunks[|hunks| - 1])
  }

  function LinesOf(w: Written): seq<string> {
    match w
    case WrittenAdd(header, _, added) => [header] + Marked(added)
    case WrittenDelete(header, _) => [header]
    case WrittenUpdate(header, _, move, _, hunks) => [header] + Only(move) + HunksLines(hunks)
  }

  function PatchText(ws: seq<Written>): seq<string> {
    if ws == [] then [] else PatchText(ws[..|ws| - 1]) + LinesOf(ws[|ws| - 1])
  }

  // ----- What it means

  /** A context line may be written without its space when nothing follows it. */
  predicate IsContext(line: string) { line == "" || line[0] == ' ' }

  predicate IsAdded(line: string) { line != "" && line[0] == '+' }

  predicate IsRemoved(line: string) { line != "" && line[0] == '-' }

  function TextOf(line: string): string { if line == "" then "" else line[1..] }

  /** The lines a hunk expects: its context lines and the removed ones. */
  function OldSide(body: seq<string>): seq<string> {
    if body == [] then []
    else OldSide(body[..|body| - 1]) + if IsAdded(body[|body| - 1]) then [] else [TextOf(body[|body| - 1])]
  }

  /** The lines it leaves: its context lines and the added ones. */
  function NewSide(body: seq<string>): seq<string> {
    if body == [] then []
    else NewSide(body[..|body| - 1]) + if IsRemoved(body[|body| - 1]) then [] else [TextOf(body[|body| - 1])]
  }

  /** Where its context lines are on either side. */
  function Pairs(body: seq<string>): seq<(nat, nat)> {
    if body == [] then []
    else
      var before := body[..|body| - 1];
      Pairs(before) + if IsContext(body[|body| - 1]) then [(|OldSide(before)|, |NewSide(before)|)] else []
  }

  function HunkOf(h: WrittenHunk): UpdateHunk {
    UpdateHunk(h.context, OldSide(h.body), NewSide(h.body), Pairs(h.body), h.closing.Some?)
  }

  function HunksOf(hunks: seq<WrittenHunk>): (r: seq<UpdateHunk>)
    ensures |r| == |hunks| && forall i | 0 <= i < |hunks| :: r[i] == HunkOf(hunks[i])
  {
    seq(|hunks|, i requires 0 <= i < |hunks| => HunkOf(hunks[i]))
  }

  function OperationOf(w: Written): PatchOperation {
    match w
    case WrittenAdd(_, path, added) => AddFile(path, Unlines(added))
    case WrittenDelete(_, path) => DeleteFile(path)
    case WrittenUpdate(_, path, _, moveTo, hunks) => UpdateFile(path, moveTo, HunksOf(hunks))
  }

  function OperationsOf(ws: seq<Written>): (r: seq<PatchOperation>)
    ensures |r| == |ws| && forall i | 0 <= i < |ws| :: r[i] == OperationOf(ws[i])
  {
    seq(|ws|, i requires 0 <= i < |ws| => OperationOf(ws[i]))
  }

  // ----- What is well written

  predicate PathText(path: string) { path != "" && forall c | c in path :: c !in {'\n', '\r', '\U{2028}', '\U{2029}'} }

  predicate HunkLineText(line: string) { IsContext(line) || IsAdded(line) || IsRemoved(line) }

  predicate OpensHunk(line: string, context: Option<string>) {
    match context
    case None => TrimEnd(line) == "@@"
    case Some(text) => text != "" && TrimEnd(line) == "@@ " + text
  }

  /** Only the first hunk may do without an opening line. A hunk has lines, but for one still being written. */
  predicate GoodHunkText(h: WrittenHunk, first: bool, open: bool) {
    && (if h.opening.Some? then OpensHunk(h.opening.value, h.context) else first && h.context.None?)
    && (forall l | l in h.body :: HunkLineText(l))
    && (h.body == [] ==> open && h.opening.Some? && h.closing.None?)
    && (if h.closing.Some? then TrimEnd(h.closing.value) == EOF else h.blanks == [])
    && forall l | l in h.blanks :: TrimEnd(l) == ""
  }

  predicate GoodHunksText(hunks: seq<WrittenHunk>, open: bool) {
    forall k | 0 <= k < |hunks| :: GoodHunkText(hunks[k], k == 0, open && k == |hunks| - 1)
  }

  function Announcement(w: Written): string {
    match w
    case WrittenAdd(_, _, _) => "*** Add File: "
    case WrittenDelete(_, _) => "*** Delete File: "
    case WrittenUpdate(_, _, _, _, _) => "*** Update File: "
  }

  /** White space before a header is allowed unless an update comes before it. */
  predicate GoodHeader(w: Written, afterUpdate: bool) {
    PathText(w.path) && (if afterUpdate then TrimEnd(w.header) else Trim(w.header)) == Announcement(w) + w.path
  }

  predicate GoodText(w: Written, open: bool) {
    w.WrittenUpdate? ==>
      && (if w.move.Some? then w.moveTo.Some? && TrimEnd(w.move.value) == "*** Move to: " + w.moveTo.value else w.moveTo.None?)
      && (w.hunks == [] ==> open)
      && GoodHunksText(w.hunks, open)
  }

  predicate GoodAt(ws: seq<Written>, k: nat, open: bool)
    requires k < |ws|
  {
    GoodHeader(ws[k], k > 0 && ws[k - 1].WrittenUpdate?) && GoodText(ws[k], open && k == |ws| - 1)
  }

  predicate GoodPatch(ws: seq<Written>, open: bool) { forall k | 0 <= k < |ws| :: GoodAt(ws, k, open) }

  // ----- One hunk line more

  lemma {:induction false} BodyMore(body: seq<string>, line: string)
    ensures OldSide(body + [line]) == OldSide(body) + if IsAdded(line) then [] else [TextOf(line)]
    ensures NewSide(body + [line]) == NewSide(body) + if IsRemoved(line) then [] else [TextOf(line)]
    ensures Pairs(body + [line]) == Pairs(body) + if IsContext(line) then [(|OldSide(body)|, |NewSide(body)|)] else []
  {
    assert (body + [line])[..|body|] == body;
  }

  /** Which lines of a hunk add to which side. */
  lemma {:induction false} HunkLineReads(h: WrittenHunk, line: string)
    requires HunkLineText(line)
    ensures HunkLine(HunkOf(h), line) == HunkOf(h.(body := h.body + [line]))
  {
    BodyMore(h.body, line);
    hide OldSide, NewSide, Pairs;
    assert HunkOf(h).contextLineIndices + [] == HunkOf(h).contextLineIndices;
    assert HunkOf(h).oldLines + [] == HunkOf(h).oldLines && HunkOf(h).newLines + [] == HunkOf(h).newLines;
  }

  /** A hunk has lines exactly if lines are written in it. */
  lemma {:induction false} HunkHasLines(h: WrittenHunk)
    requires forall l | l in h.body :: HunkLineText(l)
    ensures HasLines(HunkOf(h)) <==> h.body != []
  {
    if h.body != [] {
      assert h.body[|h.body| - 1] in h.body;
    }
  }

  // ----- One line of an update more

  function LastHunk(w: Written): WrittenHunk
    requires w.WrittenUpdate? && w.hunks != []
  {
    w.hunks[|w.hunks| - 1]
  }

  function WithHunk(w: Written, h: WrittenHunk): Written
    requires w.WrittenUpdate? && w.hunks != []
  {
    w.(hunks := w.hunks[..|w.hunks| - 1] + [h])
  }

  ghost predicate Moves(w: Written, line: string, more: Written)
    requires w.WrittenUpdate?
  {
    w.hunks == [] && w.move.None? && exists dest :: TrimEnd(line) == MOVE + dest && more == w.(move := Some(line), moveTo := Some(dest))
  }

  ghost predicate Opens(w: Written, line: string, more: Written)
    requires w.WrittenUpdate?
  {
    && (w.hunks != [] ==> LastHunk(w).body != [])
    && exists context :: OpensHunk(line, context) && more == w.(hunks := w.hunks + [WrittenHunk(Some(line), context, [], None, [])])
  }

  ghost predicate Starts(w: Written, line: string, more: Written)
    requires w.WrittenUpdate?
  {
    w.hunks == [] && HunkLineText(line) && more == w.(hunks := [WrittenHunk(None, None, [line], None, [])])
  }

  ghost predicate Fills(w: Written, line: string, more: Written)
    requires w.WrittenUpdate?
  {
    && w.hunks != [] && LastHunk(w).closing.None? && HunkLineText(line)
    && more == WithHunk(w, LastHunk(w).(body := LastHunk(w).body + [line]))
  }

  ghost predicate Closes(w: Written, line: string, more: Written)
    requires w.WrittenUpdate?
  {
    && w.hunks != [] && LastHunk(w).closing.None? && LastHunk(w).body != [] && TrimEnd(line) == EOF
    && more == WithHunk(w, LastHunk(w).(closing := Some(line)))
  }

  ghost predicate Spaces(w: Written, line: string, more: Written)
    requires w.WrittenUpdate?
  {
    && w.hunks != [] && LastHunk(w).closing.Some? && TrimEnd(line) == ""
    && more == WithHunk(w, LastHunk(w).(blanks := LastHunk(w).blanks + [line]))
  }

  /** How a line goes on with an update that is being written. */
  ghost predicate GoesOn(w: Written, line: string, more: Written)
    requires w.WrittenUpdate?
  {
    Moves(w, line, more) || Opens(w, line, more) || Starts(w, line, more) || Fills(w, line, more) || Closes(w, line, more) || Spaces(w, line, more)
  }

  lemma {:induction false} SameLast(w: Written, h: WrittenHunk)
    requires w.WrittenUpdate? && w.hunks != []
    ensures HunksOf(w.hunks) == HunksOf(w.hunks[..|w.hunks| - 1]) + [HunkOf(LastHunk(w))]
    ensures HunksOf(WithHunk(w, h).hunks) == HunksOf(w.hunks[..|w.hunks| - 1]) + [HunkOf(h)]
  {
    hide HunkOf;
  }

  lemma {:induction false} OneHunkMore(hunks: seq<WrittenHunk>, h: WrittenHunk)
    ensures HunksOf(hunks + [h]) == HunksOf(hunks) + [HunkOf(h)]
  {
    hide HunkOf;
  }

  lemma {:induction false} HunkLinesMore(w: Written, h: WrittenHunk, line: string)
    requires w.WrittenUpdate? && w.hunks != [] && HunkLines(h) == HunkLines(LastHunk(w)) + [line]
    ensures LinesOf(WithHunk(w, h)) == LinesOf(w) + [line]
  {
    hide HunkLines;
    var init := w.hunks[..|w.hunks| - 1];
    assert (init + [h])[..|init|] == init;
    assert HunksLines(init + [h]) == HunksLines(w.hunks) + [line];
  }

  lemma {:induction false} HunkLinesFirst(w: Written, h: WrittenHunk, line: string)
    requires w.WrittenUpdate? && HunkLines(h) == [line]
    ensures LinesOf(w.(hunks := w.hunks + [h])) == LinesOf(w) + [line]
  {
    hide HunkLines;
    assert (w.hunks + [h])[..|w.hunks|] == w.hunks;
    assert HunksLines(w.hunks + [h]) == HunksLines(w.hunks) + [line];
  }

  lemma {:induction false} MoveText(w: Written, line: string, more: Written)
    requires w.WrittenUpdate? && Moves(w, line, more)
    ensures LinesOf(more) == LinesOf(w) + [line]
  {
  }

  /** A line that goes on with an update is the one line more. */
  lemma {:induction false} GoesOnText(w: Written, line: string, more: Written)
    requires w.WrittenUpdate? && GoodText(w, true) && GoesOn(w, line, more)
    ensures more.WrittenUpdate? && more.header == w.header && more.path == w.path && LinesOf(more) == LinesOf(w) + [line]
  {
    hide OpensHunk, GoodHunksText, GoodHunkText, HunkLineText, HunkLines, LinesOf, TrimEnd;
    if Moves(w, line, more) {
      MoveText(w, line, more);
    } else if Opens(w, line, more) {
      var context :| more == w.(hunks := w.hunks + [WrittenHunk(Some(line), context, [], None, [])]);
      HeaderHunk(line, context);
      HunkLinesFirst(w, WrittenHunk(Some(line), context, [], None, []), line);
    } else if Starts(w, line, more) {
      FirstLine(line);
      HunkLinesFirst(w, WrittenHunk(None, None, [line], None, []), line);
      assert w.hunks + more.hunks == more.hunks;
    } else {
      LastGood(w, true);
      LineAdded(LastHunk(w), line);
      HunkLinesMore(w, LastHunk(more), line);
    }
  }

  lemma {:induction false} HeaderHunk(line: string, context: Option<string>)
    ensures HunkLines(WrittenHunk(Some(line), context, [], None, [])) == [line]
  {
  }

  lemma {:induction false} FirstLine(line: string)
    ensures HunkLines(WrittenHunk(None, None, [line], None, [])) == [line]
  {
  }

  lemma {:induction false} LastGood(w: Written, open: bool)
    requires w.WrittenUpdate? && w.hunks != [] && GoodText(w, open)
    ensures GoodHunkText(LastHunk(w), |w.hunks| == 1, open)
    ensures GoodHunksText(w.hunks[..|w.hunks| - 1], false)
    ensures LastHunk(w).closing.None? ==> LastHunk(w).blanks == []
    ensures forall l | l in LastHunk(w).body :: HunkLineText(l)
  {
    hide HunkLineText, OpensHunk;
    assert GoodHunkText(LastHunk(w), |w.hunks| == 1, open);
  }

  lemma {:induction false} LineAdded(h: WrittenHunk, line: string)
    requires h.closing.None? ==> h.blanks == []
    ensures h.closing.None? ==> HunkLines(h.(body := h.body + [line])) == HunkLines(h) + [line] && HunkLines(h.(closing := Some(line))) == HunkLines(h) + [line]
    ensures h.closing.Some? ==> HunkLines(h.(blanks := h.blanks + [line])) == HunkLines(h) + [line]
  {
  }

  lemma {:induction false} HunkMore(hunks: seq<WrittenHunk>, h: WrittenHunk, open: bool)
    requires GoodHunksText(hunks, false) && GoodHunkText(h, hunks == [], open)
    ensures GoodHunksText(hunks + [h], open)
  {
    hide GoodHunkText;
  }

  lemma {:induction false} NoHunks()
    ensures GoodHunksText([], false)
  {
  }

  /** What a line of an update goes on with is well written again. */
  lemma {:induction false} GoesOnGood(w: Written, line: string, more: Written)
    requires w.WrittenUpdate? && GoodText(w, true) && GoesOn(w, line, more)
    ensures more.WrittenUpdate? && GoodText(more, true)
  {
    hide OpensHunk, HunkLineText, GoodHunksText;
    if Moves(w, line, more) {
    } else if Opens(w, line, more) {
      var context :| OpensHunk(line, context) && more == w.(hunks := w.hunks + [WrittenHunk(Some(line), context, [], None, [])]);
      AllDone(w.hunks);
      HunkMore(w.hunks, WrittenHunk(Some(line), context, [], None, []), true);
    } else if Starts(w, line, more) {
      NoHunks();
      HunkMore([], WrittenHunk(None, None, [line], None, []), true);
      assert [] + more.hunks == more.hunks;
    } else {
      LastGood(w, true);
      HunkMore(w.hunks[..|w.hunks| - 1], LastHunk(more), true);
    }
  }

  lemma {:induction false} AllDone(hunks: seq<WrittenHunk>)
    requires GoodHunksText(hunks, true) && (hunks != [] ==> hunks[|hunks| - 1].body != [])
    ensures GoodHunksText(hunks, false)
  {
    hide OpensHunk, HunkLineText;
    forall k | 0 <= k < |hunks| ensures GoodHunkText(hunks[k], k == 0, false) {
      assert GoodHunkText(hunks[k], k == 0, k == |hunks| - 1);
    }
  }

  // ----- An update and the parser's loop

  /** Each line that goes on with an update is read as what it means. */
  lemma {:induction false} GoesOnIsRead(operations: seq<PatchOperation>, w: Written, line: string, more: Written)
    requires w.WrittenUpdate? && GoodText(w, true) && GoesOn(w, line, more)
    ensures more.WrittenUpdate? && StepLine(operations + [OperationOf(w)], line, false) == Next(operations + [OperationOf(more)])
  {
    hide StepLine, OpensHunk, HunkLineText, HunkOf, HasLines, GoodHunkText, TrimEnd;
    if Moves(w, line, more) {
      MoveIsRead(operations, w, line, more);
    } else if Opens(w, line, more) {
      OpeningIsRead(operations, w, line, more);
    } else if Starts(w, line, more) {
      StartIsRead(operations, w, line, more);
    } else if Fills(w, line, more) {
      FillIsRead(operations, w, line, more);
    } else if Closes(w, line, more) {
      ClosingIsRead(operations, w, line, more);
    } else {
      SpaceIsRead(operations, w, line, more);
    }
  }

  lemma {:induction false} MoveIsRead(operations: seq<PatchOperation>, w: Written, line: string, more: Written)
    requires w.WrittenUpdate? && GoodText(w, true) && Moves(w, line, more)
    ensures more.WrittenUpdate? && StepLine(operations + [OperationOf(w)], line, false) == Next(operations + [OperationOf(more)])
  {
    var dest :| TrimEnd(line) == MOVE + dest && more == w.(move := Some(line), moveTo := Some(dest));
    hide StepLine, TrimEnd;
    assert HunksOf(w.hunks) == [];
    MoveStep(operations, w.path, line, dest);
  }

  lemma {:induction false} OpeningIsRead(operations: seq<PatchOperation>, w: Written, line: string, more: Written)
    requires w.WrittenUpdate? && GoodText(w, true) && Opens(w, line, more)
    ensures more.WrittenUpdate? && StepLine(operations + [OperationOf(w)], line, false) == Next(operations + [OperationOf(more)])
  {
    var context :| OpensHunk(line, context) && more == w.(hunks := w.hunks + [WrittenHunk(Some(line), context, [], None, [])]);
    var h := WrittenHunk(Some(line), context, [], None, []);
    OneHunkMore(w.hunks, h);
    if w.hunks != [] {
      LastGood(w, true);
      HunkHasLines(LastHunk(w));
    }
    assert HunkOf(h) == NO_LINES.(context := context);
    hide StepLine, TrimEnd, HasLines, HunkOf;
    OpenStep(operations, w.path, w.moveTo, HunksOf(w.hunks), line, context);
  }

  lemma {:induction false} HunkLineMark(line: string)
    ensures HunkLineText(line) <==> line == "" || line[0] in {' ', '+', '-'}
  {
  }

  lemma {:induction false} StartIsRead(operations: seq<PatchOperation>, w: Written, line: string, more: Written)
    requires w.WrittenUpdate? && Starts(w, line, more)
    ensures more.WrittenUpdate? && StepLine(operations + [OperationOf(w)], line, false) == Next(operations + [OperationOf(more)])
  {
    var h := WrittenHunk(None, None, [], None, []);
    HunkLineReads(h, line);
    OneHunkMore([], h.(body := [line]));
    assert h.body + [line] == [line] && [] + more.hunks == more.hunks;
    assert HunkOf(h) == NO_LINES && HunksOf([]) == [];
    assert HunksOf(more.hunks) == [HunkLine(NO_LINES, line)];
    HunkLineMark(line);
    hide StepLine, TrimEnd, HunkOf, HunkLine;
    StartStep(operations, w.path, w.moveTo, line);
  }

  lemma {:induction false} FillIsRead(operations: seq<PatchOperation>, w: Written, line: string, more: Written)
    requires w.WrittenUpdate? && Fills(w, line, more)
    ensures more.WrittenUpdate? && StepLine(operations + [OperationOf(w)], line, false) == Next(operations + [OperationOf(more)])
  {
    HunkLineReads(LastHunk(w), line);
    SameLast(w, LastHunk(more));
    HunkLineMark(line);
    assert !HunkOf(LastHunk(w)).endOfFile;
    hide StepLine, TrimEnd, HunkOf, HunkLine;
    BodyStep(operations, w.path, w.moveTo, HunksOf(w.hunks[..|w.hunks| - 1]), HunkOf(LastHunk(w)), line);
  }

  lemma {:induction false} ClosingIsRead(operations: seq<PatchOperation>, w: Written, line: string, more: Written)
    requires w.WrittenUpdate? && GoodText(w, true) && Closes(w, line, more)
    ensures more.WrittenUpdate? && StepLine(operations + [OperationOf(w)], line, false) == Next(operations + [OperationOf(more)])
  {
    LastGood(w, true);
    HunkHasLines(LastHunk(w));
    SameLast(w, LastHunk(more));
    assert HunkOf(LastHunk(more)) == HunkOf(LastHunk(w)).(endOfFile := true) && !HunkOf(LastHunk(w)).endOfFile;
    hide StepLine, TrimEnd, HunkOf, HasLines;
    EofStep(operations, w.path, w.moveTo, HunksOf(w.hunks[..|w.hunks| - 1]), HunkOf(LastHunk(w)), line);
  }

  lemma {:induction false} SpaceIsRead(operations: seq<PatchOperation>, w: Written, line: string, more: Written)
    requires w.WrittenUpdate? && Spaces(w, line, more)
    ensures more.WrittenUpdate? && StepLine(operations + [OperationOf(w)], line, false) == Next(operations + [OperationOf(more)])
  {
    SameLast(w, LastHunk(more));
    assert HunkOf(LastHunk(more)) == HunkOf(LastHunk(w)) && HunkOf(LastHunk(w)).endOfFile;
    hide StepLine, TrimEnd, HunkOf;
    SpaceStep(operations, w.path, w.moveTo, HunksOf(w.hunks[..|w.hunks| - 1]), HunkOf(LastHunk(w)), line);
  }

  lemma {:induction false} StartStep(operations: seq<PatchOperation>, path: string, moveTo: Option<string>, line: string)
    requires line == "" || line[0] in {' ', '+', '-'}
    ensures StepLine(Open(operations, path, moveTo, []), line, false) == Next(Open(operations, path, moveTo, [HunkLine(NO_LINES, line)]))
  {
    BodyMarker(line);
    var marker := TrimEnd(line);
    NoMarker(marker);
    Differ("@@ ", marker, 0);
    Differ("@@", marker, 0);
    WithLastOf(operations, UpdateFile(path, moveTo, []), UpdateFile(path, moveTo, [HunkLine(NO_LINES, line)]));
    assert UpdateLine(UpdateFile(path, moveTo, []), line, marker) == Some(UpdateFile(path, moveTo, [HunkLine(NO_LINES, line)])) by {
      hide TrimEnd, HunkLine;
    }
    hide TrimEnd, Trim, HeaderOf, Finished, UpdateLine, HunkLine;
  }

  lemma {:induction false} SpaceStep(operations: seq<PatchOperation>, path: string, moveTo: Option<string>, hunks: seq<UpdateHunk>, h: UpdateHunk, line: string)
    requires h.endOfFile && TrimEnd(line) == ""
    ensures StepLine(Open(operations, path, moveTo, hunks + [h]), line, false) == Next(Open(operations, path, moveTo, hunks + [h]))
  {
    NoMarker("");
    var u := UpdateFile(path, moveTo, hunks + [h]);
    WithLastOf(operations, u, u);
    hide TrimEnd, Trim, HeaderOf, Finished;
  }

  /** And no other line of an update is accepted. */
  lemma {:induction false} AcceptedGoesOn(w: Written, line: string) returns (more: Written)
    requires w.WrittenUpdate? && GoodText(w, true) && UpdateLine(OperationOf(w), line, TrimEnd(line)).Some?
    ensures GoesOn(w, line, more) && UpdateLine(OperationOf(w), line, TrimEnd(line)) == Some(OperationOf(more))
  {
    hide TrimEnd, GoodHunkText, HunkOf, HunkLine, HasLines, HeaderOf;
    var marker := TrimEnd(line);
    if w.hunks == [] {
      more := AcceptedFirst(w, line);
    } else {
      more := AcceptedNext(w, line);
    }
  }

  lemma {:induction false} OpeningAccepted(w: Written, line: string) returns (more: Written)
    requires w.WrittenUpdate? && (TrimEnd(line) == "@@" || StartsWith(TrimEnd(line), "@@ "))
    requires w.hunks != [] ==> LastHunk(w).body != []
    ensures Opens(w, line, more)
    ensures more.WrittenUpdate? && HunksOf(more.hunks) == HunksOf(w.hunks) + [NO_LINES.(context := if TrimEnd(line) == "@@" then None else Some(TrimEnd(line)[3..]))]
    ensures more.path == w.path && more.moveTo == w.moveTo
  {
    var marker := TrimEnd(line);
    var context := if marker == "@@" then None else Some(marker[3..]);
    if marker != "@@" {
      TrimmedOpening(line);
      assert marker == "@@ " + marker[3..];
    }
    var h := WrittenHunk(Some(line), context, [], None, []);
    more := w.(hunks := w.hunks + [h]);
    assert HunkOf(h) == NO_LINES.(context := context);
    OneHunkMore(w.hunks, h);
    assert OpensHunk(line, context);
  }

  /** A trimmed line is more than the marker of a hunk and its space. */
  lemma {:induction false} TrimmedOpening(line: string)
    requires StartsWith(TrimEnd(line), "@@ ")
    ensures |TrimEnd(line)| > 3
  {
    EndNotSpace(line);
  }

  lemma {:induction false} EndNotSpace(s: string)
    ensures TrimEnd(s) == "" || !IsSpace(TrimEnd(s)[|TrimEnd(s)| - 1])
  {
    if s != "" && IsSpace(s[|s| - 1]) {
      EndNotSpace(s[..|s| - 1]);
    }
  }

  lemma {:induction false} AcceptedFirst(w: Written, line: string) returns (more: Written)
    requires w.WrittenUpdate? && w.hunks == [] && UpdateLine(OperationOf(w), line, TrimEnd(line)).Some? && GoodText(w, true)
    ensures GoesOn(w, line, more) && UpdateLine(OperationOf(w), line, TrimEnd(line)) == Some(OperationOf(more))
  {
    assert HunkOf(WrittenHunk(None, None, [], None, [])) == NO_LINES;
    hide TrimEnd, HunkOf, HunkLine, HasLines;
    var marker := TrimEnd(line);
    assert HunksOf(w.hunks) == [];
    if w.moveTo.None? && StartsWith(marker, MOVE) {
      more := w.(move := Some(line), moveTo := Some(marker[|MOVE|..]));
      assert TrimEnd(line) == MOVE + marker[|MOVE|..];
      assert Moves(w, line, more);
    } else if marker == "@@" || StartsWith(marker, "@@ ") {
      more := OpeningAccepted(w, line);
      assert OperationOf(more) == OperationOf(w).(hunks := HunksOf(more.hunks));
    } else {
      HunkLineMark(line);
      var h := WrittenHunk(None, None, [], None, []);
      HunkLineReads(h, line);
      OneHunkMore([], h.(body := h.body + [line]));
      assert h.body + [line] == [line];
      more := w.(hunks := [WrittenHunk(None, None, [line], None, [])]);
      assert [] + more.hunks == more.hunks;
      assert HunksOf(more.hunks) == [HunkLine(NO_LINES, line)];
      assert Starts(w, line, more);
    }
  }

  lemma {:induction false} AcceptedNext(w: Written, line: string) returns (more: Written)
    requires w.WrittenUpdate? && w.hunks != [] && UpdateLine(OperationOf(w), line, TrimEnd(line)).Some? && GoodText(w, true)
    ensures GoesOn(w, line, more) && UpdateLine(OperationOf(w), line, TrimEnd(line)) == Some(OperationOf(more))
  {
    hide TrimEnd, HunkLine, HasLines, OldSide, NewSide, Pairs, GoodHunksText, HunkLineText;
    var marker, h := TrimEnd(line), LastHunk(w);
    LastGood(w, true);
    HunkHasLines(h);
    SameLast(w, h);
    assert HunksOf(w.hunks)[|w.hunks| - 1] == HunkOf(h);
    if h.closing.Some? && marker == "" {
      more := WithHunk(w, h.(blanks := h.blanks + [line]));
      SameLast(w, LastHunk(more));
      assert Spaces(w, line, more);
    } else if marker == "@@" || StartsWith(marker, "@@ ") {
      more := OpeningAccepted(w, line);
    } else if marker == EOF {
      more := WithHunk(w, h.(closing := Some(line)));
      SameLast(w, LastHunk(more));
      assert Closes(w, line, more);
    } else {
      HunkLineMark(line);
      HunkLineReads(h, line);
      more := WithHunk(w, h.(body := h.body + [line]));
      SameLast(w, LastHunk(more));
      assert Fills(w, line, more);
    }
  }

  // ----- The last line of an update

  predicate Begun(w: Written) { w.WrittenUpdate? && w.move.None? && w.hunks == [] }

  /** Taking the last line off an update that is more than its header. */
  lemma {:induction false} LastLineOf(more: Written) returns (w: Written, line: string)
    requires more.WrittenUpdate? && !Begun(more) && GoodText(more, true)
    ensures w.WrittenUpdate? && w.header == more.header && w.path == more.path && GoodText(w, true) && GoesOn(w, line, more)
  {
    hide TrimEnd, OpensHunk, HunkLineText;
    if more.hunks == [] {
      w, line := more.(move := None, moveTo := None), more.move.value;
      assert Moves(w, line, more);
    } else {
      LastGood(more, true);
      var init, h := more.hunks[..|more.hunks| - 1], LastHunk(more);
      assert init + [h] == more.hunks;
      if h.body == [] || (h.closing.None? && h.opening.None? && |h.body| == 1) {
        w := more.(hunks := init);
        line := if h.body == [] then h.opening.value else h.body[0];
        FirstLineOff(w, line, more);
      } else {
        var before;
        before, line := LastLineOfHunk(h);
        w := more.(hunks := init + [before]);
        LineOff(w, line, more, before);
      }
    }
  }

  lemma {:induction false} StillOpen(hunks: seq<WrittenHunk>)
    requires GoodHunksText(hunks, false)
    ensures GoodHunksText(hunks, true) && (hunks != [] ==> hunks[|hunks| - 1].body != [])
  {
    hide OpensHunk, HunkLineText;
  }

  lemma {:induction false} FirstLineOff(w: Written, line: string, more: Written)
    requires more.WrittenUpdate? && more.hunks != [] && GoodText(more, true) && w == more.(hunks := more.hunks[..|more.hunks| - 1])
    requires || (LastHunk(more).body == [] && LastHunk(more).opening == Some(line))
             || (LastHunk(more).body == [line] && LastHunk(more).closing.None? && LastHunk(more).opening.None?)
    ensures GoodText(w, true) && GoesOn(w, line, more)
  {
    LastGood(more, true);
    StillOpen(w.hunks);
    hide TrimEnd, OpensHunk, HunkLineText, GoodHunksText;
    var h := LastHunk(more);
    assert more.hunks == w.hunks + [h];
    if h.body == [] {
      assert h == WrittenHunk(Some(line), h.context, [], None, []);
      assert Opens(w, line, more);
    } else {
      assert w.hunks == [] && h == WrittenHunk(None, None, [line], None, []) && line in h.body;
      assert Starts(w, line, more);
    }
  }

  lemma {:induction false} LineOff(w: Written, line: string, more: Written, before: WrittenHunk)
    requires more.WrittenUpdate? && more.hunks != [] && GoodText(more, true) && w == WithHunk(more, before)
    requires var h := LastHunk(more);
             && h.body != [] && !(h.closing.None? && h.opening.None? && |h.body| == 1)
             && if h.blanks != [] then before == h.(blanks := h.blanks[..|h.blanks| - 1]) && h == before.(blanks := before.blanks + [line])
                else if h.closing.Some? then before == h.(closing := None) && h == before.(closing := Some(line))
                else before == h.(body := h.body[..|h.body| - 1]) && h == before.(body := before.body + [line])
    ensures GoodText(w, true) && GoesOn(w, line, more)
  {
    LastGood(more, true);
    var init, h := more.hunks[..|more.hunks| - 1], LastHunk(more);
    hide TrimEnd, OpensHunk, HunkLineText, GoodHunksText;
    assert GoodHunkText(before, init == [], true);
    HunkMore(init, before, true);
    assert w.hunks[..|init|] == init && more.hunks == init + [h];
    if h.blanks != [] {
      assert line in h.blanks;
      assert Spaces(w, line, more);
    } else if h.closing.Some? {
      assert Closes(w, line, more);
    } else {
      assert line in h.body;
      assert Fills(w, line, more);
    }
  }

  /** Taking the last line off a hunk that is more than its first line. */
  lemma {:induction false} LastLineOfHunk(h: WrittenHunk) returns (before: WrittenHunk, line: string)
    requires h.body != [] && !(h.closing.None? && h.opening.None? && |h.body| == 1)
    requires h.closing.None? ==> h.blanks == []
    ensures before == if h.blanks != [] then h.(blanks := h.blanks[..|h.blanks| - 1]) else if h.closing.Some? then h.(closing := None) else h.(body := h.body[..|h.body| - 1])
    ensures if h.blanks != [] then h == before.(blanks := before.blanks + [line]) else if h.closing.Some? then h == before.(closing := Some(line)) else h == before.(body := before.body + [line])
  {
    if h.blanks != [] {
      before, line := h.(blanks := h.blanks[..|h.blanks| - 1]), h.blanks[|h.blanks| - 1];
    } else if h.closing.Some? {
      before, line := h.(closing := None), h.closing.value;
    } else {
      before, line := h.(body := h.body[..|h.body| - 1]), h.body[|h.body| - 1];
    }
  }

  // ----- One line of a patch more

  /** An operation of which only the header is written. */
  predicate Headed(w: Written) {
    match w
    case WrittenAdd(_, _, added) => added == []
    case WrittenDelete(_, _) => true
    case WrittenUpdate(_, _, move, moveTo, hunks) => move.None? && moveTo.None? && hunks == []
  }

  /** How a line goes on with an operation that is being written. */
  ghost predicate Continues(w: Written, line: string, more: Written) {
    match w
    case WrittenAdd(header, path, added) => IsAdded(line) && more == WrittenAdd(header, path, added + [line[1..]])
    case WrittenDelete(_, _) => false
    case WrittenUpdate(_, _, _, _, _) => GoesOn(w, line, more)
  }

  lemma {:induction false} UnlinesMore(lines: seq<string>, line: string)
    ensures Unlines(lines + [line]) == Unlines(lines) + line + "\n"
    decreases lines
  {
    if lines != [] {
      UnlinesMore(lines[1..], line);
      assert (lines + [line])[1..] == lines[1..] + [line];
    }
  }

  lemma {:induction false} ContinuesIsRead(operations: seq<PatchOperation>, w: Written, line: string, more: Written)
    requires GoodText(w, true) && Continues(w, line, more)
    ensures StepLine(operations + [OperationOf(w)], line, false) == Next(operations + [OperationOf(more)])
  {
    hide StepLine, GoesOn, GoodText;
    if w.WrittenAdd? {
      UnlinesMore(w.added, line[1..]);
      MarkedStep(operations, w.path, Unlines(w.added), line[1..]);
      assert line == "+" + line[1..];
    } else {
      GoesOnIsRead(operations, w, line, more);
    }
  }

  lemma {:induction false} ContinuesText(w: Written, line: string, more: Written)
    requires GoodText(w, true) && Continues(w, line, more)
    ensures more.header == w.header && more.path == w.path && LinesOf(more) == LinesOf(w) + [line]
    ensures GoodText(more, true) && more.WrittenUpdate? == w.WrittenUpdate? && Announcement(more) == Announcement(w)
  {
    if w.WrittenAdd? {
      assert line == "+" + line[1..];
      assert Marked(w.added + [line[1..]]) == Marked(w.added) + [line];
    } else {
      GoesOnText(w, line, more);
      GoesOnGood(w, line, more);
      hide GoesOn, GoodText, LinesOf;
    }
  }

  lemma {:induction false} AcceptedContinues(operations: seq<PatchOperation>, w: Written, line: string) returns (more: Written)
    requires GoodText(w, true) && StepLine(operations + [OperationOf(w)], line, false).Next?
    requires HeaderOf(if w.WrittenUpdate? then TrimEnd(line) else Trim(line)) == None
    ensures Continues(w, line, more)
  {
    hide UpdateLine, Trim, TrimEnd, HeaderOf, GoodText, GoesOn, Finished, HunksOf;
    if w.WrittenAdd? {
      more := WrittenAdd(w.header, w.path, w.added + [line[1..]]);
    } else {
      more := AcceptedGoesOn(w, line);
    }
  }

  /** Taking the last line off an operation that is more than its header. */
  lemma {:induction false} LastLineOff(more: Written) returns (w: Written, line: string)
    requires GoodText(more, true) && !Headed(more)
    ensures GoodText(w, true) && Continues(w, line, more)
  {
    if more.WrittenAdd? {
      var n := |more.added| - 1;
      w, line := more.(added := more.added[..n]), "+" + more.added[n];
      assert line[1..] == more.added[n] && w.added + [more.added[n]] == more.added;
    } else {
      hide GoesOn, GoodHunksText;
      w, line := LastLineOf(more);
    }
  }

  /** A header line starts an operation of which nothing else is written. */
  lemma {:induction false} HeaderAccepted(line: string, marker: string) returns (w: Written)
    requires HeaderOf(marker).Some?
    ensures w.header == line && Headed(w) && PathText(w.path) && marker == Announcement(w) + w.path && HeaderOf(marker) == Some(OperationOf(w))
  {
    if After(marker, ADD).Some? {
      w := WrittenAdd(line, After(marker, ADD).value, []);
    } else if After(marker, DELETE).Some? {
      w := WrittenDelete(line, After(marker, DELETE).value);
    } else {
      w := WrittenUpdate(line, After(marker, UPDATE).value, None, None, []);
      assert HunksOf([]) == [];
    }
  }

  lemma {:induction false} PathIsOneLine(path: string)
    requires PathText(path)
    ensures OneLine(path)
  {
  }

  lemma {:induction false} HeaderIsRead(operations: seq<PatchOperation>, w: Written)
    requires Headed(w) && Finished(operations) && GoodHeader(w, operations != [] && operations[|operations| - 1].UpdateFile?)
    ensures StepLine(operations, w.header, false) == Next(operations + [OperationOf(w)])
  {
    hide StepLine, Trim, TrimEnd, Finished, HeaderOf, PathText, OneLine;
    PathIsOneLine(w.path);
    HeaderRead(OperationOf(w));
    assert HunksOf([]) == [] && Unlines([]) == "";
    HeaderStep(operations, w.header, Announcement(w), w.path, OperationOf(w));
  }

  // ----- Whole patches

  lemma {:induction false} OneMore(ws: seq<Written>, w: Written)
    ensures PatchText(ws + [w]) == PatchText(ws) + LinesOf(w) && OperationsOf(ws + [w]) == OperationsOf(ws) + [OperationOf(w)]
  {
    assert (ws + [w])[..|ws|] == ws;
  }

  predicate AfterUpdate(ws: seq<Written>) { ws != [] && ws[|ws| - 1].WrittenUpdate? }

  lemma {:induction false} OneMoreGood(ws: seq<Written>, w: Written, open: bool)
    ensures GoodPatch(ws + [w], open) <==> GoodPatch(ws, false) && GoodHeader(w, AfterUpdate(ws)) && GoodText(w, open)
  {
    hide GoodHeader, GoodText;
    var all := ws + [w];
    forall k | 0 <= k < |ws| ensures GoodAt(all, k, open) == GoodAt(ws, k, false) {
      assert all[k] == ws[k] && (k > 0 ==> all[k - 1] == ws[k - 1]);
    }
    assert all[|ws|] == w && GoodAt(all, |ws|, open) == (GoodHeader(w, AfterUpdate(ws)) && GoodText(w, open));
    if GoodPatch(all, open) {
      assert GoodAt(all, |ws|, open);
    }
  }

  /** A patch text is finished exactly if its last update is. */
  lemma {:induction false} FinishedText(ws: seq<Written>)
    requires GoodPatch(ws, true)
    ensures Finished(OperationsOf(ws)) <==> GoodPatch(ws, false)
  {
    hide GoodHeader, HasLines, HunkOf, OpensHunk, HunkLineText;
    if ws != [] {
      var init, w := ws[..|ws| - 1], ws[|ws| - 1];
      assert ws == init + [w];
      OneMoreGood(init, w, true);
      OneMoreGood(init, w, false);
      hide GoodPatch;
      if w.WrittenUpdate? && w.hunks != [] {
        LastGood(w, true);
        HunkHasLines(LastHunk(w));
        FinishedUpdate(w);
      }
    }
  }

  lemma {:induction false} FinishedUpdate(w: Written)
    requires w.WrittenUpdate? && w.hunks != [] && GoodText(w, true)
    ensures GoodText(w, false) <==> LastHunk(w).body != []
  {
    hide OpensHunk, HunkLineText;
    if LastHunk(w).body != [] {
      AllDone(w.hunks);
    }
  }

  lemma {:induction false} FeedMore(operations: seq<PatchOperation>, lines: seq<string>, line: string)
    ensures Feed(operations, lines + [line]) ==
              match Feed(operations, lines) case None => None case Some(mid) => match StepLine(mid, line, false) case Next(more) => Some(more) case _ => None
  {
    FeedConcat(operations, lines, [line]);
    hide Feed, StepLine;
    if Feed(operations, lines).Some? {
      FeedOne(Feed(operations, lines).value, line);
    }
  }

  lemma {:induction false} StillOpenPatch(ws: seq<Written>)
    requires GoodPatch(ws, false)
    ensures GoodPatch(ws, true)
  {
    hide GoodHeader, OpensHunk, HunkLineText, TrimEnd;
    forall k | 0 <= k < |ws| ensures GoodAt(ws, k, true) {
      assert GoodAt(ws, k, false);
      if ws[k].WrittenUpdate? {
        StillOpen(ws[k].hunks);
      }
    }
  }

  lemma {:induction false} HeadedText(w: Written)
    requires Headed(w)
    ensures LinesOf(w) == [w.header]
  {
    assert Marked([]) == [] && HunksLines([]) == [];
  }

  lemma {:induction false} HeadedIsRead(init: seq<Written>, w: Written)
    requires Headed(w) && GoodPatch(init, false) && GoodHeader(w, AfterUpdate(init))
    ensures StepLine(OperationsOf(init), w.header, false) == Next(OperationsOf(init) + [OperationOf(w)])
  {
    hide StepLine, Finished, GoodHeader, GoodPatch, Headed;
    StillOpenPatch(init);
    FinishedText(init);
    UpdateLast(init);
    HeaderIsRead(OperationsOf(init), w);
  }

  lemma {:induction false} UpdateLast(ws: seq<Written>)
    ensures AfterUpdate(ws) <==> OperationsOf(ws) != [] && OperationsOf(ws)[|ws| - 1].UpdateFile?
  {
  }

  /** A line that goes on with the last operation of a patch. */
  lemma {:induction false} LineIsRead(init: seq<Written>, w: Written, line: string, more: Written)
    requires GoodPatch(init, false) && GoodText(w, true) && Continues(w, line, more)
    ensures PatchText(init + [more]) == PatchText(init + [w]) + [line]
    ensures GoodHeader(w, AfterUpdate(init)) ==> GoodPatch(init + [w], true) && GoodPatch(init + [more], true)
    ensures GoodHeader(more, AfterUpdate(init)) ==> GoodPatch(init + [w], true)
    ensures StepLine(OperationsOf(init + [w]), line, false) == Next(OperationsOf(init + [more]))
  {
    hide *;
    ContinuesText(w, line, more);
    OneMore(init, w);
    OneMore(init, more);
    SameHeader(w, more, AfterUpdate(init));
    OneMoreGood(init, w, true);
    OneMoreGood(init, more, true);
    ContinuesIsRead(OperationsOf(init), w, line, more);
    assert PatchText(init) + (LinesOf(w) + [line]) == PatchText(init) + LinesOf(w) + [line];
  }

  lemma {:induction false} SameHeader(w: Written, more: Written, afterUpdate: bool)
    requires w.header == more.header && w.path == more.path && Announcement(w) == Announcement(more)
    ensures GoodHeader(w, afterUpdate) == GoodHeader(more, afterUpdate)
  {
  }

  /** A well written patch is read as what it means, also one that is not complete yet. */
  lemma {:induction false} WrittenIsRead(ws: seq<Written>)
    requires GoodPatch(ws, true)
    ensures Feed([], PatchText(ws)) == Some(OperationsOf(ws))
    decreases |PatchText(ws)|
  {
    hide Feed, StepLine, GoodPatch, GoodHeader, GoodText, Continues, OperationOf, Finished;
    if ws == [] {
      FeedNothing([]);
    } else {
      var init, w := ws[..|ws| - 1], ws[|ws| - 1];
      assert ws == init + [w];
      OneMoreGood(init, w, true);
      OneMore(init, w);
      if Headed(w) {
        StillOpenPatch(init);
        HeadedText(w);
        WrittenIsRead(init);
        HeadedIsRead(init, w);
        FeedMore([], PatchText(init), w.header);
      } else {
        var before, line := LastLineOff(w);
        LineIsRead(init, before, line, w);
        WrittenIsRead(init + [before]);
        FeedMore([], PatchText(init + [before]), line);
      }
    }
  }

  /** Whatever the loop accepts is written that way. */
  lemma {:induction false} AcceptedIsWritten(lines: seq<string>) returns (ws: seq<Written>)
    requires Feed([], lines).Some?
    ensures GoodPatch(ws, true) && PatchText(ws) == lines && Feed([], lines) == Some(OperationsOf(ws))
    decreases |lines|
  {
    hide Feed, StepLine, PatchText, GoodPatch, OperationsOf;
    if lines == [] {
      FeedNothing([]);
      ws := NothingWritten();
    } else {
      var before, line := lines[..|lines| - 1], lines[|lines| - 1];
      assert lines == before + [line];
      FeedMore([], before, line);
      var some := AcceptedIsWritten(before);
      ws := LineIsWritten(some, line);
    }
  }

  lemma {:induction false} NothingWritten() returns (ws: seq<Written>)
    ensures GoodPatch(ws, true) && PatchText(ws) == [] && OperationsOf(ws) == []
  {
    ws := [];
  }

  lemma {:induction false} LineIsWritten(ws: seq<Written>, line: string) returns (all: seq<Written>)
    requires GoodPatch(ws, true) && StepLine(OperationsOf(ws), line, false).Next?
    ensures GoodPatch(all, true) && PatchText(all) == PatchText(ws) + [line] && StepLine(OperationsOf(ws), line, false) == Next(OperationsOf(all))
  {
    var marker := if AfterUpdate(ws) then TrimEnd(line) else Trim(line);
    if HeaderOf(marker).Some? {
      all := HeaderIsWritten(ws, line);
    } else {
      all := MoreIsWritten(ws, line);
    }
    hide StepLine, GoodPatch, PatchText, OperationsOf;
  }

  lemma {:induction false} HeaderIsWritten(ws: seq<Written>, line: string) returns (all: seq<Written>)
    requires GoodPatch(ws, true) && StepLine(OperationsOf(ws), line, false).Next?
    requires HeaderOf(if AfterUpdate(ws) then TrimEnd(line) else Trim(line)).Some?
    ensures GoodPatch(all, true) && PatchText(all) == PatchText(ws) + [line] && StepLine(OperationsOf(ws), line, false) == Next(OperationsOf(all))
  {
    hide Trim, TrimEnd, HeaderOf, Finished, GoodPatch, PatchText, UpdateLine;
    assert AfterUpdate(ws) == (OperationsOf(ws) != [] && OperationsOf(ws)[|ws| - 1].UpdateFile?);
    var marker := if AfterUpdate(ws) then TrimEnd(line) else Trim(line);
    var w := HeaderAccepted(line, marker);
    all := ws + [w];
    FinishedText(ws);
    OneMoreGood(ws, w, true);
    HeadedText(w);
    OneMore(ws, w);
    HeadedGood(w);
  }

  lemma {:induction false} HeadedGood(w: Written)
    requires Headed(w)
    ensures GoodText(w, true)
  {
  }

  lemma {:induction false} MoreIsWritten(ws: seq<Written>, line: string) returns (all: seq<Written>)
    requires GoodPatch(ws, true) && StepLine(OperationsOf(ws), line, false).Next?
    requires HeaderOf(if AfterUpdate(ws) then TrimEnd(line) else Trim(line)) == None
    ensures GoodPatch(all, true) && PatchText(all) == PatchText(ws) + [line] && StepLine(OperationsOf(ws), line, false) == Next(OperationsOf(all))
  {
    hide Trim, TrimEnd, HeaderOf, Finished, GoodPatch, PatchText, UpdateLine, GoodText, GoodHeader, Continues, OperationOf;
    assert ws != [];
    var init, w := ws[..|ws| - 1], ws[|ws| - 1];
    assert ws == init + [w];
    OneMore(init, w);
    OneMoreGood(init, w, true);
    hide StepLine;
    var more := AcceptedContinues(OperationsOf(init), w, line);
    LineIsRead(init, w, line, more);
    all := init + [more];
  }

  // ----- The text of a patch

  /** A patch may come as a here-document, with the line that starts it and the one that ends it. */
  ghost predicate IsHereDocument(lines: seq<string>) {
    |lines| >= 2 && lines[0] in {"<<EOF", "<<'EOF'", "<<\"EOF\""} && exists rest :: lines[|lines| - 1] == rest + "EOF"
  }

  predicate Encloses(lines: seq<string>, text: seq<string>) {
    && |lines| >= 2 && lines[1..|lines| - 1] == text
    && Trim(lines[0]) == "*** Begin Patch" && Trim(lines[|lines| - 1]) == "*** End Patch"
  }

  /** The lines are those of a well written patch that means these operations. */
  ghost predicate Says(lines: seq<string>, operations: seq<PatchOperation>) {
    exists ws ::
      && GoodPatch(ws, false) && OperationsOf(ws) == operations
      && Encloses(if IsHereDocument(lines) then lines[1..|lines| - 1] else lines, PatchText(ws))
  }

  lemma {:induction false} FeedRefused(lines: seq<string>, i: nat, operations: seq<PatchOperation>)
    requires i < |lines| && Feed(operations, lines[i..|lines| - 1]) == None
    ensures ParseFrom(lines, i, operations) == None
    decreases |lines| - i
  {
    if i < |lines| - 1 {
      assert lines[i..|lines| - 1][0] == lines[i] && lines[i..|lines| - 1][1..] == lines[i + 1..|lines| - 1];
      NotLast(operations, lines[i]);
      hide StepLine;
      match StepLine(operations, lines[i], false)
      case Next(more) => FeedRefused(lines, i + 1, more);
      case Refused =>
    }
  }

  lemma {:induction false} NotLast(operations: seq<PatchOperation>, line: string)
    ensures !StepLine(operations, line, false).Finish?
  {
    hide Trim, TrimEnd, HeaderOf, UpdateLine, Finished;
  }

  lemma {:induction false} NoEnvironment(line: string)
    requires Trim(line) == END
    ensures !StartsWith(TrimEnd(line), "*** Environment ID:")
  {
    var marker := TrimEnd(line);
    if marker != "" && !IsSpace(marker[0]) {
      Differ("*** Environment ID:", marker, 6);
    } else {
      Differ("*** Environment ID:", marker, 0);
    }
  }

  /** The last line ends the patch if it is finished, also when white space comes before it in an update. */
  lemma {:induction false} EndIsRead(operations: seq<PatchOperation>, line: string)
    requires Trim(line) == END
    ensures StepLine(operations, line, true) == if Finished(operations) then Finish else Refused
  {
    NoEnvironment(line);
    Differ("*** Environment ID:", END, 6);
    hide Trim, TrimEnd, HeaderOf, UpdateLine, Finished;
  }

  lemma {:induction false} LinesAreRead(lines: seq<string>, operations: seq<PatchOperation>)
    requires |lines| >= 2 && Trim(lines[|lines| - 1]) == END
    ensures ParseFrom(lines, 1, []) == Some(operations) <==>
              exists ws :: GoodPatch(ws, false) && OperationsOf(ws) == operations && lines[1..|lines| - 1] == PatchText(ws)
  {
    hide Feed, StepLine, GoodPatch, OperationsOf, PatchText, Trim, Finished;
    var text, n := lines[1..|lines| - 1], |lines| - 1;
    forall ws | GoodPatch(ws, false) && lines[1..|lines| - 1] == PatchText(ws)
      ensures ParseFrom(lines, 1, []) == Some(OperationsOf(ws))
    {
      StillOpenPatch(ws);
      FinishedText(ws);
      WrittenIsRead(ws);
      ParseFeeds(lines, 1, n, []);
      EndIsRead(OperationsOf(ws), lines[n]);
    }
    if ParseFrom(lines, 1, []) == Some(operations) {
      if Feed([], text) == None {
        FeedRefused(lines, 1, []);
      }
      var ws := AcceptedIsWritten(text);
      ParseFeeds(lines, 1, n, []);
      EndIsRead(OperationsOf(ws), lines[n]);
      FinishedText(ws);
    }
  }

  lemma {:induction false} Unwrapping(lines: seq<string>)
    requires lines != []
    ensures Unwrapped(lines) == (if IsHereDocument(lines) then lines[1..|lines| - 1] else lines) || (|lines| == 1 && Unwrapped(lines) == [] && Trim(lines[0]) != BEGIN)
  {
    var last := lines[|lines| - 1];
    if EndsWith(last, "EOF") {
      assert last == last[..|last| - 3] + "EOF";
    }
    if IsHereDocument(lines) {
      var rest :| last == rest + "EOF";
      assert last[|rest|..] == "EOF";
    }
    TrimLeaves("<<EOF");
    TrimLeaves("<<'EOF'");
    TrimLeaves("<<\"EOF\"");
  }

  /** The language of patches: a text is accepted exactly if its lines are those of a well written patch, and it is read as what
      that patch means. */
  lemma {:induction false} PatchIsUnderstood(input: string, operations: seq<PatchOperation>)
    ensures Parse(input) == Some(operations) <==> Says(InputLines(input), operations)
  {
    var lines := InputLines(input);
    assert lines != [];
    hide InputLines, ParseFrom, GoodPatch, OperationsOf, PatchText, Trim, Unwrapped;
    Unwrapping(lines);
    var inner := Unwrapped(lines);
    var text := if IsHereDocument(lines) then lines[1..|lines| - 1] else lines;
    hide IsHereDocument;
    assert |BEGIN| != |END|;
    if |inner| >= 2 && Trim(inner[0]) == BEGIN && Trim(inner[|inner| - 1]) == END {
      LinesAreRead(inner, operations);
      assert inner == text;
    } else {
      assert Parse(input) == None;
    }
  }

  // ----- Ways to write the same

  /** Context lines with nothing on them, with or without their space. */
  predicate SameButBare(a: seq<string>, b: seq<string>) {
    |a| == |b| && forall i | 0 <= i < |a| :: a[i] == b[i] || (a[i] in {"", " "} && b[i] in {"", " "})
  }

  /** It makes no difference how many of the empty context lines are written without their space. */
  lemma {:induction false} BareContextIsContext(a: seq<string>, b: seq<string>)
    requires SameButBare(a, b)
    ensures OldSide(a) == OldSide(b) && NewSide(a) == NewSide(b) && Pairs(a) == Pairs(b)
  {
    if a != [] {
      var n := |a| - 1;
      assert SameButBare(a[..n], b[..n]);
      BareContextIsContext(a[..n], b[..n]);
      assert a == a[..n] + [a[n]] && b == b[..n] + [b[n]];
      BodyMore(a[..n], a[n]);
      BodyMore(b[..n], b[n]);
      assert " "[1..] == "";
      hide OldSide, NewSide, Pairs;
    }
  }

  // ----- The lines of the input

  lemma {:induction false} TrimStartShorter(s: string)
    ensures |TrimStart(s)| <= |s|
  {
    if s != "" && IsSpace(s[0]) {
      TrimStartShorter(s[1..]);
    }
  }

  lemma {:induction false} TrimmedEnd(s: string)
    requires s != "" && Trim(s) == s
    ensures !IsSpace(s[|s| - 1])
  {
    TrimStartShorter(TrimEnd(s));
    TrimEndShorter(s);
    EndNotSpace(s);
  }

  lemma {:induction false} LastUnfinished(lines: seq<SourceLine>)
    requires Broken(lines) && lines != [] && Trim(Join(lines)) == Join(lines)
    ensures lines[|lines| - 1].eol == "" && Unfinished(lines) && DropCr(Raw(lines[|lines| - 1])) == Raw(lines[|lines| - 1])
  {
    hide Trim, IsSpace;
    var init, last := lines[..|lines| - 1], lines[|lines| - 1];
    assert lines == init + [last];
    JoinConcat(init, [last]);
    assert Join([last]) == last.text + last.eol;
    SomeText(lines);
    TrimmedEnd(Join(lines));
    assert IsSpace('\r') && IsSpace('\n') by {
      SpaceBreaks();
    }
  }

  lemma {:induction false} SpaceBreaks()
    ensures IsSpace('\r') && IsSpace('\n')
  {
  }

  lemma {:induction false} AllButLastDropped(lines: seq<SourceLine>)
    requires lines != [] && DropCrs(Raws(lines)) == Texts(lines) && DropCr(Raw(lines[|lines| - 1])) == Raw(lines[|lines| - 1])
    ensures DropCrs(Raws(lines)[..|lines| - 1]) + [Raws(lines)[|lines| - 1]] == Texts(lines)
  {
    hide Raw, DropCr;
    var n := |lines| - 1;
    forall i | 0 <= i <= n ensures (DropCrs(Raws(lines)[..n]) + [Raws(lines)[n]])[i] == DropCrs(Raws(lines))[i] {
      if i < n {
        assert Raws(lines)[..n][i] == Raws(lines)[i];
      }
    }
  }

  lemma {:induction false} PartsOf(lines: seq<SourceLine>)
    requires Broken(lines) && Unfinished(lines)
    ensures SplitOnNewline(Join(lines)) == Raws(lines)
  {
    hide *;
    BrokenLinesAreParts(lines);
    assert Raws(lines) + [] == Raws(lines);
  }

  /** The lines of a patch: white space around it is dropped, and so is one carriage return before each line break. */
  lemma {:induction false} InputIsSplit(before: string, lines: seq<SourceLine>, after: string)
    requires Broken(lines) && lines != [] && Trim(Join(lines)) == Join(lines) && IsPadding(before) && IsPadding(after)
    ensures InputLines(before + Join(lines) + after) == Texts(lines)
  {
    hide SplitOnNewline, Trim, Join, Broken, IsPadding, Raw, Raws, DropCr, DropCrs, Unfinished, Texts;
    BothTrimmed(before, Join(lines), after);
    LastUnfinished(lines);
    PartsOf(lines);
    RawsDropped(lines);
    AllButLastDropped(lines);
  }
}
