/** `fileDiff` of extensions/builtin-tools/src/diff.ts, and applying its hunks as a patch. */
module TextDiff {
  import opened Outcomes
  import opened EditScripts
  import opened MyersDiff
  import opened Hunks
  import opened SourceText
  import opened Replacements
  import opened PatchApply
  import Parser = PatchParser

  /** How many lines two texts share at their start. */
  method CommonStart(a: seq<string>, b: seq<string>) returns (start: nat)
    ensures start <= |a| && start <= |b| && a[..start] == b[..start]
    ensures start == |a| || start == |b| || a[start] != b[start]
  {
    start := 0;
    while start < |a| && start < |b| && a[start] == b[start]
      invariant start <= |a| && start <= |b| && a[..start] == b[..start]
    {
      start := start + 1;
    }
  }

  /** Where the shared lines at the end of two texts begin. */
  method CommonEnd(a: seq<string>, b: seq<string>, start: nat) returns (endA: nat, endB: nat)
    requires start <= |a| && start <= |b|
    ensures start <= endA <= |a| && start <= endB <= |b| && a[endA..] == b[endB..]
    ensures endA == start || endB == start || a[endA - 1] != b[endB - 1]
  {
    endA, endB := |a|, |b|;
    while endA > start && endB > start && a[endA - 1] == b[endB - 1]
      invariant start <= endA <= |a| && start <= endB <= |b| && a[endA..] == b[endB..]
    {
      endA, endB := endA - 1, endB - 1;
    }
  }

  /** Every script between two texts changes more lines than the search looks for. */
  ghost predicate TooFarApart(a: seq<string>, b: seq<string>) {
    forall other: seq<Op> | IsScript(other, a, b) :: Cost(other) > MAX_EDIT_DISTANCE
  }

  lemma {:induction false} TrimmedScript(p: seq<string>, a: seq<string>, b: seq<string>, s: seq<string>, middle: seq<Op>)
    requires IsScript(middle, a, b) && (Shortest(middle, a, b) || TooFarApart(a, b))
    ensures var ops := Unchanged(p) + middle + Unchanged(s);
            && IsScript(ops, p + a + s, p + b + s)
            && (Shortest(ops, p + a + s, p + b + s) || TooFarApart(p + a + s, p + b + s))
  {
    SurroundIsScript(p, a, b, s, middle);
    if Shortest(middle, a, b) {
      TrimKeepsShortest(p, a, b, s, middle);
    } else {
      var best := DistIsReached(a, b, |a|, |b|);
      assert a[..|a|] == a && b[..|b|] == b;
      TrimPrefix(p, a, b);
      TrimSuffix(p + a, p + b, s);
      forall other: seq<Op> | IsScript(other, p + a + s, p + b + s) ensures Cost(other) > MAX_EDIT_DISTANCE {
        DistBoundsScripts(other, p + a + s, p + b + s);
      }
    }
  }

  /** The ops of a diff: the search runs only between the shared first and last lines. */
  method DiffLines(a: seq<string>, b: seq<string>) returns (ops: seq<Op>)
    ensures IsScript(ops, a, b)
    ensures Shortest(ops, a, b) || TooFarApart(a, b)
  {
    var start := CommonStart(a, b);
    var endA, endB := CommonEnd(a, b, start);
    var middle := DiffMiddle(a[start..endA], b[start..endB]);
    ops := Unchanged(a[..start]) + middle + Unchanged(a[endA..]);
    TrimmedScript(a[..start], a[start..endA], b[start..endB], a[endA..], middle);
    assert a == a[..start] + a[start..endA] + a[endA..];
    assert b == b[..start] + b[start..endB] + b[endB..];
  }

  /** The diff counts a shortest script, which keeps as many common lines as can be (or one of texts further apart than
      the search looks), and unless truncated its hunks carry either text to the other. */
  method DiffTexts(before: string, after: string, context: nat)
    returns (diff: FileDiff, ghost ops: seq<Op>, ghost cuts: seq<Cut>, ghost shown: nat)
    ensures IsScript(ops, SplitLines(before), SplitLines(after))
    ensures Shortest(ops, SplitLines(before), SplitLines(after)) || TooFarApart(SplitLines(before), SplitLines(after))
    ensures diff.added == Count(ops, true) && diff.removed == Count(ops, false) && diff.added + diff.removed == Cost(ops)
    ensures LongestCommon(Kept(ops), SplitLines(before), SplitLines(after)) || TooFarApart(SplitLines(before), SplitLines(after))
    ensures diff.added + diff.removed == |SplitLines(before)| + |SplitLines(after)| - 2 * |Kept(ops)|
    ensures HunksOf(diff.hunks, ops, cuts) && Whole(ops, context, cuts, shown) && ShownLines(cuts) <= MAX_HUNK_LINES
    ensures if diff.truncated then exists next :: NextIsTooLong(ops, context, cuts, next) else shown == |ops|
    ensures !diff.truncated ==>
              && Apply(diff.hunks, SplitLines(before), 0, 0) == Some(SplitLines(after))
              && Apply(InvertAll(diff.hunks), SplitLines(after), 0, 0) == Some(SplitLines(before))
  {
    var all := DiffLines(SplitLines(before), SplitLines(after));
    diff, cuts, shown := ToHunks(all, context);
    ops := all;
    CountsAreCost(ops);
    ShortestKeepsLongest(ops, SplitLines(before), SplitLines(after));
    if !diff.truncated {
      NearCoversChanges(ops, context, cuts);
      HunksReconstruct(ops, diff.hunks, cuts);
      HunksRevert(ops, diff.hunks, cuts);
    }
  }

  lemma {:induction false} NearCoversChanges(ops: seq<Op>, context: nat, cuts: seq<Cut>)
    requires ShowsNear(ops, context, cuts, |ops|)
    ensures Covered(ops, cuts, 0)
  {
    forall j | 0 <= j < |ops| && !ops[j].Same? ensures InSome(cuts, j) {
      assert NearChange(ops, context, j);
    }
  }

  // ----- A diff as a patch

  /** The op after the first cut is hidden, and no other cut starts at the top. */
  lemma {:induction false} FirstGap(cuts: seq<Cut>, n: nat)
    requires Ordered(cuts, n) && cuts != []
    ensures !InSome(cuts, cuts[0].hi)
    ensures |cuts| > 1 ==> cuts[0].hi < n
    ensures forall i | 0 < i < |cuts| :: 0 < cuts[i].lo
  {
    assert |cuts| > 1 ==> cuts[0].hi < cuts[1].lo < cuts[1].hi <= n;
  }

  lemma {:induction false} OneCut(cuts: seq<Cut>, n: nat)
    requires Ordered(cuts, n) && n > 0 && forall j | 0 <= j < n :: InSome(cuts, j)
    ensures |cuts| == 1 && cuts[0].lo == 0 && cuts[0].hi == n
  {
    assert InSome(cuts, 0);
    FirstGap(cuts, n);
    var end := cuts[0].hi;
    assert end < n ==> InSome(cuts, end);
  }

  /** With a context as long as the script, the hunks are one: the whole script. */
  lemma {:induction false} FullContextIsOneHunk(ops: seq<Op>, context: nat, cuts: seq<Cut>)
    requires Ordered(cuts, |ops|) && |ops| <= context && exists c | 0 <= c < |ops| :: !ops[c].Same?
    requires ShowsNear(ops, context, cuts, |ops|)
    ensures |cuts| == 1 && cuts[0] == Cut(0, |ops|)
  {
    var c :| 0 <= c < |ops| && !ops[c].Same?;
    forall j | 0 <= j < |ops| ensures InSome(cuts, j) {
      assert NearChange(ops, context, j);
    }
    OneCut(cuts, |ops|);
  }

  /** The update hunk that the patch parser reads from the lines of a diff hunk. */
  function AsUpdate(lines: seq<string>): UpdateHunk {
    if lines == [] then Parser.NO_LINES
    else Parser.HunkLine(AsUpdate(lines[..|lines| - 1]), lines[|lines| - 1])
  }

  lemma {:induction false} ScriptAsUpdate(ops: seq<Op>)
    ensures var h := AsUpdate(MarkedLines(ops));
            && h.context == None && !h.endOfFile && Parser.Paired(h)
            && h.oldLines == OldSide(ops) && h.newLines == NewSide(ops)
  {
    if ops != [] {
      var init, last := ops[..|ops| - 1], ops[|ops| - 1];
      ScriptAsUpdate(init);
      Concat(init, [last]);
      assert ops == init + [last];
      assert MarkedLines(ops)[..|ops| - 1] == MarkedLines(init) && MarkedLines(ops)[|ops| - 1] == Marked(last);
      var h := AsUpdate(MarkedLines(init));
      assert AsUpdate(MarkedLines(ops)) == Parser.HunkLine(h, Marked(last));
      hide AsUpdate, MarkedLines, OldSide, NewSide, Parser.Paired;
      Parser.HunkLinePaired(h, Marked(last));
      LineRead(h, last);
      OneOp(last);
    }
  }

  lemma {:induction false} LineRead(h: UpdateHunk, op: Op)
    ensures var g := Parser.HunkLine(h, Marked(op));
            && g.context == h.context && g.endOfFile == h.endOfFile
            && g.oldLines == h.oldLines + (if op.Added? then [] else [op.text])
            && g.newLines == h.newLines + (if op.Removed? then [] else [op.text])
  {
    assert Marked(op)[1..] == op.text;
  }

  lemma {:induction false} OneOp(op: Op)
    ensures OldSide([op]) == (if op.Added? then [] else [op.text]) && NewSide([op]) == (if op.Removed? then [] else [op.text])
  {
  }

  lemma {:induction false} ContextAgrees(h: UpdateHunk, indices: seq<(nat, nat)>, i: nat)
    requires Parser.Paired(h) && indices <= h.contextLineIndices && ContextOf(indices, i).Some?
    ensures var o := ContextOf(indices, i).value; o < |h.oldLines| && i < |h.newLines| && h.oldLines[o] == h.newLines[i]
  {
    var n := |indices| - 1;
    if indices[n].1 != i {
      ContextAgrees(h, indices[..n], i);
    } else {
      assert h.contextLineIndices[n] == indices[n];
    }
  }

  lemma {:induction false} UnixDefaultEol(lines: seq<SourceLine>)
    requires UnixLines(lines)
    ensures DefaultEol(lines) == "\n"
  {
    if lines != [] && lines[0].eol == "" {
      assert lines[1..] == [];
    }
  }

  /** The new lines of a hunk that matched the whole file, word for word. */
  lemma {:induction false} WholeReplacement(lines: seq<SourceLine>, h: UpdateHunk, defaultEol: string)
    requires UnixLines(lines) && defaultEol == "\n" && Parser.Paired(h) && h.oldLines == Texts(lines)
    ensures var r := ReplacementOf(lines, h, Placement(0, false, 0), defaultEol).lines;
            && Texts(r) == h.newLines
            && forall i | 0 <= i < |r| :: r[i].eol == "\n" || r[i].eol == ""
  {
    var r := ReplacementOf(lines, h, Placement(0, false, 0), defaultEol).lines;
    forall i | 0 <= i < |r| ensures r[i].text == h.newLines[i] && (r[i].eol == "\n" || r[i].eol == "") {
      if ContextOf(h.contextLineIndices, i).Some? {
        ContextAgrees(h, h.contextLineIndices, i);
      }
    }
  }

  /** The lines of a CR-free text, given whether it ends in a newline. */
  function UnixFrom(texts: seq<string>, terminated: bool): (lines: seq<SourceLine>)
    ensures |lines| == |texts|
  {
    seq(|texts|, i requires 0 <= i < |texts| => SourceLine(texts[i], if i == |texts| - 1 && !terminated then "" else "\n"))
  }

  lemma {:induction false} SourceIsUnixFrom(text: string)
    requires CrFree(text)
    ensures SourceLines(text) == UnixFrom(SplitLines(text), EndsInBreak(text))
  {
    SourceLinesAreSplitLines(text);
    SourceLinesShape(text);
  }

  lemma {:induction false} UnixJoinsDiffer(texts: seq<string>)
    requires texts != []
    ensures Join(UnixFrom(texts, true)) == Join(UnixFrom(texts, false)) + "\n"
  {
    var n := |texts| - 1;
    var yes, no := UnixFrom(texts, true), UnixFrom(texts, false);
    assert yes == yes[..n] + [yes[n]] && no == no[..n] + [no[n]] && yes[..n] == no[..n];
    JoinConcat(yes[..n], [yes[n]]);
    JoinConcat(no[..n], [no[n]]);
    JoinOne(yes[n]);
    JoinOne(no[n]);
  }

  lemma {:induction false} JoinOne(line: SourceLine)
    ensures Join([line]) == line.text + line.eol
  {
    assert [line][1..] == [];
  }

  lemma {:induction false} FinishedIsUnixFrom(before: string, r: seq<SourceLine>)
    requires CrFree(before) && forall i | 0 <= i < |r| :: r[i].eol == "\n" || r[i].eol == ""
    ensures Finished(SourceLines(before), r, "\n") == UnixFrom(Texts(r), before == "" || EndsInBreak(before))
  {
    SourceLinesShape(before);
    SourceLinesAreSplitLines(before);
  }

  lemma {:induction false} WholeMerge(lines: seq<SourceLine>, r: Replacement)
    requires r.start == 0 && r.count == |lines|
    ensures InOrder([r], |lines|) && Sorted([r]) == [r] && Merge(lines, [r], 0) == r.lines
  {
    assert [r][..0] == [] && [r][1..] == [];
    assert Sorted([]) == [] && lines[|lines|..] == [] && lines[0..0] == [];
  }

  /** The whole-file hunk is placed at the top, and only there. */
  lemma {:induction false} WholeIsPlaced(lines: seq<SourceLine>, h: UpdateHunk, p: Placement)
    requires h.context == None && !h.endOfFile && h.oldLines == Texts(lines)
    ensures PlacedBy(lines, h, 0, p) <==> p == Placement(0, false, 0)
  {
    if lines != [] {
      assert MatchesAt(lines, h.oldLines, 0, 0);
      assert FirstAt(lines, h.oldLines, 0, false, 0, 0);
      if PlacedBy(lines, h, 0, p) {
        FoundOnce(lines, h.oldLines, 0, false, 0, if p.retried then -1 else p.start);
      }
    }
  }

  /** What one whole-file update makes of a text. */
  lemma {:induction false} WholeUpdate(before: string, h: UpdateHunk, r: Result<string, nat>, placed: seq<Placement>, replacements: seq<Replacement>)
    requires CrFree(before) && h.context == None && !h.endOfFile && Parser.Paired(h) && h.oldLines == SplitLines(before)
    requires IsUpdate(before, [h], r, placed, replacements)
    ensures r == Success(Join(UnixFrom(h.newLines, before == "" || EndsInBreak(before))))
  {
    var lines := SourceLines(before);
    SourceLinesAreSplitLines(before);
    UnixDefaultEol(lines);
    var top := Placement(0, false, 0);
    WholeIsPlaced(lines, h, top);
    assert PlacedBy(lines, [h][0], CursorAfter([h], []), top);
    assert placed != [];
    assert placed[..0] == [];
    WholeIsPlaced(lines, h, placed[0]);
    var x := ReplacementOf(lines, h, top, "\n");
    assert replacements == [x];
    WholeReplacement(lines, h, "\n");
    WholeMerge(lines, x);
    FinishedIsUnixFrom(before, x.lines);
  }

  /** Diff and apply undo each other. The hunk of an untruncated full-context diff, applied as a patch to
      the text it was made from, gives the other text exactly when both end alike (an empty text counts
      as ending in a newline when it is patched, and as anything when it is the result). */
  lemma {:induction false} DiffThenApply(before: string, after: string, ops: seq<Op>, context: nat, hunks: seq<Hunk>, cuts: seq<Cut>,
                                         r: Result<string, nat>, placed: seq<Placement>, replacements: seq<Replacement>)
    requires CrFree(before) && CrFree(after) && |ops| <= context
    requires IsScript(ops, SplitLines(before), SplitLines(after)) && SplitLines(before) != SplitLines(after)
    requires HunksOf(hunks, ops, cuts)
    requires ShowsNear(ops, context, cuts, |ops|)
    ensures |hunks| == 1
    ensures IsUpdate(before, [AsUpdate(hunks[0].lines)], r, placed, replacements) ==>
              (r == Success(after) <==> (after == "" || EndsInBreak(after) == (before == "" || EndsInBreak(before))))
  {
    SomeChange(ops);
    FullContextIsOneHunk(ops, context, cuts);
    assert ops[0..|ops|] == ops;
    var h := AsUpdate(hunks[0].lines);
    ScriptAsUpdate(ops);
    if IsUpdate(before, [h], r, placed, replacements) {
      WholeUpdate(before, h, r, placed, replacements);
      SourceIsUnixFrom(after);
      JoinSourceLines(after);
      if after != "" {
        SourceLinesShape(after);
        UnixJoinsDiffer(SplitLines(after));
      }
    }
  }

  lemma {:induction false} SomeChange(ops: seq<Op>)
    requires OldSide(ops) != NewSide(ops)
    ensures exists c | 0 <= c < |ops| :: !ops[c].Same?
  {
    if forall op | op in ops :: op.Same? {
      AllSame(ops);
    }
  }

  /** The failing case is real: a diff from a text without a final newline to one with it, applied, loses the newline. */
  method FinalNewlineIsLost(before: string, after: string) returns (hunk: Hunk, ghost ops: seq<Op>, r: Result<string, nat>)
    requires before == "a" && after == "b\n"
    ensures IsScript(ops, SplitLines(before), SplitLines(after)) && HunksOf([hunk], ops, [Cut(0, |ops|)])
    ensures ShowsNear(ops, |ops|, [Cut(0, |ops|)], |ops|)
    ensures r.Success? && r != Success(after)
  {
    var script := [Removed("a"), Added("b")];
    hunk := HunkOf(script, Cut(0, 2));
    ghost var placed, replacements;
    r, placed, replacements := ApplyUpdate(before, [AsUpdate(hunk.lines)]);
    ops := script;
    TwoTexts(before, after);
    TwoOps(ops);
    assert ops[0..2] == ops;
    DiffThenApply(before, after, ops, 2, [hunk], [Cut(0, 2)], r, placed, replacements);
    ScriptAsUpdate(ops);
    WholeUpdate(before, AsUpdate(hunk.lines), r, placed, replacements);
  }

  lemma {:induction false} TwoTexts(before: string, after: string)
    requires before == "a" && after == "b\n"
    ensures CrFree(before) && CrFree(after) && SplitLines(before) == ["a"] && SplitLines(after) == ["b"]
    ensures !EndsInBreak(before) && EndsInBreak(after)
  {
    assert after[1..] == "\n" && "\n"[1..] == "" && before[1..] == "";
    assert SplitOnNewline("") == [""];
    assert SplitOnNewline("\n") == [""] + [""];
    assert ['a'] + "" == "a" && ['b'] + "" == "b" && [""][1..] == [] && ["", ""][1..] == [""];
    assert SplitOnNewline(before) == [['a'] + ""] + [""][1..] == ["a"];
    assert SplitOnNewline(after) == [['b'] + ""] + ["", ""][1..] == ["b", ""];
    assert DropCrs(["a"]) == ["a"] && DropCrs(["b", ""]) == ["b", ""];
  }

  lemma {:induction false} TwoOps(ops: seq<Op>)
    requires ops == [Removed("a"), Added("b")]
    ensures IsScript(ops, ["a"], ["b"]) && HunksOf([HunkOf(ops, Cut(0, 2))], ops, [Cut(0, 2)]) && ShowsNear(ops, 2, [Cut(0, 2)], 2)
  {
    assert ops[1..] == [Added("b")] && ops[1..][1..] == [];
    assert OldSide(ops) == ["a"] + OldSide([Added("b")]) && OldSide([Added("b")]) == OldSide([]);
    assert NewSide(ops) == NewSide([Added("b")]) && NewSide([Added("b")]) == ["b"] + NewSide([]);
    assert !ops[0].Same? && !ops[1].Same?;
    forall j | 0 <= j < 2 ensures InSome([Cut(0, 2)], j) && NearChange(ops, 2, j) {
      assert [Cut(0, 2)][0].lo <= j < [Cut(0, 2)][0].hi;
    }
  }
}
