/** Applying update hunks to a text: `seek` and `applyUpdate` of extensions/builtin-tools/src/patch-format.ts. */
module PatchApply {
  import opened Outcomes
  import opened SourceText
  import opened Replacements

  datatype UpdateHunk = UpdateHunk(context: Option<string>, oldLines: seq<string>, newLines: seq<string>,
                                   contextLineIndices: seq<(nat, nat)>, endOfFile: bool)

  // ----- Seeking

  predicate MatchesAt(lines: seq<SourceLine>, pattern: seq<string>, level: nat, i: int) {
    && 0 <= i && i + |pattern| <= |lines|
    && forall j | 0 <= j < |pattern| :: Transform(level, pattern[j]) == Transform(level, lines[i + j].text)
  }

  /** Where a match counts: from `start` on, and for an end-of-file hunk with its last line at the last line of the file. */
  predicate Counts(lines: seq<SourceLine>, pattern: seq<string>, start: nat, atEnd: bool, i: int) {
    start <= i && (atEnd ==> i + |pattern| == |lines|)
  }

  predicate MatchCounts(lines: seq<SourceLine>, pattern: seq<string>, start: nat, atEnd: bool, level: nat, i: int) {
    Counts(lines, pattern, start, atEnd, i) && MatchesAt(lines, pattern, level, i)
  }

  /** `at` is the first match at its level, and no stricter level matches anywhere. */
  ghost predicate FirstAt(lines: seq<SourceLine>, pattern: seq<string>, start: nat, atEnd: bool, level: nat, at: int) {
    && MatchCounts(lines, pattern, start, atEnd, level, at)
    && (forall i | i < at :: !MatchCounts(lines, pattern, start, atEnd, level, i))
    && (forall l: nat, i | l < level :: !MatchCounts(lines, pattern, start, atEnd, l, i))
  }

  ghost predicate NoMatch(lines: seq<SourceLine>, pattern: seq<string>, start: nat, atEnd: bool) {
    forall l: nat, i | l < LEVELS :: !MatchCounts(lines, pattern, start, atEnd, l, i)
  }

  /** Where the search begins. */
  function SeekFrom(lines: seq<SourceLine>, pattern: seq<string>, start: nat, atEnd: bool): nat {
    if atEnd && start < |lines| - |pattern| then |lines| - |pattern| else start
  }

  /** What a search answers; -1 stands for no match, and nothing is found at once. */
  ghost predicate Found(lines: seq<SourceLine>, pattern: seq<string>, start: nat, atEnd: bool, at: int) {
    if pattern == [] then at == start
    else if at == -1 then NoMatch(lines, pattern, start, atEnd)
    else exists level: nat | level < LEVELS :: FirstAt(lines, pattern, start, atEnd, level, at)
  }

  method Seek(lines: seq<SourceLine>, pattern: seq<string>, start: nat, atEnd: bool) returns (at: int)
    ensures -1 <= at && Found(lines, pattern, start, atEnd, at)
  {
    hide MatchesAt;
    if pattern == [] {
      return start;
    }
    var first := SeekFrom(lines, pattern, start, atEnd);
    for level := 0 to LEVELS
      invariant forall l: nat, i | l < level :: !MatchCounts(lines, pattern, start, atEnd, l, i)
    {
      var i := first;
      while i <= |lines| - |pattern|
        invariant first <= i
        invariant forall k | k < i :: !MatchCounts(lines, pattern, start, atEnd, level, k)
      {
        if MatchesAt(lines, pattern, level, i) {
          assert FirstAt(lines, pattern, start, atEnd, level, i);
          return i;
        }
        i := i + 1;
      }
      forall k ensures !MatchCounts(lines, pattern, start, atEnd, level, k) {
        MatchEnds(lines, pattern, level, k);
      }
    }
    at := -1;
  }

  lemma {:induction false} MatchEnds(lines: seq<SourceLine>, pattern: seq<string>, level: nat, i: int)
    ensures MatchesAt(lines, pattern, level, i) ==> 0 <= i && i + |pattern| <= |lines|
  {
  }

  /** A search has one answer. */
  lemma {:induction false} FoundOnce(lines: seq<SourceLine>, pattern: seq<string>, start: nat, atEnd: bool, x: int, y: int)
    requires Found(lines, pattern, start, atEnd, x) && Found(lines, pattern, start, atEnd, y)
    ensures x == y
  {
    if pattern != [] && x != -1 && y != -1 {
      hide MatchCounts;
      var l: nat :| l < LEVELS && FirstAt(lines, pattern, start, atEnd, l, x);
      var m: nat :| m < LEVELS && FirstAt(lines, pattern, start, atEnd, m, y);
    }
  }

  // ----- The lines a hunk leaves

  /** The old line a new line repeats: the last pair naming it. */
  function ContextOf(indices: seq<(nat, nat)>, newIndex: nat): Option<nat> {
    if indices == [] then None
    else
      var last := indices[|indices| - 1];
      if last.1 == newIndex then Some(last.0) else ContextOf(indices[..|indices| - 1], newIndex)
  }

  /** The old line that new line `newIndex` repeats, if it is among the `count` matched ones. */
  function Repeats(indices: seq<(nat, nat)>, count: nat, newIndex: nat): Option<nat> {
    match ContextOf(indices, newIndex)
    case Some(o) => if o < count then Some(o) else None
    case None => None
  }

  /** How many old lines lie before new line `newIndex`: additions pair up with removals one by one. */
  function OldPosition(indices: seq<(nat, nat)>, count: nat, newIndex: nat): (p: nat)
    ensures p <= count
  {
    if newIndex == 0 then 0
    else
      match Repeats(indices, count, newIndex - 1)
      case Some(o) => o + 1
      case None =>
        var p := OldPosition(indices, count, newIndex - 1);
        if p < count then p + 1 else p
  }

  /** The ending of the line at `p`, else of the line before it, else the default. */
  function EolNear(lines: seq<SourceLine>, p: nat, defaultEol: string): string {
    if p < |lines| && lines[p].eol != "" then lines[p].eol
    else if 0 < p <= |lines| && lines[p - 1].eol != "" then lines[p - 1].eol
    else defaultEol
  }

  /** What new line `i` becomes: the file's own line when it is context, else the hunk's text. */
  function NewLine(lines: seq<SourceLine>, start: nat, count: nat, newLines: seq<string>, indices: seq<(nat, nat)>,
                   defaultEol: string, i: nat): SourceLine
    requires start + count <= |lines| && i < |newLines|
  {
    match Repeats(indices, count, i)
    case Some(o) => lines[start + o]
    case None => SourceLine(newLines[i], EolNear(lines, start + OldPosition(indices, count, i), defaultEol))
  }

  function NewLinesOf(lines: seq<SourceLine>, start: nat, count: nat, newLines: seq<string>, indices: seq<(nat, nat)>,
                      defaultEol: string): (r: seq<SourceLine>)
    requires start + count <= |lines|
    ensures |r| == |newLines|
    ensures forall i | 0 <= i < |newLines| :: r[i] == NewLine(lines, start, count, newLines, indices, defaultEol, i)
  {
    seq(|newLines|, i requires 0 <= i < |newLines| => NewLine(lines, start, count, newLines, indices, defaultEol, i))
  }

  method Rebuild(lines: seq<SourceLine>, start: nat, count: nat, newLines: seq<string>, indices: seq<(nat, nat)>,
                 defaultEol: string) returns (r: seq<SourceLine>)
    requires start + count <= |lines|
    ensures r == NewLinesOf(lines, start, count, newLines, indices, defaultEol)
  {
    r := [];
    var oldPosition := 0;
    for newIndex := 0 to |newLines|
      invariant |r| == newIndex && oldPosition == OldPosition(indices, count, newIndex)
      invariant forall i | 0 <= i < newIndex :: r[i] == NewLine(lines, start, count, newLines, indices, defaultEol, i)
    {
      var oldIndex := ContextOf(indices, newIndex);
      if oldIndex.Some? && oldIndex.value < count {
        oldPosition := oldIndex.value + 1;
        r := r + [lines[start + oldIndex.value]];
      } else {
        r := r + [SourceLine(newLines[newIndex], EolNear(lines, start + oldPosition, defaultEol))];
        if oldPosition < count { oldPosition := oldPosition + 1; }
      }
    }
  }

  // ----- Placing hunks

  /** Where a hunk went: the cursor after its skip context, whether the trailing blank line was given up,
      and the first replaced line. */
  datatype Placement = Placement(cursor: nat, retried: bool, start: nat)

  predicate EndsBlank(lines: seq<string>) { lines != [] && lines[|lines| - 1] == "" }

  function UsedOld(h: UpdateHunk, retried: bool): seq<string> {
    if retried && h.oldLines != [] then h.oldLines[..|h.oldLines| - 1] else h.oldLines
  }

  function UsedNew(h: UpdateHunk, retried: bool): seq<string> {
    if retried && EndsBlank(h.newLines) then h.newLines[..|h.newLines| - 1] else h.newLines
  }

  ghost predicate PlacedBy(lines: seq<SourceLine>, h: UpdateHunk, cursor: nat, p: Placement) {
    && (match h.context
        case None => p.cursor == cursor
        case Some(c) => 0 < p.cursor && Found(lines, [c], cursor, false, p.cursor - 1))
    && if p.retried then
         && EndsBlank(h.oldLines)
         && Found(lines, h.oldLines, p.cursor, h.endOfFile, -1)
         && Found(lines, UsedOld(h, true), p.cursor, h.endOfFile, p.start)
       else if h.oldLines == [] then p.start == |lines|
       else Found(lines, h.oldLines, p.cursor, h.endOfFile, p.start)
  }

  function NextCursor(h: UpdateHunk, p: Placement): nat {
    if UsedOld(h, p.retried) == [] then p.cursor else p.start + |UsedOld(h, p.retried)|
  }

  function CursorAfter(hunks: seq<UpdateHunk>, placed: seq<Placement>): nat
    requires |placed| <= |hunks|
  {
    if placed == [] then 0 else NextCursor(hunks[|placed| - 1], placed[|placed| - 1])
  }

  /** The first hunks were placed one after another, each from where the one before left the cursor. */
  ghost predicate AllPlaced(lines: seq<SourceLine>, hunks: seq<UpdateHunk>, placed: seq<Placement>) {
    && |placed| <= |hunks|
    && (placed == [] ||
        var n := |placed| - 1;
        && AllPlaced(lines, hunks, placed[..n])
        && PlacedBy(lines, hunks[n], CursorAfter(hunks, placed[..n]), placed[n]))
  }

  lemma {:induction false} FoundInRange(lines: seq<SourceLine>, pattern: seq<string>, start: nat, atEnd: bool, at: int)
    requires Found(lines, pattern, start, atEnd, at) && at != -1 && start <= |lines|
    ensures start <= at && at + |pattern| <= |lines|
  {
  }

  /** A hunk marked as the end of the file, when it replaces lines, replaces the last ones. */
  lemma {:induction false} EndOfFileHunkEnds(lines: seq<SourceLine>, h: UpdateHunk, cursor: nat, p: Placement)
    requires PlacedBy(lines, h, cursor, p) && h.endOfFile && UsedOld(h, p.retried) != []
    ensures p.start + |UsedOld(h, p.retried)| == |lines|
  {
    FoundAtEnd(lines, UsedOld(h, p.retried), p.cursor, p.start);
    hide Found;
  }

  /** The lines at a place match by no comparison. */
  predicate Unlike(lines: seq<SourceLine>, pattern: seq<string>, i: int) {
    forall level: nat | level < LEVELS :: !MatchesAt(lines, pattern, level, i)
  }

  /** An end-of-file search finds nothing but the last lines, and fails only when no comparison matches them. */
  lemma {:induction false} FoundAtEnd(lines: seq<SourceLine>, pattern: seq<string>, start: nat, at: int)
    requires pattern != [] && Found(lines, pattern, start, true, at)
    ensures at != -1 ==> at + |pattern| == |lines| && start <= at
    ensures at == -1 <==>
              |lines| - |pattern| < start || Unlike(lines, pattern, |lines| - |pattern|)
  {
    var last := |lines| - |pattern|;
    hide MatchesAt;
    if at != -1 {
      var level: nat :| level < LEVELS && FirstAt(lines, pattern, start, true, level, at);
      assert MatchCounts(lines, pattern, start, true, level, at);
    } else if start <= last {
      forall level: nat | level < LEVELS ensures !MatchesAt(lines, pattern, level, last) {
        assert !MatchCounts(lines, pattern, start, true, level, last);
      }
    }
  }

  lemma {:induction false} PlacedInRange(lines: seq<SourceLine>, h: UpdateHunk, cursor: nat, p: Placement)
    requires PlacedBy(lines, h, cursor, p) && cursor <= |lines|
    ensures cursor <= p.cursor <= p.start && p.start + |UsedOld(h, p.retried)| <= |lines|
    ensures cursor <= NextCursor(h, p) <= |lines|
  {
    if h.context.Some? {
      FoundInRange(lines, [h.context.value], cursor, false, p.cursor - 1);
    }
    if p.retried || h.oldLines != [] {
      FoundInRange(lines, UsedOld(h, p.retried), p.cursor, h.endOfFile, p.start);
    }
  }

  /** The replacement a placed hunk stands for. */
  function ReplacementOf(lines: seq<SourceLine>, h: UpdateHunk, p: Placement, defaultEol: string): Replacement
    requires p.start + |UsedOld(h, p.retried)| <= |lines|
  {
    var count := |UsedOld(h, p.retried)|;
    Replacement(p.start, count, NewLinesOf(lines, p.start, count, UsedNew(h, p.retried), h.contextLineIndices, defaultEol))
  }

  /** `r` lists the replacements of the placed hunks, in hunk order. */
  ghost predicate ReplacementsOf(lines: seq<SourceLine>, hunks: seq<UpdateHunk>, placed: seq<Placement>, defaultEol: string, r: seq<Replacement>)
  {
    && |placed| == |r| <= |hunks|
    && forall i | 0 <= i < |r| ::
         && placed[i].start + |UsedOld(hunks[i], placed[i].retried)| <= |lines|
         && r[i] == ReplacementOf(lines, hunks[i], placed[i], defaultEol)
  }

  /** Places one hunk: the skip context, the search, and the retry without a trailing blank line. */
  method Place(lines: seq<SourceLine>, h: UpdateHunk, cursor: nat) returns (p: Option<Placement>)
    ensures p.Some? ==> PlacedBy(lines, h, cursor, p.value)
    ensures p.None? ==> forall q: Placement :: !PlacedBy(lines, h, cursor, q)
  {
    var at := cursor;
    if h.context.Some? {
      var context := Seek(lines, [h.context.value], cursor, false);
      if context < 0 {
        forall q: Placement ensures !PlacedBy(lines, h, cursor, q) {
          if PlacedBy(lines, h, cursor, q) {
            FoundOnce(lines, [h.context.value], cursor, false, -1, q.cursor - 1);
          }
        }
        return None;
      }
      at := context + 1;
    }
    var start := |lines|;
    if h.oldLines != [] {
      start := Seek(lines, h.oldLines, at, h.endOfFile);
    }
    if 0 <= start {
      return Some(Placement(at, false, start));
    }
    if EndsBlank(h.oldLines) {
      var again := Seek(lines, UsedOld(h, true), at, h.endOfFile);
      if 0 <= again {
        return Some(Placement(at, true, again));
      }
    }
    forall q: Placement ensures !PlacedBy(lines, h, cursor, q) {
      if PlacedBy(lines, h, cursor, q) {
        if h.context.Some? {
          FoundOnce(lines, [h.context.value], cursor, false, at - 1, q.cursor - 1);
        }
        if q.retried {
          FoundOnce(lines, UsedOld(h, true), at, h.endOfFile, -1, q.start);
        } else {
          FoundOnce(lines, h.oldLines, at, h.endOfFile, -1, q.start);
        }
      }
    }
    p := None;
  }

  // ----- Applying

  function DefaultEol(lines: seq<SourceLine>): (eol: string)
    ensures eol != ""
  {
    if lines == [] then "\n" else if lines[0].eol != "" then lines[0].eol else DefaultEol(lines[1..])
  }

  lemma {:induction false} LastPlaced(lines: seq<SourceLine>, hunks: seq<UpdateHunk>, placed: seq<Placement>)
    requires placed != [] && AllPlaced(lines, hunks, placed)
    requires CursorAfter(hunks, placed[..|placed| - 1]) <= |lines|
    ensures var p := placed[|placed| - 1];
            var h := hunks[|placed| - 1];
            && CursorAfter(hunks, placed[..|placed| - 1]) <= p.start && p.start + |UsedOld(h, p.retried)| <= |lines|
            && CursorAfter(hunks, placed[..|placed| - 1]) <= CursorAfter(hunks, placed) <= |lines|
            && (p.start + |UsedOld(h, p.retried)| <= CursorAfter(hunks, placed) || (p.start == |lines| && UsedOld(h, p.retried) == []))
  {
    var n := |placed| - 1;
    PlacedInRange(lines, hunks[n], CursorAfter(hunks, placed[..n]), placed[n]);
  }

  lemma {:induction false} ReplacementsInit(lines: seq<SourceLine>, hunks: seq<UpdateHunk>, placed: seq<Placement>, defaultEol: string, r: seq<Replacement>)
    requires AllPlaced(lines, hunks, placed) && ReplacementsOf(lines, hunks, placed, defaultEol, r) && r != []
    ensures |placed| == |r| <= |hunks|
    ensures AllPlaced(lines, hunks, placed[..|r| - 1]) && ReplacementsOf(lines, hunks, placed[..|r| - 1], defaultEol, r[..|r| - 1])
    ensures r[|r| - 1].start == placed[|r| - 1].start
    ensures r[|r| - 1].count == |UsedOld(hunks[|r| - 1], placed[|r| - 1].retried)|
  {
    hide PlacedBy, CursorAfter, UsedOld, NewLinesOf;
  }

  /** Replacements placed one after another do not touch each other's lines: one ends before the next
      starts, unless it is an insertion at the end of the file. */
  lemma {:induction false} PlacedApart(lines: seq<SourceLine>, hunks: seq<UpdateHunk>, placed: seq<Placement>, defaultEol: string, r: seq<Replacement>)
    requires AllPlaced(lines, hunks, placed) && ReplacementsOf(lines, hunks, placed, defaultEol, r)
    ensures Below(r, CursorAfter(hunks, placed), |lines|)
  {
    hide AllPlaced, ReplacementsOf, Below, CursorAfter, AtEnd, UsedOld, PlacedBy;
    if r == [] {
      NothingPlaced(lines, hunks, placed, defaultEol);
    } else {
      var n := |r| - 1;
      ReplacementsInit(lines, hunks, placed, defaultEol, r);
      PlacedApart(lines, hunks, placed[..n], defaultEol, r[..n]);
      BelowEnds(r[..n], CursorAfter(hunks, placed[..n]), |lines|);
      LastPlaced(lines, hunks, placed);
      LastIsBelow(lines, r[n], CursorAfter(hunks, placed));
      BelowGrows(r[..n], CursorAfter(hunks, placed[..n]), |lines|, r[n], CursorAfter(hunks, placed));
      assert r == r[..n] + [r[n]];
    }
  }

  lemma {:induction false} NothingPlaced(lines: seq<SourceLine>, hunks: seq<UpdateHunk>, placed: seq<Placement>, defaultEol: string)
    requires ReplacementsOf(lines, hunks, placed, defaultEol, [])
    ensures |placed| <= |hunks| && Below([], CursorAfter(hunks, placed), |lines|)
  {
  }

  lemma {:induction false} BelowEnds(r: seq<Replacement>, cursor: nat, n: nat)
    requires Below(r, cursor, n)
    ensures cursor <= n
  {
  }

  lemma {:induction false} LastIsBelow(lines: seq<SourceLine>, x: Replacement, cursor: nat)
    requires x.start + x.count <= cursor || (x.start == |lines| && x.count == 0)
    ensures x.start + x.count <= cursor || AtEnd(x, |lines|)
  {
  }

  lemma {:induction false} AllPlacedGrows(lines: seq<SourceLine>, hunks: seq<UpdateHunk>, placed: seq<Placement>, p: Placement)
    requires |placed| < |hunks| && AllPlaced(lines, hunks, placed) && PlacedBy(lines, hunks[|placed|], CursorAfter(hunks, placed), p)
    ensures AllPlaced(lines, hunks, placed + [p])
  {
    hide PlacedBy, CursorAfter;
    assert (placed + [p])[..|placed|] == placed;
  }

  lemma {:induction false} PlacedGrows(lines: seq<SourceLine>, hunks: seq<UpdateHunk>, placed: seq<Placement>, p: Placement,
                                       defaultEol: string, r: seq<Replacement>)
    requires |placed| < |hunks| && CursorAfter(hunks, placed) <= |lines|
    requires AllPlaced(lines, hunks, placed) && ReplacementsOf(lines, hunks, placed, defaultEol, r)
    requires PlacedBy(lines, hunks[|placed|], CursorAfter(hunks, placed), p)
    ensures p.start + |UsedOld(hunks[|placed|], p.retried)| <= |lines|
    ensures AllPlaced(lines, hunks, placed + [p]) && NextCursor(hunks[|placed|], p) <= |lines|
    ensures ReplacementsOf(lines, hunks, placed + [p], defaultEol, r + [ReplacementOf(lines, hunks[|placed|], p, defaultEol)])
  {
    hide PlacedBy, NewLinesOf, UsedNew, UsedOld, AllPlaced, CursorAfter, ReplacementsOf, ReplacementOf;
    PlacedInRange(lines, hunks[|placed|], CursorAfter(hunks, placed), p);
    AllPlacedGrows(lines, hunks, placed, p);
    ReplacementsGrow(lines, hunks, placed, p, defaultEol, r);
  }

  lemma {:induction false} ReplacementsGrow(lines: seq<SourceLine>, hunks: seq<UpdateHunk>, placed: seq<Placement>, p: Placement,
                                            defaultEol: string, r: seq<Replacement>)
    requires |placed| < |hunks| && ReplacementsOf(lines, hunks, placed, defaultEol, r)
    requires p.start + |UsedOld(hunks[|placed|], p.retried)| <= |lines|
    ensures ReplacementsOf(lines, hunks, placed + [p], defaultEol, r + [ReplacementOf(lines, hunks[|placed|], p, defaultEol)])
  {
    hide UsedOld, ReplacementOf;
  }

  /** The loop of `applyUpdate`: places the hunks in order until one has no place. */
  method PlaceAll(lines: seq<SourceLine>, hunks: seq<UpdateHunk>, defaultEol: string)
    returns (found: seq<Replacement>, ghost placed: seq<Placement>)
    ensures AllPlaced(lines, hunks, placed) && ReplacementsOf(lines, hunks, placed, defaultEol, found)
    ensures |placed| < |hunks| ==>
              forall p: Placement :: !PlacedBy(lines, hunks[|placed|], CursorAfter(hunks, placed), p)
  {
    found, placed := [], [];
    var cursor := 0;
    for index := 0 to |hunks|
      invariant |placed| == index && AllPlaced(lines, hunks, placed)
      invariant ReplacementsOf(lines, hunks, placed, defaultEol, found)
      invariant cursor == CursorAfter(hunks, placed) <= |lines|
    {
      hide AllPlaced, ReplacementsOf, PlacedBy;
      var h := hunks[index];
      var p := Place(lines, h, cursor);
      if p.None? {
        return;
      }
      PlacedGrows(lines, hunks, placed, p.value, defaultEol, found);
      var start, oldLines := p.value.start, UsedOld(h, p.value.retried);
      var replacement := Rebuild(lines, start, |oldLines|, UsedNew(h, p.value.retried), h.contextLineIndices, defaultEol);
      found := found + [Replacement(start, |oldLines|, replacement)];
      placed := placed + [p.value];
      cursor := if oldLines != [] then start + |oldLines| else p.value.cursor;
    }
  }

  /** The text after all replacements are made at once. */
  function Updated(lines: seq<SourceLine>, replacements: seq<Replacement>): string
    requires InOrder(Sorted(replacements), |lines|)
  {
    Join(Finished(lines, Merge(lines, Sorted(replacements), 0), DefaultEol(lines)))
  }

  /** What an update answers: either every hunk has its place and the text is the one merge of all of
      them, or the first hunk without a place is named. */
  ghost predicate IsUpdate(text: string, hunks: seq<UpdateHunk>, r: Result<string, nat>, placed: seq<Placement>, replacements: seq<Replacement>)
  {
    var lines := SourceLines(text);
    && AllPlaced(lines, hunks, placed)
    && ReplacementsOf(lines, hunks, placed, DefaultEol(lines), replacements)
    && InOrder(Sorted(replacements), |lines|)
    && match r
       case Success(value) => |placed| == |hunks| && value == Updated(lines, replacements)
       case Failure(failed) =>
         && failed == |placed| < |hunks|
         && forall p: Placement :: !PlacedBy(lines, hunks[failed], CursorAfter(hunks, placed), p)
  }

  method ApplyUpdate(text: string, hunks: seq<UpdateHunk>)
    returns (r: Result<string, nat>, ghost placed: seq<Placement>, ghost replacements: seq<Replacement>)
    ensures IsUpdate(text, hunks, r, placed, replacements)
  {
    var lines := SourceLines(text);
    var defaultEol := DefaultEol(lines);
    var found;
    found, placed := PlaceAll(lines, hunks, defaultEol);
    replacements := found;
    PlacedApart(lines, hunks, placed, defaultEol, found);
    SortedIsInOrder(found, |lines|);
    if |found| < |hunks| {
      return Failure(|found|), placed, found;
    }
    var spliced := SpliceAll(lines, Sorted(found));
    var finished := Finish(lines, spliced, defaultEol);
    r := Success(Join(finished));
  }

  // ----- An update has one answer

  lemma {:induction false} PlacedOnce(lines: seq<SourceLine>, h: UpdateHunk, cursor: nat, p: Placement, q: Placement)
    requires PlacedBy(lines, h, cursor, p) && PlacedBy(lines, h, cursor, q)
    ensures p == q
  {
    hide FirstAt, NoMatch;
    if h.context.Some? {
      FoundOnce(lines, [h.context.value], cursor, false, p.cursor - 1, q.cursor - 1);
    }
    if p.retried && q.retried {
      FoundOnce(lines, UsedOld(h, true), p.cursor, h.endOfFile, p.start, q.start);
    } else if h.oldLines != [] {
      FoundOnce(lines, h.oldLines, p.cursor, h.endOfFile, if p.retried then -1 else p.start, if q.retried then -1 else q.start);
    }
  }

  lemma {:induction false} AllPlacedOnce(lines: seq<SourceLine>, hunks: seq<UpdateHunk>, p: seq<Placement>, q: seq<Placement>)
    requires AllPlaced(lines, hunks, p) && AllPlaced(lines, hunks, q) && |p| <= |q|
    ensures p == q[..|p|]
  {
    hide PlacedBy;
    if |p| < |q| {
      AllPlacedOnce(lines, hunks, p, q[..|q| - 1]);
      assert q[..|q| - 1][..|p|] == q[..|p|];
    } else if p != [] {
      var n := |p| - 1;
      AllPlacedOnce(lines, hunks, p[..n], q[..n]);
      assert p[..n] == q[..n];
      PlacedOnce(lines, hunks[n], CursorAfter(hunks, p[..n]), p[n], q[n]);
      assert p == p[..n] + [p[n]] && q == q[..n] + [q[n]];
    }
  }

  /** If all hunks have a place in one reading, no reading stops earlier. */
  lemma {:induction false} NoEarlierStop(lines: seq<SourceLine>, hunks: seq<UpdateHunk>, p: seq<Placement>, q: seq<Placement>)
    requires AllPlaced(lines, hunks, p) && AllPlaced(lines, hunks, q) && |p| < |q|
    ensures PlacedBy(lines, hunks[|p|], CursorAfter(hunks, p), q[|p|])
    decreases |q|
  {
    hide PlacedBy;
    if |p| < |q| - 1 {
      NoEarlierStop(lines, hunks, p, q[..|q| - 1]);
    } else {
      AllPlacedOnce(lines, hunks, p, q);
    }
  }

  /** Two readings of an update agree on whether it applies and on the text. */
  lemma {:induction false} UpdateOnce(text: string, hunks: seq<UpdateHunk>, r: Result<string, nat>, p: seq<Placement>, x: seq<Replacement>,
                                      r': Result<string, nat>, p': seq<Placement>, x': seq<Replacement>)
    requires IsUpdate(text, hunks, r, p, x) && IsUpdate(text, hunks, r', p', x')
    ensures r == r'
  {
    var lines := SourceLines(text);
    hide PlacedBy, AllPlaced;
    if |p| < |p'| {
      NoEarlierStop(lines, hunks, p, p');
    } else if |p'| < |p| {
      NoEarlierStop(lines, hunks, p', p);
    } else {
      AllPlacedOnce(lines, hunks, p, p');
      assert p == p' && x == x';
    }
  }
}
