/** What applying update hunks keeps: untouched lines, context lines and the final newline. */
module PatchMeaning {
  import opened SourceText
  import opened Replacements
  import opened PatchApply
  import opened Outcomes

  // ----- Untouched lines

  /** How far the replacements before line `p` move it. */
  function Shift(r: seq<Replacement>, p: nat): int {
    if r == [] || p < r[0].start + r[0].count then 0
    else |r[0].lines| - r[0].count + Shift(r[1..], p)
  }

  predicate Touched(r: seq<Replacement>, p: nat) {
    exists i | 0 <= i < |r| :: r[i].start <= p < r[i].start + r[i].count
  }

  /** Where an untouched line is in the merge of the lines from `at` on. */
  function NewIndex(r: seq<Replacement>, at: nat, p: nat): int { p - at + Shift(r, p) }

  /** A line no replacement covers is in the merge, moved only by what the replacements before it added or removed. */
  lemma {:induction false} UntouchedLineKept(lines: seq<SourceLine>, r: seq<Replacement>, at: nat, p: nat)
    requires at <= p < |lines| && InOrder(r, |lines|) && (r != [] ==> at <= r[0].start)
    requires !Touched(r, p)
    ensures 0 <= NewIndex(r, at, p) < |Merge(lines, r, at)| && Merge(lines, r, at)[NewIndex(r, at, p)] == lines[p]
    decreases |r|
  {
    hide Merge, InOrder, Shift, Touched;
    if r == [] {
      MergeNothing(lines, at);
      ShiftUnfold(r, p);
    } else {
      var x, rest := r[0], r[1..];
      var end := x.start + x.count;
      RestInOrder(lines, r);
      MergeFirst(lines, r, at);
      var head, tail := lines[at..x.start] + x.lines, Merge(lines, rest, end);
      ShiftUnfold(r, p);
      if end <= p {
        TouchedRest(r, p);
        UntouchedLineKept(lines, rest, end, p);
        IndexInTail(head, tail, NewIndex(rest, end, p));
      } else {
        NotInFirst(r, p);
        IndexBefore(lines[at..x.start], x.lines, tail, p - at);
      }
    }
  }

  lemma {:induction false} ShiftUnfold(r: seq<Replacement>, p: nat)
    ensures Shift(r, p) == if r == [] || p < r[0].start + r[0].count then 0 else |r[0].lines| - r[0].count + Shift(r[1..], p)
  {
  }

  lemma {:induction false} NotInFirst(r: seq<Replacement>, p: nat)
    requires r != [] && !Touched(r, p) && p < r[0].start + r[0].count
    ensures p < r[0].start
  {
  }

  lemma {:induction false} IndexBefore(a: seq<SourceLine>, b: seq<SourceLine>, c: seq<SourceLine>, i: nat)
    requires i < |a|
    ensures (a + b + c)[i] == a[i]
  {
  }

  lemma {:induction false} IndexInTail(head: seq<SourceLine>, tail: seq<SourceLine>, q: nat)
    requires q < |tail|
    ensures (head + tail)[|head| + q] == tail[q]
  {
  }

  lemma {:induction false} TouchedRest(r: seq<Replacement>, p: nat)
    requires r != [] && !Touched(r, p)
    ensures !Touched(r[1..], p)
  {
    forall i | 0 <= i < |r| - 1 ensures !(r[1..][i].start <= p < r[1..][i].start + r[1..][i].count) {
      assert r[1..][i] == r[i + 1];
    }
  }

  /** Untouched lines keep their order. */
  lemma {:induction false} UntouchedLinesKeepOrder(lines: seq<SourceLine>, r: seq<Replacement>, p: nat, p': nat)
    requires p < p' < |lines| && InOrder(r, |lines|) && !Touched(r, p) && !Touched(r, p')
    ensures p + Shift(r, p) < p' + Shift(r, p')
    decreases |r|
  {
    if r != [] && r[0].start + r[0].count <= p' {
      var rest := r[1..];
      TouchedRest(r, p');
      if r[0].start + r[0].count <= p {
        TouchedRest(r, p);
        UntouchedLinesKeepOrder(lines, rest, p, p');
      } else {
        assert p < r[0].start by {
          assert r[0].start <= p ==> Touched(r, p);
        }
        ShiftRemovesAtMost(lines, rest, p', r[0].start + r[0].count);
      }
    }
  }

  lemma {:induction false} ShiftRemovesAtMost(lines: seq<SourceLine>, r: seq<Replacement>, p: nat, low: nat)
    requires low <= p < |lines| && InOrder(r, |lines|) && (r != [] ==> low <= r[0].start) && !Touched(r, p)
    ensures low <= p + Shift(r, p)
    decreases |r|
  {
    if r != [] && r[0].start + r[0].count <= p {
      var rest := r[1..];
      TouchedRest(r, p);
      ShiftRemovesAtMost(lines, rest, p, r[0].start + r[0].count);
    }
  }

  // ----- Context lines

  /** How much the first replacements add to the file. */
  function GainOf(s: seq<Replacement>, k: nat): int
    requires k <= |s|
  {
    if k == 0 then 0 else |s[0].lines| - s[0].count + GainOf(s[1..], k - 1)
  }

  /** Where a merge has the lines that a replacement writes. */
  lemma {:induction false} WrittenLine(lines: seq<SourceLine>, s: seq<Replacement>, at: nat, k: nat, i: nat)
    requires at <= |lines| && InOrder(s, |lines|) && (s != [] ==> at <= s[0].start) && k < |s| && i < |s[k].lines|
    ensures var index := s[k].start - at + GainOf(s, k) + i;
            0 <= index < |Merge(lines, s, at)| && Merge(lines, s, at)[index] == s[k].lines[i]
    decreases |s|
  {
    hide Merge, InOrder, GainOf;
    var x, end := s[0], s[0].start + s[0].count;
    MergeFirst(lines, s, at);
    RestInOrder(lines, s);
    GainUnfold(s, k);
    var head, tail := lines[at..x.start] + x.lines, Merge(lines, s[1..], end);
    if k == 0 {
      IndexInHead(lines[at..x.start], x.lines, tail, i);
    } else {
      assert s[1..][k - 1] == s[k];
      WrittenLine(lines, s[1..], end, k - 1, i);
      IndexInTail(head, tail, s[k].start - end + GainOf(s[1..], k - 1) + i);
    }
  }

  lemma {:induction false} RestInOrder(lines: seq<SourceLine>, s: seq<Replacement>)
    requires InOrder(s, |lines|) && s != []
    ensures InOrder(s[1..], |lines|) && s[0].start + s[0].count <= |lines| && (|s| > 1 ==> s[0].start + s[0].count <= s[1].start)
  {
  }

  lemma {:induction false} GainUnfold(s: seq<Replacement>, k: nat)
    requires k < |s|
    ensures GainOf(s, k) == if k == 0 then 0 else |s[0].lines| - s[0].count + GainOf(s[1..], k - 1)
  {
  }

  lemma {:induction false} IndexInHead(a: seq<SourceLine>, b: seq<SourceLine>, c: seq<SourceLine>, i: nat)
    requires i < |b|
    ensures (a + b + c)[|a| + i] == b[i]
  {
  }

  /** New lines are paired with old ones in order. */
  predicate NamedOnce(indices: seq<(nat, nat)>) { forall a, b | 0 <= a < b < |indices| :: indices[a].1 < indices[b].1 }

  lemma {:induction false} PairIsFound(indices: seq<(nat, nat)>, q: nat)
    requires NamedOnce(indices) && q < |indices|
    ensures ContextOf(indices, indices[q].1) == Some(indices[q].0)
    decreases |indices|
  {
    if q < |indices| - 1 {
      PairIsFound(indices[..|indices| - 1], q);
    }
  }

  lemma {:induction false} PlaceInSorted(r: seq<Replacement>, x: Replacement) returns (k: nat)
    requires x in r
    ensures k < |Sorted(r)| && Sorted(r)[k] == x
  {
    assert x in multiset(r) && x in multiset(Sorted(r));
    k :| 0 <= k < |Sorted(r)| && Sorted(r)[k] == x;
  }

  /** A line that a hunk shows as context stays the file's own line, however loosely it matched: the merge has it where
      the hunk's replacement puts it. `k` is that replacement's place in the file. */
  lemma {:induction false} ContextLineKept(lines: seq<SourceLine>, hunks: seq<UpdateHunk>, placed: seq<Placement>, defaultEol: string,
                                           r: seq<Replacement>, j: nat, q: nat) returns (k: nat)
    requires ReplacementsOf(lines, hunks, placed, defaultEol, r) && InOrder(Sorted(r), |lines|) && j < |r|
    requires NamedOnce(hunks[j].contextLineIndices) && q < |hunks[j].contextLineIndices|
    requires hunks[j].contextLineIndices[q].0 < |UsedOld(hunks[j], placed[j].retried)|
    requires hunks[j].contextLineIndices[q].1 < |UsedNew(hunks[j], placed[j].retried)|
    ensures k < |Sorted(r)| && Sorted(r)[k] == r[j]
    ensures var (o, n) := hunks[j].contextLineIndices[q];
            var index := r[j].start + GainOf(Sorted(r), k) + n;
            0 <= index < |Merge(lines, Sorted(r), 0)| && Merge(lines, Sorted(r), 0)[index] == lines[placed[j].start + o]
  {
    hide Merge, Sorted, InOrder, GainOf, NewLinesOf, NewLine, UsedOld, UsedNew, NamedOnce;
    k := PlaceInSorted(r, r[j]);
    ContextIsWritten(lines, hunks[j], placed[j], defaultEol, q);
    WrittenLine(lines, Sorted(r), 0, k, hunks[j].contextLineIndices[q].1);
  }

  lemma {:induction false} ContextIsWritten(lines: seq<SourceLine>, h: UpdateHunk, p: Placement, defaultEol: string, q: nat)
    requires p.start + |UsedOld(h, p.retried)| <= |lines| && NamedOnce(h.contextLineIndices) && q < |h.contextLineIndices|
    requires h.contextLineIndices[q].0 < |UsedOld(h, p.retried)| && h.contextLineIndices[q].1 < |UsedNew(h, p.retried)|
    ensures var (o, n) := h.contextLineIndices[q];
            var x := ReplacementOf(lines, h, p, defaultEol);
            x.start == p.start && n < |x.lines| && x.lines[n] == lines[p.start + o]
  {
    PairIsFound(h.contextLineIndices, q);
    hide UsedOld, UsedNew, ContextOf, NamedOnce, OldPosition, EolNear;
  }

  // ----- The endings of new lines

  /** The last of some pairs whose new line comes before new line `i`. */
  predicate LastBefore(indices: seq<(nat, nat)>, i: nat, q: nat) {
    q < |indices| && indices[q].1 < i && (q + 1 < |indices| ==> i <= indices[q + 1].1)
  }

  lemma {:induction false} ContextIsNamed(indices: seq<(nat, nat)>, i: nat)
    ensures ContextOf(indices, i).Some? ==> exists q | 0 <= q < |indices| :: indices[q] == (ContextOf(indices, i).value, i)
  {
    if indices != [] && indices[|indices| - 1].1 != i {
      ContextIsNamed(indices[..|indices| - 1], i);
    }
  }

  /** The old line that is as far behind the last context line as new line `i`, or behind the start of the hunk. */
  function CountedFrom(indices: seq<(nat, nat)>, count: nat, i: nat, q: Option<nat>): int
    requires q.Some? ==> q.value < |indices|
  {
    var at := match q case None => i case Some(q) => indices[q].0 + i - indices[q].1;
    if at < count then at else count
  }

  predicate NoneBefore(indices: seq<(nat, nat)>, i: nat) { forall q | 0 <= q < |indices| :: i <= indices[q].1 }

  predicate BeforeAt(indices: seq<(nat, nat)>, i: nat, q: Option<nat>) {
    match q case None => NoneBefore(indices, i) case Some(q) => LastBefore(indices, i, q)
  }

  /** A new line stands for that old line. */
  lemma {:induction false} StandsFor(indices: seq<(nat, nat)>, count: nat, i: nat, q: Option<nat>)
    requires NamedOnce(indices) && (forall k | 0 <= k < |indices| :: indices[k].0 < count) && BeforeAt(indices, i, q)
    ensures OldPosition(indices, count, i) == CountedFrom(indices, count, i, q)
  {
    if i > 0 {
      if q.Some? && indices[q.value].1 == i - 1 {
        PairIsFound(indices, q.value);
      } else {
        NotNamed(indices, i - 1, q);
        StandsFor(indices, count, i - 1, q);
      }
      hide NamedOnce, LastBefore, NoneBefore, ContextOf;
    }
  }

  lemma {:induction false} NotNamed(indices: seq<(nat, nat)>, i: nat, q: Option<nat>)
    requires NamedOnce(indices) && BeforeAt(indices, i + 1, q) && (q.Some? ==> indices[q.value].1 != i)
    ensures ContextOf(indices, i) == None && BeforeAt(indices, i, q)
  {
    ContextIsNamed(indices, i);
  }

  /** A line that a hunk adds or puts in place of another has the hunk's text, and the ending of the line it stands for,
      else of the line before that, else the file's first. */
  lemma {:induction false} NewLineEnding(lines: seq<SourceLine>, h: UpdateHunk, p: Placement, defaultEol: string, i: nat, at: nat)
    requires p.start + |UsedOld(h, p.retried)| <= |lines| && i < |UsedNew(h, p.retried)|
    requires forall q | 0 <= q < |h.contextLineIndices| :: h.contextLineIndices[q].1 != i
    requires at == p.start + OldPosition(h.contextLineIndices, |UsedOld(h, p.retried)|, i)
    ensures var x := ReplacementOf(lines, h, p, defaultEol).lines;
            && |x| == |UsedNew(h, p.retried)| && x[i].text == UsedNew(h, p.retried)[i]
            && (at < |lines| && lines[at].eol != "" ==> x[i].eol == lines[at].eol)
            && (0 < at && lines[at - 1].eol != "" && (at == |lines| || lines[at].eol == "") ==> x[i].eol == lines[at - 1].eol)
            && ((at == 0 || lines[at - 1].eol == "") && (at == |lines| || lines[at].eol == "") ==> x[i].eol == defaultEol)
  {
    ContextIsNamed(h.contextLineIndices, i);
    hide UsedOld, UsedNew, OldPosition;
  }

  /** The default ending is that of the first line that has one. */
  lemma {:induction false} DefaultIsFirst(lines: seq<SourceLine>, k: nat)
    ensures (forall i | 0 <= i < |lines| :: lines[i].eol == "") ==> DefaultEol(lines) == "\n"
    ensures k < |lines| && lines[k].eol != "" && (forall i | 0 <= i < k :: lines[i].eol == "") ==> DefaultEol(lines) == lines[k].eol
  {
    if lines != [] && lines[0].eol == "" {
      assert forall i | 0 <= i < |lines| - 1 :: lines[1..][i] == lines[i + 1];
      if k > 0 {
        DefaultIsFirst(lines[1..], k - 1);
      } else {
        DefaultIsFirst(lines[1..], |lines|);
      }
    }
  }

  // ----- A trailing blank line given up

  /** A hunk without its last old line, and without its last new line if that is blank. */
  function Shortened(h: UpdateHunk): UpdateHunk
    requires h.oldLines != []
  {
    var n := |h.newLines|;
    h.(oldLines := h.oldLines[..|h.oldLines| - 1], newLines := if n > 0 && h.newLines[n - 1] == "" then h.newLines[..n - 1] else h.newLines)
  }

  /** A hunk that found its place only without its trailing blank line does there what the shorter hunk does. */
  lemma {:induction false} RetriedIsShortened(lines: seq<SourceLine>, h: UpdateHunk, cursor: nat, p: Placement, defaultEol: string)
    requires PlacedBy(lines, h, cursor, p) && p.retried && |h.oldLines| > 1 && p.start + |UsedOld(h, true)| <= |lines|
    ensures h.oldLines[|h.oldLines| - 1] == ""
    ensures var q := p.(retried := false);
            && PlacedBy(lines, Shortened(h), cursor, q) && p.start + |UsedOld(Shortened(h), false)| <= |lines|
            && ReplacementOf(lines, h, p, defaultEol) == ReplacementOf(lines, Shortened(h), q, defaultEol)
  {
    hide Found;
  }

  // ----- Context-only hunks

  /** A hunk whose every line is context. */
  predicate ContextOnly(h: UpdateHunk) {
    && h.oldLines == h.newLines
    && forall i | 0 <= i < |h.newLines| :: ContextOf(h.contextLineIndices, i) == Some(i)
  }

  /** A replacement that puts back the lines it takes out. */
  predicate Restores(lines: seq<SourceLine>, x: Replacement) {
    x.start + x.count <= |lines| && x.lines == lines[x.start..x.start + x.count]
  }

  predicate Changeless(lines: seq<SourceLine>, r: seq<Replacement>) {
    forall x | x in r :: Restores(lines, x)
  }

  lemma {:induction false} MergeChangeless(lines: seq<SourceLine>, r: seq<Replacement>, at: nat)
    requires at <= |lines| && InOrder(r, |lines|) && (r != [] ==> at <= r[0].start) && Changeless(lines, r)
    ensures Merge(lines, r, at) == lines[at..]
    decreases |r|
  {
    if r != [] {
      var x, rest := r[0], r[1..];
      var end := x.start + x.count;
      assert x in r && Restores(lines, x);
      ChangelessRest(lines, r);
      hide Changeless, Restores;
      MergeChangeless(lines, rest, end);
      SplitMiddle(lines, at, x.start, end);
    }
  }

  lemma {:induction false} ChangelessRest(lines: seq<SourceLine>, r: seq<Replacement>)
    requires r != [] && Changeless(lines, r)
    ensures Changeless(lines, r[1..])
  {
  }

  lemma {:induction false} SplitMiddle(lines: seq<SourceLine>, x: nat, y: nat, z: nat)
    requires x <= y <= z <= |lines|
    ensures lines[x..y] + lines[y..z] + lines[z..] == lines[x..]
  {
  }

  lemma {:induction false} FinishedSource(text: string, defaultEol: string)
    ensures Finished(SourceLines(text), SourceLines(text), defaultEol) == SourceLines(text)
  {
    SourceLinesShape(text);
  }

  lemma {:induction false} SameLines(h: UpdateHunk, retried: bool)
    requires ContextOnly(h) && (retried ==> EndsBlank(h.oldLines))
    ensures |UsedNew(h, retried)| == |UsedOld(h, retried)| <= |h.newLines|
  {
  }

  lemma {:induction false} ContextOnlyReplacement(lines: seq<SourceLine>, h: UpdateHunk, p: Placement, defaultEol: string)
    requires ContextOnly(h) && (p.retried ==> EndsBlank(h.oldLines)) && p.start + |UsedOld(h, p.retried)| <= |lines|
    ensures Restores(lines, ReplacementOf(lines, h, p, defaultEol))
  {
    SameLines(h, p.retried);
    var x := ReplacementOf(lines, h, p, defaultEol);
    forall i | 0 <= i < |x.lines| ensures x.lines[i] == lines[p.start..p.start + x.count][i] {
      assert ContextOf(h.contextLineIndices, i) == Some(i);
    }
  }

  lemma {:induction false} RetriedIsBlank(lines: seq<SourceLine>, hunks: seq<UpdateHunk>, placed: seq<Placement>, i: nat)
    requires AllPlaced(lines, hunks, placed) && i < |placed|
    ensures placed[i].retried ==> EndsBlank(hunks[i].oldLines)
    decreases |placed|
  {
    var n := |placed| - 1;
    if i < n {
      RetriedIsBlank(lines, hunks, placed[..n], i);
    }
  }

  /** Applying hunks that only show context changes nothing, however loosely they matched. */
  lemma {:induction false} ContextOnlyIsIdentity(text: string, hunks: seq<UpdateHunk>, placed: seq<Placement>, r: seq<Replacement>)
    requires forall i | 0 <= i < |hunks| :: ContextOnly(hunks[i])
    requires AllPlaced(SourceLines(text), hunks, placed)
    requires ReplacementsOf(SourceLines(text), hunks, placed, DefaultEol(SourceLines(text)), r)
    requires InOrder(Sorted(r), |SourceLines(text)|)
    ensures Updated(SourceLines(text), r) == text
  {
    var lines := SourceLines(text);
    forall i | 0 <= i < |r| ensures Restores(lines, r[i]) {
      RetriedIsBlank(lines, hunks, placed, i);
      ContextOnlyReplacement(lines, hunks[i], placed[i], DefaultEol(lines));
    }
    SortedIsChangeless(lines, r);
    MergeChangeless(lines, Sorted(r), 0);
    FinishedSource(text, DefaultEol(lines));
    JoinSourceLines(text);
  }

  lemma {:induction false} FromSorted(r: seq<Replacement>, x: Replacement)
    requires x in Sorted(r)
    ensures x in r
  {
    assert x in multiset(Sorted(r)) && x in multiset(r);
  }

  lemma {:induction false} SortedIsChangeless(lines: seq<SourceLine>, r: seq<Replacement>)
    requires forall i | 0 <= i < |r| :: Restores(lines, r[i])
    ensures Changeless(lines, Sorted(r))
  {
    forall x | x in Sorted(r) ensures Restores(lines, x) {
      FromSorted(r, x);
    }
  }

  // ----- The final newline

  /** The text of the last line that replacements leave, read from the end of the file: those that reach the end and
      leave nothing are skipped; then the last line that one writes there, or the file's own line before them. */
  function LastLeft(lines: seq<SourceLine>, s: seq<Replacement>): Option<string>
    requires InOrder(s, |lines|)
    decreases |s|
  {
    if s != [] && s[|s| - 1].start + s[|s| - 1].count == |lines| then
      var x := s[|s| - 1];
      if x.lines != [] then Some(x.lines[|x.lines| - 1].text) else LastLeft(lines[..x.start], s[..|s| - 1])
    else if lines == [] then None
    else Some(lines[|lines| - 1].text)
  }

  function LinesLeft(lines: seq<SourceLine>, s: seq<Replacement>): int {
    if s == [] then |lines| else LinesLeft(lines, s[..|s| - 1]) + |s[|s| - 1].lines| - s[|s| - 1].count
  }

  /** The one case in which a result ends differently from its file, which has no final newline: the last line left ends
      in a break itself, or is blank and follows another. */
  predicate LeavesBreak(lines: seq<SourceLine>, s: seq<Replacement>)
    requires InOrder(s, |lines|)
  {
    match LastLeft(lines, s)
    case None => false
    case Some(text) => EndsInBreak(text) || (text == "" && LinesLeft(lines, s) > 1)
  }

  /** A merge ends with what its last replacement leaves. */
  lemma {:induction false} MergeLast(lines: seq<SourceLine>, s: seq<Replacement>, at: nat)
    requires InOrder(s, |lines|) && s != [] && at <= s[0].start
    ensures var x := s[|s| - 1];
            && InOrder(s[..|s| - 1], |lines[..x.start]|) && at <= x.start
            && Merge(lines, s, at) == Merge(lines[..x.start], s[..|s| - 1], at) + x.lines + lines[x.start + x.count..]
    decreases |s|
  {
    hide Merge;
    var x, init := s[|s| - 1], s[..|s| - 1];
    var head, tail := lines[..x.start], lines[x.start + x.count..];
    MergeFirst(lines, s, at);
    if |s| == 1 {
      MergeNothing(lines, x.start + x.count);
      MergeNothing(head, at);
      assert s[1..] == [] && init == [] && head[at..] == lines[at..x.start];
    } else {
      var end := s[0].start + s[0].count;
      MergeLast(lines, s[1..], end);
      assert s[1..][..|s| - 2] == init[1..] && init[0] == s[0] && s[1..][|s| - 2] == x;
      MergeFirst(head, init, at);
      assert head[at..s[0].start] == lines[at..s[0].start];
      Regroup(lines[at..s[0].start], s[0].lines, Merge(head, init[1..], end), x.lines, tail);
    }
  }

  lemma {:induction false} MergeFirst(lines: seq<SourceLine>, s: seq<Replacement>, at: nat)
    requires InOrder(s, |lines|) && s != [] && at <= s[0].start
    ensures Merge(lines, s, at) == lines[at..s[0].start] + s[0].lines + Merge(lines, s[1..], s[0].start + s[0].count)
  {
  }

  lemma {:induction false} MergeNothing(lines: seq<SourceLine>, at: nat)
    requires at <= |lines|
    ensures Merge(lines, [], at) == lines[at..]
  {
  }

  lemma {:induction false} Regroup<T>(a: seq<T>, b: seq<T>, c: seq<T>, d: seq<T>, e: seq<T>)
    ensures a + b + (c + d + e) == a + b + c + d + e
  {
  }

  lemma {:induction false} LinesLeftShorter(lines: seq<SourceLine>, s: seq<Replacement>, n: nat)
    requires n <= |lines|
    ensures LinesLeft(lines, s) == LinesLeft(lines[..n], s) + |lines| - n
  {
    if s != [] {
      LinesLeftShorter(lines, s[..|s| - 1], n);
    }
  }

  /** The last line left, and how many are, are those of the merge. */
  lemma {:induction false} MergeEnds(lines: seq<SourceLine>, s: seq<Replacement>)
    requires InOrder(s, |lines|)
    ensures var m := Merge(lines, s, 0);
            |m| == LinesLeft(lines, s) && LastLeft(lines, s) == LastText(m)
    decreases |s|
  {
    hide Merge, LastLeft, LinesLeft;
    if s == [] {
      MergeNothing(lines, 0);
      NothingLeft(lines);
    } else {
      var x := s[|s| - 1];
      MergeLast(lines, s, 0);
      MergeEnds(lines[..x.start], s[..|s| - 1]);
      LinesLeftShorter(lines, s[..|s| - 1], x.start);
      EndUnfold(lines, s);
      EndOf(Merge(lines[..x.start], s[..|s| - 1], 0), x.lines, lines[x.start + x.count..]);
      LineAt(lines, x.start + x.count);
    }
  }

  lemma {:induction false} NothingLeft(lines: seq<SourceLine>)
    ensures LinesLeft(lines, []) == |lines| && LastLeft(lines, []) == LastText(lines)
  {
  }

  function LastText(lines: seq<SourceLine>): Option<string> { if lines == [] then None else Some(lines[|lines| - 1].text) }

  lemma {:induction false} EndUnfold(lines: seq<SourceLine>, s: seq<Replacement>)
    requires InOrder(s, |lines|) && s != []
    ensures var x := s[|s| - 1];
            && LinesLeft(lines, s) == LinesLeft(lines, s[..|s| - 1]) + |x.lines| - x.count
            && LastLeft(lines, s) == if x.start + x.count < |lines| then LastText(lines)
                                     else if x.lines != [] then LastText(x.lines) else LastLeft(lines[..x.start], s[..|s| - 1])
  {
  }

  lemma {:induction false} EndOf(a: seq<SourceLine>, b: seq<SourceLine>, c: seq<SourceLine>)
    ensures LastText(a + b + c) == if c != [] then LastText(c) else if b != [] then LastText(b) else LastText(a)
  {
  }

  lemma {:induction false} LineAt(lines: seq<SourceLine>, k: nat)
    requires k <= |lines|
    ensures |lines[k..]| == |lines| - k && (k < |lines| ==> LastText(lines[k..]) == LastText(lines))
  {
  }

  /** What the last line written for a hunk says: the hunk's last new line, or the file's own line when that is
      context. */
  lemma {:induction false} LastWritten(lines: seq<SourceLine>, h: UpdateHunk, p: Placement, defaultEol: string)
    requires p.start + |UsedOld(h, p.retried)| <= |lines| && UsedNew(h, p.retried) != []
    ensures var x := ReplacementOf(lines, h, p, defaultEol);
            var last := |UsedNew(h, p.retried)| - 1;
            |x.lines| == last + 1 && x.lines[last].text == match Repeats(h.contextLineIndices, |UsedOld(h, p.retried)|, last)
                                                           case Some(o) => lines[p.start + o].text
                                                           case None => UsedNew(h, p.retried)[last]
  {
  }

  lemma {:induction false} JoinEnds(lines: seq<SourceLine>)
    requires lines != []
    ensures var last := lines[|lines| - 1];
            && (last.eol != "" ==> EndsInBreak(Join(lines)) == EndsInBreak(last.eol))
            && (last.eol == "" && last.text != "" ==> EndsInBreak(Join(lines)) == EndsInBreak(last.text))
            && (last.eol == "" && last.text == "" ==> Join(lines) == Join(lines[..|lines| - 1]))
  {
    var init, last := lines[..|lines| - 1], lines[|lines| - 1];
    assert lines == init + [last];
    JoinConcat(init, [last]);
    assert Join([last]) == last.text + last.eol by {
      assert [last][1..] == [];
    }
  }

  lemma {:induction false} DefaultIsEol(lines: seq<SourceLine>)
    requires GoodEols(lines)
    ensures IsEol(DefaultEol(lines))
  {
    if lines != [] {
      assert forall i | 0 <= i < |lines| - 1 :: lines[1..][i] == lines[i + 1];
      DefaultIsEol(lines[1..]);
    }
  }

  /** Whether text ends in a break, read off its lines. */
  predicate LastBreaks(lines: seq<SourceLine>)
    requires lines != []
  {
    var last := lines[|lines| - 1];
    last.eol != "" || EndsInBreak(last.text) || (last.text == "" && |lines| > 1)
  }

  lemma {:induction false} JoinBreaks(lines: seq<SourceLine>)
    requires lines != [] && GoodEols(lines) && Terminated(lines)
    ensures EndsInBreak(Join(lines)) <==> LastBreaks(lines)
  {
    JoinEnds(lines);
    var n := |lines| - 1;
    if n > 0 {
      JoinEnds(lines[..n]);
      assert lines[..n][n - 1] == lines[n - 1];
    }
  }

  lemma {:induction false} FinishedShape(text: string, result: seq<SourceLine>)
    requires result != [] && GoodEols(result)
    ensures var out := Finished(SourceLines(text), result, DefaultEol(SourceLines(text)));
            && GoodEols(out) && Terminated(out)
            && out[|out| - 1].text == result[|result| - 1].text
            && (out[|out| - 1].eol != "" <==> text == "" || EndsInBreak(text))
  {
    SourceLinesShape(text);
    DefaultIsEol(SourceLines(text));
  }

  lemma {:induction false} FinalNewlineKept(text: string, result: seq<SourceLine>)
    requires result != [] && GoodEols(result)
    ensures var out := Join(Finished(SourceLines(text), result, DefaultEol(SourceLines(text))));
            var last := result[|result| - 1].text;
            EndsInBreak(out) <==> text == "" || EndsInBreak(text) || EndsInBreak(last) || (last == "" && |result| > 1)
  {
    FinishedShape(text, result);
    JoinBreaks(Finished(SourceLines(text), result, DefaultEol(SourceLines(text))));
  }

  /** Spliced lines keep proper endings, so the theorem above is about every update. */
  lemma {:induction false} MergeKeepsEols(lines: seq<SourceLine>, r: seq<Replacement>, at: nat)
    requires at <= |lines| && InOrder(r, |lines|) && (r != [] ==> at <= r[0].start)
    requires GoodEols(lines) && forall i | 0 <= i < |r| :: GoodEols(r[i].lines)
    ensures GoodEols(Merge(lines, r, at))
    decreases |r|
  {
    if r != [] {
      assert forall i | 0 <= i < |r| - 1 :: r[1..][i] == r[i + 1];
      MergeKeepsEols(lines, r[1..], r[0].start + r[0].count);
    }
  }

  lemma {:induction false} ReplacementEols(lines: seq<SourceLine>, h: UpdateHunk, p: Placement, defaultEol: string)
    requires GoodEols(lines) && IsEol(defaultEol) && p.start + |UsedOld(h, p.retried)| <= |lines|
    ensures GoodEols(ReplacementOf(lines, h, p, defaultEol).lines)
  {
  }

  /** Every update: the new text ends in a break exactly when it has a line left, and the file was empty, or ended in
      a break, or the line left last brings one. */
  lemma {:induction false} UpdateKeepsFinalNewline(text: string, hunks: seq<UpdateHunk>, placed: seq<Placement>, r: seq<Replacement>)
    requires ReplacementsOf(SourceLines(text), hunks, placed, DefaultEol(SourceLines(text)), r)
    requires InOrder(Sorted(r), |SourceLines(text)|)
    ensures EndsInBreak(Updated(SourceLines(text), r)) <==>
              && LastLeft(SourceLines(text), Sorted(r)).Some?
              && (text == "" || EndsInBreak(text) || LeavesBreak(SourceLines(text), Sorted(r)))
  {
    var lines, s := SourceLines(text), Sorted(r);
    SourceLinesShape(text);
    DefaultIsEol(lines);
    forall i | 0 <= i < |s| ensures GoodEols(s[i].lines) {
      FromSorted(r, s[i]);
      var j :| 0 <= j < |r| && r[j] == s[i];
      ReplacementEols(lines, hunks[j], placed[j], DefaultEol(lines));
    }
    MergeKeepsEols(lines, s, 0);
    MergeEnds(lines, s);
    if Merge(lines, s, 0) != [] {
      FinalNewlineKept(text, Merge(lines, s, 0));
    }
  }

  lemma {:induction false} OneLine()
    ensures SourceLines("a") == [SourceLine("a", "")] && DefaultEol(SourceLines("a")) == "\n"
  {
    assert FirstBreak("a") == 1;
    assert "a"[1..] == "" && "a"[..1] == "a";
    assert SourceLines("a")[1..] == [];
  }

  lemma {:induction false} JoinTwo(x: SourceLine, y: SourceLine)
    ensures Join([x, y]) == x.text + x.eol + (y.text + y.eol)
  {
    assert [x, y][1..] == [y] && [y][1..] == [];
    assert Join([y]) == y.text + y.eol + Join([]);
  }

  lemma {:induction false} ReplaceOnly(line: SourceLine, r: Replacement)
    requires r.start == 0 && r.count == 1
    ensures Sorted([r]) == [r] && InOrder([r], 1) && Merge([line], [r], 0) == r.lines
  {
    assert [r][..0] == [] && [r][1..] == [] && [line][1..] == [];
    assert Sorted([]) == [];
  }

  /** The hunk that keeps the line "a" and adds an empty line after it. */
  const AddsEmptyLine := UpdateHunk(None, ["a"], ["a", ""], [(0, 0)], false)

  lemma {:induction false} AddsEmptyLinePlaced()
    ensures PlacedBy([SourceLine("a", "")], AddsEmptyLine, 0, Placement(0, false, 0))
    ensures ReplacementOf([SourceLine("a", "")], AddsEmptyLine, Placement(0, false, 0), "\n")
            == Replacement(0, 1, [SourceLine("a", ""), SourceLine("", "\n")])
  {
    assert MatchesAt([SourceLine("a", "")], ["a"], 0, 0);
    assert FirstAt([SourceLine("a", "")], ["a"], 0, false, 0, 0);
    assert [(0, 0)][..0] == [];
    assert ContextOf([(0, 0)], 0) == Some(0);
    assert ContextOf([(0, 0)], 1) == ContextOf([], 1) == None;
  }

  lemma {:induction false} AddsEmptyLineUpdates()
    ensures var lines := [SourceLine("a", "")];
            var r := Replacement(0, 1, [SourceLine("a", ""), SourceLine("", "\n")]);
            InOrder(Sorted([r]), 1) && Join(Finished(lines, Merge(lines, Sorted([r]), 0), "\n")) == "a\n"
  {
    var r := Replacement(0, 1, [SourceLine("a", ""), SourceLine("", "\n")]);
    ReplaceOnly(SourceLine("a", ""), r);
    assert Finished([SourceLine("a", "")], r.lines, "\n") == [SourceLine("a", "\n"), SourceLine("", "")];
    JoinTwo(SourceLine("a", "\n"), SourceLine("", ""));
  }

  /** The failing case is real: adding an empty last line to a file without a final newline gives it one. */
  lemma {:induction false} FinalNewlineCanAppear()
    ensures var r := Replacement(0, 1, [SourceLine("a", ""), SourceLine("", "\n")]);
            && PlacedBy(SourceLines("a"), AddsEmptyLine, 0, Placement(0, false, 0))
            && ReplacementOf(SourceLines("a"), AddsEmptyLine, Placement(0, false, 0), DefaultEol(SourceLines("a"))) == r
            && InOrder(Sorted([r]), |SourceLines("a")|)
            && Updated(SourceLines("a"), [r]) == "a\n" && EndsInBreak("a\n") && !EndsInBreak("a")
  {
    OneLine();
    AddsEmptyLinePlaced();
    AddsEmptyLineUpdates();
  }

  /** The hunk that deletes the line "b". */
  const DeletesLast := UpdateHunk(None, ["b"], [], [], false)

  lemma {:induction false} OneSourceLine(line: string, eol: string, rest: string)
    requires forall i | 0 <= i < |line| :: !IsBreak(line[i])
    requires eol == "\n" || (eol == "" && rest == "" && line != "")
    ensures SourceLines(line + eol + rest) == [SourceLine(line, eol)] + SourceLines(rest)
  {
    hide SourceLines;
    var text := line + eol + rest;
    assert FirstBreak(text) == |line|;
    assert text[|line|..] == eol + rest && BreakLength(eol + rest) == |eol|;
    assert text[..|line|] == line && text[|line|..|line| + |eol|] == eol && text[|line| + |eol|..] == rest;
    SourceLinesUnfold(text, |line|, |eol|);
  }

  lemma {:induction false} ThreeLines(text: string)
    requires text == "a\n\nb"
    ensures SourceLines(text) == [SourceLine("a", "\n"), SourceLine("", "\n"), SourceLine("b", "")]
    ensures DefaultEol(SourceLines(text)) == "\n"
  {
    hide SourceLines;
    var a, rest := text[..1], text[2..];
    var b, none := rest[1..], rest[2..];
    OneSourceLine(b, none, none);
    OneSourceLine(none, "\n", b);
    OneSourceLine(a, "\n", rest);
    assert a + "\n" + rest == text && none + "\n" + b == rest && b + none + none == b;
    NoSourceLines(none);
    assert a == "a" && b == "b" && none == "";
  }

  lemma {:induction false} NoSourceLines(text: string)
    requires text == ""
    ensures SourceLines(text) == []
  {
  }

  lemma {:induction false} DeletesLastPlaced(lines: seq<SourceLine>)
    requires lines == [SourceLine("a", "\n"), SourceLine("", "\n"), SourceLine("b", "")]
    ensures PlacedBy(lines, DeletesLast, 0, Placement(0, false, 2))
    ensures ReplacementOf(lines, DeletesLast, Placement(0, false, 2), "\n") == Replacement(2, 1, [])
  {
    assert MatchesAt(lines, ["b"], 0, 2);
    assert lines[0 + 0].text == "a" && "a"[0] != "b"[0] && lines[1 + 0].text == "" && |"b"| == 1;
    forall i | 0 <= i < 2 ensures !MatchesAt(lines, ["b"], 0, i) {
      assert Transform(0, ["b"][0]) == "b" && Transform(0, lines[i + 0].text) == lines[i].text;
    }
    assert FirstAt(lines, ["b"], 0, false, 0, 2);
  }

  lemma {:induction false} DeletesLastUpdates(lines: seq<SourceLine>)
    requires lines == [SourceLine("a", "\n"), SourceLine("", "\n"), SourceLine("b", "")]
    ensures var r := Replacement(2, 1, []);
            InOrder(Sorted([r]), 3) && Join(Finished(lines, Merge(lines, Sorted([r]), 0), "\n")) == "a\n"
  {
    var r := Replacement(2, 1, []);
    assert [r][..0] == [] && [r][1..] == [] && Sorted([]) == [] && Sorted([r]) == [r];
    assert Merge(lines, [r], 0) == lines[..2];
    assert Finished(lines, lines[..2], "\n") == [SourceLine("a", "\n"), SourceLine("", "")];
    JoinTwo(SourceLine("a", "\n"), SourceLine("", ""));
  }

  /** ... and so does deleting the last line of a file without one, when a blank line is left. */
  lemma {:induction false} FinalNewlineCanBeUncovered(text: string)
    requires text == "a\n\nb"
    ensures var lines := SourceLines(text);
            var r := Replacement(2, 1, []);
            && PlacedBy(lines, DeletesLast, 0, Placement(0, false, 2))
            && ReplacementOf(lines, DeletesLast, Placement(0, false, 2), DefaultEol(lines)) == r
            && InOrder(Sorted([r]), |lines|)
            && Updated(lines, [r]) == "a\n" && EndsInBreak("a\n") && !EndsInBreak(text)
  {
    hide SourceLines;
    ThreeLines(text);
    DeletesLastPlaced(SourceLines(text));
    DeletesLastUpdates(SourceLines(text));
  }
}
