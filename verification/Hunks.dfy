/** Unified-diff hunks: `toHunks` of extensions/builtin-tools/src/diff.ts and what its hunks mean. */
module Hunks {
  import opened EditScripts
  import opened Outcomes

  /** Most hunk lines kept in a result's details; the rest is only counted. */
  const MAX_HUNK_LINES: nat := 400

  datatype Hunk = Hunk(oldStart: nat, oldLines: nat, newStart: nat, newLines: nat, lines: seq<string>)

  datatype FileDiff = FileDiff(hunks: seq<Hunk>, added: nat, removed: nat, truncated: bool)

  function Marked(op: Op): string {
    match op
    case Same(t) => " " + t
    case Removed(t) => "-" + t
    case Added(t) => "+" + t
  }

  function MarkedLines(ops: seq<Op>): (lines: seq<string>)
    ensures |lines| == |ops|
    ensures forall i | 0 <= i < |ops| :: lines[i] == Marked(ops[i])
  {
    seq(|ops|, i requires 0 <= i < |ops| => Marked(ops[i]))
  }

  // ----- Applying hunks by line number, independently of how they were made

  /** The lines of one hunk against `source` from index `at`: the index after it and the lines it leaves,
      or nothing when a kept or removed line is not there. */
  function ApplyLines(lines: seq<string>, source: seq<string>, at: nat): Option<(nat, seq<string>)> {
    if lines == [] then Some((at, []))
    else if lines[0] == "" then None
    else
      var mark, text := lines[0][0], lines[0][1..];
      if mark == '+' then
        match ApplyLines(lines[1..], source, at)
        case None => None
        case Some((end, made)) => Some((end, [text] + made))
      else if (mark == ' ' || mark == '-') && at < |source| && source[at] == text then
        match ApplyLines(lines[1..], source, at + 1)
        case None => None
        case Some((end, made)) => Some((end, (if mark == ' ' then [text] else []) + made))
      else None
  }

  /** The texts of a hunk's lines, without those that have a mark. */
  function Without(lines: seq<string>, mark: char): seq<string> {
    if lines == [] then []
    else (if lines[0] != "" && lines[0][0] != mark then [lines[0][1..]] else []) + Without(lines[1..], mark)
  }

  /** What a hunk applies to is exactly its kept and removed lines, and what it leaves its kept and added ones. */
  lemma {:induction false} AppliedLinesAreThere(lines: seq<string>, source: seq<string>, at: nat)
    requires at <= |source| && ApplyLines(lines, source, at).Some?
    ensures var (end, made) := ApplyLines(lines, source, at).value;
            at <= end <= |source| && source[at..end] == Without(lines, '+') && made == Without(lines, '-')
    decreases lines
  {
    if lines != [] {
      if lines[0][0] == '+' {
        AppliedLinesAreThere(lines[1..], source, at);
      } else {
        AppliedLinesAreThere(lines[1..], source, at + 1);
        var (end, _) := ApplyLines(lines, source, at).value;
        assert source[at..end] == [source[at]] + source[at + 1..end];
      }
    }
  }

  /** Applies hunks to `source`, of which `at` lines are used up and have become `made` lines. Every number
      a hunk carries is checked. */
  function Apply(hunks: seq<Hunk>, source: seq<string>, at: nat, made: nat): Option<seq<string>>
    requires at <= |source|
  {
    if hunks == [] then Some(source[at..])
    else
      var h := hunks[0];
      if !(at < h.oldStart && h.oldStart - 1 <= |source| && made + (h.oldStart - 1 - at) == h.newStart - 1) then None
      else
        match ApplyLines(h.lines, source, h.oldStart - 1)
        case None => None
        case Some((end, body)) =>
          if end != h.oldStart - 1 + h.oldLines || end > |source| || |body| != h.newLines then None
          else
            match Apply(hunks[1..], source, end, h.newStart - 1 + h.newLines)
            case None => None
            case Some(rest) => Some(source[at..h.oldStart - 1] + body + rest)
  }

  function FlipLine(line: string): string {
    if line == "" then line
    else if line[0] == '+' then "-" + line[1..]
    else if line[0] == '-' then "+" + line[1..]
    else line
  }

  /** The hunk that undoes a hunk. */
  function Invert(h: Hunk): Hunk {
    Hunk(h.newStart, h.newLines, h.oldStart, h.oldLines, seq(|h.lines|, i requires 0 <= i < |h.lines| => FlipLine(h.lines[i])))
  }

  function InvertAll(hunks: seq<Hunk>): seq<Hunk> {
    seq(|hunks|, i requires 0 <= i < |hunks| => Invert(hunks[i]))
  }

  // ----- Hunks of a script

  /** A range of ops shown as one hunk. */
  datatype Cut = Cut(lo: nat, hi: nat)

  function HunkOf(ops: seq<Op>, c: Cut): Hunk
    requires c.lo <= c.hi <= |ops|
  {
    var shown := ops[c.lo..c.hi];
    Hunk(1 + |OldSide(ops[..c.lo])|, |OldSide(shown)|, 1 + |NewSide(ops[..c.lo])|, |NewSide(shown)|, MarkedLines(shown))
  }

  predicate InSome(cuts: seq<Cut>, j: int) {
    exists i | 0 <= i < |cuts| :: cuts[i].lo <= j < cuts[i].hi
  }

  /** Nonempty ranges in order, with at least one hidden op between neighbours. */
  predicate Ordered(cuts: seq<Cut>, limit: nat) {
    && (forall i | 0 <= i < |cuts| :: cuts[i].lo < cuts[i].hi <= limit)
    && (forall i, j | 0 <= i < j < |cuts| :: cuts[i].hi < cuts[j].lo)
  }

  ghost predicate HunksOf(hunks: seq<Hunk>, ops: seq<Op>, cuts: seq<Cut>) {
    && Ordered(cuts, |ops|)
    && |hunks| == |cuts|
    && forall i | 0 <= i < |cuts| :: hunks[i] == HunkOf(ops, cuts[i])
  }

  /** Whether op `j` is a change or at most `context` ops away from one. */
  predicate NearChange(ops: seq<Op>, context: nat, j: int) {
    exists c | 0 <= c < |ops| :: !ops[c].Same? && j - c <= context && c - j <= context
  }

  /** Below `limit`, the cuts show exactly the ops near a change. */
  ghost predicate ShowsNear(ops: seq<Op>, context: nat, cuts: seq<Cut>, limit: nat) {
    limit <= |ops| && forall j | 0 <= j < limit :: InSome(cuts, j) <==> NearChange(ops, context, j)
  }

  function ShownLines(cuts: seq<Cut>): int {
    if cuts == [] then 0 else ShownLines(cuts[..|cuts| - 1]) + cuts[|cuts| - 1].hi - cuts[|cuts| - 1].lo
  }

  // ----- Reconstruction

  lemma {:induction false} LinesApply(ops: seq<Op>, source: seq<string>, at: nat)
    requires at + |OldSide(ops)| <= |source| && source[at..at + |OldSide(ops)|] == OldSide(ops)
    ensures ApplyLines(MarkedLines(ops), source, at) == Some((at + |OldSide(ops)|, NewSide(ops)))
  {
    if ops != [] {
      var op, rest := ops[0], ops[1..];
      assert MarkedLines(ops)[1..] == MarkedLines(rest);
      assert MarkedLines(ops)[0] == Marked(op);
      assert Marked(op)[1..] == op.text;
      if op.Added? {
        LinesApply(rest, source, at);
      } else {
        assert source[at] == OldSide(ops)[0];
        assert source[at + 1..at + 1 + |OldSide(rest)|] == OldSide(ops)[1..];
        LinesApply(rest, source, at + 1);
      }
    }
  }

  lemma {:induction false} AllSame(ops: seq<Op>)
    requires forall op | op in ops :: op.Same?
    ensures OldSide(ops) == NewSide(ops)
  {
    if ops != [] {
      assert ops[0] in ops;
      AllSame(ops[1..]);
    }
  }

  lemma {:induction false} SplitSides(ops: seq<Op>, p: nat, q: nat)
    requires p <= q <= |ops|
    ensures OldSide(ops[p..]) == OldSide(ops[p..q]) + OldSide(ops[q..])
    ensures NewSide(ops[p..]) == NewSide(ops[p..q]) + NewSide(ops[q..])
    ensures OldSide(ops[..q]) == OldSide(ops[..p]) + OldSide(ops[p..q])
    ensures NewSide(ops[..q]) == NewSide(ops[..p]) + NewSide(ops[p..q])
    ensures OldSide(ops) == OldSide(ops[..p]) + OldSide(ops[p..])
    ensures NewSide(ops) == NewSide(ops[..p]) + NewSide(ops[p..])
  {
    assert ops[p..] == ops[p..q] + ops[q..] && ops[..q] == ops[..p] + ops[p..q] && ops == ops[..p] + ops[p..];
    Concat(ops[p..q], ops[q..]);
    Concat(ops[..p], ops[p..q]);
    Concat(ops[..p], ops[p..]);
  }

  /** A hunk whose numbers fit is applied: the lines before it are copied and its own replaced. */
  lemma {:induction false} ApplyFirst(hunks: seq<Hunk>, source: seq<string>, at: nat, made: nat, end: nat, body: seq<string>)
    requires hunks != [] && at <= hunks[0].oldStart - 1 && at <= |source|
    requires made + (hunks[0].oldStart - 1 - at) == hunks[0].newStart - 1
    requires end == hunks[0].oldStart - 1 + hunks[0].oldLines <= |source| && |body| == hunks[0].newLines
    requires ApplyLines(hunks[0].lines, source, hunks[0].oldStart - 1) == Some((end, body))
    ensures Apply(hunks, source, at, made) ==
            match Apply(hunks[1..], source, end, hunks[0].newStart - 1 + |body|)
            case None => None
            case Some(rest) => Some(source[at..hunks[0].oldStart - 1] + body + rest)
  {
  }

  /** Where a cut lies on the two sides, given only unchanged ops before it. */
  lemma {:induction false} CutPosition(ops: seq<Op>, c: Cut, p: nat)
    requires p <= c.lo < c.hi <= |ops| && forall j | p <= j < c.lo :: ops[j].Same?
    ensures var at, lo, hi := |OldSide(ops[..p])|, |OldSide(ops[..c.lo])|, |OldSide(ops[..c.hi])|;
            && at <= lo <= hi <= |OldSide(ops)|
            && lo - at == |NewSide(ops[..c.lo])| - |NewSide(ops[..p])|
            && |NewSide(ops[..c.hi])| == |NewSide(ops[..c.lo])| + |NewSide(ops[c.lo..c.hi])|
            && OldSide(ops)[at..lo] == OldSide(ops[p..c.lo])
            && OldSide(ops)[lo..hi] == OldSide(ops[c.lo..c.hi])
  {
    SplitSides(ops, p, c.lo);
    SplitSides(ops, c.lo, c.hi);
    SplitSides(ops, c.hi, c.hi);
    AllSame(ops[p..c.lo]);
  }

  /** The first hunk copies the lines before it and replaces its own. */
  lemma {:induction false} FirstHunk(ops: seq<Op>, hunks: seq<Hunk>, c: Cut, p: nat)
    requires hunks != [] && p <= c.lo < c.hi <= |ops| && hunks[0] == HunkOf(ops, c)
    requires forall j | p <= j < c.lo :: ops[j].Same?
    ensures |OldSide(ops[..p])| <= |OldSide(ops)| && |OldSide(ops[..c.hi])| <= |OldSide(ops)|
    ensures Apply(hunks, OldSide(ops), |OldSide(ops[..p])|, |NewSide(ops[..p])|) ==
            match Apply(hunks[1..], OldSide(ops), |OldSide(ops[..c.hi])|, |NewSide(ops[..c.hi])|)
            case None => None
            case Some(rest) => Some(OldSide(ops[p..c.lo]) + NewSide(ops[c.lo..c.hi]) + rest)
  {
    CutPosition(ops, c, p);
    assert OldSide(ops)[|OldSide(ops[..c.lo])|..|OldSide(ops[..c.lo])| + |OldSide(ops[c.lo..c.hi])|] == OldSide(ops[c.lo..c.hi]);
    LinesApply(ops[c.lo..c.hi], OldSide(ops), |OldSide(ops[..c.lo])|);
    ApplyFirst(hunks, OldSide(ops), |OldSide(ops[..p])|, |NewSide(ops[..p])|, |OldSide(ops[..c.hi])|, NewSide(ops[c.lo..c.hi]));
  }

  /** Every change from op `p` on is shown. */
  ghost predicate Covered(ops: seq<Op>, cuts: seq<Cut>, p: nat) {
    forall j | p <= j < |ops| && !ops[j].Same? :: InSome(cuts, j)
  }

  lemma {:induction false} CoveredRest(ops: seq<Op>, cuts: seq<Cut>, p: nat)
    requires cuts != [] && Ordered(cuts, |ops|) && Covered(ops, cuts, p) && p <= cuts[0].lo
    ensures forall j | p <= j < cuts[0].lo :: ops[j].Same?
    ensures Ordered(cuts[1..], |ops|) && Covered(ops, cuts[1..], cuts[0].hi)
  {
    assert forall j | p <= j < cuts[0].lo :: !InSome(cuts, j);
    forall j | cuts[0].hi <= j < |ops| && !ops[j].Same? ensures InSome(cuts[1..], j) {
      var i :| 0 <= i < |cuts| && cuts[i].lo <= j < cuts[i].hi;
      assert cuts[1..][i - 1] == cuts[i];
    }
  }

  /** From op `p` on, applying the remaining hunks turns the rest of the old side into the rest of the new. */
  lemma {:induction false} ReconstructFrom(ops: seq<Op>, hunks: seq<Hunk>, cuts: seq<Cut>, p: nat)
    requires HunksOf(hunks, ops, cuts) && p <= |ops| && Covered(ops, cuts, p)
    requires cuts != [] ==> p <= cuts[0].lo
    ensures |OldSide(ops[..p])| <= |OldSide(ops)|
    ensures Apply(hunks, OldSide(ops), |OldSide(ops[..p])|, |NewSide(ops[..p])|) == Some(NewSide(ops[p..]))
    decreases |cuts|
  {
    SplitSides(ops, p, p);
    if cuts == [] {
      assert forall op | op in ops[p..] :: op.Same? by {
        assert forall j | p <= j < |ops| :: !InSome(cuts, j);
      }
      AllSame(ops[p..]);
    } else {
      var c := cuts[0];
      CoveredRest(ops, cuts, p);
      FirstHunk(ops, hunks, c, p);
      ReconstructFrom(ops, hunks[1..], cuts[1..], c.hi);
      NewSideParts(ops, c, p);
    }
  }

  lemma {:induction false} NewSideParts(ops: seq<Op>, c: Cut, p: nat)
    requires p <= c.lo < c.hi <= |ops| && forall j | p <= j < c.lo :: ops[j].Same?
    ensures NewSide(ops[p..]) == OldSide(ops[p..c.lo]) + NewSide(ops[c.lo..c.hi]) + NewSide(ops[c.hi..])
  {
    hide OldSide, NewSide;
    SplitSides(ops, p, c.lo);
    SplitSides(ops, c.lo, c.hi);
    AllSame(ops[p..c.lo]);
  }

  /** Hunks that cover every change carry a text to the other side of its script. */
  lemma {:induction false} HunksReconstruct(ops: seq<Op>, hunks: seq<Hunk>, cuts: seq<Cut>)
    requires HunksOf(hunks, ops, cuts)
    requires Covered(ops, cuts, 0)
    ensures Apply(hunks, OldSide(ops), 0, 0) == Some(NewSide(ops))
  {
    ReconstructFrom(ops, hunks, cuts, 0);
    assert ops[0..] == ops && ops[..0] == [];
  }

  // ----- Undoing

  function FlipOp(op: Op): Op {
    match op
    case Same(t) => op
    case Removed(t) => Added(t)
    case Added(t) => Removed(t)
  }

  function Flip(ops: seq<Op>): (r: seq<Op>)
    ensures |r| == |ops|
    ensures forall i | 0 <= i < |ops| :: r[i] == FlipOp(ops[i])
  {
    seq(|ops|, i requires 0 <= i < |ops| => FlipOp(ops[i]))
  }

  lemma {:induction false} FlipSides(ops: seq<Op>)
    ensures OldSide(Flip(ops)) == NewSide(ops) && NewSide(Flip(ops)) == OldSide(ops)
  {
    if ops != [] {
      assert Flip(ops)[1..] == Flip(ops[1..]);
      FlipSides(ops[1..]);
    }
  }

  lemma {:induction false} InvertIsFlipped(ops: seq<Op>, c: Cut)
    requires c.lo <= c.hi <= |ops|
    ensures Invert(HunkOf(ops, c)) == HunkOf(Flip(ops), c)
  {
    assert Flip(ops)[..c.lo] == Flip(ops[..c.lo]) && Flip(ops)[c.lo..c.hi] == Flip(ops[c.lo..c.hi]);
    FlipSides(ops[..c.lo]);
    FlipSides(ops[c.lo..c.hi]);
    var shown := ops[c.lo..c.hi];
    forall i | 0 <= i < |shown| ensures FlipLine(MarkedLines(shown)[i]) == MarkedLines(Flip(shown))[i] {
      assert Marked(shown[i])[1..] == shown[i].text;
    }
  }

  /** The inverted hunks carry the new text back to the old one. */
  lemma {:induction false} HunksRevert(ops: seq<Op>, hunks: seq<Hunk>, cuts: seq<Cut>)
    requires HunksOf(hunks, ops, cuts)
    requires Covered(ops, cuts, 0)
    ensures Apply(InvertAll(hunks), NewSide(ops), 0, 0) == Some(OldSide(ops))
  {
    forall i | 0 <= i < |cuts| ensures InvertAll(hunks)[i] == HunkOf(Flip(ops), cuts[i]) {
      InvertIsFlipped(ops, cuts[i]);
    }
    FlipSides(ops);
    HunksReconstruct(Flip(ops), InvertAll(hunks), cuts);
  }

  // ----- The algorithm

  function Count(ops: seq<Op>, added: bool): nat {
    if ops == [] then 0
    else Count(ops[..|ops| - 1], added) + if (if added then ops[|ops| - 1].Added? else ops[|ops| - 1].Removed?) then 1 else 0
  }

  lemma {:induction false} CountsAreCost(ops: seq<Op>)
    ensures Count(ops, true) + Count(ops, false) == Cost(ops)
  {
    if ops != [] {
      var init, last := ops[..|ops| - 1], ops[|ops| - 1];
      CountsAreCost(init);
      Concat(init, [last]);
      assert ops == init + [last];
    }
  }

  lemma {:induction false} StepSides(ops: seq<Op>, i: nat)
    requires i < |ops|
    ensures |OldSide(ops[..i + 1])| == |OldSide(ops[..i])| + if ops[i].Added? then 0 else 1
    ensures |NewSide(ops[..i + 1])| == |NewSide(ops[..i])| + if ops[i].Removed? then 0 else 1
  {
    assert ops[..i + 1] == ops[..i] + [ops[i]];
    Concat(ops[..i], [ops[i]]);
  }

  function WithoutAdded(ops: seq<Op>): seq<Op> {
    if ops == [] then [] else (if ops[0].Added? then [] else [ops[0]]) + WithoutAdded(ops[1..])
  }

  function WithoutRemoved(ops: seq<Op>): seq<Op> {
    if ops == [] then [] else (if ops[0].Removed? then [] else [ops[0]]) + WithoutRemoved(ops[1..])
  }

  lemma {:induction false} FilterCounts(ops: seq<Op>)
    ensures |WithoutAdded(ops)| == |OldSide(ops)| && |WithoutRemoved(ops)| == |NewSide(ops)|
  {
    if ops != [] {
      FilterCounts(ops[1..]);
    }
  }

  /** The end of the run of changes that starts at `i`, merging changes at most `2 * context` ops apart. */
  method ChangeEnd(ops: seq<Op>, i: nat, context: nat) returns (to: nat)
    requires i < |ops| && !ops[i].Same?
    ensures i < to <= |ops| && !ops[to - 1].Same?
    ensures forall j | i <= j < to :: NearChange(ops, context, j)
    ensures forall j | to <= j <= to + 2 * context && j < |ops| :: ops[j].Same?
  {
    to := i;
    while true
      invariant i <= to < |ops| && !ops[to].Same?
      invariant forall j | i <= j < to :: NearChange(ops, context, j)
      decreases |ops| - to
    {
      ghost var first := to;
      while to < |ops| && !ops[to].Same?
        invariant first <= to <= |ops| && (to > first ==> !ops[to - 1].Same?)
        invariant forall j | i <= j < to :: NearChange(ops, context, j)
      {
        to := to + 1;
      }
      var gap := to;
      while gap < |ops| && ops[gap].Same? && gap - to < 2 * context
        invariant to <= gap <= |ops| && gap - to <= 2 * context
        invariant forall j | to <= j < gap :: ops[j].Same?
      {
        gap := gap + 1;
      }
      if gap < |ops| && !ops[gap].Same? && gap - to <= 2 * context {
        forall j | to <= j < gap ensures NearChange(ops, context, j) {
          if j - (to - 1) <= context {
            assert !ops[to - 1].Same?;
          } else {
            assert !ops[gap].Same?;
          }
        }
        to := gap;
      } else {
        return;
      }
    }
  }

  /** The cuts show exactly the ops below `shown` that are near a change; changes before `i` reach no
      further, and changes from `i` on start later. */
  ghost predicate ShownUpTo(ops: seq<Op>, context: nat, cuts: seq<Cut>, i: nat, shown: nat) {
    && shown <= i <= |ops| && Ordered(cuts, shown) && (cuts == [] ==> shown == 0)
    && ShowsNear(ops, context, cuts, shown)
    && (shown < |ops| ==> forall c | 0 <= c < i && !ops[c].Same? :: c + context < shown)
    && (cuts != [] ==> forall c | i <= c < |ops| && !ops[c].Same? :: shown < c - context)
  }

  lemma {:induction false} InSomeGrows(cuts: seq<Cut>, c: Cut, j: int)
    ensures InSome(cuts + [c], j) <==> InSome(cuts, j) || c.lo <= j < c.hi
  {
    if InSome(cuts, j) {
      var i :| 0 <= i < |cuts| && cuts[i].lo <= j < cuts[i].hi;
      assert (cuts + [c])[i] == cuts[i];
    }
    if c.lo <= j < c.hi {
      assert (cuts + [c])[|cuts|] == c;
    }
  }

  lemma {:induction false} NextCut(ops: seq<Op>, context: nat, cuts: seq<Cut>, i: nat, shown: nat, to: nat)
    requires ShownUpTo(ops, context, cuts, i, shown) && i < |ops| && !ops[i].Same?
    requires i < to <= |ops| && !ops[to - 1].Same?
    requires forall j | i <= j < to :: NearChange(ops, context, j)
    requires forall j | to <= j <= to + 2 * context && j < |ops| :: ops[j].Same?
    ensures var c := Around(ops, context, i, to);
            && c.lo < c.hi && i < c.hi <= |ops| && Ordered(cuts + [c], |ops|)
            && ShownUpTo(ops, context, cuts + [c], c.hi, c.hi)
            && ShownLines(cuts + [c]) == ShownLines(cuts) + c.hi - c.lo
  {
    var c := Around(ops, context, i, to);
    assert (cuts + [c])[..|cuts|] == cuts;
    forall j | 0 <= j < c.hi ensures InSome(cuts + [c], j) <==> NearChange(ops, context, j) {
      InSomeGrows(cuts, c, j);
      if c.lo <= j < i {
        assert !ops[i].Same?;
      } else if to <= j {
        assert !ops[to - 1].Same?;
      }
    }
  }

  lemma {:induction false} SkipSame(ops: seq<Op>, context: nat, cuts: seq<Cut>, i: nat, shown: nat)
    requires ShownUpTo(ops, context, cuts, i, shown) && i < |ops| && ops[i].Same?
    ensures ShownUpTo(ops, context, cuts, i + 1, shown)
  {
  }

  lemma {:induction false} AllShown(ops: seq<Op>, context: nat, cuts: seq<Cut>, shown: nat)
    requires ShownUpTo(ops, context, cuts, |ops|, shown)
    ensures Whole(ops, context, cuts, |ops|)
  {
  }

  /** The cuts show the ops near a change below `shown`, and no hunk is cut short there. */
  ghost predicate Whole(ops: seq<Op>, context: nat, cuts: seq<Cut>, shown: nat) {
    && shown <= |ops| && Ordered(cuts, shown) && ShowsNear(ops, context, cuts, shown)
    && (shown < |ops| ==> if cuts == [] then shown == 0 else !NearChange(ops, context, shown))
  }

  /** The hunk that follows would exceed the line limit. */
  ghost predicate NextIsTooLong(ops: seq<Op>, context: nat, cuts: seq<Cut>, next: Cut) {
    && next.lo < next.hi && Ordered(cuts + [next], |ops|) && Whole(ops, context, cuts + [next], next.hi)
    && ShownLines(cuts + [next]) > MAX_HUNK_LINES
  }

  lemma {:induction false} UpToIsWhole(ops: seq<Op>, context: nat, cuts: seq<Cut>, i: nat, shown: nat)
    requires ShownUpTo(ops, context, cuts, i, shown)
    ensures Whole(ops, context, cuts, shown)
  {
  }

  ghost predicate Numbered(ops: seq<Op>, oldNo: seq<nat>, newNo: seq<nat>) {
    && |oldNo| == |newNo| == |ops|
    && forall j | 0 <= j < |ops| :: oldNo[j] == 1 + |OldSide(ops[..j])| && newNo[j] == 1 + |NewSide(ops[..j])|
  }

  /** Old and new line numbers before each op, and how many ops add and remove a line. */
  method LineNumbers(ops: seq<Op>) returns (oldNo: seq<nat>, newNo: seq<nat>, added: nat, removed: nat)
    ensures Numbered(ops, oldNo, newNo)
    ensures added == Count(ops, true) && removed == Count(ops, false)
  {
    added, removed := 0, 0;
    oldNo, newNo := [], [];
    var on, nn := 1, 1;
    for n := 0 to |ops|
      invariant |oldNo| == |newNo| == n
      invariant on == 1 + |OldSide(ops[..n])| && nn == 1 + |NewSide(ops[..n])|
      invariant forall j | 0 <= j < n :: oldNo[j] == 1 + |OldSide(ops[..j])| && newNo[j] == 1 + |NewSide(ops[..j])|
      invariant added == Count(ops[..n], true) && removed == Count(ops[..n], false)
    {
      StepSides(ops, n);
      assert ops[..n + 1][..n] == ops[..n];
      oldNo, newNo := oldNo + [on], newNo + [nn];
      if !ops[n].Added? { on := on + 1; }
      if !ops[n].Removed? { nn := nn + 1; }
      if ops[n].Added? { added := added + 1; }
      if ops[n].Removed? { removed := removed + 1; }
    }
    assert ops[..|ops|] == ops;
  }

  /** The ops shown for changes that start at `i` and end before `to`. */
  function Around(ops: seq<Op>, context: nat, i: nat, to: nat): (c: Cut) {
    Cut(if i < context then 0 else i - context, if to + context < |ops| then to + context else |ops|)
  }

  /** The hunk around the run of changes that starts at `i`. */
  method NextHunk(ops: seq<Op>, context: nat, oldNo: seq<nat>, newNo: seq<nat>, i: nat) returns (hunk: Hunk, to: nat)
    requires Numbered(ops, oldNo, newNo)
    requires i < |ops| && !ops[i].Same?
    ensures i < to <= |ops| && !ops[to - 1].Same?
    ensures forall j | i <= j < to :: NearChange(ops, context, j)
    ensures forall j | to <= j <= to + 2 * context && j < |ops| :: ops[j].Same?
    ensures hunk == HunkOf(ops, Around(ops, context, i, to))
  {
    to := ChangeEnd(ops, i, context);
    var c := Around(ops, context, i, to);
    var slice := ops[c.lo..c.hi];
    FilterCounts(slice);
    hunk := Hunk(oldNo[c.lo], |WithoutAdded(slice)|, newNo[c.lo], |WithoutRemoved(slice)|, MarkedLines(slice));
  }

  /** What the hunk loop has collected: the hunks of the cuts, within the line limit. */
  ghost predicate Collected(ops: seq<Op>, hunks: seq<Hunk>, cuts: seq<Cut>, kept: int) {
    HunksOf(hunks, ops, cuts) && kept == ShownLines(cuts) <= MAX_HUNK_LINES
  }

  lemma {:induction false} CollectedGrows(ops: seq<Op>, hunks: seq<Hunk>, cuts: seq<Cut>, kept: int, c: Cut)
    requires Collected(ops, hunks, cuts, kept) && c.lo < c.hi <= |ops| && kept + c.hi - c.lo <= MAX_HUNK_LINES
    requires Ordered(cuts + [c], |ops|)
    ensures Collected(ops, hunks + [HunkOf(ops, c)], cuts + [c], kept + c.hi - c.lo)
  {
    assert (cuts + [c])[..|cuts|] == cuts;
  }

  /** The loop of `toHunks`. */
  method CollectHunks(ops: seq<Op>, context: nat, oldNo: seq<nat>, newNo: seq<nat>)
    returns (hunks: seq<Hunk>, truncated: bool, ghost cuts: seq<Cut>, ghost shown: nat)
    requires Numbered(ops, oldNo, newNo)
    ensures Collected(ops, hunks, cuts, ShownLines(cuts))
    ensures Whole(ops, context, cuts, shown)
    ensures truncated ==> exists next :: NextIsTooLong(ops, context, cuts, next)
    ensures !truncated ==> shown == |ops|
  {
    hide ShownUpTo, Collected, Whole, NearChange, ShowsNear, Ordered, HunksOf, HunkOf, ShownLines, Numbered, NextIsTooLong, Around;
    NothingShown(ops, context);
    var kept, i := 0, 0;
    hunks, truncated, cuts, shown := [], false, [], 0;
    while i < |ops|
      invariant ShownUpTo(ops, context, cuts, i, shown)
      invariant Collected(ops, hunks, cuts, kept)
      invariant 0 <= i <= |ops|
    {
      if ops[i].Same? {
        SkipSame(ops, context, cuts, i, shown);
        i := i + 1;
        continue;
      }
      var hunk, to := NextHunk(ops, context, oldNo, newNo, i);
      var c := Around(ops, context, i, to);
      NextCut(ops, context, cuts, i, shown, to);
      if kept + (c.hi - c.lo) > MAX_HUNK_LINES {
        UpToIsWhole(ops, context, cuts, i, shown);
        KeptIsShown(ops, hunks, cuts, kept);
        TooLong(ops, context, cuts, c);
        truncated := true;
        return;
      }
      CollectedGrows(ops, hunks, cuts, kept, c);
      kept := kept + (c.hi - c.lo);
      hunks := hunks + [hunk];
      cuts := cuts + [c];
      i := c.hi;
      shown := c.hi;
    }
    AllShown(ops, context, cuts, shown);
    KeptIsShown(ops, hunks, cuts, kept);
    shown := |ops|;
  }

  lemma {:induction false} TooLong(ops: seq<Op>, context: nat, cuts: seq<Cut>, c: Cut)
    requires c.lo < c.hi && Ordered(cuts + [c], |ops|) && ShownUpTo(ops, context, cuts + [c], c.hi, c.hi)
    requires ShownLines(cuts + [c]) > MAX_HUNK_LINES
    ensures NextIsTooLong(ops, context, cuts, c)
  {
    UpToIsWhole(ops, context, cuts + [c], c.hi, c.hi);
  }

  lemma {:induction false} NothingShown(ops: seq<Op>, context: nat)
    ensures ShownUpTo(ops, context, [], 0, 0) && Collected(ops, [], [], 0)
  {
  }

  lemma {:induction false} KeptIsShown(ops: seq<Op>, hunks: seq<Hunk>, cuts: seq<Cut>, kept: int)
    requires Collected(ops, hunks, cuts, kept)
    ensures kept == ShownLines(cuts) <= MAX_HUNK_LINES
  {
  }

  /** The hunks show exactly the ops at most `context` away from a change; `shown` says how far they
      reach, which is everything unless the next hunk would be one line too many. */
  method ToHunks(ops: seq<Op>, context: nat) returns (diff: FileDiff, ghost cuts: seq<Cut>, ghost shown: nat)
    ensures HunksOf(diff.hunks, ops, cuts) && Whole(ops, context, cuts, shown) && ShownLines(cuts) <= MAX_HUNK_LINES
    ensures if diff.truncated then exists next :: NextIsTooLong(ops, context, cuts, next) else shown == |ops|
    ensures diff.added == Count(ops, true) && diff.removed == Count(ops, false)
  {
    var oldNo, newNo, added, removed := LineNumbers(ops);
    var hunks, truncated;
    hunks, truncated, cuts, shown := CollectHunks(ops, context, oldNo, newNo);
    diff := FileDiff(hunks, added, removed, truncated);
  }
}
