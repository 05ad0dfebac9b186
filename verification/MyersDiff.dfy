/** The bounded greedy search of extensions/builtin-tools/src/diff.ts: `diffMiddle` and `backtrack`. */
module MyersDiff {
  import opened EditScripts

  /** Beyond this many differing lines the middle is shown as replaced instead of diffed. */
  const MAX_EDIT_DISTANCE: nat := 1000

  function Min(x: int, y: int): int { if x < y then x else y }

  function Excess(x: int, limit: int): nat { if x > limit then x - limit else 0 }

  /** Distance to a point of the unbounded grid: the search may run past either text, one line at a time. */
  ghost function Reach(a: seq<string>, b: seq<string>, x: nat, y: nat): nat {
    Dist(a, b, Min(x, |a|), Min(y, |b|)) + Excess(x, |a|) + Excess(y, |b|)
  }

  lemma {:induction false} ReachStep(a: seq<string>, b: seq<string>, x: nat, y: nat)
    ensures Reach(a, b, x + 1, y) <= Reach(a, b, x, y) + 1
    ensures Reach(a, b, x, y + 1) <= Reach(a, b, x, y) + 1
    ensures x < |a| && y < |b| && a[x] == b[y] ==> Reach(a, b, x + 1, y + 1) == Reach(a, b, x, y)
  {
    if x < |a| && y < |b| && a[x] == b[y] {
      SameLine(a, b, x, y);
    }
    hide Dist;
    if x < |a| { DistNeighbours(a, b, x + 1, Min(y, |b|)); }
    if y < |b| { DistNeighbours(a, b, Min(x, |a|), y + 1); }
  }

  lemma {:induction false} SameLine(a: seq<string>, b: seq<string>, x: nat, y: nat)
    requires x < |a| && y < |b| && a[x] == b[y]
    ensures Dist(a, b, x + 1, y + 1) == Dist(a, b, x, y)
  {
  }

  /** Whether round `d` comes to diagonal `k` by an addition (from `k + 1`) or a removal (from `k - 1`). */
  predicate Down(v: seq<int>, offset: int, d: int, k: int)
    requires 0 <= d < offset && -d <= k <= d && |v| == 2 * offset + 1
  {
    k == -d || (k != d && v[offset + k - 1] < v[offset + k + 1])
  }

  /** Where on diagonal `k` round `d` starts to follow equal lines. */
  function Start(v: seq<int>, offset: int, d: int, k: int): int
    requires 0 <= d < offset && -d <= k <= d && |v| == 2 * offset + 1
  {
    if Down(v, offset, d, k) then v[offset + k + 1] else v[offset + k - 1] + 1
  }

  /** The lines from `lo` up to `hi` on diagonal `k` are equal, so following them costs nothing. */
  ghost predicate Run(a: seq<string>, b: seq<string>, k: int, lo: int, hi: int) {
    && 0 <= lo - k && 0 <= lo <= hi
    && forall i | lo <= i < hi :: EqualAt(a, b, k, i)
  }

  predicate EqualAt(a: seq<string>, b: seq<string>, k: int, i: int) {
    0 <= i < |a| && 0 <= i - k < |b| && a[i] == b[i - k]
  }

  /** Diagonals a round visits. */
  predicate Visited(d: int, k: int) { -d <= k <= d && (k - d) % 2 == 0 }

  /** One round: each visited diagonal below `limit` got a run from its start. */
  ghost predicate Followed(a: seq<string>, b: seq<string>, offset: int, d: int, v: seq<int>, next: seq<int>, limit: int)
  {
    && 0 <= d < offset && |v| == |next| == 2 * offset + 1
    && forall k | Visited(d, k) && k < limit :: Run(a, b, k, Start(v, offset, d, k), next[offset + k])
  }

  /** What the frontier of round `d` knows: every entry was reached in `d` steps, and nothing nearer lies beyond. */
  ghost predicate Frontier(a: seq<string>, b: seq<string>, offset: int, d: int, v: seq<int>) {
    && -1 <= d < offset && 0 < offset && |v| == 2 * offset + 1
    && (d == -1 ==> v[offset + 1] == 0)
    && forall k | Visited(d, k) :: Furthest(a, b, d, k, v[offset + k])
  }

  ghost predicate Furthest(a: seq<string>, b: seq<string>, d: int, k: int, x: int) {
    && 0 <= x && k <= x
    && Reach(a, b, x, x - k) <= d
    && forall x', y' | OnGrid(a, b, x', y') && x' - y' == k && Dist(a, b, x', y') <= d :: x' <= x
  }

  predicate OnGrid(a: seq<string>, b: seq<string>, x: int, y: int) {
    0 <= x <= |a| && 0 <= y <= |b|
  }

  lemma {:induction false} StartIsReached(a: seq<string>, b: seq<string>, offset: int, d: int, k: int, v: seq<int>)
    requires 0 <= d < offset && Frontier(a, b, offset, d - 1, v) && Visited(d, k)
    ensures var s := Start(v, offset, d, k); 0 <= s && k <= s && Reach(a, b, s, s - k) <= d
  {
    hide Reach;
    if d == 0 {
      StartOfAll(a, b, offset, v);
    } else {
      if Down(v, offset, d, k) {
        var x := FrontierReached(a, b, offset, d - 1, k + 1, v);
        ReachStep(a, b, x, x - k - 1);
      } else {
        var x := FrontierReached(a, b, offset, d - 1, k - 1, v);
        ReachStep(a, b, x, x - k + 1);
      }
    }
  }

  lemma {:induction false} StartOfAll(a: seq<string>, b: seq<string>, offset: int, v: seq<int>)
    requires 0 < offset && Frontier(a, b, offset, -1, v)
    ensures Start(v, offset, 0, 0) == 0 && Reach(a, b, 0, 0) == 0
  {
  }

  lemma {:induction false} FrontierReached(a: seq<string>, b: seq<string>, offset: int, d: int, k: int, v: seq<int>) returns (x: int)
    requires Frontier(a, b, offset, d, v) && Visited(d, k)
    ensures d < offset && |v| == 2 * offset + 1 && -d <= k <= d && x == v[offset + k] && 0 <= x && k <= x && Reach(a, b, x, x - k) <= d
  {
    hide Reach;
    x := v[offset + k];
    assert Furthest(a, b, d, k, x);
  }

  lemma {:induction false} RunIsFree(a: seq<string>, b: seq<string>, k: int, lo: int, hi: int)
    requires Run(a, b, k, lo, hi)
    ensures Reach(a, b, hi, hi - k) == Reach(a, b, lo, lo - k)
    decreases hi - lo
  {
    if lo < hi {
      RunIsFree(a, b, k, lo, hi - 1);
      var x, y := hi - 1, hi - 1 - k;
      assert EqualAt(a, b, k, x);
      ReachStep(a, b, x, y);
    }
  }

  /** A run that stopped is past every point of its diagonal within distance `d`. */
  lemma {:induction false} NothingBeyond(a: seq<string>, b: seq<string>, offset: int, d: int, k: int, v: seq<int>, x: int, x': int)
    requires 0 <= d < offset && Frontier(a, b, offset, d - 1, v) && Visited(d, k)
    requires Run(a, b, k, Start(v, offset, d, k), x)
    requires x >= |a| || x - k >= |b| || a[x] != b[x - k]
    requires OnGrid(a, b, x', x' - k) && Dist(a, b, x', x' - k) <= d
    ensures x' <= x
    decreases if x' < 0 then 0 else x'
  {
    var y' := x' - k;
    StartIsReached(a, b, offset, d, k, v);
    if x' > 0 && y' > 0 {
      if a[x' - 1] == b[y' - 1] {
        NothingBeyond(a, b, offset, d, k, v, x, x' - 1);
      } else {
        NotBeyondStart(a, b, offset, d, k, v, x');
      }
    }
  }

  /** A point whose last lines differ is not past where the round starts to follow its diagonal. */
  lemma {:induction false} NotBeyondStart(a: seq<string>, b: seq<string>, offset: int, d: int, k: int, v: seq<int>, x': int)
    requires 0 <= d < offset && Frontier(a, b, offset, d - 1, v) && Visited(d, k)
    requires OnGrid(a, b, x', x' - k) && Dist(a, b, x', x' - k) <= d && x' > 0 && x' - k > 0 && a[x' - 1] != b[x' - k - 1]
    ensures x' <= Start(v, offset, d, k)
  {
    var y' := x' - k;
    OneEditBefore(a, b, x', y');
    hide Dist, Frontier, Visited;
    if Dist(a, b, x' - 1, y') <= d - 1 {
      NotBeyond(a, b, offset, d - 1, k - 1, v, x' - 1);
    } else {
      NotBeyond(a, b, offset, d - 1, k + 1, v, x');
    }
    ReachedDiagonals(d, k);
  }

  lemma {:induction false} ReachedDiagonals(d: int, k: int)
    requires Visited(d, k)
    ensures -d <= k <= d
  {
  }

  lemma {:induction false} OneEditBefore(a: seq<string>, b: seq<string>, x: nat, y: nat)
    requires 0 < x <= |a| && 0 < y <= |b| && a[x - 1] != b[y - 1]
    ensures Dist(a, b, x - 1, y) == Dist(a, b, x, y) - 1 || Dist(a, b, x, y - 1) == Dist(a, b, x, y) - 1
  {
  }

  lemma {:induction false} NotBeyond(a: seq<string>, b: seq<string>, offset: int, d: int, k: int, v: seq<int>, x: int)
    requires Frontier(a, b, offset, d, v) && OnGrid(a, b, x, x - k) && Dist(a, b, x, x - k) <= d && (Visited(d + 1, k + 1) || Visited(d + 1, k - 1))
    ensures 0 <= d && -d <= k <= d && x <= v[offset + k]
  {
    hide Dist, Reach;
    DistBounds(a, b, x, x - k);
    assert Visited(d, k);
    assert Furthest(a, b, d, k, v[offset + k]);
  }

  lemma {:induction false} RunIsFurthest(a: seq<string>, b: seq<string>, offset: int, d: int, k: int, v: seq<int>, x: int)
    requires 0 <= d < offset && Frontier(a, b, offset, d - 1, v) && Visited(d, k)
    requires Run(a, b, k, Start(v, offset, d, k), x)
    requires x >= |a| || x - k >= |b| || a[x] != b[x - k]
    ensures Furthest(a, b, d, k, x)
  {
    StartIsReached(a, b, offset, d, k, v);
    RunIsFree(a, b, k, Start(v, offset, d, k), x);
    forall x', y' | OnGrid(a, b, x', y') && x' - y' == k && Dist(a, b, x', y') <= d ensures x' <= x {
      NothingBeyond(a, b, offset, d, k, v, x, x');
    }
  }

  /** The search may step past either text, but the first time it is past both it is exactly at their ends. */
  lemma {:induction false} FirstExitIsTheEnd(a: seq<string>, b: seq<string>, d: nat, k: int, x: int)
    requires 0 <= x && k <= x && Reach(a, b, x, x - k) <= d <= Distance(a, b)
    requires x >= |a| && x - k >= |b|
    ensures x == |a| && x - k == |b| && Distance(a, b) == d
  {
  }

  /** A round that visits no exit shows the texts are further apart than that round. */
  lemma {:induction false} NoExitMeansFurther(a: seq<string>, b: seq<string>, offset: int, d: nat, v: seq<int>)
    requires Frontier(a, b, offset, d, v) && d <= Distance(a, b)
    requires forall k | Visited(d, k) :: !(v[offset + k] >= |a| && v[offset + k] - k >= |b|)
    ensures d < Distance(a, b)
  {
    var k := |a| - |b|;
    DistBounds(a, b, |a|, |b|);
    assert OnGrid(a, b, |a|, |b|);
    assert Distance(a, b) == d ==> Visited(d, k);
  }

  /** What `diffMiddle` hands to `backtrack`: the frontiers before each round, linked by the runs between them. */
  ghost predicate Linked(a: seq<string>, b: seq<string>, offset: int, trace: seq<seq<int>>, last: seq<int>, dEnd: int, kEnd: int) {
    && 0 <= dEnd < offset && |trace| == dEnd + 1 && |last| == 2 * offset + 1
    && (forall d | 0 <= d <= dEnd :: |trace[d]| == 2 * offset + 1)
    && trace[0][offset + 1] == 0
    && (forall d | 0 <= d < dEnd :: Followed(a, b, offset, d, trace[d], trace[d + 1], d + 1))
    && Visited(dEnd, kEnd)
    && Run(a, b, kEnd, Start(trace[dEnd], offset, dEnd, kEnd), last[offset + kEnd])
    && last[offset + kEnd] == |a| && |a| - kEnd == |b|
  }

  function Reverse(s: seq<Op>): seq<Op> {
    if s == [] then [] else [s[|s| - 1]] + Reverse(s[..|s| - 1])
  }

  lemma {:induction false} ReversePush(s: seq<Op>, op: Op)
    ensures Reverse(s + [op]) == [op] + Reverse(s)
  {
    assert (s + [op])[..|s|] == s;
  }

  /** `out`, read backwards, takes the rest of `a` from `x` to the rest of `b` from `y` at the given cost. */
  ghost predicate Tail(out: seq<Op>, a: seq<string>, b: seq<string>, x: int, y: int, cost: int) {
    && OnGrid(a, b, x, y)
    && IsScript(Reverse(out), a[x..], b[y..])
    && Cost(Reverse(out)) == cost
  }

  lemma {:induction false} PushSame(out: seq<Op>, a: seq<string>, b: seq<string>, x: int, y: int, cost: int)
    requires Tail(out, a, b, x, y, cost) && x > 0 && y > 0 && a[x - 1] == b[y - 1]
    ensures Tail(out + [Same(a[x - 1])], a, b, x - 1, y - 1, cost)
  {
    ReversePush(out, Same(a[x - 1]));
    assert Reverse(out + [Same(a[x - 1])]) == Prepend(Same(a[x - 1]), Reverse(out));
    assert a[x - 1..] == [a[x - 1]] + a[x..] && b[y - 1..] == [b[y - 1]] + b[y..];
  }

  lemma {:induction false} PushRemoved(out: seq<Op>, a: seq<string>, b: seq<string>, x: int, y: int, cost: int)
    requires Tail(out, a, b, x, y, cost) && x > 0
    ensures Tail(out + [Removed(a[x - 1])], a, b, x - 1, y, cost + 1)
  {
    ReversePush(out, Removed(a[x - 1]));
    assert Reverse(out + [Removed(a[x - 1])]) == Prepend(Removed(a[x - 1]), Reverse(out));
    assert a[x - 1..] == [a[x - 1]] + a[x..];
  }

  lemma {:induction false} PushAdded(out: seq<Op>, a: seq<string>, b: seq<string>, x: int, y: int, cost: int)
    requires Tail(out, a, b, x, y, cost) && y > 0
    ensures Tail(out + [Added(b[y - 1])], a, b, x, y - 1, cost + 1)
  {
    ReversePush(out, Added(b[y - 1]));
    assert Reverse(out + [Added(b[y - 1])]) == Prepend(Added(b[y - 1]), Reverse(out));
    assert b[y - 1..] == [b[y - 1]] + b[y..];
  }

  /** The point of diagonal `k` at `x` lies on the run round `d` followed there. */
  ghost predicate OnRun(a: seq<string>, b: seq<string>, offset: int, v: seq<int>, d: int, k: int, x: int)
  {
    && 0 <= d < offset && |v| == 2 * offset + 1
    && Visited(d, k) && Run(a, b, k, Start(v, offset, d, k), x)
  }

  /** The diagonal the edit into diagonal `k` of round `d` came from. */
  function Previous(v: seq<int>, offset: int, d: int, k: int): int
    requires 0 <= d < offset && -d <= k <= d && |v| == 2 * offset + 1
  {
    if Down(v, offset, d, k) then k + 1 else k - 1
  }

  /** The run of round `d` on diagonal `k` starts one edit after a point on a run of round `d - 1`. */
  lemma {:induction false} PreviousRun(a: seq<string>, b: seq<string>, offset: int, v': seq<int>, v: seq<int>, d: int, k: int, x: int)
    requires 0 < d && OnRun(a, b, offset, v, d, k, x) && Followed(a, b, offset, d - 1, v', v, d)
    ensures var prevK := Previous(v, offset, d, k);
            && Visited(d - 1, prevK)
            && OnRun(a, b, offset, v', d - 1, prevK, v[offset + prevK])
            && Run(a, b, k, if Down(v, offset, d, k) then v[offset + prevK] else v[offset + prevK] + 1, x)
  {
    assert Visited(d - 1, Previous(v, offset, d, k));
    assert offset + k + 1 == offset + (k + 1) && offset + k - 1 == offset + (k - 1);
  }

  /** The inner loop of `backtrack`: records the run down to the point the edit came from. */
  method PopRun(out: seq<Op>, a: seq<string>, b: seq<string>, x0: int, y0: int, prevX: int, prevY: int, ghost cost: int)
    returns (popped: seq<Op>, x: int, y: int)
    requires Tail(out, a, b, x0, y0, cost) && 0 <= prevX && 0 <= prevY && prevX <= x0 && prevY <= y0
    requires Run(a, b, x0 - y0, if prevX - prevY >= x0 - y0 then prevX else prevY + x0 - y0, x0)
    ensures x - y == x0 - y0 && x == if prevX - prevY >= x0 - y0 then prevX else prevY + x0 - y0
    ensures Tail(popped, a, b, x, y, cost)
  {
    popped, x, y := out, x0, y0;
    while x > prevX && y > prevY
      invariant prevX <= x <= x0 && prevY <= y && x - y == x0 - y0
      invariant Tail(popped, a, b, x, y, cost)
    {
      assert EqualAt(a, b, x - y, x - 1);
      PushSame(popped, a, b, x, y, cost);
      popped := popped + [Same(a[x - 1])];
      x := x - 1;
      y := y - 1;
    }
  }

  /** The body of `backtrack`'s loop: the run of round `d` and the one edit before it. */
  method PopRound(out: seq<Op>, a: seq<string>, b: seq<string>, offset: int, ghost v': seq<int>, v: seq<int>, d: int,
                  x0: int, y0: int, ghost cost: int) returns (popped: seq<Op>, x: int, y: int)
    requires Tail(out, a, b, x0, y0, cost) && 0 < d
    requires OnRun(a, b, offset, v, d, x0 - y0, x0) && Followed(a, b, offset, d - 1, v', v, d)
    ensures Tail(popped, a, b, x, y, cost + 1)
    ensures OnRun(a, b, offset, v', d - 1, x - y, x)
  {
    var k := x0 - y0;
    PreviousRun(a, b, offset, v', v, d, k, x0);
    var down := Down(v, offset, d, k);
    var prevK := Previous(v, offset, d, k);
    var prevX := v[offset + prevK];
    var prevY := prevX - prevK;
    popped, x, y := PopRun(out, a, b, x0, y0, prevX, prevY, cost);
    if down {
      PushAdded(popped, a, b, x, y, cost);
      popped := popped + [Added(b[y - 1])];
    } else {
      PushRemoved(popped, a, b, x, y, cost);
      popped := popped + [Removed(a[x - 1])];
    }
    x := prevX;
    y := prevY;
    assert x - y == prevK;
  }

  method Backtrack(trace: seq<seq<int>>, last: seq<int>, dEnd: int, kEnd: int, a: seq<string>, b: seq<string>, offset: int)
    returns (ops: seq<Op>)
    requires Linked(a, b, offset, trace, last, dEnd, kEnd)
    ensures IsScript(ops, a, b) && Cost(ops) == dEnd
  {
    var out: seq<Op> := [];
    var x := last[offset + kEnd];
    var y := x - kEnd;
    assert a[x..] == [] && b[y..] == [];
    var d := dEnd;
    while d > 0
      invariant 0 <= d <= dEnd
      invariant Tail(out, a, b, x, y, dEnd - d)
      invariant OnRun(a, b, offset, trace[d], d, x - y, x)
    {
      out, x, y := PopRound(out, a, b, offset, trace[d - 1], trace[d], d, x, y, dEnd - d);
      d := d - 1;
    }
    out, x, y := PopRun(out, a, b, x, y, 0, 0, dEnd);
    assert a[0..] == a && b[0..] == b;
    ops := Reverse(out);
  }

  /** What one round leaves on a visited diagonal. */
  ghost predicate Settled(a: seq<string>, b: seq<string>, offset: int, d: int, v: seq<int>, k: int, x: int)
    requires 0 <= d < offset && |v| == 2 * offset + 1 && Visited(d, k)
  {
    Run(a, b, k, Start(v, offset, d, k), x) && Furthest(a, b, d, k, x)
  }

  /** The inner loop of `diffMiddle`: follows equal lines on a diagonal. */
  method FollowRun(a: seq<string>, b: seq<string>, k: int, start: int) returns (x: int, y: int)
    requires 0 <= start && k <= start
    ensures Run(a, b, k, start, x) && y == x - k
    ensures x >= |a| || y >= |b| || a[x] != b[y]
  {
    x, y := start, start - k;
    while x < |a| && y < |b| && a[x] == b[y]
      invariant y == x - k && Run(a, b, k, start, x)
    {
      x := x + 1;
      y := y + 1;
    }
  }

  /** One round of `diffMiddle`: follows every visited diagonal, stopping on the one that reaches both ends. */
  method Round(a: seq<string>, b: seq<string>, v: array<int>, next: array<int>, d: int, offset: int) returns (found: bool, k: int)
    requires v != next && 0 <= d < offset && v.Length == next.Length == 2 * offset + 1
    requires Frontier(a, b, offset, d - 1, v[..])
    modifies next
    ensures found ==> && Visited(d, k) && Settled(a, b, offset, d, v[..], k, next[offset + k])
                      && next[offset + k] >= |a| && next[offset + k] - k >= |b|
    ensures !found ==> forall j | Visited(d, j) ::
                && Settled(a, b, offset, d, v[..], j, next[offset + j])
                && !(next[offset + j] >= |a| && next[offset + j] - j >= |b|)
  {
    k := -d;
    while k <= d
      invariant -d <= k <= d + 2 && (k - d) % 2 == 0
      invariant forall j | Visited(d, j) && j < k ::
          && Settled(a, b, offset, d, v[..], j, next[offset + j])
          && !(next[offset + j] >= |a| && next[offset + j] - j >= |b|)
    {
      StartIsReached(a, b, offset, d, k, v[..]);
      var x := if k == -d || (k != d && v[offset + k - 1] < v[offset + k + 1])
               then v[offset + k + 1]
               else v[offset + k - 1] + 1;
      var y;
      x, y := FollowRun(a, b, k, x);
      RunIsFurthest(a, b, offset, d, k, v[..], x);
      next[offset + k] := x;
      if x >= |a| && y >= |b| {
        return true, k;
      }
      k := k + 2;
    }
    found := false;
  }

  lemma {:induction false} RoundIsFrontier(a: seq<string>, b: seq<string>, offset: int, d: int, v: seq<int>, next: seq<int>)
    requires 0 <= d < offset && |v| == |next| == 2 * offset + 1
    requires forall j | Visited(d, j) :: Settled(a, b, offset, d, v, j, next[offset + j])
    ensures Followed(a, b, offset, d, v, next, d + 1) && Frontier(a, b, offset, d, next)
  {
  }

  /** The frontiers before each of the first `d` rounds, linked by the runs between them, then `v`. */
  ghost predicate Traced(a: seq<string>, b: seq<string>, offset: int, trace: seq<seq<int>>, d: int, v: seq<int>) {
    && |trace| == d
    && (forall i | 0 <= i < d :: |trace[i]| == 2 * offset + 1)
    && 0 < offset && |v| == 2 * offset + 1 && (if d == 0 then v else trace[0])[offset + 1] == 0
    && (forall i | 0 <= i < d - 1 :: Followed(a, b, offset, i, trace[i], trace[i + 1], i + 1))
    && (d > 0 ==> Followed(a, b, offset, d - 1, trace[d - 1], v, d))
  }

  lemma {:induction false} TraceGrows(a: seq<string>, b: seq<string>, offset: int, trace: seq<seq<int>>, d: int, v: seq<int>, next: seq<int>)
    requires 0 <= d < offset && Traced(a, b, offset, trace, d, v) && Followed(a, b, offset, d, v, next, d + 1)
    ensures Traced(a, b, offset, trace + [v], d + 1, next)
  {
  }

  lemma {:induction false} TraceEnds(a: seq<string>, b: seq<string>, offset: int, trace: seq<seq<int>>, d: int, v: seq<int>, k: int, last: seq<int>)
    requires 0 <= d < offset && Traced(a, b, offset, trace, d, v) && |last| == 2 * offset + 1
    requires Visited(d, k) && OnRun(a, b, offset, v, d, k, last[offset + k])
    requires last[offset + k] == |a| && |a| - k == |b|
    ensures Linked(a, b, offset, trace + [v], last, d, k)
  {
  }

  /** The script is the shortest there is, or one side is empty, or every script changes more than
      `MAX_EDIT_DISTANCE` lines; only the last two replace everything. */
  method DiffMiddle(a: seq<string>, b: seq<string>) returns (ops: seq<Op>)
    ensures IsScript(ops, a, b)
    ensures Shortest(ops, a, b)
            || (ops == Replaced(a, b)
                && forall other: seq<Op> | IsScript(other, a, b) :: Cost(other) > MAX_EDIT_DISTANCE)
  {
    var n, m := |a|, |b|;
    ReplacedIsScript(a, b);
    if n == 0 || m == 0 {
      DistCostIsShortest(Replaced(a, b), a, b);
      return Replaced(a, b);
    }
    var max := Min(n + m, MAX_EDIT_DISTANCE);
    var offset := max + 1;
    var v := new int[2 * max + 3](_ => 0);
    var trace: seq<seq<int>> := [];
    var d := 0;
    while d <= max
      invariant 0 <= d <= max + 1 && v.Length == 2 * offset + 1
      invariant d <= Distance(a, b)
      invariant Frontier(a, b, offset, d - 1, v[..])
      invariant Traced(a, b, offset, trace, d, v[..])
    {
      ghost var earlier := trace;
      trace := trace + [v[..]];
      var next := new int[v.Length](i requires 0 <= i < v.Length reads v => v[i]);
      var found, k := Round(a, b, v, next, d, offset);
      if found {
        FirstExitIsTheEnd(a, b, d, k, next[offset + k]);
        TraceEnds(a, b, offset, earlier, d, v[..], k, next[..]);
        ops := Backtrack(trace, next[..], d, k, a, b, offset);
        DistCostIsShortest(ops, a, b);
        return;
      }
      RoundIsFrontier(a, b, offset, d, v[..], next[..]);
      TraceGrows(a, b, offset, earlier, d, v[..], next[..]);
      NoExitMeansFurther(a, b, offset, d, next[..]);
      v := next;
      d := d + 1;
    }
    DistBounds(a, b, n, m);
    forall other: seq<Op> | IsScript(other, a, b) ensures Cost(other) > MAX_EDIT_DISTANCE {
      DistBoundsScripts(other, a, b);
    }
    ops := Replaced(a, b);
  }
}
