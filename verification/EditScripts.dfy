/** Edit scripts between two line sequences and the distance they are measured against.
    Nothing here mentions the greedy search: it is the reference that search is proved against. */
module EditScripts {

  datatype Op = Same(text: string) | Removed(text: string) | Added(text: string)

  /** The lines a script starts from: everything but additions. */
  function OldSide(ops: seq<Op>): seq<string> {
    if ops == [] then [] else (if ops[0].Added? then [] else [ops[0].text]) + OldSide(ops[1..])
  }

  /** The lines a script ends in: everything but removals. */
  function NewSide(ops: seq<Op>): seq<string> {
    if ops == [] then [] else (if ops[0].Removed? then [] else [ops[0].text]) + NewSide(ops[1..])
  }

  /** How many lines a script adds or removes. */
  function Cost(ops: seq<Op>): nat {
    if ops == [] then 0 else (if ops[0].Same? then 0 else 1) + Cost(ops[1..])
  }

  ghost predicate IsScript(ops: seq<Op>, a: seq<string>, b: seq<string>) {
    OldSide(ops) == a && NewSide(ops) == b
  }

  /** No script between the same two texts adds and removes fewer lines. */
  ghost predicate Shortest(ops: seq<Op>, a: seq<string>, b: seq<string>) {
    && IsScript(ops, a, b)
    && forall other: seq<Op> | IsScript(other, a, b) :: Cost(ops) <= Cost(other)
  }

  lemma {:induction false} OldSideConcat(p: seq<Op>, q: seq<Op>)
    ensures OldSide(p + q) == OldSide(p) + OldSide(q)
  {
    if p == [] {
      assert p + q == q;
    } else {
      assert (p + q)[0] == p[0] && (p + q)[1..] == p[1..] + q;
      OldSideConcat(p[1..], q);
    }
  }

  lemma {:induction false} NewSideConcat(p: seq<Op>, q: seq<Op>)
    ensures NewSide(p + q) == NewSide(p) + NewSide(q)
  {
    if p == [] {
      assert p + q == q;
    } else {
      assert (p + q)[0] == p[0] && (p + q)[1..] == p[1..] + q;
      NewSideConcat(p[1..], q);
    }
  }

  lemma {:induction false} CostConcat(p: seq<Op>, q: seq<Op>)
    ensures Cost(p + q) == Cost(p) + Cost(q)
  {
    if p == [] {
      assert p + q == q;
    } else {
      assert (p + q)[0] == p[0] && (p + q)[1..] == p[1..] + q;
      CostConcat(p[1..], q);
    }
  }

  lemma {:induction false} Concat(p: seq<Op>, q: seq<Op>)
    ensures OldSide(p + q) == OldSide(p) + OldSide(q)
    ensures NewSide(p + q) == NewSide(p) + NewSide(q)
    ensures Cost(p + q) == Cost(p) + Cost(q)
  {
    OldSideConcat(p, q);
    NewSideConcat(p, q);
    CostConcat(p, q);
  }

  function Prepend(op: Op, ops: seq<Op>): (r: seq<Op>)
    ensures OldSide(r) == (if op.Added? then [] else [op.text]) + OldSide(ops)
    ensures NewSide(r) == (if op.Removed? then [] else [op.text]) + NewSide(ops)
    ensures Cost(r) == (if op.Same? then 0 else 1) + Cost(ops)
  {
    assert ([op] + ops)[1..] == ops;
    [op] + ops
  }

  function Unchanged(a: seq<string>): (ops: seq<Op>)
    ensures |ops| == |a|
  {
    seq(|a|, i requires 0 <= i < |a| => Same(a[i]))
  }

  function AllRemoved(a: seq<string>): (ops: seq<Op>)
    ensures |ops| == |a|
  {
    seq(|a|, i requires 0 <= i < |a| => Removed(a[i]))
  }

  function AllAdded(b: seq<string>): (ops: seq<Op>)
    ensures |ops| == |b|
  {
    seq(|b|, i requires 0 <= i < |b| => Added(b[i]))
  }

  lemma {:induction false} UniformSides(a: seq<string>)
    ensures IsScript(Unchanged(a), a, a) && Cost(Unchanged(a)) == 0
    ensures IsScript(AllRemoved(a), a, []) && Cost(AllRemoved(a)) == |a|
    ensures IsScript(AllAdded(a), [], a) && Cost(AllAdded(a)) == |a|
  {
    if a != [] {
      assert Unchanged(a)[1..] == Unchanged(a[1..]);
      assert AllRemoved(a)[1..] == AllRemoved(a[1..]);
      assert AllAdded(a)[1..] == AllAdded(a[1..]);
      UniformSides(a[1..]);
    }
  }

  /** The replace-everything script `diffMiddle` falls back to. */
  function Replaced(a: seq<string>, b: seq<string>): seq<Op> {
    AllRemoved(a) + AllAdded(b)
  }

  lemma {:induction false} ReplacedIsScript(a: seq<string>, b: seq<string>)
    ensures IsScript(Replaced(a, b), a, b) && Cost(Replaced(a, b)) == |a| + |b|
  {
    UniformSides(a);
    UniformSides(b);
    Concat(AllRemoved(a), AllAdded(b));
  }

  // ----- Distance between prefixes

  /** Fewest additions and removals turning `a[..x]` into `b[..y]`, by recursion on the prefixes. */
  function Dist(a: seq<string>, b: seq<string>, x: nat, y: nat): nat
    requires x <= |a| && y <= |b|
    decreases x + y
  {
    if x == 0 then y
    else if y == 0 then x
    else if a[x - 1] == b[y - 1] then Dist(a, b, x - 1, y - 1)
    else
      var up, left := Dist(a, b, x, y - 1), Dist(a, b, x - 1, y);
      1 + if up < left then up else left
  }

  function Distance(a: seq<string>, b: seq<string>): nat {
    Dist(a, b, |a|, |b|)
  }

  lemma {:induction false} DistRange(a: seq<string>, b: seq<string>, x: nat, y: nat)
    requires x <= |a| && y <= |b|
    ensures x - y <= Dist(a, b, x, y) && y - x <= Dist(a, b, x, y) && Dist(a, b, x, y) <= x + y
    decreases x + y
  {
    if x > 0 && y > 0 {
      DistRange(a, b, x - 1, y - 1);
      DistRange(a, b, x, y - 1);
      DistRange(a, b, x - 1, y);
    }
  }

  lemma {:induction false} PlusTwo(n: int)
    ensures (n + 2) % 2 == n % 2
  {
  }

  lemma {:induction false} DistParity(a: seq<string>, b: seq<string>, x: nat, y: nat)
    requires x <= |a| && y <= |b|
    ensures (Dist(a, b, x, y) + x + y) % 2 == 0
    decreases x + y
  {
    if x == 0 || y == 0 {
      assert Dist(a, b, x, y) + x + y == 2 * (x + y);
    } else if a[x - 1] == b[y - 1] {
      DistParity(a, b, x - 1, y - 1);
      PlusTwo(Dist(a, b, x, y) + (x - 1) + (y - 1));
    } else if Dist(a, b, x, y - 1) < Dist(a, b, x - 1, y) {
      DistParity(a, b, x, y - 1);
      PlusTwo(Dist(a, b, x, y - 1) + x + (y - 1));
    } else {
      DistParity(a, b, x - 1, y);
      PlusTwo(Dist(a, b, x - 1, y) + (x - 1) + y);
    }
  }

  lemma {:induction false} DistBounds(a: seq<string>, b: seq<string>, x: nat, y: nat)
    requires x <= |a| && y <= |b|
    ensures x - y <= Dist(a, b, x, y) && y - x <= Dist(a, b, x, y) && Dist(a, b, x, y) <= x + y
    ensures (Dist(a, b, x, y) + x + y) % 2 == 0
  {
    DistRange(a, b, x, y);
    DistParity(a, b, x, y);
  }

  /** One more line on either side changes the distance by at most one. */
  lemma {:induction false} DistNeighbours(a: seq<string>, b: seq<string>, x: nat, y: nat)
    requires x <= |a| && y <= |b|
    ensures x > 0 ==> -1 <= Dist(a, b, x, y) - Dist(a, b, x - 1, y) <= 1
    ensures y > 0 ==> -1 <= Dist(a, b, x, y) - Dist(a, b, x, y - 1) <= 1
    decreases x + y
  {
    if x > 0 { DistNeighbours(a, b, x - 1, y); }
    if y > 0 { DistNeighbours(a, b, x, y - 1); }
  }

  lemma {:induction false} DropLast(ops: seq<Op>, a: seq<string>, b: seq<string>)
    requires ops != [] && IsScript(ops, a, b)
    ensures var last := ops[|ops| - 1];
            var init := ops[..|ops| - 1];
            && (!last.Added? ==> a != [] && a[|a| - 1] == last.text)
            && (!last.Removed? ==> b != [] && b[|b| - 1] == last.text)
            && IsScript(init, if last.Added? then a else a[..|a| - 1], if last.Removed? then b else b[..|b| - 1])
            && Cost(ops) == Cost(init) + if last.Same? then 0 else 1
  {
    var init, last := ops[..|ops| - 1], ops[|ops| - 1];
    assert ops == init + [last];
    Concat(init, [last]);
  }

  /** The distance is a lower bound for every script. */
  lemma {:induction false} DistIsLowerBound(ops: seq<Op>, a: seq<string>, b: seq<string>, x: nat, y: nat)
    requires x <= |a| && y <= |b| && IsScript(ops, a[..x], b[..y])
    ensures Dist(a, b, x, y) <= Cost(ops)
    decreases |ops|
  {
    if ops != [] {
      DropLast(ops, a[..x], b[..y]);
      var init, last := ops[..|ops| - 1], ops[|ops| - 1];
      match last
      case Added(_) =>
        assert b[..y][..y - 1] == b[..y - 1];
        DistIsLowerBound(init, a, b, x, y - 1);
        DistNeighbours(a, b, x, y);
      case Removed(_) =>
        assert a[..x][..x - 1] == a[..x - 1];
        DistIsLowerBound(init, a, b, x - 1, y);
        DistNeighbours(a, b, x, y);
      case Same(_) =>
        assert a[..x][..x - 1] == a[..x - 1] && b[..y][..y - 1] == b[..y - 1];
        DistIsLowerBound(init, a, b, x - 1, y - 1);
    }
  }

  lemma {:induction false} DistBoundsScripts(ops: seq<Op>, a: seq<string>, b: seq<string>)
    requires IsScript(ops, a, b)
    ensures Distance(a, b) <= Cost(ops)
  {
    assert a[..|a|] == a && b[..|b|] == b;
    DistIsLowerBound(ops, a, b, |a|, |b|);
  }

  lemma {:induction false} DistCostIsShortest(ops: seq<Op>, a: seq<string>, b: seq<string>)
    requires IsScript(ops, a, b) && Cost(ops) == Distance(a, b)
    ensures Shortest(ops, a, b)
  {
    forall other: seq<Op> | IsScript(other, a, b) ensures Cost(ops) <= Cost(other) {
      DistBoundsScripts(other, a, b);
    }
  }

  /** The distance is reached: some script costs exactly that. */
  lemma {:induction false} DistIsReached(a: seq<string>, b: seq<string>, x: nat, y: nat) returns (ops: seq<Op>)
    requires x <= |a| && y <= |b|
    ensures IsScript(ops, a[..x], b[..y]) && Cost(ops) == Dist(a, b, x, y)
    decreases x + y
  {
    if x == 0 || y == 0 {
      ReplacedIsScript(a[..x], b[..y]);
      ops := Replaced(a[..x], b[..y]);
    } else if a[x - 1] == b[y - 1] {
      var init := DistIsReached(a, b, x - 1, y - 1);
      ops := init + [Same(a[x - 1])];
      Concat(init, [Same(a[x - 1])]);
      assert a[..x] == a[..x - 1] + [a[x - 1]] && b[..y] == b[..y - 1] + [b[y - 1]];
    } else if Dist(a, b, x, y - 1) < Dist(a, b, x - 1, y) {
      var init := DistIsReached(a, b, x, y - 1);
      ops := init + [Added(b[y - 1])];
      Concat(init, [Added(b[y - 1])]);
      assert b[..y] == b[..y - 1] + [b[y - 1]];
    } else {
      var init := DistIsReached(a, b, x - 1, y);
      ops := init + [Removed(a[x - 1])];
      Concat(init, [Removed(a[x - 1])]);
      assert a[..x] == a[..x - 1] + [a[x - 1]];
    }
  }

  // ----- Longest common subsequences

  /** Whether `c` is left when some lines of `a` are dropped. */
  predicate Subsequence(c: seq<string>, a: seq<string>) {
    if c == [] then true
    else if a == [] then false
    else if c[0] == a[0] then Subsequence(c[1..], a[1..])
    else Subsequence(c, a[1..])
  }

  /** The lines a script leaves alone. */
  function Kept(ops: seq<Op>): seq<string> {
    if ops == [] then [] else (if ops[0].Same? then [ops[0].text] else []) + Kept(ops[1..])
  }

  lemma {:induction false} SubsequenceSkip(c: seq<string>, a: seq<string>, x: string)
    requires Subsequence(c, a)
    ensures Subsequence(c, [x] + a)
    ensures c != [] ==> Subsequence(c[1..], a)
    decreases a
  {
    assert ([x] + a)[1..] == a;
    if c != [] {
      if c[0] == a[0] {
        assert a == [a[0]] + a[1..];
        SubsequenceSkip(c[1..], a[1..], a[0]);
      } else {
        SubsequenceSkip(c, a[1..], x);
        assert a == [a[0]] + a[1..];
        SubsequenceSkip(c[1..], a[1..], a[0]);
      }
    }
  }

  lemma {:induction false} SubsequenceSame(c: seq<string>, a: seq<string>, x: string)
    requires Subsequence(c, a)
    ensures Subsequence([x] + c, [x] + a)
  {
    assert ([x] + c)[1..] == c && ([x] + a)[1..] == a;
  }

  /** What a script keeps is common to both sides, and its cost counts exactly the rest. */
  lemma {:induction false} KeptIsCommon(ops: seq<Op>)
    ensures Subsequence(Kept(ops), OldSide(ops)) && Subsequence(Kept(ops), NewSide(ops))
    ensures Cost(ops) == |OldSide(ops)| + |NewSide(ops)| - 2 * |Kept(ops)|
  {
    if ops != [] {
      KeptIsCommon(ops[1..]);
      var op := ops[0];
      match op
      case Same(t) =>
        hide Subsequence;
        SubsequenceSame(Kept(ops[1..]), OldSide(ops[1..]), t);
        SubsequenceSame(Kept(ops[1..]), NewSide(ops[1..]), t);
      case Added(t) =>
        hide Subsequence;
        SubsequenceSkip(Kept(ops[1..]), NewSide(ops[1..]), t);
        assert Kept(ops) == Kept(ops[1..]) && OldSide(ops) == OldSide(ops[1..]);
      case Removed(t) =>
        hide Subsequence;
        SubsequenceSkip(Kept(ops[1..]), OldSide(ops[1..]), t);
        assert Kept(ops) == Kept(ops[1..]) && NewSide(ops) == NewSide(ops[1..]);
    }
  }

  /** Every common subsequence is what some script keeps. */
  lemma {:induction false} CommonIsKept(c: seq<string>, a: seq<string>, b: seq<string>) returns (ops: seq<Op>)
    requires Subsequence(c, a) && Subsequence(c, b)
    ensures IsScript(ops, a, b) && Cost(ops) == |a| + |b| - 2 * |c|
    decreases |a| + |b|
  {
    if c == [] {
      ReplacedIsScript(a, b);
      ops := Replaced(a, b);
    } else if c[0] != a[0] {
      var rest := CommonIsKept(c, a[1..], b);
      ops := Prepend(Removed(a[0]), rest);
      assert a == [a[0]] + a[1..];
    } else if c[0] != b[0] {
      var rest := CommonIsKept(c, a, b[1..]);
      ops := Prepend(Added(b[0]), rest);
      assert b == [b[0]] + b[1..];
    } else {
      var rest := CommonIsKept(c[1..], a[1..], b[1..]);
      ops := Prepend(Same(a[0]), rest);
      assert a == [a[0]] + a[1..] && b == [b[0]] + b[1..];
    }
  }

  ghost predicate LongestCommon(c: seq<string>, a: seq<string>, b: seq<string>) {
    Subsequence(c, a) && Subsequence(c, b) && forall other | Subsequence(other, a) && Subsequence(other, b) :: |other| <= |c|
  }

  /** A shortest script keeps a longest common subsequence, so its cost is n + m - 2 * LCS. */
  lemma {:induction false} ShortestKeepsLongest(ops: seq<Op>, a: seq<string>, b: seq<string>)
    requires IsScript(ops, a, b)
    ensures Shortest(ops, a, b) ==> LongestCommon(Kept(ops), a, b)
    ensures Cost(ops) == |a| + |b| - 2 * |Kept(ops)|
  {
    KeptIsCommon(ops);
    if Shortest(ops, a, b) {
      forall c | Subsequence(c, a) && Subsequence(c, b) ensures |c| <= |Kept(ops)| {
        var other := CommonIsKept(c, a, b);
      }
    }
  }

  // ----- Trimming

  lemma {:induction false} DistSamePrefixLine(t: string, a: seq<string>, b: seq<string>, x: nat, y: nat)
    requires x <= |a| && y <= |b|
    ensures Dist([t] + a, [t] + b, x + 1, y + 1) == Dist(a, b, x, y)
    decreases x + y
  {
    var a', b' := [t] + a, [t] + b;
    if x == 0 || y == 0 {
      DistPrefixEdge(t, a, b, x, y);
    } else {
      assert a'[x] == a[x - 1] && b'[y] == b[y - 1];
      DistSamePrefixLine(t, a, b, x - 1, y - 1);
      DistSamePrefixLine(t, a, b, x, y - 1);
      DistSamePrefixLine(t, a, b, x - 1, y);
    }
  }

  lemma {:induction false} DistPrefixEdge(t: string, a: seq<string>, b: seq<string>, x: nat, y: nat)
    requires x <= |a| && y <= |b| && (x == 0 || y == 0)
    ensures Dist([t] + a, [t] + b, x + 1, y + 1) == x + y
    decreases x + y
  {
    var a', b' := [t] + a, [t] + b;
    DistBounds(a', b', x + 1, y + 1);
    if x > 0 {
      DistPrefixEdge(t, a, b, x - 1, y);
      DistNeighbours(a', b', x + 1, y + 1);
    } else if y > 0 {
      DistPrefixEdge(t, a, b, x, y - 1);
      DistNeighbours(a', b', x + 1, y + 1);
    }
  }

  lemma {:induction false} TrimPrefix(p: seq<string>, a: seq<string>, b: seq<string>)
    ensures Distance(p + a, p + b) == Distance(a, b)
  {
    if p == [] {
      assert p + a == a && p + b == b;
    } else {
      TrimPrefix(p[1..], a, b);
      assert p + a == [p[0]] + (p[1..] + a) && p + b == [p[0]] + (p[1..] + b);
      DistSamePrefixLine(p[0], p[1..] + a, p[1..] + b, |p[1..] + a|, |p[1..] + b|);
    }
  }

  lemma {:induction false} DistPrefixOnly(a: seq<string>, b: seq<string>, s: seq<string>, t: seq<string>, x: nat, y: nat)
    requires x <= |a| && y <= |b|
    ensures Dist(a + s, b + t, x, y) == Dist(a, b, x, y)
    decreases x + y
  {
    if x > 0 && y > 0 {
      DistPrefixOnly(a, b, s, t, x - 1, y - 1);
      DistPrefixOnly(a, b, s, t, x, y - 1);
      DistPrefixOnly(a, b, s, t, x - 1, y);
    }
  }

  lemma {:induction false} DistTrimSuffix(a: seq<string>, b: seq<string>, s: seq<string>, z: nat)
    requires z <= |s|
    ensures Dist(a + s, b + s, |a| + z, |b| + z) == Dist(a, b, |a|, |b|)
  {
    if z == 0 {
      DistPrefixOnly(a, b, s, s, |a|, |b|);
    } else {
      DistTrimSuffix(a, b, s, z - 1);
      assert (a + s)[|a| + z - 1] == s[z - 1] == (b + s)[|b| + z - 1];
    }
  }

  lemma {:induction false} TrimSuffix(a: seq<string>, b: seq<string>, s: seq<string>)
    ensures Distance(a + s, b + s) == Distance(a, b)
  {
    DistTrimSuffix(a, b, s, |s|);
    assert |a + s| == |a| + |s| && |b + s| == |b| + |s|;
  }

  lemma {:induction false} SurroundIsScript(p: seq<string>, a: seq<string>, b: seq<string>, s: seq<string>, middle: seq<Op>)
    requires IsScript(middle, a, b)
    ensures IsScript(Unchanged(p) + middle + Unchanged(s), p + a + s, p + b + s)
    ensures Cost(Unchanged(p) + middle + Unchanged(s)) == Cost(middle)
  {
    UniformSides(p);
    UniformSides(s);
    Concat(Unchanged(p), middle);
    Concat(Unchanged(p) + middle, Unchanged(s));
  }

  lemma {:induction false} ShortestCostsDist(ops: seq<Op>, a: seq<string>, b: seq<string>)
    requires Shortest(ops, a, b)
    ensures Cost(ops) == Distance(a, b)
  {
    var best := DistIsReached(a, b, |a|, |b|);
    assert a[..|a|] == a && b[..|b|] == b;
    DistBoundsScripts(ops, a, b);
  }

  /** A shortest script for the middle, between the shared first and last lines, is shortest for the whole. */
  lemma {:induction false} TrimKeepsShortest(p: seq<string>, a: seq<string>, b: seq<string>, s: seq<string>, middle: seq<Op>)
    requires Shortest(middle, a, b)
    ensures Shortest(Unchanged(p) + middle + Unchanged(s), p + a + s, p + b + s)
  {
    SurroundIsScript(p, a, b, s, middle);
    ShortestCostsDist(middle, a, b);
    TrimPrefix(p, a, b);
    TrimSuffix(p + a, p + b, s);
    DistCostIsShortest(Unchanged(p) + middle + Unchanged(s), p + a + s, p + b + s);
  }
}
