/** Splicing several replacements into a list of lines: the tail of `applyUpdate` in
    extensions/builtin-tools/src/patch-format.ts. */
module Replacements {
  import opened SourceText

  datatype Replacement = Replacement(start: nat, count: nat, lines: seq<SourceLine>)

  /** An insertion after the last of `n` lines. */
  predicate AtEnd(r: Replacement, n: nat) { r.start == n && r.count == 0 }

  /** In the order found, a replacement ends before a later one starts unless it appends to the file. */
  predicate Apart(r: seq<Replacement>, n: nat) {
    && (forall i | 0 <= i < |r| :: r[i].start + r[i].count <= n)
    && forall i, j | 0 <= i < j < |r| :: r[i].start + r[i].count <= r[j].start || AtEnd(r[i], n)
  }

  /** ... and all but the appending ones end by `cursor`. */
  predicate Below(r: seq<Replacement>, cursor: nat, n: nat) {
    && Apart(r, n) && cursor <= n
    && forall i | 0 <= i < |r| :: r[i].start + r[i].count <= cursor || AtEnd(r[i], n)
  }

  lemma {:induction false} BelowGrows(r: seq<Replacement>, cursor: nat, n: nat, x: Replacement, next: nat)
    requires Below(r, cursor, n) && cursor <= x.start && x.start + x.count <= n && cursor <= next <= n
    requires x.start + x.count <= next || AtEnd(x, n)
    ensures Below(r + [x], next, n)
  {
  }

  /** In the order of the file, no replacement touches the lines of another. */
  predicate InOrder(r: seq<Replacement>, n: nat) {
    && (forall i | 0 <= i < |r| :: r[i].start + r[i].count <= n)
    && forall i, j | 0 <= i < j < |r| :: r[i].start + r[i].count <= r[j].start
  }

  // ----- The stable sort by start

  function InsertStable(sorted: seq<Replacement>, x: Replacement): (r: seq<Replacement>)
    ensures |r| == |sorted| + 1
    ensures multiset(r) == multiset(sorted) + multiset{x}
  {
    if sorted == [] || sorted[|sorted| - 1].start <= x.start then sorted + [x]
    else
      var init, last := sorted[..|sorted| - 1], sorted[|sorted| - 1];
      assert sorted == init + [last];
      InsertStable(init, x) + [last]
  }

  function Sorted(r: seq<Replacement>): (s: seq<Replacement>)
    ensures |s| == |r| && multiset(s) == multiset(r)
  {
    if r == [] then []
    else
      assert r == r[..|r| - 1] + [r[|r| - 1]];
      InsertStable(Sorted(r[..|r| - 1]), r[|r| - 1])
  }

  lemma {:induction false} InsertInOrder(sorted: seq<Replacement>, x: Replacement, n: nat)
    requires InOrder(sorted, n) && x.start + x.count <= n
    requires forall y | y in sorted :: y.start + y.count <= x.start || AtEnd(y, n)
    ensures InOrder(InsertStable(sorted, x), n)
    ensures forall y | y in InsertStable(sorted, x) :: y in sorted || y == x
  {
    if sorted != [] && sorted[|sorted| - 1].start > x.start {
      var init, last := sorted[..|sorted| - 1], sorted[|sorted| - 1];
      InsertInOrder(init, x, n);
      assert last in sorted && AtEnd(last, n);
      var r := InsertStable(sorted, x);
      forall i | 0 <= i < |r| - 1 ensures r[i].start + r[i].count <= last.start {
        assert r[i] in InsertStable(init, x);
      }
    } else if sorted != [] {
      forall i | 0 <= i < |sorted| ensures sorted[i].start + sorted[i].count <= x.start {
        assert sorted[i] in sorted;
        assert AtEnd(sorted[i], n) && i < |sorted| - 1 ==> sorted[i].start <= sorted[|sorted| - 1].start;
      }
    }
  }

  /** Replacements found apart come out of the sort in file order, none touching another's lines. */
  lemma {:induction false} SortedIsInOrder(r: seq<Replacement>, n: nat)
    requires Apart(r, n)
    ensures InOrder(Sorted(r), n)
  {
    if r != [] {
      var init, last := r[..|r| - 1], r[|r| - 1];
      SortedIsInOrder(init, n);
      forall y | y in Sorted(init) ensures y.start + y.count <= last.start || AtEnd(y, n) {
        assert y in multiset(Sorted(init)) && y in multiset(init);
        var i :| 0 <= i < |init| && init[i] == y;
        assert r[i] == y;
      }
      InsertInOrder(Sorted(init), last, n);
    }
  }

  /** The replacements that start at a line, in the order given. */
  function StartingAt(r: seq<Replacement>, line: nat): seq<Replacement> {
    if r == [] then []
    else StartingAt(r[..|r| - 1], line) + if r[|r| - 1].start == line then [r[|r| - 1]] else []
  }

  predicate ByStart(r: seq<Replacement>) { forall i, j | 0 <= i < j < |r| :: r[i].start <= r[j].start }

  lemma {:induction false} StartingAtMore(r: seq<Replacement>, x: Replacement, line: nat)
    ensures StartingAt(r + [x], line) == StartingAt(r, line) + if x.start == line then [x] else []
  {
    assert (r + [x])[..|r|] == r;
  }

  lemma {:induction false} InsertByStart(sorted: seq<Replacement>, x: Replacement)
    requires ByStart(sorted)
    ensures ByStart(InsertStable(sorted, x)) && forall y | y in InsertStable(sorted, x) :: y in sorted || y == x
  {
    if sorted != [] && sorted[|sorted| - 1].start > x.start {
      var init, last := sorted[..|sorted| - 1], sorted[|sorted| - 1];
      InsertByStart(init, x);
      var r := InsertStable(init, x);
      forall i | 0 <= i < |r| ensures r[i].start <= last.start {
        assert r[i] in r;
      }
    }
  }

  lemma {:induction false} InsertIsStable(sorted: seq<Replacement>, x: Replacement, line: nat)
    requires ByStart(sorted)
    ensures StartingAt(InsertStable(sorted, x), line) == StartingAt(sorted, line) + if x.start == line then [x] else []
  {
    hide StartingAt;
    if sorted == [] || sorted[|sorted| - 1].start <= x.start {
      StartingAtMore(sorted, x, line);
    } else {
      var init, last := sorted[..|sorted| - 1], sorted[|sorted| - 1];
      assert sorted == init + [last];
      InsertIsStable(init, x, line);
      StartingAtMore(InsertStable(init, x), last, line);
      StartingAtMore(init, last, line);
      if x.start == line {
        // What was pushed behind starts later.
        assert last.start != line;
      }
    }
  }

  /** The sort is by start, and leaves those that start at the same line in the order they had. */
  lemma {:induction false} SortedIsStable(r: seq<Replacement>, line: nat)
    ensures ByStart(Sorted(r)) && StartingAt(Sorted(r), line) == StartingAt(r, line)
  {
    if r != [] {
      var init, last := r[..|r| - 1], r[|r| - 1];
      SortedIsStable(init, line);
      InsertByStart(Sorted(init), last);
      InsertIsStable(Sorted(init), last, line);
    }
  }

  // ----- One left-to-right merge

  /** The lines from `at` on with every replacement made at once: the file's own lines between them. */
  function Merge(lines: seq<SourceLine>, r: seq<Replacement>, at: nat): seq<SourceLine>
    requires at <= |lines| && InOrder(r, |lines|) && (r != [] ==> at <= r[0].start)
    decreases |r|
  {
    if r == [] then lines[at..]
    else lines[at..r[0].start] + r[0].lines + Merge(lines, r[1..], r[0].start + r[0].count)
  }

  lemma {:induction false} MergeFromEarlier(lines: seq<SourceLine>, r: seq<Replacement>, at: nat, later: nat)
    requires at <= later <= |lines| && InOrder(r, |lines|) && (r != [] ==> later <= r[0].start)
    ensures Merge(lines, r, at) == lines[at..later] + Merge(lines, r, later)
  {
    if r == [] {
      assert lines[at..] == lines[at..later] + lines[later..];
    } else {
      var rest := Merge(lines, r[1..], r[0].start + r[0].count);
      var before, between := lines[at..later], lines[later..r[0].start];
      calc {
        Merge(lines, r, at);
        lines[at..r[0].start] + r[0].lines + rest;
        { assert lines[at..r[0].start] == before + between; }
        before + between + r[0].lines + rest;
        before + (between + r[0].lines + rest);
      }
    }
  }

  lemma {:induction false} SpliceOne(lines: seq<SourceLine>, x: Replacement, rest: seq<Replacement>, p: nat, result: seq<SourceLine>)
    requires InOrder([x] + rest, |lines|) && x.start + x.count <= p <= |lines|
    requires InOrder(rest, |lines|) && (rest != [] ==> p <= rest[0].start)
    requires result == lines[..p] + Merge(lines, rest, p)
    ensures x.start + x.count <= |result|
    ensures result[..x.start] + x.lines + result[x.start + x.count..] == lines[..x.start] + Merge(lines, [x] + rest, x.start)
  {
    var end := x.start + x.count;
    var tail := Merge(lines, rest, p);
    MergeFromEarlier(lines, rest, end, p);
    assert result[..x.start] == lines[..x.start];
    assert result[end..] == lines[end..p] + tail;
    assert ([x] + rest)[1..] == rest && lines[x.start..x.start] == [];
    assert Merge(lines, [x] + rest, x.start) == x.lines + Merge(lines, rest, end);
  }

  /** Splicing from the last replacement to the first gives the left-to-right merge. */
  method SpliceAll(lines: seq<SourceLine>, r: seq<Replacement>) returns (result: seq<SourceLine>)
    requires InOrder(r, |lines|)
    ensures result == Merge(lines, r, 0)
  {
    result := lines;
    var k := |r|;
    ghost var p := |lines|;
    assert lines[..p] + lines[p..] == lines;
    while k > 0
      invariant 0 <= k <= |r| && p <= |lines| && InOrder(r[k..], |lines|)
      invariant p == if k < |r| then r[k].start else |lines|
      invariant result == lines[..p] + Merge(lines, r[k..], p)
    {
      k := k - 1;
      var x := r[k];
      assert r[k..] == [x] + r[k + 1..];
      SpliceOne(lines, x, r[k + 1..], p, result);
      result := result[..x.start] + x.lines + result[x.start + x.count..];
      p := x.start;
    }
    assert r[0..] == r && lines[0..p] == lines[..p];
    MergeFromEarlier(lines, r, 0, p);
  }

  // ----- Line endings of the result

  /** The ending of the last line: that of the file's last line decides whether there is one. */
  function LastEol(lines: seq<SourceLine>, last: SourceLine, defaultEol: string): string {
    if lines == [] then defaultEol
    else if lines[|lines| - 1].eol == "" then ""
    else if last.eol == "" then defaultEol
    else last.eol
  }

  /** The result with every missing ending filled in, and the last line's decided. */
  function Finished(lines: seq<SourceLine>, result: seq<SourceLine>, defaultEol: string): (r: seq<SourceLine>)
    ensures |r| == |result|
  {
    seq(|result|, i requires 0 <= i < |result| =>
      if i == |result| - 1 then result[i].(eol := LastEol(lines, result[i], defaultEol))
      else if result[i].eol == "" then result[i].(eol := defaultEol)
      else result[i])
  }

  method Finish(lines: seq<SourceLine>, spliced: seq<SourceLine>, defaultEol: string) returns (result: seq<SourceLine>)
    ensures result == Finished(lines, spliced, defaultEol)
  {
    result := spliced;
    var i := 0;
    while i < |result| - 1
      invariant |result| == |spliced| && 0 <= i <= (if |result| == 0 then 0 else |result| - 1)
      invariant forall j | 0 <= j < i :: result[j] == Finished(lines, spliced, defaultEol)[j]
      invariant forall j | i <= j < |result| :: result[j] == spliced[j]
    {
      if result[i].eol == "" {
        result := result[i := result[i].(eol := defaultEol)];
      }
      i := i + 1;
    }
    if result != [] {
      var last := |result| - 1;
      result := result[last := result[last].(eol :=
        if lines != [] then
          if lines[|lines| - 1].eol != "" then
            if result[last].eol != "" then result[last].eol else defaultEol
          else ""
        else defaultEol)];
    }
  }
}
