/** packages/cli/src/update/semver.ts: the order of release versions, which is that of section 11 of Semantic
    Versioning 2.0.0. Build metadata takes no part in it and is not kept. */
module Versions {
  datatype Version = Version(major: nat, minor: nat, patch: nat, prerelease: seq<string>)

  predicate Numeric(id: string) { id != "" && forall i | 0 <= i < |id| :: '0' <= id[i] <= '9' }

  /** What `parseVersion` lets through: no empty identifier, and no number with a leading zero. */
  predicate Identifier(id: string) { id != "" && (Numeric(id) && |id| > 1 ==> id[0] != '0') }

  predicate Parsed(v: Version) { forall id | id in v.prerelease :: Identifier(id) }

  type SemVer = v: Version | Parsed(v) witness Version(0, 0, 0, [])

  // ----- The order, as a function

  function Value(id: string): nat
    requires id == "" || Numeric(id)
  {
    if id == "" then 0 else Value(id[..|id| - 1]) * 10 + (id[|id| - 1] - '0') as nat
  }

  /** Strings by their code units. */
  predicate Before(x: string, y: string) {
    if x == "" || y == "" then x == "" && y != ""
    else x[0] < y[0] || (x[0] == y[0] && Before(x[1..], y[1..]))
  }

  function CompareIds(x: string, y: string): int {
    if x == y then 0
    else if Numeric(x) && Numeric(y) then if Value(x) > Value(y) then 1 else -1
    else if Numeric(x) != Numeric(y) then if Numeric(x) then -1 else 1
    else if Before(y, x) then 1
    else -1
  }

  function CompareLists(xs: seq<string>, ys: seq<string>): int {
    if xs == [] || ys == [] then if xs == ys then 0 else if xs == [] then -1 else 1
    else if xs[0] == ys[0] then CompareLists(xs[1..], ys[1..])
    else CompareIds(xs[0], ys[0])
  }

  function CompareNumbers(a: nat, b: nat): int { if a == b then 0 else if a > b then 1 else -1 }

  /** A version without prerelease identifiers comes after those that have some. */
  function ComparePrereleases(xs: seq<string>, ys: seq<string>): int {
    if xs == [] || ys == [] then if xs == ys then 0 else if xs == [] then 1 else -1
    else CompareLists(xs, ys)
  }

  function Order(a: Version, b: Version): int {
    if a.major != b.major then CompareNumbers(a.major, b.major)
    else if a.minor != b.minor then CompareNumbers(a.minor, b.minor)
    else if a.patch != b.patch then CompareNumbers(a.patch, b.patch)
    else ComparePrereleases(a.prerelease, b.prerelease)
  }

  // ----- The order of identifiers

  /** Numbers without leading zeros have their own values. */
  lemma {:induction false} ValuesDiffer(x: string, y: string)
    requires Numeric(x) && Numeric(y) && Identifier(x) && Identifier(y) && Value(x) == Value(y)
    ensures x == y
  {
    hide Value, TextBelow;
    if |x| <= |y| {
      NumbersBelow(x, y);
    } else {
      NumbersBelow(y, x);
    }
  }

  lemma {:induction false} Positive(x: string)
    requires Numeric(x) && x[0] != '0'
    ensures Value(x) > 0
  {
    if |x| > 1 {
      Positive(x[..|x| - 1]);
    }
  }

  lemma {:induction false} BeforeIsTotal(x: string, y: string)
    ensures x == y || Before(x, y) || Before(y, x)
    ensures !(Before(x, y) && Before(y, x)) && !Before(x, x)
  {
    if x != "" && y != "" && x[0] == y[0] {
      BeforeIsTotal(x[1..], y[1..]);
      assert x == [x[0]] + x[1..] && y == [y[0]] + y[1..];
    }
    if x != "" {
      BeforeIsTotal(x[1..], x[1..]);
    }
  }

  lemma {:induction false} BeforeIsTransitive(x: string, y: string, z: string)
    requires Before(x, y) && Before(y, z)
    ensures Before(x, z)
  {
    if x != "" && x[0] == y[0] == z[0] {
      BeforeIsTransitive(x[1..], y[1..], z[1..]);
    }
  }

  lemma {:induction false} IdsReverse(x: string, y: string)
    requires Identifier(x) && Identifier(y)
    ensures CompareIds(y, x) == -CompareIds(x, y) && (CompareIds(x, y) == 0 <==> x == y)
  {
    BeforeIsTotal(x, y);
    if Numeric(x) && Numeric(y) && Value(x) == Value(y) {
      ValuesDiffer(x, y);
    }
  }

  lemma {:induction false} IdsTransitive(x: string, y: string, z: string)
    requires Identifier(x) && Identifier(y) && Identifier(z) && CompareIds(x, y) < 0 && CompareIds(y, z) < 0
    ensures CompareIds(x, z) < 0
  {
    hide Value, Numeric;
    IdsReverse(x, y);
    IdsReverse(y, z);
    IdsReverse(x, z);
    BeforeIsTotal(x, y);
    BeforeIsTotal(y, z);
    BeforeIsTotal(x, z);
    if Before(x, y) && Before(y, z) {
      BeforeIsTransitive(x, y, z);
    }
  }

  lemma {:induction false} ListsReverse(xs: seq<string>, ys: seq<string>)
    requires (forall id | id in xs :: Identifier(id)) && (forall id | id in ys :: Identifier(id))
    ensures CompareLists(ys, xs) == -CompareLists(xs, ys) && (CompareLists(xs, ys) == 0 <==> xs == ys)
  {
    if xs != [] && ys != [] {
      IdsReverse(xs[0], ys[0]);
      ListsReverse(xs[1..], ys[1..]);
      assert xs == [xs[0]] + xs[1..] && ys == [ys[0]] + ys[1..];
    }
  }

  lemma {:induction false} ListsTransitive(xs: seq<string>, ys: seq<string>, zs: seq<string>)
    requires (forall id | id in xs :: Identifier(id)) && (forall id | id in ys :: Identifier(id)) && (forall id | id in zs :: Identifier(id))
    requires CompareLists(xs, ys) <= 0 && CompareLists(ys, zs) <= 0
    ensures CompareLists(xs, zs) <= 0
  {
    hide CompareIds, Identifier;
    if xs != [] && ys != [] && zs != [] {
      IdsReverse(xs[0], ys[0]);
      IdsReverse(ys[0], zs[0]);
      IdsReverse(xs[0], zs[0]);
      if xs[0] == ys[0] == zs[0] {
        ListsTransitive(xs[1..], ys[1..], zs[1..]);
      } else if xs[0] != ys[0] && ys[0] != zs[0] {
        IdsTransitive(xs[0], ys[0], zs[0]);
      }
    }
  }

  // ----- The order of versions

  /** Swapping the versions negates the comparison, and only the same version compares equal. */
  lemma {:induction false} OrderReverses(a: SemVer, b: SemVer)
    ensures Order(b, a) == -Order(a, b) && (Order(a, b) == 0 <==> a == b)
  {
    ListsReverse(a.prerelease, b.prerelease);
  }

  lemma {:induction false} OrderIsTransitive(a: SemVer, b: SemVer, c: SemVer)
    requires Order(a, b) <= 0 && Order(b, c) <= 0
    ensures Order(a, c) <= 0
  {
    hide CompareLists, Identifier;
    if a.prerelease != [] && b.prerelease != [] && c.prerelease != [] && CompareLists(a.prerelease, b.prerelease) <= 0
       && CompareLists(b.prerelease, c.prerelease) <= 0 {
      Listed(a);
      Listed(b);
      Listed(c);
      ListsTransitive(a.prerelease, b.prerelease, c.prerelease);
    }
  }

  lemma {:induction false} Listed(v: SemVer)
    ensures forall id | id in v.prerelease :: Identifier(id)
  {
  }

  /** A strict step anywhere on the way makes the whole way strict. */
  lemma {:induction false} StrictlyBelow(a: SemVer, b: SemVer, c: SemVer)
    requires Order(a, b) < 0 && Order(b, c) < 0
    ensures Order(a, c) < 0
  {
    hide Order;
    OrderIsTransitive(a, b, c);
    OrderReverses(a, c);
    OrderReverses(b, c);
  }

  // ----- The order in words: section 11 of Semantic Versioning 2.0.0

  /** Texts differ first at `k`, where the first one ends or has the smaller character. */
  predicate BelowAt(x: string, y: string, k: nat) {
    k <= |x| && k < |y| && x[..k] == y[..k] && (k == |x| || x[k] < y[k])
  }

  predicate TextBelow(x: string, y: string) { exists k: nat | k < |y| :: BelowAt(x, y, k) }

  /** Numbers are below words; numbers without leading zeros compare by length first. */
  predicate IdBelow(x: string, y: string) {
    if Numeric(x) && Numeric(y) then |x| < |y| || (|x| == |y| && TextBelow(x, y))
    else Numeric(x) || (!Numeric(y) && TextBelow(x, y))
  }

  predicate ListBelowAt(xs: seq<string>, ys: seq<string>, k: nat) {
    k <= |xs| && k < |ys| && xs[..k] == ys[..k] && (k == |xs| || (xs[k] != ys[k] && IdBelow(xs[k], ys[k])))
  }

  predicate ListBelow(xs: seq<string>, ys: seq<string>) { exists k: nat | k < |ys| :: ListBelowAt(xs, ys, k) }

  /** The first number that differs decides; of two versions with the same numbers one with prerelease identifiers is below
      the one without, and of two with them the first identifier that differs decides, or the shorter list is below. */
  predicate Precedes(a: Version, b: Version) {
    || a.major < b.major
    || (a.major == b.major && a.minor < b.minor)
    || (a.major == b.major && a.minor == b.minor && a.patch < b.patch)
    || (a.major == b.major && a.minor == b.minor && a.patch == b.patch && a.prerelease != []
        && (b.prerelease == [] || ListBelow(a.prerelease, b.prerelease)))
  }

  lemma {:induction false} TextBelowFirst(x: string, y: string)
    ensures x != "" && y != "" && x[0] == y[0] ==> (TextBelow(x, y) <==> TextBelow(x[1..], y[1..]))
    ensures x != "" && y != "" && x[0] != y[0] ==> (TextBelow(x, y) <==> x[0] < y[0])
    ensures x == "" || y == "" ==> (TextBelow(x, y) <==> x == "" && y != "")
  {
    if x == "" || y == "" {
      assert y != "" ==> BelowAt(x, y, 0) || x != "";
    } else if x[0] != y[0] {
      assert x[0] < y[0] ==> BelowAt(x, y, 0);
    } else {
      if TextBelow(x, y) {
        var k: nat :| k < |y| && BelowAt(x, y, k);
        assert x[1..][..k - 1] == x[..k][1..] && y[1..][..k - 1] == y[..k][1..];
        assert BelowAt(x[1..], y[1..], k - 1);
      }
      if TextBelow(x[1..], y[1..]) {
        var k: nat :| k < |y[1..]| && BelowAt(x[1..], y[1..], k);
        assert x[..k + 1] == [x[0]] + x[1..][..k] && y[..k + 1] == [y[0]] + y[1..][..k];
        assert BelowAt(x, y, k + 1);
      }
    }
  }

  lemma {:induction false} BeforeIsBelow(x: string, y: string)
    ensures Before(x, y) <==> TextBelow(x, y)
  {
    TextBelowFirst(x, y);
    hide TextBelow;
    if x != "" && y != "" && x[0] == y[0] {
      BeforeIsBelow(x[1..], y[1..]);
    }
  }

  lemma {:induction false} TextBelowLast(a: string, b: string, c: char, d: char)
    requires |a| == |b|
    ensures TextBelow(a + [c], b + [d]) <==> TextBelow(a, b) || (a == b && c < d)
  {
    var x, y := a + [c], b + [d];
    if TextBelow(x, y) {
      var k: nat :| k < |y| && BelowAt(x, y, k);
      if k < |a| {
        assert a[..k] == x[..k] && b[..k] == y[..k];
        assert BelowAt(a, b, k);
      } else {
        assert a == x[..k] && b == y[..k];
      }
    }
    if TextBelow(a, b) {
      var k: nat :| k < |b| && BelowAt(a, b, k);
      assert a[..k] == x[..k] && b[..k] == y[..k];
      assert BelowAt(x, y, k);
    }
    if a == b && c < d {
      assert x[..|a|] == a && y[..|a|] == b;
      assert BelowAt(x, y, |a|);
    }
  }

  /** Numbers of one length compare like texts, and a longer number without a leading zero is greater. */
  lemma {:induction false} NumbersBelow(x: string, y: string)
    requires Numeric(x) && Numeric(y)
    ensures |x| == |y| ==> (Value(x) < Value(y) <==> TextBelow(x, y)) && (Value(x) == Value(y) <==> x == y)
    ensures |x| < |y| && y[0] != '0' ==> Value(x) < Value(y)
    decreases |x|
  {
    hide TextBelow;
    var a, b := x[..|x| - 1], y[..|y| - 1];
    assert x == a + [x[|x| - 1]] && y == b + [y[|y| - 1]];
    if |x| > 1 && |y| > 1 {
      NumbersBelow(a, b);
    } else if |y| > 1 && y[0] != '0' {
      Positive(b);
    }
    if |x| == |y| {
      TextBelowLast(a, b, x[|x| - 1], y[|y| - 1]);
      if |x| == 1 {
        TextBelowFirst(a, b);
      }
    }
  }

  lemma {:induction false} IdsBelow(x: string, y: string)
    requires Identifier(x) && Identifier(y)
    ensures CompareIds(x, y) < 0 <==> x != y && IdBelow(x, y)
  {
    hide TextBelow, Value;
    BeforeIsBelow(x, y);
    BeforeIsBelow(y, x);
    BeforeIsTotal(x, y);
    IdsReverse(x, y);
    if Numeric(x) && Numeric(y) {
      if |x| <= |y| {
        NumbersBelow(x, y);
      }
      if |y| <= |x| {
        NumbersBelow(y, x);
      }
    }
  }

  lemma {:induction false} ListBelowFirst(xs: seq<string>, ys: seq<string>)
    ensures xs != [] && ys != [] && xs[0] == ys[0] ==> (ListBelow(xs, ys) <==> ListBelow(xs[1..], ys[1..]))
    ensures xs != [] && ys != [] && xs[0] != ys[0] ==> (ListBelow(xs, ys) <==> IdBelow(xs[0], ys[0]))
    ensures xs == [] || ys == [] ==> (ListBelow(xs, ys) <==> xs == [] && ys != [])
  {
    hide IdBelow;
    if xs == [] || ys == [] {
      assert ys != [] ==> ListBelowAt(xs, ys, 0) || xs != [];
    } else if xs[0] != ys[0] {
      assert IdBelow(xs[0], ys[0]) ==> ListBelowAt(xs, ys, 0);
      forall k: nat | 0 < k < |ys| ensures !ListBelowAt(xs, ys, k) {
        if k <= |xs| {
          assert xs[..k][0] == xs[0] && ys[..k][0] == ys[0];
        }
      }
    } else {
      if ListBelow(xs, ys) {
        var k: nat :| k < |ys| && ListBelowAt(xs, ys, k);
        assert xs[1..][..k - 1] == xs[..k][1..] && ys[1..][..k - 1] == ys[..k][1..];
        assert ListBelowAt(xs[1..], ys[1..], k - 1);
      }
      if ListBelow(xs[1..], ys[1..]) {
        var k: nat :| k < |ys[1..]| && ListBelowAt(xs[1..], ys[1..], k);
        assert xs[..k + 1] == [xs[0]] + xs[1..][..k] && ys[..k + 1] == [ys[0]] + ys[1..][..k];
        assert ListBelowAt(xs, ys, k + 1);
      }
    }
  }

  lemma {:induction false} ListsBelow(xs: seq<string>, ys: seq<string>)
    requires (forall id | id in xs :: Identifier(id)) && (forall id | id in ys :: Identifier(id))
    ensures CompareLists(xs, ys) < 0 <==> ListBelow(xs, ys)
  {
    hide ListBelow, IdBelow, CompareIds, Identifier;
    ListBelowFirst(xs, ys);
    if xs != [] && ys != [] {
      if xs[0] == ys[0] {
        ListsBelow(xs[1..], ys[1..]);
      } else {
        IdsBelow(xs[0], ys[0]);
      }
    }
  }

  /** The comparison is the order of the standard. */
  lemma {:induction false} OrderIsStandard(a: SemVer, b: SemVer)
    ensures Order(a, b) < 0 <==> Precedes(a, b)
  {
    hide ListBelow, CompareLists;
    ListsBelow(a.prerelease, b.prerelease);
  }

  /** `compareVersions`. */
  method CompareVersions(a: SemVer, b: SemVer) returns (r: int)
    ensures r == Order(a, b)
  {
    if a.major != b.major {
      return if a.major > b.major then 1 else -1;
    }
    if a.minor != b.minor {
      return if a.minor > b.minor then 1 else -1;
    }
    if a.patch != b.patch {
      return if a.patch > b.patch then 1 else -1;
    }
    var xs, ys := a.prerelease, b.prerelease;
    if |xs| == 0 || |ys| == 0 {
      return if |xs| == |ys| then 0 else if |xs| != 0 then -1 else 1;
    }
    var i := 0;
    while i < |xs| || i < |ys|
      invariant i <= |xs| && i <= |ys| && CompareLists(xs, ys) == CompareLists(xs[i..], ys[i..])
      decreases |xs| + |ys| - i
    {
      if i >= |xs| || i >= |ys| {
        return if i >= |xs| then -1 else 1;
      }
      var x, y := xs[i], ys[i];
      assert xs[i..][1..] == xs[i + 1..] && ys[i..][1..] == ys[i + 1..];
      if x != y {
        return CompareIds(x, y);
      }
      i := i + 1;
    }
    r := 0;
  }
}
