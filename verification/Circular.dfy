/** Angles in degrees: distance on the circle, the medoid, and the median deviation. */
module Circular {
  import opened RealMath

  function Turned(a: real, k: int): real { a + 360.0 * k as real }

  /** The difference of two angles after some full turns. */
  function Apart(a: real, b: real, k: int): real { Turned(a - b, k) }

  /** `circular_distance_deg` */
  function Distance(a: real, b: real): real {
    Abs(Modulo(a - b + 180.0, 360.0) - 180.0)
  }

  // ----- a metric modulo a full turn ----------------------------------------------

  /** The distance is the difference after some number of full turns, and no number of
      turns makes the difference smaller. */
  lemma DistanceIsShortest(a: real, b: real) returns (k: int)
    ensures Distance(a, b) == Abs(Apart(a, b, k)) <= 180.0
    ensures forall n: int :: Distance(a, b) <= Abs(Apart(a, b, n))
  {
    var x := a - b + 180.0;
    k := -Over(x, 360.0).Floor;
    assert Modulo(x, 360.0) == Turned(x, k);
    assert -180.0 <= Apart(a, b, k) < 180.0;
    forall n: int ensures Distance(a, b) <= Abs(Apart(a, b, n)) {
      OtherTurn(a - b, k, n);
    }
  }

  lemma OtherTurn(d: real, k: int, n: int)
    requires -180.0 <= Turned(d, k) < 180.0
    ensures Abs(Turned(d, k)) <= Abs(Turned(d, n))
  {
    assert Turned(d, n) == Turned(d, k) + 360.0 * (n - k) as real;
    if n > k { assert (n - k) as real >= 1.0; }
    if n < k { assert (n - k) as real <= -1.0; }
  }

  lemma Symmetric(a: real, b: real)
    ensures Distance(a, b) == Distance(b, a)
  {
    var k := DistanceIsShortest(a, b);
    var n := DistanceIsShortest(b, a);
    assert Apart(b, a, -k) == -Apart(a, b, k);
    assert Apart(a, b, -n) == -Apart(b, a, n);
    hide Distance, Apart;
  }

  lemma Triangle(a: real, b: real, c: real)
    ensures Distance(a, c) <= Distance(a, b) + Distance(b, c)
  {
    var k := DistanceIsShortest(a, b);
    var m := DistanceIsShortest(b, c);
    var n := DistanceIsShortest(a, c);
    assert Apart(a, c, k + m) == Apart(a, b, k) + Apart(b, c, m);
    hide Distance, Apart;
    assert Distance(a, c) <= Abs(Apart(a, c, k + m));
  }

  /** Two angles are at distance zero exactly when they are whole turns apart. */
  lemma ZeroIff(a: real, b: real)
    ensures Distance(a, b) == 0.0 <==> exists k: int :: Apart(a, b, k) == 0.0
  {
    var n := DistanceIsShortest(a, b);
    hide Distance, Apart;
    if k: int :| Apart(a, b, k) == 0.0 {
      assert Distance(a, b) <= Abs(Apart(a, b, k));
    }
  }

  /** Whole turns, and rotating both angles, change nothing. */
  lemma Rotated(a: real, b: real, r: real, k: int, n: int)
    ensures Distance(Turned(a + r, k), Turned(b + r, n)) == Distance(a, b)
  {
    var x := DistanceIsShortest(a, b);
    var a', b' := Turned(a + r, k), Turned(b + r, n);
    var y := DistanceIsShortest(a', b');
    assert Apart(a', b', x - k + n) == Apart(a, b, x);
    assert Apart(a, b, y + k - n) == Apart(a', b', y);
    hide Distance, Apart, Turned;
    assert Distance(a', b') <= Abs(Apart(a', b', x - k + n));
    assert Distance(a, b) <= Abs(Apart(a, b, y + k - n));
  }

  // ----- the medoid ---------------------------------------------------------------

  function Total(s: seq<real>, x: real): (t: real)
    ensures t >= 0.0
  {
    if s == [] then 0.0 else Total(s[..|s| - 1], x) + Distance(x, s[|s| - 1])
  }

  /** The first index whose angle has the least total distance. */
  function Best(s: seq<real>, n: nat): (i: nat)
    requires 0 < n <= |s|
    ensures i < n
  {
    if n == 1 then 0
    else
      var i := Best(s, n - 1);
      if Total(s, s[n - 1]) < Total(s, s[i]) then n - 1 else i
  }

  lemma {:induction false} BestIsFirstLeast(s: seq<real>, n: nat, k: nat)
    requires 0 < n <= |s| && k < n
    ensures Total(s, s[Best(s, n)]) <= Total(s, s[k])
    ensures k < Best(s, n) ==> Total(s, s[Best(s, n)]) < Total(s, s[k])
  {
    if n > 1 {
      if k < n - 1 { BestIsFirstLeast(s, n - 1, k); }
      hide Total;
    }
  }

  lemma {:induction false} TotalAtMostTwice(s: seq<real>, x: real, y: real)
    requires forall i :: 0 <= i < |s| ==> Distance(x, s[i]) <= 2.0 * Distance(y, s[i])
    ensures Total(s, x) <= 2.0 * Total(s, y)
  {
    hide Distance;
    if s != [] {
      var n := |s| - 1;
      assert forall i :: 0 <= i < n ==> s[..n][i] == s[i];
      TotalAtMostTwice(s[..n], x, y);
    }
  }

  lemma {:induction false} TotalsEqual(s: seq<real>, x: real, t: seq<real>, y: real)
    requires |s| == |t| && forall i :: 0 <= i < |s| ==> Distance(x, s[i]) == Distance(y, t[i])
    ensures Total(s, x) == Total(t, y)
  {
    hide Distance;
    if s != [] {
      var n := |s| - 1;
      assert forall i :: 0 <= i < n ==> s[..n][i] == s[i] && t[..n][i] == t[i];
      TotalsEqual(s[..n], x, t[..n], y);
    }
  }

  function Nearest(s: seq<real>, x: real): (i: nat)
    requires s != []
    ensures i < |s| && forall k :: 0 <= k < |s| ==> Distance(x, s[i]) <= Distance(x, s[k])
  {
    var n := |s| - 1;
    if n == 0 then 0
    else
      var i := Nearest(s[..n], x);
      assert forall k :: 0 <= k < n ==> s[..n][k] == s[k];
      if Distance(x, s[n]) < Distance(x, s[i]) then n else i
  }

  function Medoid(s: seq<real>): real
    requires s != []
  {
    s[Best(s, |s|)]
  }

  /** The medoid's total distance is the least among the samples, and at most twice that
      of any angle whatsoever. */
  lemma MedoidIsGood(s: seq<real>, x: real)
    requires s != []
    ensures forall k :: 0 <= k < |s| ==> Total(s, Medoid(s)) <= Total(s, s[k])
    ensures Total(s, Medoid(s)) <= 2.0 * Total(s, x)
  {
    forall k | 0 <= k < |s| ensures Total(s, Medoid(s)) <= Total(s, s[k]) { BestIsFirstLeast(s, |s|, k); }
    TotalOfNearest(s, x);
    hide Distance, Total;
    BestIsFirstLeast(s, |s|, Nearest(s, x));
  }

  lemma TotalOfNearest(s: seq<real>, x: real)
    requires s != []
    ensures Total(s, s[Nearest(s, x)]) <= 2.0 * Total(s, x)
  {
    var i := Nearest(s, x);
    hide Distance, Total, Nearest;
    forall k | 0 <= k < |s| ensures Distance(s[i], s[k]) <= 2.0 * Distance(x, s[k]) {
      Triangle(s[i], x, s[k]);
      Symmetric(s[i], x);
    }
    TotalAtMostTwice(s, s[i], x);
  }

  /** Samples with the same pairwise distances. */
  predicate Congruent(s: seq<real>, t: seq<real>) {
    |s| == |t| && forall i, k :: 0 <= i < |s| && 0 <= k < |s| ==> Distance(s[i], s[k]) == Distance(t[i], t[k])
  }

  lemma {:induction false} CongruentChoice(s: seq<real>, t: seq<real>, n: nat)
    requires Congruent(s, t) && |s| == |t| && 0 < n <= |s|
    ensures Best(s, n) == Best(t, n)
  {
    hide Total, Congruent;
    if n > 1 {
      CongruentChoice(s, t, n - 1);
      CongruentTotals(s, t, n - 1);
      CongruentTotals(s, t, Best(s, n - 1));
    }
  }

  lemma CongruentTotals(s: seq<real>, t: seq<real>, i: nat)
    requires Congruent(s, t) && |s| == |t| && i < |s|
    ensures Total(s, s[i]) == Total(t, t[i])
  {
    hide Distance, Total;
    TotalsEqual(s, s[i], t, t[i]);
  }

  /** Rotating all samples by one angle selects the same sample. */
  lemma MedoidRotates(s: seq<real>, t: seq<real>, r: real)
    requires s != [] && |t| == |s| && forall i :: 0 <= i < |s| ==> t[i] == Modulo(s[i] + r, 360.0)
    ensures Best(s, |s|) == Best(t, |t|)
  {
    forall i, k | 0 <= i < |s| && 0 <= k < |s| ensures Distance(s[i], s[k]) == Distance(t[i], t[k]) {
      var x, y := Over(s[i] + r, 360.0).Floor, Over(s[k] + r, 360.0).Floor;
      assert t[i] == Turned(s[i] + r, -x) && t[k] == Turned(s[k] + r, -y);
      hide Modulo, Distance;
      Rotated(s[i], s[k], r, -x, -y);
    }
    hide Distance, Modulo;
    CongruentChoice(s, t, |s|);
  }

  datatype Picked = Angle(value: real) | InvalidSamples

  predicate Degrees(s: seq<real>) { forall i :: 0 <= i < |s| ==> 0.0 <= s[i] < 360.0 }

  method CircularMedoid(s: seq<real>) returns (r: Picked)
    ensures r == if s == [] || !Degrees(s) then InvalidSamples else Angle(Medoid(s))
  {
    hide Total;
    if s == [] || !Degrees(s) { return InvalidSamples; }
    var best := 0;
    for n := 1 to |s|
      invariant best == Best(s, n)
    {
      var total := SumDistances(s, s[n]);
      var least := SumDistances(s, s[best]);
      if total < least { best := n; }
    }
    return Angle(s[best]);
  }

  method SumDistances(s: seq<real>, x: real) returns (t: real)
    ensures t == Total(s, x)
  {
    t := 0.0;
    for i := 0 to |s|
      invariant t == Total(s[..i], x)
    {
      assert s[..i + 1][..i] == s[..i];
      t := t + Distance(x, s[i]);
    }
    assert s[..|s|] == s;
  }

  // ----- the median deviation -----------------------------------------------------

  function Sorted(s: seq<real>): (t: seq<real>)
    ensures |t| == |s|
  {
    if s == [] then [] else Insert(s[0], Sorted(s[1..]))
  }

  function Insert(x: real, s: seq<real>): (t: seq<real>)
    ensures |t| == |s| + 1
  {
    if s == [] || x <= s[0] then [x] + s else [s[0]] + Insert(x, s[1..])
  }

  /** `statistics.median` */
  function Median(s: seq<real>): real
    requires s != []
  {
    var t, n := Sorted(s), |s|;
    if n % 2 == 1 then t[n / 2] else (t[n / 2 - 1] + t[n / 2]) / 2.0
  }

  function Deviations(s: seq<real>, center: real): (d: seq<real>)
    ensures |d| == |s| && forall i :: 0 <= i < |s| ==> d[i] == Distance(s[i], center)
  {
    seq(|s|, i requires 0 <= i < |s| => Distance(s[i], center))
  }

  predicate Ascending(s: seq<real>) { forall i, k :: 0 <= i < k < |s| ==> s[i] <= s[k] }

  /** How many values are at most `b`. */
  function CountAtMost(s: seq<real>, b: real): (n: nat)
    ensures n <= |s|
  {
    if s == [] then 0 else (if s[0] <= b then 1 else 0) + CountAtMost(s[1..], b)
  }

  lemma {:induction false} InsertCounts(x: real, s: seq<real>, b: real)
    requires Ascending(s)
    ensures Ascending(Insert(x, s)) && (Insert(x, s)[0] == x || (s != [] && Insert(x, s)[0] == s[0] <= x))
    ensures CountAtMost(Insert(x, s), b) == CountAtMost(s, b) + if x <= b then 1 else 0
  {
    if s == [] || x <= s[0] {
      assert ([x] + s)[1..] == s;
    } else {
      InsertCounts(x, s[1..], b);
      assert ([s[0]] + Insert(x, s[1..]))[1..] == Insert(x, s[1..]);
      assert s[0] <= Insert(x, s[1..])[0];
    }
  }

  lemma {:induction false} SortedCounts(s: seq<real>, b: real)
    ensures Ascending(Sorted(s)) && CountAtMost(Sorted(s), b) == CountAtMost(s, b)
  {
    if s != [] {
      SortedCounts(s[1..], b);
      InsertCounts(s[0], Sorted(s[1..]), b);
      hide Ascending;
    }
  }

  lemma {:induction false} AscendingCount(s: seq<real>, k: nat, b: real)
    requires Ascending(s) && k < |s| && s[k] <= b
    ensures CountAtMost(s, b) >= k + 1
  {
    assert s[0] <= s[k];
    if k > 0 { AscendingCount(s[1..], k - 1, b); }
  }

  /** A median of at most `b` means that at least half of the values are at most `b`. */
  lemma MedianCovers(s: seq<real>, b: real)
    requires s != [] && Median(s) <= b
    ensures 2 * CountAtMost(s, b) >= |s|
  {
    var t, n := Sorted(s), |s|;
    SortedCounts(s, b);
    if n % 2 == 0 { assert t[n / 2 - 1] <= t[n / 2]; }
    AscendingCount(t, if n % 2 == 1 then n / 2 else n / 2 - 1, b);
  }

  /** The value that stands at place `k` when all are put in order. */
  ghost predicate Ranks(s: seq<real>, x: real, k: nat) {
    k < CountAtMost(s, x) && forall b: real | b < x :: CountAtMost(s, b) <= k
  }

  lemma {:induction false} CountBelowPlace(s: seq<real>, k: nat, b: real)
    requires Ascending(s) && k < |s| && b < s[k]
    ensures CountAtMost(s, b) <= k
  {
    if k > 0 { CountBelowPlace(s[1..], k - 1, b); } else { NoneAtMost(s, b); }
  }

  lemma {:induction false} NoneAtMost(s: seq<real>, b: real)
    requires Ascending(s) && (s != [] ==> b < s[0])
    ensures CountAtMost(s, b) == 0
  {
    if s != [] {
      if |s| > 1 { assert s[0] <= s[1]; }
      NoneAtMost(s[1..], b);
    }
  }

  lemma PlaceRanks(s: seq<real>, k: nat)
    requires k < |s|
    ensures |Sorted(s)| == |s| && Ranks(s, Sorted(s)[k], k)
  {
    var t := Sorted(s);
    SortedCounts(s, t[k]);
    AscendingCount(t, k, t[k]);
    forall b: real | b < t[k] ensures CountAtMost(s, b) <= k {
      SortedCounts(s, b);
      CountBelowPlace(t, k, b);
    }
  }

  lemma RanksUniquely(s: seq<real>, x: real, y: real, k: nat)
    requires Ranks(s, x, k) && Ranks(s, y, k)
    ensures x == y
  {}

  /** The median is the mean of the two values in the middle, which are one for an odd
      number of values. */
  lemma MedianIsMiddle(s: seq<real>, low: real, high: real)
    requires s != [] && Ranks(s, low, (|s| - 1) / 2) && Ranks(s, high, |s| / 2)
    ensures Median(s) == (low + high) / 2.0
  {
    var n := |s|;
    PlaceRanks(s, (n - 1) / 2);
    PlaceRanks(s, n / 2);
    RanksUniquely(s, low, Sorted(s)[(n - 1) / 2], (n - 1) / 2);
    RanksUniquely(s, high, Sorted(s)[n / 2], n / 2);
  }
}
