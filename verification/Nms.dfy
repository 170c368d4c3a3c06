/** Greedy non-maximum suppression, for any boxes and any ranking by falling score. */
module Nms {
  import opened RealMath

  datatype Box = Box(x1: real, y1: real, x2: real, y2: real)

  predicate Proper(b: Box) { b.x1 <= b.x2 && b.y1 <= b.y2 }

  const TINY: real := 0.000000000001

  function Rect(w: real, h: real): real { w * h }

  function Area(b: Box): real { Rect(b.x2 - b.x1, b.y2 - b.y1) }

  function Inter(a: Box, b: Box): real {
    Rect(Max(0.0, Min(a.x2, b.x2) - Max(a.x1, b.x1)), Max(0.0, Min(a.y2, b.y2) - Max(a.y1, b.y1)))
  }

  function Union(a: Box, b: Box): real { Area(a) + Area(b) - Inter(a, b) + TINY }

  lemma Nested(w: real, h: real, w': real, h': real)
    requires 0.0 <= w <= w' && 0.0 <= h <= h'
    ensures 0.0 <= Rect(w, h) <= Rect(w', h')
  {}

  /** Proper boxes never divide by zero. */
  lemma UnionPositive(a: Box, b: Box)
    requires Proper(a) && Proper(b)
    ensures Union(a, b) > 0.0
  {
    hide Rect;
    var w, h := Max(0.0, Min(a.x2, b.x2) - Max(a.x1, b.x1)), Max(0.0, Min(a.y2, b.y2) - Max(a.y1, b.y1));
    Nested(w, h, a.x2 - a.x1, a.y2 - a.y1);
    Nested(w, h, b.x2 - b.x1, b.y2 - b.y1);
  }

  function Iou(a: Box, b: Box): real
    requires Union(a, b) != 0.0
  {
    Inter(a, b) / Union(a, b)
  }

  /** The overlap does not exceed the threshold. Boxes with crossed corners can divide by
      zero: the quotient is then infinite or no number, and exceeds every threshold. */
  predicate Apart(a: Box, b: Box, thr: real) { Union(a, b) != 0.0 && Iou(a, b) <= thr }

  /** Whether the box at rank `n` is kept: no kept box before it overlaps it too much. */
  ghost predicate Kept(b: seq<Box>, n: nat, thr: real)
    requires n < |b|
    decreases n
  {
    forall m :: 0 <= m < n && Kept(b, m, thr) ==> Apart(b[m], b[n], thr)
  }

  predicate Rising(s: seq<nat>, bound: nat) {
    (forall i, k :: 0 <= i < k < |s| ==> s[i] < s[k]) && (forall i :: 0 <= i < |s| ==> s[i] < bound)
  }

  /** Rank `p` overlaps none of the kept ones too much. */
  predicate Clears(b: seq<Box>, keep: seq<nat>, p: nat, thr: real)
    requires p < |b| && Rising(keep, |b|)
  {
    forall i :: 0 <= i < |keep| ==> Apart(b[keep[i]], b[p], thr)
  }

  /** The ranks of `order` that the box at rank `i` does not suppress, in order. */
  method Filter(b: seq<Box>, order: seq<nat>, i: nat, thr: real) returns (r: seq<nat>)
    requires Rising(order, |b|) && i < |b|
    ensures Rising(r, |b|) && |r| <= |order|
    ensures forall p: nat :: p in r <==> p in order && Apart(b[i], b[p], thr)
  {
    hide Apart;
    r := [];
    for n := 0 to |order|
      invariant Rising(r, |b|) && |r| <= n
      invariant forall p: nat :: p in r <==> p in order[..n] && Apart(b[i], b[p], thr)
      invariant n < |order| ==> forall k :: 0 <= k < |r| ==> r[k] < order[n]
    {
      assert order[..n + 1] == order[..n] + [order[n]];
      if Apart(b[i], b[order[n]], thr) { r := r + [order[n]]; }
    }
    assert order[..|order|] == order;
  }

  /** What the loop knows: below `bound` the kept ranks are those in `keep`, and from there
      on the candidates are those that clear all of `keep`. */
  ghost predicate Split(b: seq<Box>, keep: seq<nat>, order: seq<nat>, bound: nat, thr: real)
  {
    && Rising(keep, |b|) && Rising(order, |b|) && bound <= |b|
    && (forall p: nat :: p < bound ==> (p in keep <==> Kept(b, p, thr)))
    && (forall p: nat :: p in keep ==> p < bound)
    && (forall p: nat :: p in order <==> bound <= p < |b| && Clears(b, keep, p, thr))
  }

  lemma KeptIsClear(b: seq<Box>, keep: seq<nat>, order: seq<nat>, bound: nat, p: nat, thr: real)
    requires Split(b, keep, order, bound, thr) && bound <= p < |b|
    requires forall m: nat :: bound <= m < p ==> !Kept(b, m, thr)
    ensures Kept(b, p, thr) <==> Clears(b, keep, p, thr)
  {
    hide Apart;
    if Clears(b, keep, p, thr) {
      forall m | 0 <= m < p && Kept(b, m, thr) ensures Apart(b[m], b[p], thr) {
        assert m in keep;
      }
    }
    if Kept(b, p, thr) {
      forall i | 0 <= i < |keep| ensures Apart(b[keep[i]], b[p], thr) {
        assert keep[i] in keep;
      }
    }
  }

  lemma {:induction false} GapIsNotKept(b: seq<Box>, keep: seq<nat>, order: seq<nat>, bound: nat, p: nat, thr: real)
    requires Split(b, keep, order, bound, thr)
    requires bound <= p < |b| && (order != [] ==> p < order[0])
    ensures !Kept(b, p, thr)
    decreases p
  {
    hide Apart, Clears;
    forall m: nat | bound <= m < p ensures !Kept(b, m, thr) {
      GapIsNotKept(b, keep, order, bound, m, thr);
    }
    hide Kept;
    KeptIsClear(b, keep, order, bound, p, thr);
    assert p !in order;
  }

  lemma FirstIsKept(b: seq<Box>, keep: seq<nat>, order: seq<nat>, bound: nat, thr: real)
    requires Split(b, keep, order, bound, thr) && order != []
    ensures Kept(b, order[0], thr) && bound <= order[0] && Clears(b, keep, order[0], thr)
  {
    hide Apart, Clears, Kept;
    assert order[0] in order;
    forall m: nat | bound <= m < order[0] ensures !Kept(b, m, thr) {
      GapIsNotKept(b, keep, order, bound, m, thr);
    }
    KeptIsClear(b, keep, order, bound, order[0], thr);
  }

  lemma ClearsOneMore(b: seq<Box>, keep: seq<nat>, i: nat, p: nat, thr: real)
    requires p < |b| && i < |b| && Rising(keep, |b|) && Rising(keep + [i], |b|)
    ensures Clears(b, keep + [i], p, thr) <==> Clears(b, keep, p, thr) && Apart(b[i], b[p], thr)
  {
    hide Apart;
    var more := keep + [i];
    if Clears(b, more, p, thr) {
      assert more[|keep|] == i;
      forall k | 0 <= k < |keep| ensures Apart(b[keep[k]], b[p], thr) { assert more[k] == keep[k]; }
    }
  }

  lemma SplitStep(b: seq<Box>, keep: seq<nat>, order: seq<nat>, bound: nat, left: seq<nat>, thr: real)
    requires Split(b, keep, order, bound, thr) && order != [] && Rising(left, |b|)
    requires forall p: nat :: p in left <==> p in order[1..] && Apart(b[order[0]], b[p], thr)
    ensures Split(b, keep + [order[0]], left, order[0] + 1, thr)
  {
    var i := order[0];
    FirstIsKept(b, keep, order, bound, thr);
    hide Apart, Kept, Clears;
    forall k | 0 <= k < |keep| ensures keep[k] < i { assert keep[k] in keep; }
    forall p: nat | p < i + 1 ensures p in keep + [i] <==> Kept(b, p, thr) {
      if bound <= p < i { GapIsNotKept(b, keep, order, bound, p, thr); }
    }
    forall p: nat ensures p in left <==> i + 1 <= p < |b| && Clears(b, keep + [i], p, thr) {
      if p < |b| { ClearsOneMore(b, keep, i, p, thr); }
      TailIsAbove(order, p, |b|);
    }
  }

  lemma TailIsAbove(order: seq<nat>, p: nat, bound: nat)
    requires Rising(order, bound) && order != []
    ensures p in order[1..] <==> p in order && p > order[0]
  {}

  /** Greedy suppression keeps exactly the ranks that no kept rank before them suppresses:
      kept boxes overlap pairwise by at most the threshold, and each dropped box overlaps
      a kept box before it by more. */
  method Suppress(b: seq<Box>, thr: real) returns (keep: seq<nat>)
    ensures Rising(keep, |b|)
    ensures forall p: nat :: p < |b| ==> (p in keep <==> Kept(b, p, thr))
    ensures forall i, k :: 0 <= i < k < |keep| ==> Apart(b[keep[i]], b[keep[k]], thr)
    ensures forall p: nat :: p < |b| && p !in keep ==> exists m: nat :: m in keep && m < p && !Apart(b[m], b[p], thr)
  {
    var order: seq<nat> := seq(|b|, n requires 0 <= n => n);
    keep := [];
    ghost var bound: nat := 0;
    forall p: nat ensures p in order <==> p < |b| {
      if p < |b| { assert order[p] == p; }
    }
    while order != []
      invariant Split(b, keep, order, bound, thr)
      decreases |order|
    {
      hide Split, Kept, Apart;
      SplitFacts(b, keep, order, bound, thr);
      var i := order[0];
      var left := Filter(b, order[1..], i, thr);
      SplitStep(b, keep, order, bound, left, thr);
      keep := keep + [i];
      order := left;
      bound := i + 1;
    }
    hide Apart;
    forall p: nat | bound <= p < |b| ensures !Kept(b, p, thr) && p !in keep {
      GapIsNotKept(b, keep, order, bound, p, thr);
    }
    forall i, k | 0 <= i < k < |keep| ensures Apart(b[keep[i]], b[keep[k]], thr) {
      assert keep[i] in keep && keep[k] in keep;
    }
  }

  /** What sorting gives: every box once, by falling score. Equal scores may come in any
      order. */
  ghost predicate IsRanking(order: seq<nat>, scores: seq<real>) {
    && |order| == |scores|
    && (forall i :: 0 <= i < |order| ==> order[i] < |scores|)
    && (forall i, k :: 0 <= i < k < |order| ==> order[i] != order[k] && scores[order[i]] >= scores[order[k]])
    && (forall p: nat :: p < |scores| ==> p in order)
  }

  /** The whole operation: the boxes kept, best first, do not overlap each other too much,
      and each box dropped overlaps one kept that scores at least as high. */
  method KeepBest(boxes: seq<Box>, scores: seq<real>, order: seq<nat>, thr: real) returns (keep: seq<nat>)
    requires |boxes| == |scores| && IsRanking(order, scores)
    ensures forall i :: 0 <= i < |keep| ==> keep[i] < |boxes|
    ensures forall i, k :: 0 <= i < k < |keep| ==>
              keep[i] != keep[k] && scores[keep[i]] >= scores[keep[k]] && Apart(boxes[keep[i]], boxes[keep[k]], thr)
    ensures forall p: nat :: p < |boxes| && p !in keep ==>
              exists m: nat :: m in keep && scores[m] >= scores[p] && !Apart(boxes[m], boxes[p], thr)
  {
    hide Apart, Kept;
    var ranked := seq(|order|, n requires 0 <= n < |order| => boxes[order[n]]);
    var ranks := Suppress(ranked, thr);
    keep := seq(|ranks|, n requires 0 <= n < |ranks| => order[ranks[n]]);
    forall p: nat | p < |boxes| && p !in keep
      ensures exists m: nat :: m in keep && scores[m] >= scores[p] && !Apart(boxes[m], boxes[p], thr)
    {
      Covered(boxes, scores, order, ranked, ranks, keep, thr, p);
    }
    hide IsRanking;
    forall i, k | 0 <= i < k < |keep|
      ensures keep[i] != keep[k] && scores[keep[i]] >= scores[keep[k]] && Apart(boxes[keep[i]], boxes[keep[k]], thr)
    {
      ScoresFall(order, scores, ranks[i], ranks[k]);
    }
  }

  lemma Covered(boxes: seq<Box>, scores: seq<real>, order: seq<nat>, ranked: seq<Box>, ranks: seq<nat>,
                keep: seq<nat>, thr: real, p: nat)
    requires |boxes| == |scores| == |ranked| && IsRanking(order, scores) && p < |boxes| && p !in keep
    requires forall n :: 0 <= n < |order| ==> ranked[n] == boxes[order[n]]
    requires (forall k :: 0 <= k < |ranks| ==> ranks[k] < |order|)
    requires |keep| == |ranks| && forall k :: 0 <= k < |keep| ==> keep[k] == order[ranks[k]]
    requires forall n: nat :: n < |ranked| && n !in ranks ==>
               exists m: nat :: m in ranks && m < n && !Apart(ranked[m], ranked[n], thr)
    ensures exists m: nat :: m in keep && m < |boxes| && scores[m] >= scores[p] && !Apart(boxes[m], boxes[p], thr)
  {
    hide Apart;
    assert p in order;
    var n :| 0 <= n < |order| && order[n] == p;
    hide IsRanking;
    RanksOfKept(order, ranks, keep, n);
    var better: nat :| better in ranks && better < n && !Apart(ranked[better], ranked[n], thr);
    RanksOfKept(order, ranks, keep, better);
    ScoresFall(order, scores, better, n);
  }

  lemma ScoresFall(order: seq<nat>, scores: seq<real>, i: nat, k: nat)
    requires IsRanking(order, scores) && i < k < |order|
    ensures order[i] < |scores| && order[k] < |scores|
    ensures order[i] != order[k] && scores[order[i]] >= scores[order[k]]
  {}

  lemma RanksOfKept(order: seq<nat>, ranks: seq<nat>, keep: seq<nat>, n: nat)
    requires (forall k :: 0 <= k < |ranks| ==> ranks[k] < |order|) && n < |order|
    requires |keep| == |ranks| && forall k :: 0 <= k < |keep| ==> keep[k] == order[ranks[k]]
    ensures n in ranks ==> order[n] in keep
  {
    if n in ranks {
      var k :| 0 <= k < |ranks| && ranks[k] == n;
      assert keep[k] == order[n];
    }
  }

  lemma SplitFacts(b: seq<Box>, keep: seq<nat>, order: seq<nat>, bound: nat, thr: real)
    requires Split(b, keep, order, bound, thr)
    ensures Rising(order, |b|) && (order != [] ==> order[0] < |b| && Rising(order[1..], |b|))
  {}
}
