/** The blender: layer outputs composited low priority first. With a yaw anchor set,
    the blended yaw stays inside the safe interval. */
module Blender {
  import opened Poses
  import opened RealMath

  datatype LayerOutput = LayerOutput(value: Pose, weight: Pose, gain: real, additive: bool)

  const NOTHING: Pose := [0.0, 0.0, 0.0, 0.0, 0.0]

  const INACTIVE := LayerOutput(NOTHING, NOTHING, 0.0, true)

  predicate Whole(o: LayerOutput) { |o.value| == |o.weight| == NJ }

  /** How hard an output claims joint `j`. */
  function Alpha(o: LayerOutput, j: nat): (a: real)
    requires Whole(o) && j < NJ
    ensures 0.0 <= a <= 1.0
  {
    AlphaInUnit(Clip(o.gain, 0.0, 1.0), Clip(o.weight[j], 0.0, 1.0));
    Clip(o.gain, 0.0, 1.0) * Clip(o.weight[j], 0.0, 1.0)
  }

  lemma AlphaInUnit(x: real, y: real)
    requires 0.0 <= x <= 1.0 && 0.0 <= y <= 1.0
    ensures 0.0 <= x * y <= 1.0
  {
    MulSign(x, y);
    MulSign(x, 1.0 - y);
    assert x * (1.0 - y) == x - x * y;
  }

  function Laid(q: real, v: real, a: real, additive: bool): real {
    if additive then q + Scaled(v, a) else Scaled(q, 1.0 - a) + Scaled(v, a)
  }

  function BlendOne(q: Pose, o: LayerOutput): (r: Pose)
    requires |q| == NJ && Whole(o)
    ensures |r| == NJ
  {
    seq(NJ, j requires 0 <= j < NJ => Laid(q[j], o.value[j], Alpha(o, j), o.additive))
  }

  function BlendAll(q: Pose, outs: seq<LayerOutput>): (r: Pose)
    requires |q| == NJ && forall i :: 0 <= i < |outs| ==> Whole(outs[i])
    ensures |r| == NJ
  {
    if outs == [] then q
    else BlendOne(BlendAll(q, outs[..|outs| - 1]), outs[|outs| - 1])
  }

  lemma NoClaim(q: Pose, o: LayerOutput)
    requires |q| == NJ && Whole(o) && forall j :: 0 <= j < NJ ==> Alpha(o, j) == 0.0
    ensures BlendOne(q, o) == q
  {}

  /** An absolute layer draws a joint from where it is towards its own value, by the share
      that it claims; an additive one moves it by that share of its value. */
  lemma LayerMoves(q: Pose, o: LayerOutput, j: nat)
    requires |q| == NJ && Whole(o) && j < NJ
    ensures var r, a := BlendOne(q, o)[j], Alpha(o, j);
            && (!o.additive ==> r == Mix(q[j], o.value[j], a) && Min(q[j], o.value[j]) <= r <= Max(q[j], o.value[j]))
            && (!o.additive && a == 1.0 ==> r == o.value[j])
            && (o.additive ==> r - q[j] == Scaled(o.value[j], a))
            && (a == 0.0 ==> r == q[j])
  {
    var a := Alpha(o, j);
    LaidIsMix(q[j], o.value[j], a);
    MixInHull(q[j], o.value[j], a, Min(q[j], o.value[j]), Max(q[j], o.value[j]));
    MixEnds(q[j], o.value[j]);
    hide Alpha, Mix;
  }

  lemma LaidIsMix(q: real, v: real, a: real)
    ensures Laid(q, v, a, false) == Mix(q, v, a)
    ensures a == 0.0 ==> Laid(q, v, a, true) == q
  {}

  /** With a gain nearer to another by `d` a layer moves a joint by at most that share of the
      way more or less. */
  lemma GainMoves(q: Pose, o: LayerOutput, gain: real, j: nat)
    requires |q| == NJ && Whole(o) && j < NJ && 0.0 <= o.gain <= gain <= 1.0
    ensures var r, r' := BlendOne(q, o)[j], BlendOne(q, o.(gain := gain))[j];
            var way := if o.additive then o.value[j] else o.value[j] - q[j];
            Abs(r' - r) <= Scaled(Abs(way), gain - o.gain)
  {
    hide Alpha, Clip, Laid, Scaled, BlendOne, Abs;
    var w := Clip(o.weight[j], 0.0, 1.0);
    var a, b := Alpha(o, j), Alpha(o.(gain := gain), j);
    AlphaIs(o, j);
    AlphaIs(o.(gain := gain), j);
    LayerIs(q, o, j);
    LayerIs(q, o.(gain := gain), j);
    ClipInUnit(o.weight[j]);
    LaidMoves(q[j], o.value[j], a, b, o.additive);
    ShareMoves(if o.additive then o.value[j] else o.value[j] - q[j], o.gain, gain, w, a, b,
               BlendOne(q, o.(gain := gain))[j] - BlendOne(q, o)[j]);
  }

  lemma ClipInUnit(x: real)
    ensures 0.0 <= Clip(x, 0.0, 1.0) <= 1.0
  {}

  lemma LayerIs(q: Pose, o: LayerOutput, j: nat)
    requires |q| == NJ && Whole(o) && j < NJ
    ensures BlendOne(q, o)[j] == Laid(q[j], o.value[j], Alpha(o, j), o.additive)
  {}

  lemma AlphaIs(o: LayerOutput, j: nat)
    requires Whole(o) && j < NJ && 0.0 <= o.gain <= 1.0
    ensures Alpha(o, j) == o.gain * Clip(o.weight[j], 0.0, 1.0)
  {}

  lemma LaidMoves(q: real, v: real, a: real, b: real, additive: bool)
    ensures var way := if additive then v else v - q;
            Laid(q, v, b, additive) - Laid(q, v, a, additive) == way * b - way * a
  {
    if !additive {
      assert (v - q) * b == v * b - q * b && (v - q) * a == v * a - q * a;
      assert q * (1.0 - b) == q - q * b && q * (1.0 - a) == q - q * a;
    }
  }

  lemma ShareMoves(way: real, g: real, h: real, w: real, a: real, b: real, moved: real)
    requires g <= h && 0.0 <= w <= 1.0 && a == g * w && b == h * w && moved == way * b - way * a
    ensures Abs(moved) <= Scaled(Abs(way), h - g)
  {
    Distribute(h, g, w);
    Distribute(b, a, way);
    PartOfUnit(h - g, w);
    MulMono(b - a, h - g, Abs(way));
    AbsTimes(way, b - a);
  }

  lemma PartOfUnit(x: real, w: real)
    requires x >= 0.0 && 0.0 <= w <= 1.0
    ensures 0.0 <= x * w <= x
  {
    MulMono(w, 1.0, x);
    MulSign(x, w);
  }

  lemma Distribute(x: real, y: real, z: real)
    ensures (x - y) * z == x * z - y * z && z * (x - y) == z * x - z * y
  {}

  lemma AbsTimes(x: real, c: real)
    requires c >= 0.0
    ensures Abs(x * c) == Abs(x) * c
  {
    if x >= 0.0 { MulSign(x, c); } else {
      MulSign(-x, c);
      assert (-x) * c == -(x * c);
    }
  }

  /** The layer claims nothing of the joint, or draws it into the interval. */
  predicate Draws(o: LayerOutput, j: nat, lo: real, hi: real)
    requires j < NJ
  {
    Whole(o) && (Alpha(o, j) == 0.0 || (!o.additive && lo <= o.value[j] <= hi))
  }

  /** A joint stays among the values of the layers that claim any of it, if none is additive. */
  lemma {:induction false} BlendInHull(rest: Pose, outs: seq<LayerOutput>, j: nat, lo: real, hi: real)
    requires |rest| == NJ && j < NJ && (forall i :: 0 <= i < |outs| ==> Whole(outs[i])) && lo <= rest[j] <= hi
    requires forall i :: 0 <= i < |outs| ==> Draws(outs[i], j, lo, hi)
    ensures lo <= BlendAll(rest, outs)[j] <= hi
  {
    if outs != [] {
      var n := |outs| - 1;
      BlendInHull(rest, outs[..n], j, lo, hi);
      LayerMoves(BlendAll(rest, outs[..n]), outs[n], j);
      hide Alpha, BlendOne, Mix;
    }
  }

  /** Nothing below a layer that claims a joint whole matters for it. */
  lemma {:induction false} WholeClaimHides(rest: Pose, rest': Pose, below: seq<LayerOutput>, below': seq<LayerOutput>,
      o: LayerOutput, above: seq<LayerOutput>, j: nat)
    requires |rest| == |rest'| == NJ && j < NJ && Whole(o) && !o.additive && Alpha(o, j) == 1.0
    requires (forall i :: 0 <= i < |below| ==> Whole(below[i])) && (forall i :: 0 <= i < |below'| ==> Whole(below'[i]))
    requires forall i :: 0 <= i < |above| ==> Whole(above[i])
    ensures BlendAll(rest, below + [o] + above)[j] == BlendAll(rest', below' + [o] + above)[j]
    ensures above == [] ==> BlendAll(rest, below + [o] + above)[j] == o.value[j]
  {
    var x, y := below + [o] + above, below' + [o] + above;
    if above == [] {
      assert x[..|x| - 1] == below && y[..|y| - 1] == below' && x[|x| - 1] == o == y[|y| - 1];
      LayerMoves(BlendAll(rest, below), o, j);
      LayerMoves(BlendAll(rest', below'), o, j);
    } else {
      var n := |above| - 1;
      assert x[..|x| - 1] == below + [o] + above[..n] && y[..|y| - 1] == below' + [o] + above[..n];
      assert x[|x| - 1] == above[n] == y[|y| - 1];
      WholeClaimHides(rest, rest', below, below', o, above[..n], j);
    }
    hide Alpha, BlendOne, Mix;
  }

  /** One output per layer, in the order of the layers; a layer that claims nothing is
      skipped. */
  method Compute(rest: Pose, outs: seq<LayerOutput>) returns (q: Pose)
    requires |rest| == NJ && forall i :: 0 <= i < |outs| ==> Whole(outs[i])
    ensures q == BlendAll(rest, outs)
  {
    q := rest;
    for i := 0 to |outs|
      invariant q == BlendAll(rest, outs[..i])
    {
      var o := outs[i];
      assert outs[..i + 1][..i] == outs[..i];
      if forall j :: 0 <= j < NJ ==> Alpha(o, j) == 0.0 {
        NoClaim(q, o);
        continue;
      }
      hide Alpha, BlendOne;
      q := BlendOne(q, o);
    }
    assert outs[..|outs|] == outs;
  }

  // ----- the order of the layers --------------------------------------------------

  datatype Layer = Layer(priority: nat, out: LayerOutput)

  /** Python's stable sort, as insertion from the back. */
  function Insert(l: Layer, ls: seq<Layer>): seq<Layer> {
    if ls == [] then [l]
    else if l.priority <= ls[0].priority then [l] + ls
    else [ls[0]] + Insert(l, ls[1..])
  }

  function Sorted(ls: seq<Layer>): seq<Layer> {
    if ls == [] then [] else Insert(ls[0], Sorted(ls[1..]))
  }

  predicate Ordered(ls: seq<Layer>) {
    forall i, j :: 0 <= i < j < |ls| ==> ls[i].priority <= ls[j].priority
  }

  lemma {:induction false} InsertKeepsAll(l: Layer, ls: seq<Layer>)
    ensures multiset(Insert(l, ls)) == multiset(ls) + multiset{l}
  {
    if ls != [] && l.priority > ls[0].priority {
      InsertKeepsAll(l, ls[1..]);
      assert ls == [ls[0]] + ls[1..];
    }
  }

  lemma {:induction false} InsertOrdered(l: Layer, ls: seq<Layer>)
    requires Ordered(ls)
    ensures Ordered(Insert(l, ls))
  {
    if ls != [] && l.priority > ls[0].priority {
      InsertOrdered(l, ls[1..]);
      InsertKeepsAll(l, ls[1..]);
      var tail := Insert(l, ls[1..]);
      forall k | 0 <= k < |tail| ensures ls[0].priority <= tail[k].priority {
        assert tail[k] in multiset(ls[1..]) + multiset{l};
      }
    }
  }

  lemma {:induction false} SortedIsOrdered(ls: seq<Layer>)
    ensures Ordered(Sorted(ls)) && multiset(Sorted(ls)) == multiset(ls)
  {
    if ls != [] {
      SortedIsOrdered(ls[1..]);
      InsertOrdered(ls[0], Sorted(ls[1..]));
      InsertKeepsAll(ls[0], Sorted(ls[1..]));
      assert ls == [ls[0]] + ls[1..];
    }
  }

  // ----- the blended yaw ----------------------------------------------------------

  const ORIENTATION: nat := 15
  const PRIMITIVE: nat := 20

  /** A layer above the anchor that cannot take the yaw out of the safe interval. */
  predicate KeepsYaw(l: Layer, anchor: real, lo: real, hi: real)
    requires Whole(l.out)
  {
    || Alpha(l.out, 0) == 0.0
    || (l.priority == PRIMITIVE && l.out.additive && lo <= anchor + l.out.value[0] <= hi)
    || (l.priority > PRIMITIVE && !l.out.additive && lo <= l.out.value[0] <= hi)
  }

  /** Layers in order, with the anchor at place `o` claiming the whole yaw, one primitive
      at most, and only such layers above. */
  predicate Anchored(ls: seq<Layer>, o: nat, anchor: real, lo: real, hi: real) {
    && o < |ls| && Ordered(ls)
    && (forall i :: 0 <= i < |ls| ==> Whole(ls[i].out))
    && ls[o].priority == ORIENTATION && !ls[o].out.additive
    && ls[o].out.value[0] == anchor && Alpha(ls[o].out, 0) == 1.0
    && (forall i :: o < i < |ls| ==> KeepsYaw(ls[i], anchor, lo, hi))
    && (forall i, j :: o < i < j < |ls| ==> !(ls[i].priority == PRIMITIVE && ls[j].priority == PRIMITIVE))
  }

  function Outs(ls: seq<Layer>): (outs: seq<LayerOutput>)
    ensures |outs| == |ls| && forall i :: 0 <= i < |ls| ==> outs[i] == ls[i].out
  {
    seq(|ls|, i requires 0 <= i < |ls| => ls[i].out)
  }

  lemma LaidOver(q: real, v: real, a: real, additive: bool, lo: real, hi: real)
    requires 0.0 <= a <= 1.0
    ensures a == 0.0 ==> Laid(q, v, a, additive) == q
    ensures a == 1.0 && !additive ==> Laid(q, v, a, additive) == v
    ensures additive && lo <= q <= hi && lo <= q + v <= hi ==> lo <= Laid(q, v, a, additive) <= hi
    ensures !additive && lo <= q <= hi && lo <= v <= hi ==> lo <= Laid(q, v, a, additive) <= hi
  {
    if additive && lo <= q <= hi && lo <= q + v <= hi { MixInHull(q, q + v, a, lo, hi); }
    if !additive && lo <= q <= hi && lo <= v <= hi { MixInHull(q, v, a, lo, hi); }
    assert !additive ==> Laid(q, v, a, additive) == Mix(q, v, a) by { AbsoluteIsMix(q, v, a); }
  }

  lemma AbsoluteIsMix(q: real, v: real, a: real)
    ensures Laid(q, v, a, false) == Mix(q, v, a)
  {}

  lemma {:induction false} YawOfPrefix(rest: Pose, ls: seq<Layer>, o: nat, n: nat, anchor: real, lo: real, hi: real)
    requires |rest| == NJ && Anchored(ls, o, anchor, lo, hi) && lo <= anchor <= hi && o < n <= |ls|
    ensures var q := BlendAll(rest, Outs(ls)[..n])[0];
            lo <= q <= hi && (ls[n - 1].priority < PRIMITIVE ==> q == anchor)
    decreases n
  {
    var outs, k := Outs(ls), n - 1;
    assert outs[..n][..k] == outs[..k];
    var l, q := ls[k], BlendAll(rest, outs[..k])[0];
    LaidOver(q, l.out.value[0], Alpha(l.out, 0), l.out.additive, lo, hi);
    hide Laid, Alpha;
    if k > o {
      YawOfPrefix(rest, ls, o, k, anchor, lo, hi);
      assert ls[k - 1].priority <= l.priority;
      assert KeepsYaw(l, anchor, lo, hi);
      if l.priority == PRIMITIVE && k - 1 > o { assert ls[k - 1].priority != PRIMITIVE; }
    }
  }

  /** The blended yaw stays in the safe interval. */
  lemma BlendedYawIsSafe(rest: Pose, ls: seq<Layer>, o: nat, anchor: real, lo: real, hi: real)
    requires |rest| == NJ && Anchored(ls, o, anchor, lo, hi) && lo <= anchor <= hi
    ensures lo <= BlendAll(rest, Outs(ls))[0] <= hi
  {
    YawOfPrefix(rest, ls, o, |ls|, anchor, lo, hi);
    assert Outs(ls)[..|ls|] == Outs(ls);
  }
}
