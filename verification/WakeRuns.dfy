/** Wake-word evaluation: runs of windows whose score reaches the threshold. */
module WakeRuns {

  function Over(scores: seq<real>, th: real): (over: seq<bool>)
    ensures |over| == |scores| && forall i :: 0 <= i < |scores| ==> (over[i] <==> scores[i] >= th)
  {
    seq(|scores|, i requires 0 <= i < |scores| => scores[i] >= th)
  }

  /** A maximal run of windows begins at `i` and is at least `need` long. */
  predicate LongRunAt(over: seq<bool>, i: int, need: int) {
    && 0 <= i && i + need <= |over| && need >= 1
    && (i == 0 || !over[i - 1])
    && forall k :: i <= k < i + need ==> over[k]
  }

  /** The maximal runs that are `need` long within the first `m` windows. */
  function LongRuns(over: seq<bool>, m: nat, need: int): nat
    requires m <= |over|
  {
    if m == 0 then 0
    else LongRuns(over, m - 1, need) + if LongRunAt(over, m - need, need) then 1 else 0
  }

  /** The length of the run that ends before window `m`. */
  function RunBefore(over: seq<bool>, m: nat): (n: nat)
    requires m <= |over|
    ensures n <= m && (forall k :: m - n <= k < m ==> over[k]) && (n < m ==> !over[m - n - 1])
  {
    if m == 0 || !over[m - 1] then 0 else RunBefore(over, m - 1) + 1
  }

  lemma RunIsLongIff(over: seq<bool>, m: nat, need: int)
    requires 0 < m <= |over| && need >= 1
    ensures LongRunAt(over, m - need, need) <==> RunBefore(over, m) == need
  {}

  lemma {:induction false} NoneIffShort(over: seq<bool>, m: nat, need: int)
    requires m <= |over| && need >= 1
    ensures LongRuns(over, m, need) == 0 <==> forall k :: 0 <= k <= m ==> RunBefore(over, k) < need
  {
    if m == 0 {
    } else {
      NoneIffShort(over, m - 1, need);
      RunIsLongIff(over, m, need);
      assert RunBefore(over, m) <= RunBefore(over, m - 1) + 1;
    }
  }

  lemma NextWindow(over: seq<bool>, i: nat, need: int)
    requires i < |over| && need >= 1
    ensures RunBefore(over, i + 1) == if over[i] then RunBefore(over, i) + 1 else 0
    ensures LongRuns(over, i + 1, need) == LongRuns(over, i, need) + if RunBefore(over, i + 1) == need then 1 else 0
  {}

  function AtLeastOne(need: int): int { if need < 1 then 1 else need }

  /** The counting loop counts the maximal runs that are long enough. */
  method CountOver(scores: seq<real>, th: real, need: int) returns (n: nat)
    ensures n == LongRuns(Over(scores, th), |scores|, AtLeastOne(need))
  {
    var over := Over(scores, th);
    var run, armed := 0, true;
    n := 0;
    ghost var least := AtLeastOne(need);
    assert RunBefore(over, 0) == 0 && LongRuns(over, 0, least) == 0 && least >= 1;
    hide RunBefore, LongRuns, Over, AtLeastOne;
    for i := 0 to |over|
      invariant run == RunBefore(over, i) && (armed <==> run < least)
      invariant n == LongRuns(over, i, least)
    {
      NextWindow(over, i, least);
      if !over[i] {
        run, armed := 0, true;
        continue;
      }
      run := run + 1;
      EnoughIff(run, need);
      if run >= need && armed {
        n := n + 1;
        armed := false;
      }
    }
  }

  lemma EnoughIff(run: nat, need: int)
    requires run >= 1
    ensures run >= need <==> run >= AtLeastOne(need)
  {}

  predicate Wakes(over: seq<bool>, need: int) {
    |over| >= need && exists m :: 0 < m <= |over| && RunBefore(over, m) >= need
  }

  method Fired(scores: seq<real>, th: real, need: int) returns (fired: bool)
    ensures fired <==> Wakes(Over(scores, th), need)
  {
    if |scores| < need { return false; }
    var over := Over(scores, th);
    var run := 0;
    for i := 0 to |over|
      invariant run == RunBefore(over, i)
      invariant forall m :: 0 < m <= i ==> RunBefore(over, m) < need
    {
      run := if over[i] then run + 1 else 0;
      if run >= need {
        assert RunBefore(over, i + 1) >= need;
        return true;
      }
    }
    return false;
  }

  /** The two agree (fired exactly when something is counted) for every recording with a
      window over the threshold; without one they agree unless no run at all is needed. */
  lemma FiredIffCounted(scores: seq<real>, th: real, need: int)
    ensures var over := Over(scores, th);
            (Wakes(over, need) <==> LongRuns(over, |over|, AtLeastOne(need)) > 0)
            <==> need >= 1 || over == [] || exists i :: 0 <= i < |over| && over[i]
  {
    var over := Over(scores, th);
    NoneIffShort(over, |over|, AtLeastOne(need));
    if need < 1 {
      if over != [] { assert RunBefore(over, 1) >= need; }
      if i :| 0 <= i < |over| && over[i] { assert RunBefore(over, i + 1) >= 1; }
      assert (exists k :: 0 <= k <= |over| && RunBefore(over, k) >= 1) ==> exists i :: 0 <= i < |over| && over[i] by {
        if k :| 0 <= k <= |over| && RunBefore(over, k) >= 1 { assert over[k - 1]; }
      }
    } else {
      assert RunBefore(over, 0) == 0;
      if k :| 0 <= k <= |over| && RunBefore(over, k) >= need { assert RunBefore(over, k) <= k; }
    }
  }
}
