/** The fixed slot grid of the 100 Hz loops. A slot is either admitted on time or
    discarded; late slots are never caught up in a burst. The clock is any
    non-decreasing sequence of readings; how long a sleep really takes shows only
    in the readings that follow it. */
module DeadlineGrid {
  import opened RealMath

  const JITTER: real := 0.001
  const CONTROL_DT: real := 0.01
  const EPSILON: real := 0.000000001

  function Tolerance(dt: real): real { JITTER + EPSILON * dt }

  /** First slot that is not overdue at `elapsed` seconds after the start. */
  function NextSlot(elapsed: real, dt: real): int
    requires dt > 0.0
  {
    Ceil((elapsed - JITTER) / dt - EPSILON)
  }

  function SlotTime(k: int, dt: real): real { k as real * dt }

  lemma DivideLess(x: real, dt: real, y: real)
    requires dt > 0.0
    ensures x / dt <= y <==> x <= y * dt
  {
    assert x == (x / dt) * dt;
    if x / dt <= y { assert (x / dt) * dt <= y * dt; } else { assert (x / dt) * dt > y * dt; }
  }

  /** The rounding in the code decides exactly whether a slot is overdue. */
  lemma NextSlotIff(elapsed: real, dt: real, k: int)
    requires dt > 0.0
    ensures NextSlot(elapsed, dt) <= k <==> elapsed <= SlotTime(k, dt) + Tolerance(dt)
  {
    CeilAtMost((elapsed - JITTER) / dt - EPSILON, k);
    DivideLess(elapsed - JITTER, dt, k as real + EPSILON);
    assert (k as real + EPSILON) * dt == k as real * dt + EPSILON * dt;
  }

  /** What became of a slot, and when: sent, discarded as overdue, taken up by a
      tick that sent nothing (stop or fault), or left over at the end of the run. */
  datatype Fate = Sent(now: real) | Overdue(now: real) | NotSent(now: real) | LeftOver(now: real)

  ghost predicate OnGrid(f: Fate, k: int, start: real, dt: real) {
    var late := f.now - start - SlotTime(k, dt);
    match f
    case Sent(_) => 0.0 <= late <= Tolerance(dt)
    case NotSent(_) => 0.0 <= late <= Tolerance(dt)
    case Overdue(_) => late > Tolerance(dt)
    case LeftOver(_) => true
  }

  ghost predicate Grid(fates: seq<Fate>, start: real, dt: real) {
    forall k | 0 <= k < |fates| :: OnGrid(fates[k], k, start, dt)
  }

  /** How many slots were sent. */
  function Count(fates: seq<Fate>): nat {
    if fates == [] then 0
    else (if fates[|fates| - 1].Sent? then 1 else 0) + Count(fates[..|fates| - 1])
  }

  ghost predicate Monotone(clock: seq<real>) {
    forall i, j | 0 <= i <= j < |clock| :: clock[i] <= clock[j]
  }

  lemma CountMore(fates: seq<Fate>, f: Fate)
    ensures Count(fates + [f]) == Count(fates) + (if f.Sent? then 1 else 0)
  {
    assert (fates + [f])[..|fates|] == fates;
  }

  /** Two admitted commands are at least a period apart, less the tolerance, for
      each slot that lies between them. */
  lemma Spacing(fates: seq<Fate>, start: real, dt: real, i: nat, j: nat)
    requires Grid(fates, start, dt) && dt > 0.0
    requires i < j < |fates| && fates[i].Sent? && fates[j].Sent?
    ensures fates[j].now - fates[i].now >= (j - i) as real * dt - Tolerance(dt)
    ensures fates[j].now - fates[i].now >= dt - Tolerance(dt)
  {
    assert OnGrid(fates[i], i, start, dt) && OnGrid(fates[j], j, start, dt);
    assert (j - i) as real * dt == SlotTime(j, dt) - SlotTime(i, dt);
    assert ((j - i) as real - 1.0) * dt >= 0.0;
  }

  ghost predicate FromClock(fates: seq<Fate>, clock: seq<real>) {
    forall k | 0 <= k < |fates| :: fates[k].now in clock
  }

  lemma OneMore(fates: seq<Fate>, f: Fate, start: real, dt: real, clock: seq<real>)
    requires Grid(fates, start, dt) && OnGrid(f, |fates|, start, dt) && FromClock(fates, clock) && f.now in clock
    ensures Grid(fates + [f], start, dt) && FromClock(fates + [f], clock)
    ensures Count(fates + [f]) == Count(fates) + (if f.Sent? then 1 else 0)
  {
    CountMore(fates, f);
  }

  // ----- discarding overdue slots -------------------------------------------------

  /** Slots `|fates|` up to `next` are overdue at `now`. */
  method Discard(fates: seq<Fate>, next: nat, now: real, start: real, dt: real) returns (fates': seq<Fate>)
    requires dt > 0.0 && Grid(fates, start, dt) && |fates| <= next <= NextSlot(now - start, dt)
    ensures fates <= fates' && |fates'| == next && Grid(fates', start, dt)
    ensures forall k | |fates| <= k < next :: fates'[k] == Overdue(now)
    ensures Count(fates') == Count(fates)
  {
    fates' := fates;
    while |fates'| < next
      invariant |fates| <= |fates'| <= next && fates <= fates' && Grid(fates', start, dt)
      invariant forall k | |fates| <= k < |fates'| :: fates'[k] == Overdue(now)
      invariant Count(fates') == Count(fates)
    {
      NextSlotIff(now - start, dt, |fates'|);
      CountMore(fates', Overdue(now));
      fates' := fates' + [Overdue(now)];
    }
  }

  /** How a tick taken up by the loop went. */
  datatype TickResult = TickSent | TickStopped | TickFaulted

  /** Sleeps until a reading reaches the deadline. `ready` unless the stop flag is
      seen (at the `stopAt`-th look) or the readings run out; then `now`, one more
      reading, is not before the deadline. */
  method Await(deadline: real, clock: seq<real>, read: nat, looks: nat, stopAt: nat)
    returns (read': nat, looks': nat, ready: bool, now: real)
    requires Monotone(clock) && 1 <= read < |clock|
    ensures read < read' <= |clock| && looks <= looks'
    ensures ready ==> now in clock && now >= deadline && now == clock[read' - 1]
    ensures !ready ==> looks' >= stopAt || (read' == |clock| && (read' >= read + 2 ==> clock[read' - 2] < deadline))
    ensures looks' <= looks + read' - read
  {
    var remaining := deadline - clock[read];
    read', looks', ready, now := read + 1, looks, false, 0.0;
    while remaining > 0.0 && looks' < stopAt && read' < |clock|
      invariant read < read' <= |clock| && looks <= looks' <= looks + read' - read
      invariant remaining == deadline - clock[read' - 1]
      invariant read' >= read + 2 ==> clock[read' - 2] < deadline
      decreases |clock| - read'
    {
      remaining, read', looks' := deadline - clock[read'], read' + 1, looks' + 1;
    }
    if remaining <= 0.0 && looks' < stopAt && read' < |clock| {
      assert clock[read' - 1] <= clock[read'];
      ready, now, read', looks' := true, clock[read'], read' + 1, looks' + 1;
    }
  }

  // ----- the controller's loop ----------------------------------------------------

  /** A tick that sends nothing ends the loop, so only the last slot can hold one. */
  ghost predicate Ticked(fates: seq<Fate>) {
    && (forall k | 0 <= k < |fates| :: !fates[k].LeftOver?)
    && (forall k | 0 <= k < |fates| - 1 :: !fates[k].NotSent?)
  }

  function Unsent(fates: seq<Fate>): nat {
    if fates != [] && fates[|fates| - 1].NotSent? then 1 else 0
  }

  /** At a reading `now`, no slot before `slot` is still to be decided, and `slot`
      itself is not overdue. */
  ghost predicate KeepsUp(now: real, slot: nat, start: real, dt: real) {
    now - start <= SlotTime(slot, dt) + Tolerance(dt)
  }

  lemma NextKeepsUp(now: real, slot: nat, start: real, dt: real)
    requires dt > 0.0 && KeepsUp(now, slot, start, dt)
    ensures KeepsUp(now, slot + 1, start, dt)
  {
    assert SlotTime(slot + 1, dt) == SlotTime(slot, dt) + dt;
  }

  /** Runs until stopped or until the readings given are used up. The stop flag is
      found set at the `stopAt`-th look; `ticks` says how each tick goes. */
  method Run(dt: real, clock: seq<real>, stopAt: nat, ticks: seq<TickResult>)
    returns (sentTicks: nat, deadlineMisses: nat, slot: nat, fates: seq<Fate>, stopped: bool)
    requires dt > 0.0 && Monotone(clock) && |clock| > 0 && |ticks| >= |clock|
    ensures |fates| == slot && Grid(fates, clock[0], dt) && FromClock(fates, clock) && Ticked(fates)
    ensures sentTicks == Count(fates)
    ensures sentTicks + deadlineMisses == slot - Unsent(fates)
    ensures !stopped && |clock| > 1 ==> KeepsUp(clock[|clock| - 2], slot, clock[0], dt)
    ensures stopped ==> Unsent(fates) == 1 || 2 * |clock| > stopAt
  {
    var start, read, looks := clock[0], 1, 0;
    sentTicks, deadlineMisses, slot, fates, stopped := 0, 0, 0, [], stopAt == 0;
    while !stopped && read < |clock|
      invariant 1 <= read <= |clock|
      invariant looks <= 2 * (read - 1)
      invariant !stopped ==> looks < stopAt && KeepsUp(clock[read - 1], slot, start, dt)
      invariant stopped ==> Unsent(fates) == 1 || 2 * |clock| > stopAt
      invariant !stopped && read == |clock| && |clock| > 1 ==> KeepsUp(clock[|clock| - 2], slot, start, dt)
      invariant |fates| == slot && Grid(fates, start, dt) && FromClock(fates, clock) && Ticked(fates)
      invariant !stopped ==> Unsent(fates) == 0
      invariant sentTicks == Count(fates)
      invariant sentTicks + deadlineMisses == slot - Unsent(fates)
      decreases |clock| - read
    {
      var ready, now;
      read, looks, ready, now := Await(start + SlotTime(slot, dt), clock, read, looks + 1, stopAt);
      if looks >= stopAt { stopped := true; break; }
      if !ready { break; }
      assert clock[|clock| - 2] <= clock[|clock| - 1];
      NextSlotIff(now - start, dt, NextSlot(now - start, dt));
      var next := NextSlot(now - start, dt);
      if next > slot {
        deadlineMisses := deadlineMisses + next - slot;
        fates := Discard(fates, next, now, start, dt);
        slot := next;
      } else {
        NextSlotIff(now - start, dt, slot);
        var f := if ticks[read - 1] == TickSent then Sent(now) else NotSent(now);
        OneMore(fates, f, start, dt, clock);
        fates, slot := fates + [f], slot + 1;
        NextKeepsUp(now, slot - 1, start, dt);
        if f.Sent? { sentTicks := sentTicks + 1; } else { stopped := true; }
      }
    }
  }

  // ----- the stand-alone hardware run ---------------------------------------------

  function SlotCount(duration: real): int { Ceil(duration / CONTROL_DT - EPSILON) }

  /** Commands go out before the end of the run, leftovers are found after it. */
  ghost predicate Within(fates: seq<Fate>, end: real) {
    forall k | 0 <= k < |fates| ::
      !fates[k].NotSent? && (fates[k].Sent? ==> fates[k].now < end) && (fates[k].LeftOver? ==> fates[k].now >= end)
  }

  lemma WithinMore(fates: seq<Fate>, f: Fate, end: real)
    requires Within(fates, end) && f.Sent? && f.now < end
    ensures Within(fates + [f], end)
  {}

  /** Slots decided without a command keep the record in order. */
  lemma Unanswered(fates: seq<Fate>, fates': seq<Fate>, f: Fate, clock: seq<real>, end: real)
    requires FromClock(fates, clock) && Within(fates, end) && f.now in clock
    requires f.Overdue? || (f.LeftOver? && f.now >= end)
    requires fates <= fates' && forall k | |fates| <= k < |fates'| :: fates'[k] == f
    ensures FromClock(fates', clock) && Within(fates', end)
  {}

  /** `complete` if the run ended by itself and not because the readings ran out. */
  method RunHardware(duration: real, clock: seq<real>)
    returns (sent: nat, missed: nat, complete: bool, fates: seq<Fate>)
    requires duration > 0.0 && Monotone(clock) && |clock| > 0
    ensures Grid(fates, clock[0], CONTROL_DT) && FromClock(fates, clock) && Within(fates, clock[0] + duration)
    ensures sent == Count(fates) && sent + missed == |fates| <= Max(0, SlotCount(duration))
    ensures complete ==> sent + missed == Max(0, SlotCount(duration))
    ensures !complete && |clock| > 1 ==> KeepsUp(clock[|clock| - 2], |fates|, clock[0], CONTROL_DT)
  {
    var start, slots, read, slot := clock[0], Max(0, SlotCount(duration)), 1, 0;
    sent, missed, complete, fates := 0, 0, true, [];
    while slot < slots
      invariant 1 <= read <= |clock| && slot <= slots
      invariant |fates| == slot && Grid(fates, start, CONTROL_DT) && FromClock(fates, clock)
      invariant Within(fates, start + duration)
      invariant sent == Count(fates) && sent + missed == slot
      invariant slot < slots ==> KeepsUp(clock[read - 1], slot, start, CONTROL_DT)
      decreases |clock| - read
    {
      assert |clock| > 1 ==> clock[|clock| - 2] <= clock[|clock| - 1];
      hide Grid, FromClock, Within, Count, SlotCount;
      if read == |clock| { complete := false; return; }
      var ready, now, looks;
      read, looks, ready, now := Await(start + SlotTime(slot, CONTROL_DT), clock, read, 0, |clock| + 1);
      if !ready { complete := false; return; }
      if now >= start + duration {
        missed := missed + slots - slot;
        var left := LeaveOver(fates, slots, now, start);
        Unanswered(fates, left, LeftOver(now), clock, start + duration);
        fates := left;
        return;
      }
      NextSlotIff(now - start, CONTROL_DT, NextSlot(now - start, CONTROL_DT));
      var next := Min(slots, NextSlot(now - start, CONTROL_DT));
      if next > slot {
        missed := missed + next - slot;
        var left := Discard(fates, next, now, start, CONTROL_DT);
        Unanswered(fates, left, Overdue(now), clock, start + duration);
        fates, slot := left, next;
      } else {
        NextSlotIff(now - start, CONTROL_DT, slot);
        NextKeepsUp(now, slot, start, CONTROL_DT);
        OneMore(fates, Sent(now), start, CONTROL_DT, clock);
        WithinMore(fates, Sent(now), start + duration);
        fates, sent, slot := fates + [Sent(now)], sent + 1, slot + 1;
      }
    }
  }

  function Max(a: int, b: int): int { if a < b then b else a }
  function Min(a: int, b: int): int { if a < b then a else b }

  method LeaveOver(fates: seq<Fate>, slots: nat, now: real, start: real) returns (fates': seq<Fate>)
    requires |fates| <= slots && Grid(fates, start, CONTROL_DT)
    ensures fates <= fates' && |fates'| == slots && Grid(fates', start, CONTROL_DT)
    ensures forall k | |fates| <= k < slots :: fates'[k] == LeftOver(now)
    ensures Count(fates') == Count(fates)
  {
    fates' := fates;
    while |fates'| < slots
      invariant |fates| <= |fates'| <= slots && fates <= fates' && Grid(fates', start, CONTROL_DT)
      invariant forall k | |fates| <= k < |fates'| :: fates'[k] == LeftOver(now)
      invariant Count(fates') == Count(fates)
    {
      CountMore(fates', LeftOver(now));
      fates' := fates' + [LeftOver(now)];
    }
  }

  /** The slots of a complete run cover the duration and no more. */
  lemma SlotCountCovers(duration: real)
    requires duration > 0.0
    ensures (SlotCount(duration) - 1) as real * CONTROL_DT < duration
    ensures duration <= SlotCount(duration) as real * CONTROL_DT + EPSILON * CONTROL_DT
  {
    var n := SlotCount(duration);
    CeilAtMost(duration / CONTROL_DT - EPSILON, n);
    CeilAtMost(duration / CONTROL_DT - EPSILON, n - 1);
    DivideLess(duration, CONTROL_DT, n as real + EPSILON);
  }
}
