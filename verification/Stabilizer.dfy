/** The direction stabiliser: one decision at most for each rising edge of speech. */
module Stabilizer {
  import opened Circular
  import opened Options

  datatype Config = Config(minSamples: nat, minWindow: real, maxWindow: real, maxDispersion: real)

  /** What the constructor checks. */
  predicate Accepted(c: Config) {
    c.minSamples >= 1 && 0.0 <= c.minWindow <= c.maxWindow && 0.0 <= c.maxDispersion <= 180.0
  }

  datatype Sample = Sample(timestamp: real, angle: real, speech: bool)

  datatype Verdict = Stable | InsufficientSamples | Unstable

  /** `id` counts the speech IDs that were made; the ID factory makes a new one each time. */
  datatype Decision = Decision(id: nat, verdict: Verdict, angle: Option<real>, dispersion: Option<real>, count: nat,
    timestamp: real)

  datatype Status = Status(
    detected: bool, speech: Option<nat>, startedAt: Option<real>, samples: seq<real>, terminal: bool,
    last: Option<real>, made: nat)

  const INITIAL := Status(false, None, None, [], false, None, 0)

  datatype Event = Observe(sample: Sample) | Reset

  datatype Reply = Nothing | Decided(decision: Decision) | OutOfRange | OutOfOrder

  function AfterReset(s: Status): Status {
    s.(detected := false, speech := None, startedAt := None, samples := [], terminal := false)
  }

  predicate InRange(angle: real) { 0.0 <= angle < 360.0 }

  /** An observation that does not raise. */
  predicate Taken(s: Status, o: Sample) {
    InRange(o.angle) && (s.last.Some? ==> o.timestamp >= s.last.value)
  }

  predicate Rising(s: Status, o: Sample) { o.speech && !s.detected }

  /** The state once edges are handled: a rising edge starts a new utterance. */
  function Begun(s: Status, o: Sample): Status {
    var t := s.(detected := o.speech, last := Some(o.timestamp));
    if Rising(s, o) then
      t.(speech := Some(s.made), startedAt := Some(o.timestamp), samples := [], terminal := false, made := s.made + 1)
    else t
  }

  predicate Open(s: Status) { s.speech.Some? && s.startedAt.Some? && !s.terminal }

  function Collected(s: Status, o: Sample): Status {
    var t := Begun(s, o);
    if Open(t) && o.speech then t.(samples := t.samples + [o.angle]) else t
  }

  function Dispersion(samples: seq<real>): real
    requires samples != []
  {
    Median(Deviations(samples, Medoid(samples)))
  }

  predicate IsStable(t: Status, now: real, c: Config)
    requires Open(t)
  {
    && now - t.startedAt.value >= c.minWindow
    && |t.samples| >= c.minSamples
    && t.samples != [] && Dispersion(t.samples) <= c.maxDispersion
  }

  function Judged(t: Status, now: real, c: Config): Option<Decision>
    requires Open(t)
  {
    var angle := if t.samples == [] then None else Some(Medoid(t.samples));
    var dispersion := if t.samples == [] then None else Some(Dispersion(t.samples));
    if IsStable(t, now, c) then
      Some(Decision(t.speech.value, Stable, angle, dispersion, |t.samples|, now))
    else if now - t.startedAt.value >= c.maxWindow then
      Some(Decision(t.speech.value, if |t.samples| < c.minSamples then InsufficientSamples else Unstable,
                    angle, dispersion, |t.samples|, now))
    else None
  }

  function DecisionOf(s: Status, o: Sample, c: Config): Option<Decision> {
    if Taken(s, o) && Open(Collected(s, o)) then Judged(Collected(s, o), o.timestamp, c) else None
  }

  function Next(s: Status, e: Event, c: Config): Status {
    match e
    case Reset => AfterReset(s)
    case Observe(o) =>
      if !Taken(s, o) then s
      else if DecisionOf(s, o, c).Some? then Collected(s, o).(terminal := true)
      else Collected(s, o)
  }

  function After(h: seq<Event>, c: Config): Status {
    if h == [] then INITIAL else Next(After(h[..|h| - 1], c), h[|h| - 1], c)
  }

  function DecisionAt(s: Status, e: Event, c: Config): seq<Decision> {
    if e.Observe? && DecisionOf(s, e.sample, c).Some? then [DecisionOf(s, e.sample, c).value] else []
  }

  function Decisions(h: seq<Event>, c: Config): seq<Decision> {
    if h == [] then []
    else Decisions(h[..|h| - 1], c) + DecisionAt(After(h[..|h| - 1], c), h[|h| - 1], c)
  }

  // ----- at most one decision per utterance ---------------------------------------

  predicate IdsRise(ds: seq<Decision>) { forall i, k :: 0 <= i < k < |ds| ==> ds[i].id < ds[k].id }

  /** Every decision was about an utterance begun so far, and one about the present
      utterance has closed it. */
  predicate Consistent(s: Status, ds: seq<Decision>) {
    && (s.speech.Some? ==> s.speech.value < s.made && s.startedAt.Some?)
    && (forall i :: 0 <= i < |ds| ==> ds[i].id < s.made)
    && (Open(s) ==> forall i :: 0 <= i < |ds| ==> ds[i].id < s.speech.value)
    && (s.terminal ==> s.speech.Some? && exists i :: 0 <= i < |ds| && ds[i].id == s.speech.value)
  }

  lemma NextIsConsistent(s: Status, ds: seq<Decision>, e: Event, c: Config)
    requires Consistent(s, ds) && IdsRise(ds)
    ensures var ds' := ds + DecisionAt(s, e, c); Consistent(Next(s, e, c), ds') && IdsRise(ds')
  {
    hide Dispersion, Medoid, IsStable;
    var ds' := ds + DecisionAt(s, e, c);
    if DecisionAt(s, e, c) != [] { assert ds'[|ds|].id == Next(s, e, c).speech.value; }
    if s.terminal {
      var i :| 0 <= i < |ds| && ds[i].id == s.speech.value;
      assert ds'[i] == ds[i];
    }
  }

  /** The IDs of the decisions of any run are distinct: at most one per utterance. */
  lemma {:induction false} OneDecisionPerUtterance(h: seq<Event>, c: Config)
    ensures IdsRise(Decisions(h, c)) && Consistent(After(h, c), Decisions(h, c))
  {
    if h != [] {
      var before := h[..|h| - 1];
      OneDecisionPerUtterance(before, c);
      NextIsConsistent(After(before, c), Decisions(before, c), h[|h| - 1], c);
      hide Next, DecisionAt, Consistent, IdsRise;
    }
  }

  /** An utterance observed up to its longest window, without a reset or a new rising
      edge, has its decision by then. */
  lemma DecidedByMaxWindow(h: seq<Event>, o: Sample, c: Config)
    requires var s := After(h, c);
             s.speech.Some? && s.startedAt.Some? && Taken(s, o) && !Rising(s, o)
             && o.timestamp - s.startedAt.value >= c.maxWindow
    ensures var id, ds := After(h, c).speech.value, Decisions(h + [Observe(o)], c);
            IdsRise(ds) && exists i :: 0 <= i < |ds| && ds[i].id == id
  {
    var h' := h + [Observe(o)];
    assert h'[..|h|] == h;
    OneDecisionPerUtterance(h', c);
    hide Dispersion, Medoid, IsStable;
    assert After(h', c).terminal && After(h', c).speech == After(h, c).speech;
  }

  // ----- what a ready decision means ----------------------------------------------

  /** The observations whose angles the present samples are. */
  function Sources(h: seq<Event>, c: Config): seq<nat> {
    if h == [] then []
    else
      var n := |h| - 1;
      var s, e := After(h[..n], c), h[n];
      if e.Reset? then []
      else if !Taken(s, e.sample) then Sources(h[..n], c)
      else
        var kept := if Rising(s, e.sample) then [] else Sources(h[..n], c);
        if Open(Begun(s, e.sample)) && e.sample.speech then kept + [n] else kept
  }

  /** Observation `i` heard speech at `angle`, in the present utterance. */
  predicate Heard(h: seq<Event>, i: nat, angle: real, startedAt: Option<real>) {
    && i < |h| && h[i].Observe? && h[i].sample.speech && h[i].sample.angle == angle
    && startedAt.Some? && startedAt.value <= h[i].sample.timestamp && InRange(angle)
  }

  predicate Sourced(h: seq<Event>, sources: seq<nat>, s: Status) {
    && |sources| == |s.samples|
    && forall k :: 0 <= k < |sources| ==> Heard(h, sources[k], s.samples[k], s.startedAt)
  }

  predicate ClockKept(s: Status) {
    s.startedAt.Some? ==> s.last.Some? && s.startedAt.value <= s.last.value
  }

  lemma {:induction false} SamplesAreSourced(h: seq<Event>, c: Config)
    ensures Sourced(h, Sources(h, c), After(h, c)) && ClockKept(After(h, c))
  {
    if h != [] {
      var n := |h| - 1;
      SamplesAreSourced(h[..n], c);
      hide Judged;
      forall k | 0 <= k < |Sources(h[..n], c)|
        ensures var i := Sources(h[..n], c)[k]; i < n && h[i] == h[..n][i]
      {
        assert Heard(h[..n], Sources(h[..n], c)[k], After(h[..n], c).samples[k], After(h[..n], c).startedAt);
      }
    }
  }

  /** A stable decision is the medoid of speech heard in its utterance, over at least the
      short window and the least count; at least half of it lies within the dispersion
      bound of the angle decided. */
  lemma StableMeans(h: seq<Event>, o: Sample, c: Config)
    requires Accepted(c) && DecisionOf(After(h, c), o, c).Some?
    requires DecisionOf(After(h, c), o, c).value.verdict == Stable
    ensures var d, h' := DecisionOf(After(h, c), o, c).value, h + [Observe(o)];
            var t := After(h', c);
            && d.id == t.speech.value && d.count == |t.samples| >= c.minSamples
            && t.startedAt.Some? && d.timestamp - t.startedAt.value >= c.minWindow
            && Sourced(h', Sources(h', c), t)
            && t.samples != [] && d.angle == Some(Medoid(t.samples))
            && 2 * CountAtMost(Deviations(t.samples, d.angle.value), c.maxDispersion) >= d.count
  {
    var h' := h + [Observe(o)];
    assert h'[..|h|] == h;
    var t := Collected(After(h, c), o);
    assert IsStable(t, o.timestamp, c);
    MedianCovers(Deviations(t.samples, Medoid(t.samples)), c.maxDispersion);
    hide Median, Deviations, Medoid, CountAtMost;
    SamplesAreSourced(h', c);
  }

  // ----- what an observation does -------------------------------------------------

  /** Every observation that is not refused counts: a rising edge begins a new utterance with
      its angle, speech in an open one adds its angle, and nothing else does. */
  lemma ObservationCounts(s: Status, o: Sample, c: Config)
    ensures var t := Next(s, Observe(o), c);
            if !Taken(s, o) then t == s
            else
              && t.detected == o.speech && t.last == Some(o.timestamp)
              && (o.speech && !s.detected ==>
                    && t.speech == Some(s.made) && t.startedAt == Some(o.timestamp)
                    && t.samples == [o.angle] && t.made == s.made + 1)
              && (!o.speech || s.detected ==>
                    && t.speech == s.speech && t.startedAt == s.startedAt && t.made == s.made
                    && t.samples == if o.speech && Open(s) then s.samples + [o.angle] else s.samples)
  {
    hide Judged;
  }

  /** The utterance that an observation leaves is wide, full and narrow enough. */
  predicate Ripe(t: Status, now: real, c: Config) {
    && t.startedAt.Some? && now - t.startedAt.value >= c.minWindow
    && |t.samples| >= c.minSamples && t.samples != []
    && Median(Deviations(t.samples, Medoid(t.samples))) <= c.maxDispersion
  }

  /** Exactly when an observation decides its utterance, and what it says: as soon as the
      utterance is ripe, or once its longest window is over. The utterance is then closed. */
  lemma DecidesIff(s: Status, o: Sample, c: Config)
    requires s.speech.Some? <==> s.startedAt.Some?
    ensures var t, d := Next(s, Observe(o), c), DecisionOf(s, o, c);
            var open := Taken(s, o) && (Rising(s, o) || Open(s));
            && (open ==> t.startedAt.Some? && t.speech.Some?)
            && (d.Some? <==> open && (Ripe(t, o.timestamp, c) || o.timestamp - t.startedAt.value >= c.maxWindow))
            && (d.Some? ==>
                  && t.terminal && d.value.id == t.speech.value && d.value.timestamp == o.timestamp
                  && d.value.count == |t.samples|
                  && (t.samples != [] ==> d.value.angle == Some(Medoid(t.samples)))
                  && d.value.verdict == if Ripe(t, o.timestamp, c) then Stable
                                        else if |t.samples| < c.minSamples then InsufficientSamples else Unstable)
            && (d.None? && open ==> !t.terminal)
  {
    hide Median, Deviations, Medoid;
  }

  // ----- the object ---------------------------------------------------------------

  class DoaStabilizer {
    const cfg: Config
    var speechDetected: bool
    var speechId: Option<nat>
    var startedAt: Option<real>
    var samples: seq<real>
    var terminal: bool
    var lastTimestamp: Option<real>
    var made: nat

    ghost function State(): Status
      reads this
    {
      Status(speechDetected, speechId, startedAt, samples, terminal, lastTimestamp, made)
    }

    constructor (cfg: Config)
      requires Accepted(cfg)
      ensures this.cfg == cfg && State() == INITIAL
    {
      this.cfg := cfg;
      speechDetected, speechId, startedAt, samples := false, None, None, [];
      terminal, lastTimestamp, made := false, None, 0;
    }

    method Reset()
      modifies this
      ensures State() == AfterReset(old(State()))
    {
      speechDetected, speechId, startedAt, samples, terminal := false, None, None, [], false;
    }

    method Observe(o: Sample) returns (reply: Reply)
      modifies this
      ensures State() == Next(old(State()), Event.Observe(o), cfg)
      ensures reply == if !InRange(o.angle) then OutOfRange
                       else if !Taken(old(State()), o) then OutOfOrder
                       else if DecisionOf(old(State()), o, cfg).Some? then
                         Decided(DecisionOf(old(State()), o, cfg).value)
                       else Nothing
    {
      hide Median, Deviations, Medoid;
      if !InRange(o.angle) { return OutOfRange; }
      if lastTimestamp.Some? && o.timestamp < lastTimestamp.value { return OutOfOrder; }
      HandleEdge(o);
      hide Begun;
      if speechId.None? || startedAt.None? || terminal { return Nothing; }
      if o.speech { samples := samples + [o.angle]; }
      var elapsed := o.timestamp - startedAt.value;
      var center, dispersion := None, None;
      if samples != [] {
        center := Some(Medoid(samples));
        dispersion := Some(Median(Deviations(samples, center.value)));
      }
      if elapsed >= cfg.minWindow && |samples| >= cfg.minSamples
         && dispersion.Some? && dispersion.value <= cfg.maxDispersion {
        var d := Finish(Stable, center, dispersion, o.timestamp);
        return Decided(d);
      }
      if elapsed >= cfg.maxWindow {
        var verdict := if |samples| < cfg.minSamples then InsufficientSamples else Unstable;
        var d := Finish(verdict, center, dispersion, o.timestamp);
        return Decided(d);
      }
      return Nothing;
    }

    /** Takes the sample's time, and starts a new utterance on a rising edge. */
    method HandleEdge(o: Sample)
      modifies this
      ensures State() == Begun(old(State()), o)
    {
      lastTimestamp := Some(o.timestamp);
      var rising := o.speech && !speechDetected;
      speechDetected := o.speech;
      if rising {
        speechId, startedAt, samples, terminal := Some(made), Some(o.timestamp), [], false;
        made := made + 1;
      }
    }

    method Finish(verdict: Verdict, center: Option<real>, dispersion: Option<real>, now: real) returns (d: Decision)
      requires speechId.Some?
      modifies `terminal
      ensures State() == old(State()).(terminal := true)
      ensures d == Decision(speechId.value, verdict, center, dispersion, |samples|, now)
    {
      terminal := true;
      return Decision(speechId.value, verdict, center, dispersion, |samples|, now);
    }
  }
}
