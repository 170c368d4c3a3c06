/** The device daemon's loop around the stabiliser: speech is ignored while the lamp
    itself plays sound, and for a guard time afterwards. */
module DeviceLoop {
  import opened Options
  import opened Stabilizer

  const GUARD: real := 0.3

  /** What one round of the loop finds: the capture restarted, the microphone array
      reconnected, capture not yet timestamping, or a reading. */
  datatype Turn =
    | CaptureRestarted | Reconnected | NotTimestamped
    | Read(timestamp: real, angle: real, speech: bool, playback: bool)

  datatype Gates = Gates(vadActive: bool, suppressed: bool, resumeAt: real)

  const OPEN_GATES := Gates(false, false, 0.0)

  /** The playback gate of one reading: whether it resets the stabiliser, and the gates
      after it. */
  function ResetsAt(g: Gates, playback: bool): bool { playback != g.suppressed }

  function GatesAfter(g: Gates, t: Turn): Gates {
    match t
    case Read(now, _, speech, playback) =>
      var resumeAt := if playback then now + GUARD else g.resumeAt;
      Gates(speech && !playback && now >= resumeAt, playback, resumeAt)
    case _ => g.(vadActive := false)
  }

  /** The events that one round sends to the stabiliser. */
  function EventsOf(g: Gates, t: Turn): seq<Event> {
    match t
    case Read(now, angle, _, playback) =>
      (if ResetsAt(g, playback) then [Reset] else []) + [Observe(Sample(now, angle, GatesAfter(g, t).vadActive))]
    case _ => [Reset]
  }

  function GatesOf(turns: seq<Turn>): Gates {
    if turns == [] then OPEN_GATES else GatesAfter(GatesOf(turns[..|turns| - 1]), turns[|turns| - 1])
  }

  function Feed(turns: seq<Turn>): seq<Event> {
    if turns == [] then []
    else Feed(turns[..|turns| - 1]) + EventsOf(GatesOf(turns[..|turns| - 1]), turns[|turns| - 1])
  }

  /** The clock does not run backwards. */
  predicate Monotone(turns: seq<Turn>) {
    forall i, k :: 0 <= i < k < |turns| && turns[i].Read? && turns[k].Read? ==> turns[i].timestamp <= turns[k].timestamp
  }

  /** `time` is past every playback seen so far, and its guard. */
  predicate PastPlayback(turns: seq<Turn>, time: real) {
    forall i :: 0 <= i < |turns| && turns[i].Read? && turns[i].playback ==> turns[i].timestamp + GUARD <= time
  }

  predicate Guarded(turns: seq<Turn>, c: Config) {
    var s, g := After(Feed(turns), c), GatesOf(turns);
    && PastPlayback(turns, g.resumeAt)
    && (s.startedAt.Some? ==> PastPlayback(turns, s.startedAt.value))
    && (s.speech.Some? <==> s.startedAt.Some?)
    && (g.suppressed ==> s.startedAt.None?)
  }

  lemma AfterTwo(h: seq<Event>, e: Event, f: Event, c: Config)
    ensures After(h + [e], c) == Next(After(h, c), e, c)
    ensures After(h + [e, f], c) == Next(Next(After(h, c), e, c), f, c)
  {
    assert (h + [e])[..|h|] == h;
    assert (h + [e, f])[..|h| + 1] == h + [e];
  }

  lemma FeedNext(turns: seq<Turn>, t: Turn, c: Config)
    ensures Feed(turns + [t]) == Feed(turns) + EventsOf(GatesOf(turns), t)
    ensures GatesOf(turns + [t]) == GatesAfter(GatesOf(turns), t)
  {}

  /** The state that one round leaves. */
  lemma FedState(turns: seq<Turn>, t: Turn, c: Config)
    ensures var s, g := After(Feed(turns), c), GatesOf(turns);
            After(Feed(turns + [t]), c) ==
              (if t.Read? then
                 var o := Observe(Sample(t.timestamp, t.angle, GatesAfter(g, t).vadActive));
                 Next(if ResetsAt(g, t.playback) then AfterReset(s) else s, o, c)
               else AfterReset(s))
  {
    FeedNext(turns, t, c);
    var h, g := Feed(turns), GatesOf(turns);
    hide Feed, GatesOf, Next, After;
    if t.Read? {
      var o := Observe(Sample(t.timestamp, t.angle, GatesAfter(g, t).vadActive));
      AfterTwo(h, Reset, o, c);
      AfterTwo(h, o, o, c);
      ResetIs(After(h, c), c);
      assert EventsOf(g, t) == if ResetsAt(g, t.playback) then [Reset, o] else [o];
    } else {
      AfterTwo(h, Reset, Reset, c);
      ResetIs(After(h, c), c);
    }
  }

  lemma ResetIs(s: Status, c: Config)
    ensures Next(s, Reset, c) == AfterReset(s)
  {}

  /** An observation keeps the start of the utterance unless it is a rising edge. */
  lemma StartAfter(s: Status, o: Sample, c: Config)
    requires s.speech.Some? <==> s.startedAt.Some?
    ensures var t := Next(s, Observe(o), c);
            && (t.startedAt == s.startedAt || (o.speech && t.startedAt == Some(o.timestamp)))
            && (t.speech.Some? <==> t.startedAt.Some?)
  {}

  lemma PastMore(turns: seq<Turn>, t: Turn, time: real)
    requires PastPlayback(turns, time) && (t.Read? && t.playback ==> t.timestamp + GUARD <= time)
    ensures PastPlayback(turns + [t], time)
  {}

  lemma {:induction false} EveryRoundIsGuarded(turns: seq<Turn>, c: Config)
    requires Monotone(turns)
    ensures Guarded(turns, c)
  {
    if turns != [] {
      var n := |turns| - 1;
      EveryRoundIsGuarded(turns[..n], c);
      assert turns == turns[..n] + [turns[n]];
      RoundIsGuarded(turns[..n], turns[n], c);
    }
  }

  lemma RoundIsGuarded(turns: seq<Turn>, t: Turn, c: Config)
    requires Guarded(turns, c) && Monotone(turns + [t])
    ensures Guarded(turns + [t], c)
  {
    var s, g := After(Feed(turns), c), GatesOf(turns);
    hide Feed, GatesOf, After, Next, PastPlayback, EventsOf, Monotone;
    FedState(turns, t, c);
    FeedNext(turns, t, c);
    if t.Read? {
      ReadIsGuarded(turns, t, s, g, c);
    } else {
      PastMore(turns, t, g.resumeAt);
    }
  }

  lemma ReadIsGuarded(turns: seq<Turn>, t: Turn, s: Status, g: Gates, c: Config)
    requires t.Read? && Monotone(turns + [t]) && PastPlayback(turns, g.resumeAt)
    requires s.startedAt.Some? ==> PastPlayback(turns, s.startedAt.value)
    requires (s.speech.Some? <==> s.startedAt.Some?) && (g.suppressed ==> s.startedAt.None?)
    ensures var g' := GatesAfter(g, t);
            var base := if ResetsAt(g, t.playback) then AfterReset(s) else s;
            var s' := Next(base, Observe(Sample(t.timestamp, t.angle, g'.vadActive)), c);
            && PastPlayback(turns + [t], g'.resumeAt)
            && (s'.startedAt.Some? ==> PastPlayback(turns + [t], s'.startedAt.value))
            && (s'.speech.Some? <==> s'.startedAt.Some?)
            && (g'.suppressed ==> s'.startedAt.None?)
  {
    var g' := GatesAfter(g, t);
    var base := if ResetsAt(g, t.playback) then AfterReset(s) else s;
    hide Next, PastPlayback, Monotone;
    LatestPlayback(turns, t);
    StartAfter(base, Sample(t.timestamp, t.angle, g'.vadActive), c);
    PastMore(turns, t, g'.resumeAt);
    if base.startedAt.Some? { PastMore(turns, t, base.startedAt.value); }
    if g'.vadActive { LaterIsPast(turns + [t], g'.resumeAt, t.timestamp); }
  }

  /** A playback seen now is the latest. */
  lemma LatestPlayback(turns: seq<Turn>, t: Turn)
    requires Monotone(turns + [t])
    ensures t.Read? ==> PastPlayback(turns, t.timestamp + GUARD)
  {
    if t.Read? {
      forall i | 0 <= i < |turns| && turns[i].Read? ensures turns[i].timestamp <= t.timestamp {
        assert (turns + [t])[i] == turns[i] && (turns + [t])[|turns|] == t;
      }
    }
  }

  lemma LaterIsPast(turns: seq<Turn>, time: real, later: real)
    requires PastPlayback(turns, time) && time <= later
    ensures PastPlayback(turns, later)
  {}

  /** Every decision that a round brings about uses only speech that was heard after all
      playback so far had been over for the guard time. */
  lemma DecisionsAvoidPlayback(turns: seq<Turn>, t: Turn, c: Config)
    requires Monotone(turns + [t])
    ensures var h := Feed(turns + [t]);
            var s, sources := After(h, c), Sources(h, c);
            && Sourced(h, sources, s)
            && forall k :: 0 <= k < |sources| ==>
                 sources[k] < |h| && h[sources[k]].Observe? && PastPlayback(turns + [t], h[sources[k]].sample.timestamp)
  {
    var h := Feed(turns + [t]);
    SamplesAreSourced(h, c);
    EveryRoundIsGuarded(turns + [t], c);
    var s, sources := After(h, c), Sources(h, c);
    hide Feed, After, Sources, PastPlayback, GatesOf, Monotone;
    forall k | 0 <= k < |sources|
      ensures sources[k] < |h| && h[sources[k]].Observe? && PastPlayback(turns + [t], h[sources[k]].sample.timestamp)
    {
      assert Heard(h, sources[k], s.samples[k], s.startedAt);
      LaterIsPast(turns + [t], s.startedAt.value, h[sources[k]].sample.timestamp);
    }
  }

  /** Until when speech is ignored: the last playback and its guard. */
  lemma {:induction false} ResumeIs(turns: seq<Turn>, time: real)
    requires Monotone(turns)
    ensures GatesOf(turns).resumeAt <= time ==> PastPlayback(turns, time)
    ensures PastPlayback(turns, time) && time >= 0.0 ==> GatesOf(turns).resumeAt <= time
  {
    if turns != [] {
      var n := |turns| - 1;
      assert turns == turns[..n] + [turns[n]];
      ResumeIs(turns[..n], time);
      if turns[n].Read? && turns[n].playback {
        LatestPlayback(turns[..n], turns[n]);
        if turns[n].timestamp + GUARD <= time {
          LaterIsPast(turns[..n], turns[n].timestamp + GUARD, time);
          PastMore(turns[..n], turns[n], time);
        }
      } else if PastPlayback(turns[..n], time) {
        PastMore(turns[..n], turns[n], time);
      }
      hide Monotone;
    }
  }

  /** The stabiliser is told of speech exactly if there is speech, no playback now, and the
      guard time of all playback before is over; playback that starts or ends resets it. */
  lemma SpeechPassesIff(turns: seq<Turn>, t: Turn)
    requires Monotone(turns) && t.Read? && t.timestamp >= 0.0
    ensures var events := EventsOf(GatesOf(turns), t);
            && events != [] && events[|events| - 1].Observe?
            && var o := events[|events| - 1].sample;
               && o.timestamp == t.timestamp && o.angle == t.angle
               && (o.speech <==> t.speech && !t.playback && PastPlayback(turns, t.timestamp))
    ensures Reset in EventsOf(GatesOf(turns), t) <==> t.playback != GatesOf(turns).suppressed
  {
    ResumeIs(turns, t.timestamp);
    hide PastPlayback, GatesOf, Monotone;
  }

  /** The gate remembers the last reading's playback. */
  lemma SuppressedIs(turns: seq<Turn>)
    ensures GatesOf(turns).suppressed
       <==> exists i :: 0 <= i < |turns| && turns[i].Read? && turns[i].playback
                        && forall k :: i < k < |turns| ==> !turns[k].Read?
  {
    if turns != [] {
      var n := |turns| - 1;
      SuppressedIs(turns[..n]);
    }
  }

  /** An interruption of the capture, and playback that starts or ends, discard all that was
      heard before: at most the reading itself is left. */
  lemma InterruptionForgets(turns: seq<Turn>, t: Turn, c: Config)
    requires t.Read? ==> ResetsAt(GatesOf(turns), t.playback)
    ensures var s := After(Feed(turns + [t]), c);
            && (!t.Read? ==> s.speech.None? && s.startedAt.None? && s.samples == [] && !s.detected)
            && (t.Read? ==>
                  && (s.startedAt.Some? ==> s.startedAt == Some(t.timestamp))
                  && (s.samples == [] || s.samples == [t.angle]))
  {
    FedState(turns, t, c);
    hide Feed, GatesOf, After, Judged;
  }

  // ----- the loop -----------------------------------------------------------------

  /** The loop over the rounds, ended by the first reading that the stabiliser refuses. */
  method RunLoop(turns: seq<Turn>, stabilizer: DoaStabilizer) returns (decisions: seq<Decision>, rounds: nat)
    requires stabilizer.State() == INITIAL
    modifies stabilizer
    ensures rounds <= |turns|
    ensures decisions == Decisions(Feed(turns[..rounds]), stabilizer.cfg)
    ensures stabilizer.State() == After(Feed(turns[..rounds]), stabilizer.cfg)
  {
    hide Decisions, After, Next, Feed, GatesOf, EventsOf, GatesAfter, DecisionAt;
    Nowhere(stabilizer.cfg);
    var vadActive, suppressed, resumeAt := false, false, 0.0;
    decisions := [];
    assert turns[..0] == [];
    for i := 0 to |turns|
      invariant GatesOf(turns[..i]) == Gates(vadActive, suppressed, resumeAt)
      invariant decisions == Decisions(Feed(turns[..i]), stabilizer.cfg)
      invariant stabilizer.State() == After(Feed(turns[..i]), stabilizer.cfg)
    {
      assert turns[..i + 1] == turns[..i] + [turns[i]];
      RoundDecisions(turns[..i], turns[i], stabilizer.cfg);
      var t := turns[i];
      var reply;
      vadActive, suppressed, resumeAt, reply := Round(t, vadActive, suppressed, resumeAt, stabilizer);
      if reply.Decided? { decisions := decisions + [reply.decision]; }
      if reply.OutOfRange? || reply.OutOfOrder? { return decisions, i + 1; }
    }
    assert turns[..|turns|] == turns;
    return decisions, |turns|;
  }

  lemma Nowhere(c: Config)
    ensures Decisions(Feed([]), c) == [] && After(Feed([]), c) == INITIAL && GatesOf([]) == OPEN_GATES
  {}

  /** What the stabiliser answers to an observation. */
  function ReplyTo(s: Status, o: Sample, c: Config): Reply {
    if !Stabilizer.InRange(o.angle) then OutOfRange
    else if !Taken(s, o) then OutOfOrder
    else if DecisionOf(s, o, c).Some? then Decided(DecisionOf(s, o, c).value)
    else Nothing
  }

  /** The reply, state and gates that one round leads to. */
  function BaseOf(s: Status, g: Gates, t: Turn): Status {
    if !t.Read? || ResetsAt(g, t.playback) then AfterReset(s) else s
  }

  function SampleOf(g: Gates, t: Turn): Sample
    requires t.Read?
  {
    Sample(t.timestamp, t.angle, GatesAfter(g, t).vadActive)
  }

  function RoundReply(s: Status, g: Gates, t: Turn, c: Config): Reply {
    if t.Read? then ReplyTo(BaseOf(s, g, t), SampleOf(g, t), c) else Nothing
  }

  function RoundState(s: Status, g: Gates, t: Turn, c: Config): Status {
    if t.Read? then Next(BaseOf(s, g, t), Observe(SampleOf(g, t)), c) else AfterReset(s)
  }

  lemma RoundDecisions(turns: seq<Turn>, t: Turn, c: Config)
    ensures var s, g := After(Feed(turns), c), GatesOf(turns);
            && GatesOf(turns + [t]) == GatesAfter(g, t)
            && After(Feed(turns + [t]), c) == RoundState(s, g, t, c)
            && Decisions(Feed(turns + [t]), c) == Decisions(Feed(turns), c)
                 + match RoundReply(s, g, t, c) { case Decided(d) => [d] case _ => [] }
  {
    FedState(turns, t, c);
    FeedNext(turns, t, c);
    var h, g := Feed(turns), GatesOf(turns);
    hide Feed, GatesOf, Next, DecisionOf, GatesAfter;
    ResetIs(After(h, c), c);
    if t.Read? {
      var o := Observe(SampleOf(g, t));
      DecisionsOfTwo(h, Reset, o, c);
      DecisionsOfTwo(h, o, o, c);
      assert EventsOf(g, t) == if ResetsAt(g, t.playback) then [Reset, o] else [o];
      ReplyIsDecision(BaseOf(After(h, c), g, t), SampleOf(g, t), c);
    } else {
      DecisionsOfTwo(h, Reset, Reset, c);
    }
  }

  lemma DecisionsOfTwo(h: seq<Event>, e: Event, f: Event, c: Config)
    ensures Decisions(h + [e], c) == Decisions(h, c) + DecisionAt(After(h, c), e, c)
    ensures Decisions(h + [e, f], c)
         == Decisions(h, c) + DecisionAt(After(h, c), e, c) + DecisionAt(Next(After(h, c), e, c), f, c)
  {
    hide Next, DecisionAt, After;
    DecisionsOfOne(h, e, c);
    DecisionsOfOne(h + [e], f, c);
    AfterTwo(h, e, f, c);
    assert h + [e, f] == (h + [e]) + [f];
    hide Decisions;
  }

  lemma DecisionsOfOne(h: seq<Event>, e: Event, c: Config)
    ensures Decisions(h + [e], c) == Decisions(h, c) + DecisionAt(After(h, c), e, c)
  {}

  lemma ReplyIsDecision(s: Status, o: Sample, c: Config)
    ensures DecisionAt(s, Observe(o), c) == match ReplyTo(s, o, c) { case Decided(d) => [d] case _ => [] }
  {}

  method Round(t: Turn, vadActive: bool, suppressed: bool, resumeAt: real, stabilizer: DoaStabilizer)
    returns (vad: bool, suppress: bool, resume: real, reply: Reply)
    modifies stabilizer
    ensures Gates(vad, suppress, resume) == GatesAfter(Gates(vadActive, suppressed, resumeAt), t)
    ensures reply == RoundReply(old(stabilizer.State()), Gates(vadActive, suppressed, resumeAt), t, stabilizer.cfg)
    ensures stabilizer.State()
         == RoundState(old(stabilizer.State()), Gates(vadActive, suppressed, resumeAt), t, stabilizer.cfg)
  {
    hide Next, DecisionOf;
    vad, suppress, resume, reply := vadActive, suppressed, resumeAt, Nothing;
    if !t.Read? {
      stabilizer.Reset();
      vad := false;
      return;
    }
    if t.playback {
      if !suppressed {
        stabilizer.Reset();
        vad := false;
        suppress := true;
      }
      resume := t.timestamp + GUARD;
    } else if suppressed {
      stabilizer.Reset();
      vad := false;
      suppress := false;
    }
    var speech := t.speech && !t.playback && t.timestamp >= resume;
    reply := stabilizer.Observe(Sample(t.timestamp, t.angle, speech));
    vad := speech;
  }
}
