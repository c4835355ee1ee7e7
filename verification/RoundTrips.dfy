/** Arriving acknowledgements: what they remove, and the round trips the timer is fed with. */
module RoundTrips {
  import opened Wrappers
  import opened Bytes
  import opened Codec
  import opened Estimator
  import opened Protocol
  import opened Sending
  import opened History
  import opened Outgoing

  /** The number an event acknowledges: that in the content of a valid acknowledgement. */
  function Named(w: World, e: Event): Option<int> {
    if e.Arrive? && w.decode(e.raw).Ok? && w.validate(w.decode(e.raw).value)
       && w.decode(e.raw).value.messageType == ACKNOWLEDGE
    then w.parseAck(w.decode(e.raw).value.payload) else None
  }

  /** The buffered message with this number, by its index; the length if there is none. */
  lemma Entry(ms: seq<StreamingMessage>, k: int) returns (i: nat)
    ensures i <= |ms| && (i < |ms| ==> ms[i].sequenceNumber == k)
    ensures forall j :: 0 <= j < i ==> ms[j].sequenceNumber != k
  {
    i := 0;
    while i < |ms| && ms[i].sequenceNumber != k
      invariant i <= |ms| && forall j :: 0 <= j < i ==> ms[j].sequenceNumber != k
    {
      i := i + 1;
    }
  }

  /**
   An arriving acknowledgement takes exactly the message with the number it names out of the buffer and feeds the
   timer with the time since that message was sent; nothing else changes, and nothing at all if there is no such
   message.
   */
  lemma AcknowledgementArrives(w: World, s: State, e: Event, k: int)
    requires Keyed(s.incoming) && !s.failed && Increasing(s.sender.outgoing) && Named(w, e) == Some(k)
    ensures var r := Step(w, s, e);
            && r == s.(sender := r.sender)
            && r.sender.outgoing == Without(s.sender.outgoing, {k})
            && (!InBuffer(s.sender, k) ==> r == s)
            && forall i :: 0 <= i < |s.sender.outgoing| && s.sender.outgoing[i].sequenceNumber == k ==>
                 r.sender == s.sender.(outgoing := r.sender.outgoing, acked := s.sender.acked + {k},
                                       timer := Sample(s.sender.timer, e.now - s.sender.outgoing[i].lastSentTime))
  {
    AckIsFilter(s.sender, k, e.now);
    var i := AckRemoves(s.sender, k, e.now);
    assert Step(w, s, e) == s.(sender := Acknowledged(s.sender, k, e.now));
  }

  /** An acknowledgement whose content does not parse ends the listener. */
  lemma UnreadableAcknowledgement(w: World, s: State, e: Event)
    requires Keyed(s.incoming) && !s.failed && e.Arrive? && Named(w, e).None?
    requires w.decode(e.raw).Ok? && w.validate(w.decode(e.raw).value)
    requires w.decode(e.raw).value.messageType == ACKNOWLEDGE
    ensures Step(w, s, e) == Fail(s)
  {
  }

  /** Nothing else acknowledges or feeds the timer, and what was submitted stays. */
  lemma OnlyAcknowledgements(w: World, s: State, e: Event)
    requires Keyed(s.incoming)
    ensures s.sender.submitted <= Step(w, s, e).sender.submitted
    ensures Named(w, e).None? || s.failed ==>
              Step(w, s, e).sender.acked == s.sender.acked && Step(w, s, e).sender.timer == s.sender.timer
  {
    if !s.failed && OutputOf(w, e).Some? {
      OutputOnlySends(w, s, OutputOf(w, e).value, e.raw, e.now);
    } else if !s.failed && Named(w, e).Some? {
      assert Step(w, s, e).sender == Acknowledged(s.sender, Named(w, e).value, e.now);
    }
  }

  lemma OutputOnlySends(w: World, s: State, m: ClientMessage, raw: seq<byte>, now: real)
    requires Keyed(s.incoming)
    ensures OnlySent(s, HandleOutput(w, s, m, raw, now))
  {
  }

  /** Only numbers that an arrived acknowledgement named are ever taken as acknowledged. */
  lemma {:induction false} AcknowledgedWereNamed(w: World, s: State, es: seq<Event>, k: int)
    requires Keyed(s.incoming) && k in Run(w, s, es).sender.acked && k !in s.sender.acked
    ensures exists i :: 0 <= i < |es| && Named(w, es[i]) == Some(k)
    decreases |es|
  {
    var s' := Step(w, s, es[0]);
    if k in s'.sender.acked {
      OnlyAcknowledgements(w, s, es[0]);
      NewlyAcknowledged(w, s, es[0], k);
    } else {
      AcknowledgedWereNamed(w, s', es[1..], k);
      var i :| 0 <= i < |es| - 1 && Named(w, es[1..][i]) == Some(k);
      assert Named(w, es[i + 1]) == Some(k);
    }
  }

  lemma NewlyAcknowledged(w: World, s: State, e: Event, k: int)
    requires Keyed(s.incoming) && k in Step(w, s, e).sender.acked && k !in s.sender.acked
    ensures Named(w, e) == Some(k)
  {
    OnlyAcknowledgements(w, s, e);
  }

  /** `trip` is the time from sending some message to the arrival of an acknowledgement that names it. */
  ghost predicate IsRoundTrip(w: World, r: Sender, es: seq<Event>, trip: real) {
    exists i, k :: 0 <= i < |es| && 0 <= k < |r.submitted| && es[i].Arrive? && Named(w, es[i]) == Some(k)
                   && trip == es[i].now - r.submitted[k].at
  }

  /** Over every run the timer has been fed with round trips, from sending to acknowledgement, and with nothing else. */
  lemma {:induction false} TimerSamplesRoundTrips(w: World, s: State, es: seq<Event>) returns (trips: seq<real>)
    requires Faithful(w) && SenderInv(w, s) && Keyed(s.incoming)
    ensures Run(w, s, es).sender.timer == Samples(s.sender.timer, trips)
    ensures forall j :: 0 <= j < |trips| ==> IsRoundTrip(w, Run(w, s, es).sender, es, trips[j])
    decreases |es|
  {
    trips := [];
    if es != [] {
      var s' := Step(w, s, es[0]);
      StepKeepsSender(w, s, es[0]);
      var rest := TimerSamplesRoundTrips(w, s', es[1..]);
      var r := Run(w, s, es).sender;
      forall j | 0 <= j < |rest|
        ensures IsRoundTrip(w, r, es, rest[j])
      {
        LaterRoundTrip(w, r, es, rest[j]);
      }
      var first := OneRoundTrip(w, s, es[0]);
      SubmittedGrows(w, s, es);
      if first.Some? {
        trips := [first.value] + rest;
        FirstRoundTrip(w, s.sender, r, es, first.value);
      } else {
        trips := rest;
      }
    }
  }

  lemma LaterRoundTrip(w: World, r: Sender, es: seq<Event>, trip: real)
    requires es != [] && IsRoundTrip(w, r, es[1..], trip)
    ensures IsRoundTrip(w, r, es, trip)
  {
    var i, k :| 0 <= i < |es| - 1 && 0 <= k < |r.submitted| && es[1..][i].Arrive? && Named(w, es[1..][i]) == Some(k)
                && trip == es[1..][i].now - r.submitted[k].at;
    assert es[i + 1] == es[1..][i];
  }

  lemma FirstRoundTrip(w: World, s: Sender, r: Sender, es: seq<Event>, trip: real)
    requires es != [] && s.submitted <= r.submitted && IsRoundTrip(w, s, [es[0]], trip)
    ensures IsRoundTrip(w, r, es, trip)
  {
    var i, k :| 0 <= i < 1 && 0 <= k < |s.submitted| && [es[0]][i].Arrive? && Named(w, [es[0]][i]) == Some(k)
                && trip == [es[0]][i].now - s.submitted[k].at;
    assert es[0] == [es[0]][i] && r.submitted[k] == s.submitted[k];
  }

  /** The round trip one event feeds the timer with, if any. */
  lemma OneRoundTrip(w: World, s: State, e: Event) returns (trip: Option<real>)
    requires SenderInv(w, s) && Keyed(s.incoming)
    ensures match trip
            case None => Step(w, s, e).sender.timer == s.sender.timer
            case Some(t) =>
              Step(w, s, e).sender.timer == Sample(s.sender.timer, t) && IsRoundTrip(w, s.sender, [e], t)
  {
    trip := None;
    OnlyAcknowledgements(w, s, e);
    if Named(w, e).Some? && !s.failed {
      var k := Named(w, e).value;
      AcknowledgementArrives(w, s, e, k);
      var i := Entry(s.sender.outgoing, k);
      if i < |s.sender.outgoing| {
        var entry := s.sender.outgoing[i];
        assert EntryOk(w, s.sender, entry);
        trip := Some(e.now - entry.lastSentTime);
        assert [e][0] == e;
      }
    }
  }

  lemma {:induction false} SubmittedGrows(w: World, s: State, es: seq<Event>)
    requires Keyed(s.incoming)
    ensures s.sender.submitted <= Run(w, s, es).sender.submitted
    decreases |es|
  {
    if es != [] {
      OnlyAcknowledgements(w, s, es[0]);
      SubmittedGrows(w, Step(w, s, es[0]), es[1..]);
    }
  }

  /**
   In every reachable state: the timer is that of a fresh channel (an average of 100 ms, no variation, a timeout of
   200 ms) fed with round trips.
   */
  lemma TimerFromTheStart(w: World, sha: Sha, inCap: nat, outCap: nat, es: seq<Event>) returns (trips: seq<real>)
    requires RealCodec(w, sha) && outCap > 0
    ensures var r := Run(w, Initial(inCap, outCap), es).sender;
            && r.timer == Samples(Timer(100.0, 0.0, 200.0), trips)
            && forall j :: 0 <= j < |trips| ==> IsRoundTrip(w, r, es, trips[j])
  {
    RealIsFaithful(w, sha);
    InitialSender(w, inCap, outCap);
    trips := TimerSamplesRoundTrips(w, Initial(inCap, outCap), es);
  }
}
