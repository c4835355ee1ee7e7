/** The sending side over every interleaving of one send at a time with acknowledgements. */
module Sending {
  import opened Bytes
  import opened Buffers
  import opened Estimator
  import opened Protocol

  /** A send is three events, so acknowledgements may come between transmission and record. */
  datatype SendEvent =
    | Transmit(content: seq<byte>, at: real, submission: Submission)
    | Count
    | Record
    | Acknowledge(number: int, now: real)

  /** Sends do not overlap. */
  predicate Enabled(s: Sender, e: SendEvent) {
    match e
    case Transmit(_, _, _) => s.inFlight.None?
    case Count => s.inFlight.Some? && !s.inFlight.value.counted
    case Record => s.inFlight.Some? && s.inFlight.value.counted
    case Acknowledge(_, _) => true
  }

  function SendStep(s: Sender, e: SendEvent): Sender
    requires Enabled(s, e)
  {
    match e
    case Transmit(content, at, sub) => Transmitted(s, content, at, sub)
    case Count => Counted(s)
    case Record => Recorded(s)
    case Acknowledge(number, now) => Acknowledged(s, number, now)
  }

  // ---------- Conservation ----------

  ghost predicate InBuffer(s: Sender, k: int) {
    exists i :: 0 <= i < |s.outgoing| && s.outgoing[i].sequenceNumber == k
  }

  predicate BeingRecorded(s: Sender, k: int) {
    s.inFlight.Some? && s.inFlight.value.counted && k == s.inFlight.value.message.sequenceNumber
  }

  ghost predicate Increasing(ms: seq<StreamingMessage>) {
    forall i, j :: 0 <= i < j < |ms| ==> ms[i].sequenceNumber < ms[j].sequenceNumber
  }

  /** Exactly one of the four. */
  ghost predicate ExactlyOne(a: bool, b: bool, c: bool, d: bool) {
    (a || b || c || d) && !(a && b) && !(a && c) && !(a && d) && !(b && c) && !(b && d) && !(c && d)
  }

  /** Number `k` is accounted for: in exactly one place if it was used, nowhere otherwise. */
  ghost predicate Accounted(s: Sender, k: int) {
    if 0 <= k < s.next then ExactlyOne(k in s.acked, k in s.evicted, InBuffer(s, k), BeingRecorded(s, k))
    else k !in s.acked && k !in s.evicted && !InBuffer(s, k) && !BeingRecorded(s, k)
  }

  ghost predicate Conserved(s: Sender) {
    && 0 <= s.next == |s.submitted|
    && 0 < s.capacity
    && |s.outgoing| <= s.capacity
    && Increasing(s.outgoing)
    && (s.inFlight.Some? ==>
          s.inFlight.value.message.sequenceNumber == if s.inFlight.value.counted then s.next - 1 else s.next)
    && (forall k :: Accounted(s, k))
  }

  lemma PushConserves(s: Sender)
    requires Conserved(s) && s.inFlight.Some? && s.inFlight.value.counted
    ensures Conserved(Recorded(s))
  {
    var r := Recorded(s);
    var m := s.inFlight.value.message;
    forall i | 0 <= i < |s.outgoing|
      ensures s.outgoing[i].sequenceNumber < m.sequenceNumber
    {
      assert Accounted(s, s.outgoing[i].sequenceNumber);
    }
    forall k
      ensures Accounted(r, k)
    {
      assert Accounted(s, k);
      PushedContents(s, r, k);
    }
  }

  lemma PushedContents(s: Sender, r: Sender, k: int)
    requires Conserved(s) && s.inFlight.Some? && s.inFlight.value.counted && r == Recorded(s)
    ensures InBuffer(r, k) <==>
            k == s.inFlight.value.message.sequenceNumber
            || (InBuffer(s, k) && !(|s.outgoing| == s.capacity && k == s.outgoing[0].sequenceNumber))
  {
    var m := s.inFlight.value.message;
    var shift := if |s.outgoing| == s.capacity then 1 else 0;
    assert |r.outgoing| == |s.outgoing| - shift + 1 && r.outgoing[|r.outgoing| - 1] == m;
    assert forall i :: 0 <= i < |r.outgoing| - 1 ==> r.outgoing[i] == s.outgoing[i + shift];
    if InBuffer(s, k) && !(|s.outgoing| == s.capacity && k == s.outgoing[0].sequenceNumber) {
      var i :| 0 <= i < |s.outgoing| && s.outgoing[i].sequenceNumber == k;
      assert r.outgoing[i - shift] == s.outgoing[i];
    }
  }

  /** A full buffer gives up its oldest number to a new message, and otherwise none. */
  lemma EvictsOldest(s: Sender)
    requires Conserved(s) && s.inFlight.Some? && s.inFlight.value.counted
    ensures var r := Recorded(s);
            if |s.outgoing| < s.capacity then r.evicted == s.evicted
            else
              && r.evicted == s.evicted + {s.outgoing[0].sequenceNumber}
              && (forall k :: InBuffer(s, k) ==> s.outgoing[0].sequenceNumber <= k)
              && !InBuffer(r, s.outgoing[0].sequenceNumber)
  {
    if |s.outgoing| == s.capacity {
      PushedContents(s, Recorded(s), s.outgoing[0].sequenceNumber);
      assert Accounted(s, s.outgoing[0].sequenceNumber);
    }
  }

  /** The acknowledged number, if buffered, is the only thing that leaves. */
  lemma AckConserves(s: Sender, number: int, now: real)
    requires Conserved(s)
    ensures Conserved(Acknowledged(s, number, now))
  {
    var r := Acknowledged(s, number, now);
    var i := AckRemoves(s, number, now);
    if i < |s.outgoing| {
      forall k
        ensures Accounted(r, k)
      {
        assert Accounted(s, k);
        RemovedContents(s, r, i, k);
      }
    }
  }

  lemma RemovedContents(s: Sender, r: Sender, i: nat, k: int)
    requires Increasing(s.outgoing) && i < |s.outgoing| && r.outgoing == s.outgoing[..i] + s.outgoing[i + 1..]
    ensures InBuffer(r, k) <==> InBuffer(s, k) && k != s.outgoing[i].sequenceNumber
  {
    RemovedAt(s.outgoing, i, r.outgoing);
    if InBuffer(s, k) && k != s.outgoing[i].sequenceNumber {
      var j :| 0 <= j < |s.outgoing| && s.outgoing[j].sequenceNumber == k;
      assert r.outgoing[if j < i then j else j - 1] == s.outgoing[j];
    }
  }

  lemma RemovedAt(ms: seq<StreamingMessage>, i: nat, rs: seq<StreamingMessage>)
    requires i < |ms| && rs == ms[..i] + ms[i + 1..]
    ensures |rs| == |ms| - 1
    ensures forall j :: 0 <= j < |rs| ==> rs[j] == ms[if j < i then j else j + 1]
  {
  }

  /** Where the acknowledged message was; the length when there is none. */
  lemma AckRemoves(s: Sender, number: int, now: real) returns (i: nat)
    requires Increasing(s.outgoing)
    ensures i <= |s.outgoing|
    ensures i < |s.outgoing| ==>
              && s.outgoing[i].sequenceNumber == number
              && Acknowledged(s, number, now) ==
                   s.(outgoing := s.outgoing[..i] + s.outgoing[i + 1..], acked := s.acked + {number},
                      timer := Sample(s.timer, now - s.outgoing[i].lastSentTime))
    ensures i == |s.outgoing| ==> Acknowledged(s, number, now) == s && !InBuffer(s, number)
  {
    i := 0;
    while i < |s.outgoing| && s.outgoing[i].sequenceNumber != number
      invariant i <= |s.outgoing| && forall j :: 0 <= j < i ==> s.outgoing[j].sequenceNumber != number
    {
      i := i + 1;
    }
    RemoveFirstAt(s.outgoing, HasNumber(number), i);
  }

  lemma SendStepConserves(s: Sender, e: SendEvent)
    requires Conserved(s) && Enabled(s, e)
    ensures Conserved(SendStep(s, e))
  {
    match e
    case Transmit(_, _, _) =>
      var r := SendStep(s, e);
      forall k ensures Accounted(r, k) { assert Accounted(s, k); }
    case Count =>
      var r := SendStep(s, e);
      forall k ensures Accounted(r, k) { assert Accounted(s, k); }
    case Record => PushConserves(s);
    case Acknowledge(number, now) => AckConserves(s, number, now);
  }

  /** A run of enabled events. */
  ghost predicate SendRun(s: Sender, es: seq<SendEvent>, r: Sender)
    decreases |es|
  {
    if es == [] then r == s else Enabled(s, es[0]) && SendRun(SendStep(s, es[0]), es[1..], r)
  }

  /**
   Over every run, each used number is in exactly one of: acknowledged, evicted, buffered, being recorded;
   the buffer is strictly increasing and within capacity.
   */
  lemma {:induction false} RunConserves(s: Sender, es: seq<SendEvent>, r: Sender)
    requires Conserved(s) && SendRun(s, es, r)
    ensures Conserved(r)
    decreases |es|
  {
    if es != [] {
      SendStepConserves(s, es[0]);
      RunConserves(SendStep(s, es[0]), es[1..], r);
    }
  }

  // ---------- Sends that overlap ----------

  /**
   What a send does to the counter: it loads its number and, once the message is transmitted, adds one. A send that
   fails in between, because nothing can be serialized or the link is down, has loaded a number and never adds.
   */
  datatype Access = Load(fails: bool) | Add

  function Adds(es: seq<Access>): (n: nat)
    ensures n <= |es|
  {
    if es == [] then 0 else Adds(es[..|es| - 1]) + if es[|es| - 1] == Add then 1 else 0
  }

  /** The numbers of the sends that do not fail, in the order of loading. */
  function Numbered(es: seq<Access>): seq<nat> {
    if es == [] then []
    else
      var init := es[..|es| - 1];
      Numbered(init) + if es[|es| - 1] == Load(false) then [Adds(init)] else []
  }

  /** Any number of sends under way: each that adds has loaded before. */
  ghost predicate Interleaved(es: seq<Access>) {
    es == [] || (Interleaved(es[..|es| - 1]) && Adds(es) <= |Numbered(es)|)
  }

  /** A send that does not fail loads its number only when all such sends before it have added. */
  ghost predicate OneAtATime(es: seq<Access>) {
    es == [] ||
    (var init := es[..|es| - 1]; OneAtATime(init) && (es[|es| - 1] == Load(false) ==> Adds(init) == |Numbered(init)|))
  }

  ghost predicate AllDifferent(ns: seq<nat>) {
    forall i, j :: 0 <= i < j < |ns| ==> ns[i] != ns[j]
  }

  /** The i-th number is at most i and at most the counter; and it is i as long as sends do not overlap. */
  lemma {:induction false} NumbersAscend(es: seq<Access>)
    requires Interleaved(es)
    ensures var ns := Numbered(es);
            && (forall i :: 0 <= i < |ns| ==> ns[i] <= i && ns[i] <= Adds(es))
            && (forall i, j :: 0 <= i < j < |ns| ==> ns[i] <= ns[j])
            && (OneAtATime(es) <==> forall i :: 0 <= i < |ns| ==> ns[i] == i)
  {
    if es != [] {
      var init := es[..|es| - 1];
      NumbersAscend(init);
      if es[|es| - 1] == Load(false) {
        var ns := Numbered(es);
        assert ns[..|ns| - 1] == Numbered(init) && ns[|ns| - 1] == Adds(init);
        assert forall i :: 0 <= i < |ns| - 1 ==> ns[i] == Numbered(init)[i];
      } else {
        assert Numbered(es) == Numbered(init);
      }
    }
  }

  lemma {:induction false} DifferentIsStrict(ns: seq<nat>, i: nat)
    requires AllDifferent(ns) && (forall i, j :: 0 <= i < j < |ns| ==> ns[i] <= ns[j]) && i < |ns|
    ensures i <= ns[i]
  {
    if i > 0 {
      DifferentIsStrict(ns, i - 1);
      assert ns[i - 1] <= ns[i] && ns[i - 1] != ns[i];
    }
  }

  /**
   Over every interleaving of sends, no number goes out twice if and only if the sends that go through do not overlap;
   failed sends may overlap with anything.
   */
  lemma UniqueIffOneAtATime(es: seq<Access>)
    requires Interleaved(es)
    ensures AllDifferent(Numbered(es)) <==> OneAtATime(es)
  {
    NumbersAscend(es);
    var ns := Numbered(es);
    if AllDifferent(ns) {
      forall i | 0 <= i < |ns|
        ensures ns[i] == i
      {
        DifferentIsStrict(ns, i);
      }
    }
  }

  /** Two sends that overlap go out under the same number; after a failed send the number is free again. */
  lemma OverlapReusesNumber()
    ensures var es := [Load(false), Load(false), Add, Add];
            Interleaved(es) && !OneAtATime(es) && Numbered(es) == [0, 0]
    ensures var es := [Load(true), Load(false), Add];
            Interleaved(es) && OneAtATime(es) && Numbered(es) == [0]
  {
    var a: seq<Access>, b: seq<Access> := [Load(false)], [Load(true)];
    assert a[..0] == [] && b[..0] == [];
    var a2, b2 := [Load(false), Load(false)], [Load(true), Load(false)];
    assert a2[..1] == a && b2[..1] == b;
    var a3, b3 := [Load(false), Load(false), Add], [Load(true), Load(false), Add];
    assert a3[..2] == a2 && b3[..2] == b2;
    assert [Load(false), Load(false), Add, Add][..3] == a3;
  }

  // ---------- Acknowledgements are a filter ----------

  function Without(ms: seq<StreamingMessage>, numbers: set<int>): seq<StreamingMessage> {
    if ms == [] then []
    else if ms[0].sequenceNumber in numbers then Without(ms[1..], numbers)
    else [ms[0]] + Without(ms[1..], numbers)
  }

  function AckAll(s: Sender, acks: seq<(int, real)>): Sender
    decreases |acks|
  {
    if acks == [] then s else AckAll(Acknowledged(s, acks[0].0, acks[0].1), acks[1..])
  }

  function Numbers(acks: seq<(int, real)>): set<int> {
    set i | 0 <= i < |acks| :: acks[i].0
  }

  lemma {:induction false} WithoutAbsent(ms: seq<StreamingMessage>, numbers: set<int>)
    requires forall i :: 0 <= i < |ms| ==> ms[i].sequenceNumber !in numbers
    ensures Without(ms, numbers) == ms
  {
    if ms != [] {
      WithoutAbsent(ms[1..], numbers);
    }
  }

  lemma {:induction false} WithoutConcat(ms: seq<StreamingMessage>, ns: seq<StreamingMessage>, numbers: set<int>)
    ensures Without(ms + ns, numbers) == Without(ms, numbers) + Without(ns, numbers)
  {
    if ms == [] {
      assert ms + ns == ns;
    } else {
      var all, x := ms + ns, ms[0];
      assert all[0] == x && all[1..] == ms[1..] + ns;
      WithoutConcat(ms[1..], ns, numbers);
      assert Without(all, numbers) ==
             if x.sequenceNumber in numbers then Without(all[1..], numbers) else [x] + Without(all[1..], numbers);
      Prepend(x, Without(ms[1..], numbers), Without(ns, numbers));
    }
  }

  lemma Prepend<T>(x: T, a: seq<T>, b: seq<T>)
    ensures [x] + (a + b) == ([x] + a) + b
  {
  }

  /** One acknowledgement filters out its number. */
  lemma AckIsFilter(s: Sender, number: int, now: real)
    requires Increasing(s.outgoing)
    ensures Acknowledged(s, number, now).outgoing == Without(s.outgoing, {number})
  {
    var i := AckRemoves(s, number, now);
    if i == |s.outgoing| {
      WithoutAbsent(s.outgoing, {number});
    } else {
      var before, after := s.outgoing[..i], s.outgoing[i + 1..];
      assert s.outgoing == before + ([s.outgoing[i]] + after);
      WithoutConcat(before, [s.outgoing[i]] + after, {number});
      WithoutConcat([s.outgoing[i]], after, {number});
      WithoutAbsent(before, {number});
      WithoutAbsent(after, {number});
    }
  }

  lemma {:induction false} WithoutTwice(ms: seq<StreamingMessage>, a: set<int>, b: set<int>)
    ensures Without(Without(ms, a), b) == Without(ms, a + b)
  {
    if ms != [] {
      WithoutTwice(ms[1..], a, b);
    }
  }

  lemma {:induction false} WithoutAbove(ms: seq<StreamingMessage>, numbers: set<int>, low: int)
    requires forall i :: 0 <= i < |ms| ==> low < ms[i].sequenceNumber
    ensures forall i :: 0 <= i < |Without(ms, numbers)| ==> low < Without(ms, numbers)[i].sequenceNumber
  {
    if ms != [] {
      WithoutAbove(ms[1..], numbers, low);
    }
  }

  lemma {:induction false} WithoutIncreasing(ms: seq<StreamingMessage>, numbers: set<int>)
    requires Increasing(ms)
    ensures Increasing(Without(ms, numbers))
  {
    if ms != [] {
      WithoutIncreasing(ms[1..], numbers);
      WithoutAbove(ms[1..], numbers, ms[0].sequenceNumber);
    }
  }

  /** Any acknowledgements, in any order and with repeats, leave the buffer without exactly their numbers, in order. */
  lemma {:induction false} AcksAreFilter(s: Sender, acks: seq<(int, real)>)
    requires Increasing(s.outgoing)
    ensures AckAll(s, acks).outgoing == Without(s.outgoing, Numbers(acks))
    decreases |acks|
  {
    if acks == [] {
      WithoutAbsent(s.outgoing, Numbers(acks));
    } else {
      var s' := Acknowledged(s, acks[0].0, acks[0].1);
      AckIsFilter(s, acks[0].0, acks[0].1);
      WithoutIncreasing(s.outgoing, {acks[0].0});
      AcksAreFilter(s', acks[1..]);
      WithoutTwice(s.outgoing, {acks[0].0}, Numbers(acks[1..]));
      NumbersStep(acks);
    }
  }

  lemma NumbersStep(acks: seq<(int, real)>)
    requires acks != []
    ensures Numbers(acks) == {acks[0].0} + Numbers(acks[1..])
  {
    forall k | k in Numbers(acks)
      ensures k in {acks[0].0} + Numbers(acks[1..])
    {
      var i :| 0 <= i < |acks| && acks[i].0 == k;
      if i > 0 {
        assert acks[1..][i - 1].0 == k;
      }
    }
    forall k | k in Numbers(acks[1..])
      ensures k in Numbers(acks)
    {
      var i :| 0 <= i < |acks[1..]| && acks[1..][i].0 == k;
      assert acks[i + 1].0 == k;
    }
  }

  /** The front of the buffer is the oldest number that is neither acknowledged, evicted nor being recorded. */
  lemma FrontIsOldest(s: Sender, k: int)
    requires Conserved(s) && s.outgoing != []
    requires 0 <= k < s.next && k !in s.acked && k !in s.evicted && !BeingRecorded(s, k)
    ensures s.outgoing[0].sequenceNumber <= k
  {
    assert Accounted(s, k);
  }
}
