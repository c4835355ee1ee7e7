/** Which handlers a message reaches, given that the first-message handler removes itself while the list is walked. */
module Handlers {
  import opened Codec
  import opened Protocol

  function CallsOf(hs: seq<Handler>, m: ClientMessage): (cs: seq<Call>)
    ensures |cs| == |hs| && forall i :: 0 <= i < |hs| ==> cs[i] == Call(hs[i], m)
  {
    seq(|hs|, i requires 0 <= i < |hs| => Call(hs[i], m))
  }

  lemma NoMoreCalls(c: seq<Call>, hs: seq<Handler>, i: nat, m: ClientMessage)
    requires i <= |hs|
    ensures c + CallsOf(hs[i..i + 0], m) == c
  {
  }

  lemma OneMoreCall(c: seq<Call>, hs: seq<Handler>, i: nat, k: nat, m: ClientMessage)
    requires i + 1 + k <= |hs|
    ensures c + [Call(hs[i], m)] + CallsOf(hs[i + 1..i + 1 + k], m) == c + CallsOf(hs[i..i + 1 + k], m)
  {
  }

  /** The first-message handler is registered at most once. */
  ghost predicate FirstOnce(hs: seq<Handler>) {
    forall i, j :: 0 <= i < j < |hs| ==> !(hs[i] == First && hs[j] == First)
  }

  /**
   The handlers the range loop reaches. When the first-message handler removes itself, the rest of the array
   moves down under the loop: the handler after it is skipped and the last one is seen twice.
   */
  function Visited(hs: seq<Handler>): (seen: seq<Handler>)
    ensures |seen| == |hs|
  {
    var j := IndexOf(hs, First);
    if j + 1 >= |hs| then hs else hs[..j + 1] + hs[j + 2..] + [hs[|hs| - 1]]
  }

  ghost predicate Distinct(hs: seq<Handler>) {
    forall i, j :: 0 <= i < j < |hs| ==> hs[i] != hs[j]
  }

  /** Each handler sees the message exactly once exactly when at most one handler follows the first-message handler. */
  lemma VisitedOnce(hs: seq<Handler>)
    requires Distinct(hs)
    ensures multiset(Visited(hs)) == multiset(hs) <==> IndexOf(hs, First) + 2 >= |hs|
  {
    if IndexOf(hs, First) + 2 < |hs| {
      var skipped, seen := hs[IndexOf(hs, First) + 1], Visited(hs);
      SkippedIsMissing(hs);
      assert skipped in multiset(hs) && skipped !in multiset(seen);
    } else {
      VisitedInPlace(hs);
    }
  }

  /** They are then also reached in the order of the list. */
  lemma VisitedInPlace(hs: seq<Handler>)
    requires IndexOf(hs, First) + 2 >= |hs|
    ensures Visited(hs) == hs
  {
    var j := IndexOf(hs, First);
    if j + 2 == |hs| {
      assert hs == hs[..j + 1] + [hs[j + 1]];
    }
  }

  lemma SkippedIsMissing(hs: seq<Handler>)
    requires Distinct(hs) && IndexOf(hs, First) + 2 < |hs|
    ensures hs[IndexOf(hs, First) + 1] !in Visited(hs)
  {
    var j, seen := IndexOf(hs, First), Visited(hs);
    forall k | 0 <= k < |seen|
      ensures seen[k] != hs[j + 1]
    {
      if k <= j {
        assert seen[k] == hs[k];
      } else if k + 1 < |hs| {
        assert seen[k] == hs[j + 2..][k - (j + 1)] == hs[k + 1];
      } else {
        assert seen[k] == hs[k];
      }
    }
  }

  /** Every plugin is ready from call number `from` on, whatever it answered before. */
  ghost predicate PluginsReady(w: World, from: nat) {
    forall k, h, m :: from <= k ==> w.plugin(k, h, m) == Verdict(true, false)
  }

  // ---------- The walk over the list ----------

  const READY := Verdict(true, false)

  /** What the handler at index `j` answers when it is reached; `c` calls were made before the walk began. */
  function Reply(w: World, c: nat, hs: seq<Handler>, m: ClientMessage, j: nat): Verdict
    requires j < |hs|
  {
    if hs[j] == First then READY else w.plugin(c + j, hs[j], m)
  }

  /** From index `i` the walk makes `n` calls, up to the first answer that is not ready; `r` is the last answer. */
  ghost predicate Walk(w: World, c: nat, hs: seq<Handler>, m: ClientMessage, i: nat, n: nat, v: Verdict, r: Verdict) {
    && i + n <= |hs|
    && (n == 0 ==> i == |hs| && r == v)
    && (n > 0 ==> r == Reply(w, c, hs, m, i + n - 1))
    && (forall j :: i <= j < i + n - 1 ==> Reply(w, c, hs, m, j) == READY)
    && (i + n < |hs| ==> r != READY)
  }

  lemma WalkOne(w: World, c: nat, hs: seq<Handler>, m: ClientMessage, i: nat, k: nat, v: Verdict, r: Verdict)
    requires i < |hs|
    requires var a := Reply(w, c, hs, m, i);
             if a == READY then Walk(w, c, hs, m, i + 1, k, a, r) else k == 0 && r == a
    ensures Walk(w, c, hs, m, i, k + 1, v, r)
  {
    forall j | i <= j < i + k
      ensures Reply(w, c, hs, m, j) == READY
    {
    }
  }

  /** The walk from index `i` over an array without the first-message handler: its answer and the calls made. */
  ghost predicate TailWalked(w: World, c: nat, s: Session, hs: seq<Handler>, m: ClientMessage, i: nat, n: nat,
                             v: Verdict, r: (Session, Verdict))
  {
    Walk(w, c, hs, m, i, n, v, r.1) && r.0 == s.(calls := s.calls + CallsOf(hs[i..i + n], m))
  }

  lemma TailStep(w: World, c: nat, s: Session, hs: seq<Handler>, m: ClientMessage, i: nat, k: nat, v: Verdict,
                 r: (Session, Verdict))
    requires i < |hs| && hs[i] != First && |s.calls| == c + i
    requires var a := w.plugin(c + i, hs[i], m);
             var s' := s.(calls := s.calls + [Call(hs[i], m)]);
             if a == READY then TailWalked(w, c, s', hs, m, i + 1, k, a, r) else k == 0 && r == (s', a)
    ensures TailWalked(w, c, s, hs, m, i, k + 1, v, r)
  {
    WalkOne(w, c, hs, m, i, k, v, r.1);
    NoMoreCalls(s.calls + [Call(hs[i], m)], hs, i + 1, m);
    OneMoreCall(s.calls, hs, i, k, m);
  }

  /** Past the first-message handler, the loop walks the rest of the array in order. */
  lemma {:induction false} TailCalls(w: World, s: Session, backing: seq<Handler>, i: nat, v: Verdict,
                                     m: ClientMessage, r: (Session, Verdict), c: nat)
    returns (n: nat)
    requires i <= |backing| && |s.handlers| <= |backing| && |s.calls| == c + i
    requires forall j :: i <= j < |backing| ==> backing[j] != First
    requires r == DispatchFrom(w, s, backing, i, v, m)
    ensures TailWalked(w, c, s, backing, m, i, n, v, r)
    decreases |backing| - i
  {
    if i == |backing| {
      n := 0;
      NoMoreCalls(s.calls, backing, i, m);
    } else {
      var v' := w.plugin(|s.calls|, backing[i], m);
      var k := 0;
      if !v'.failed && v'.ready {
        k := TailCalls(w, s.(calls := s.calls + [Call(backing[i], m)]), backing, i + 1, v', m, r, c);
      }
      n := 1 + k;
      TailStep(w, c, s, backing, m, i, k, v, r);
    }
  }

  /** What a dispatch leaves: the calls made, and the first-message handler gone if it was among them. */
  ghost predicate After(s: Session, m: ClientMessage, i: nat, n: nat, r: Session)
    requires i + n <= |s.handlers|
  {
    r == (if IndexOf(s.handlers, First) < i + n then InvokeFirst(s, m) else s)
         .(calls := s.calls + CallsOf(Visited(s.handlers)[i..i + n], m))
  }

  /** What the loop finds from the first-message handler on: the next handlers, one place early, and the last again. */
  lemma ShiftedAt(hs: seq<Handler>, j: nat, k: nat)
    requires j == IndexOf(hs, First) && j < k < |hs|
    ensures Shifted(hs, |hs|, First)[k] == Visited(hs)[k] == hs[if k + 1 < |hs| then k + 1 else k]
  {
    var n := |hs|;
    assert hs[..n] == hs;
    assert Shifted(hs, n, First) == hs[..j] + hs[j + 1..n] + hs[n - 1..];
    if k + 1 < n {
      assert Visited(hs)[k] == hs[j + 2..][k - (j + 1)];
      assert (hs[..j] + hs[j + 1..n])[k] == hs[j + 1..n][k - j];
    } else {
      assert Visited(hs)[k] == hs[n - 1] == hs[n - 1..][0];
    }
  }

  lemma VisitedAt(hs: seq<Handler>, i: nat)
    requires i < |hs|
    ensures i <= IndexOf(hs, First) ==> Visited(hs)[i] == hs[i]
    ensures i == IndexOf(hs, First) ==> Shifted(hs, |hs|, First)[i + 1..] == Visited(hs)[i + 1..]
    ensures i == IndexOf(hs, First) && FirstOnce(hs) ==>
              forall j :: i < j < |hs| ==> Shifted(hs, |hs|, First)[j] != First
  {
    if i == IndexOf(hs, First) {
      forall k | i < k < |hs|
        ensures Shifted(hs, |hs|, First)[k] == Visited(hs)[k] == hs[if k + 1 < |hs| then k + 1 else k]
      {
        ShiftedAt(hs, i, k);
      }
    }
  }

  lemma AfterFirst(s: Session, m: ClientMessage, j: nat, k: nat, r: Session)
    requires j == IndexOf(s.handlers, First) && j + 1 + k <= |s.handlers|
    requires r == InvokeFirst(s, m).(calls := s.calls + [Call(First, m)] +
                                              CallsOf(Shifted(s.handlers, |s.handlers|, First)[j + 1..j + 1 + k], m))
    ensures After(s, m, j, k + 1, r)
  {
    SameTail(s.handlers, j, k);
    OneMoreCall(s.calls, Visited(s.handlers), j, k, m);
  }

  /** The walk starts with the first-message handler and goes on in the shifted array. */
  lemma SameTail(hs: seq<Handler>, j: nat, k: nat)
    requires j == IndexOf(hs, First) && j + 1 + k <= |hs|
    ensures Visited(hs)[j] == First
    ensures Shifted(hs, |hs|, First)[j + 1..j + 1 + k] == Visited(hs)[j + 1..j + 1 + k]
  {
    VisitedAt(hs, j);
    SameSlice(Shifted(hs, |hs|, First), Visited(hs), j + 1, k);
  }

  lemma SameSlice(hs: seq<Handler>, gs: seq<Handler>, i: nat, n: nat)
    requires i + n <= |hs| == |gs| && hs[i..] == gs[i..]
    ensures hs[i..i + n] == gs[i..i + n]
  {
    assert hs[i..i + n] == hs[i..][..n];
    assert gs[i..i + n] == gs[i..][..n];
  }

  /** The walk from index `i` over the visited handlers of `s`: its answer and what it leaves. */
  ghost predicate Walked(w: World, c: nat, s: Session, m: ClientMessage, i: nat, n: nat, v: Verdict,
                         r: (Session, Verdict))
  {
    // one proof obligation rather than one per part
    var parts := Walk(w, c, Visited(s.handlers), m, i, n, v, r.1) && After(s, m, i, n, r.0);
    parts
  }

  lemma FirstRemovesItself(w: World, s: Session, j: nat, v: Verdict, m: ClientMessage)
    requires j < |s.handlers| && s.handlers[j] == First
    ensures DispatchFrom(w, s, s.handlers, j, v, m) ==
            DispatchFrom(w, InvokeFirst(s, m), Shifted(s.handlers, |s.handlers|, First), j + 1, READY, m)
  {
  }

  lemma AtFirst(w: World, s: Session, j: nat, v: Verdict, m: ClientMessage, r: (Session, Verdict), c: nat)
    returns (n: nat)
    requires FirstOnce(s.handlers) && j == IndexOf(s.handlers, First) < |s.handlers| && |s.calls| == c + j
    requires r == DispatchFrom(w, s, s.handlers, j, v, m)
    ensures Walked(w, c, s, m, j, n, v, r)
  {
    FirstRemovesItself(w, s, j, v, m);
    VisitedAt(s.handlers, j);
    var k := TailCalls(w, InvokeFirst(s, m), Shifted(s.handlers, |s.handlers|, First), j + 1, READY, m, r, c);
    n := k + 1;
    FirstStep(w, c, s, m, j, k, v, r);
  }

  lemma FirstStep(w: World, c: nat, s: Session, m: ClientMessage, j: nat, k: nat, v: Verdict, r: (Session, Verdict))
    requires j == IndexOf(s.handlers, First) < |s.handlers|
    requires TailWalked(w, c, InvokeFirst(s, m), Shifted(s.handlers, |s.handlers|, First), m, j + 1, k, READY, r)
    ensures Walked(w, c, s, m, j, k + 1, v, r)
  {
    AfterFirst(s, m, j, k, r.0);
    WalkAtFirst(w, c, s.handlers, m, j, k, v, r.1);
  }

  lemma WalkAtFirst(w: World, c: nat, hs: seq<Handler>, m: ClientMessage, j: nat, k: nat, v: Verdict, r: Verdict)
    requires j == IndexOf(hs, First) < |hs| && Walk(w, c, Shifted(hs, |hs|, First), m, j + 1, k, READY, r)
    ensures Walk(w, c, Visited(hs), m, j, k + 1, v, r)
  {
    ShiftedWalk(w, c, hs, m, j, k, r);
    VisitedAt(hs, j);
    assert Reply(w, c, Visited(hs), m, j) == READY;
    WalkOne(w, c, Visited(hs), m, j, k, v, r);
  }

  lemma ShiftedWalk(w: World, c: nat, hs: seq<Handler>, m: ClientMessage, j: nat, k: nat, r: Verdict)
    requires j == IndexOf(hs, First) < |hs| && Walk(w, c, Shifted(hs, |hs|, First), m, j + 1, k, READY, r)
    ensures Walk(w, c, Visited(hs), m, j + 1, k, READY, r)
  {
    VisitedAt(hs, j);
    WalkSame(w, c, Shifted(hs, |hs|, First), Visited(hs), m, j + 1, k, READY, r);
  }

  lemma WalkSame(w: World, c: nat, hs: seq<Handler>, gs: seq<Handler>, m: ClientMessage, i: nat, n: nat,
                 v: Verdict, r: Verdict)
    requires |hs| == |gs| && i <= |hs| && hs[i..] == gs[i..] && Walk(w, c, hs, m, i, n, v, r)
    ensures Walk(w, c, gs, m, i, n, v, r)
  {
    forall j | i <= j < |hs|
      ensures hs[j] == gs[j]
    {
      assert hs[j] == hs[i..][j - i] && gs[j] == gs[i..][j - i];
    }
    forall j | i <= j < i + n - 1
      ensures Reply(w, c, gs, m, j) == READY
    {
      assert Reply(w, c, hs, m, j) == READY;
    }
  }

  lemma {:induction false} LoopCalls(w: World, s: Session, i: nat, v: Verdict, m: ClientMessage,
                                     r: (Session, Verdict), c: nat)
    returns (n: nat)
    requires FirstOnce(s.handlers) && i <= IndexOf(s.handlers, First) && |s.calls| == c + i
    requires r == DispatchFrom(w, s, s.handlers, i, v, m)
    ensures Walked(w, c, s, m, i, n, v, r)
    decreases |s.handlers| - i
  {
    if i == |s.handlers| {
      n := 0;
      WalkedNone(w, c, s, m, i, v, r);
    } else if i == IndexOf(s.handlers, First) {
      n := AtFirst(w, s, i, v, m, r, c);
    } else {
      PluginTurn(w, c, s, i, v, m);
      var v' := w.plugin(c + i, s.handlers[i], m);
      var k := 0;
      if v' == READY {
        k := LoopCalls(w, s.(calls := s.calls + [Call(s.handlers[i], m)]), i + 1, v', m, r, c);
      }
      n := k + 1;
      PluginStep(w, c, s, m, i, k, v, r);
    }
  }

  lemma WalkedNone(w: World, c: nat, s: Session, m: ClientMessage, i: nat, v: Verdict, r: (Session, Verdict))
    requires i == |s.handlers| == IndexOf(s.handlers, First) && r == (s, v)
    ensures Walked(w, c, s, m, i, 0, v, r)
  {
    NoCalls(s, m, i);
  }

  lemma PluginTurn(w: World, c: nat, s: Session, i: nat, v: Verdict, m: ClientMessage)
    requires i < |s.handlers| && s.handlers[i] != First && |s.calls| == c + i
    ensures var a := w.plugin(c + i, s.handlers[i], m);
            var s' := s.(calls := s.calls + [Call(s.handlers[i], m)]);
            DispatchFrom(w, s, s.handlers, i, v, m) ==
            if a == READY then DispatchFrom(w, s', s.handlers, i + 1, a, m) else (s', a)
  {
  }

  lemma PluginStep(w: World, c: nat, s: Session, m: ClientMessage, i: nat, k: nat, v: Verdict, r: (Session, Verdict))
    requires i < IndexOf(s.handlers, First) && |s.calls| == c + i
    requires var a := w.plugin(c + i, s.handlers[i], m);
             var s' := s.(calls := s.calls + [Call(s.handlers[i], m)]);
             if a == READY then Walked(w, c, s', m, i + 1, k, a, r) else k == 0 && r == (s', a)
    ensures Walked(w, c, s, m, i, k + 1, v, r)
  {
    var s' := s.(calls := s.calls + [Call(s.handlers[i], m)]);
    WalkStep(w, c, s.handlers, m, i, k, v, r.1);
    NoCalls(s', m, i + 1);
    AfterStep(s, m, i, k, r.0);
  }

  lemma WalkStep(w: World, c: nat, hs: seq<Handler>, m: ClientMessage, i: nat, k: nat, v: Verdict, r: Verdict)
    requires i < IndexOf(hs, First)
    requires var a := w.plugin(c + i, hs[i], m);
             if a == READY then Walk(w, c, Visited(hs), m, i + 1, k, a, r) else k == 0 && r == a
    ensures Walk(w, c, Visited(hs), m, i, k + 1, v, r)
  {
    VisitedAt(hs, i);
    WalkOne(w, c, Visited(hs), m, i, k, v, r);
  }

  lemma NoCalls(s: Session, m: ClientMessage, i: nat)
    requires i <= |s.handlers| && i <= IndexOf(s.handlers, First)
    ensures After(s, m, i, 0, s)
  {
    NoMoreCalls(s.calls, Visited(s.handlers), i, m);
  }

  lemma AfterStep(s: Session, m: ClientMessage, i: nat, k: nat, r: Session)
    requires i < IndexOf(s.handlers, First) && i + 1 + k <= |s.handlers|
    requires After(s.(calls := s.calls + [Call(s.handlers[i], m)]), m, i + 1, k, r)
    ensures After(s, m, i, k + 1, r)
  {
    VisitedAt(s.handlers, i);
    OneMoreCall(s.calls, Visited(s.handlers), i, k, m);
  }

  /** Messages are being dispatched: no session type is known yet, or its own handler has been registered. */
  predicate Open(s: Session) {
    s.sessionType == Unset || s.specificHandlerSet
  }

  /** A handler is there to take a message: checkable before it arrives. */
  predicate Attended(s: Session) {
    s.handlers != [] && Open(s)
  }

  /**
   A dispatch walks the visited handlers up to the first one that is not ready, with exactly these calls and
   that handler's answer; when the session is not open it does nothing.
   */
  lemma DispatchCalls(w: World, s: Session, m: ClientMessage) returns (n: nat)
    requires FirstOnce(s.handlers)
    ensures n <= |s.handlers|
    ensures After(s, m, 0, n, Dispatch(w, s, m).0)
    ensures FirstOnce(Dispatch(w, s, m).0.handlers)
    ensures Open(s) ==>
              Walk(w, |s.calls|, Visited(s.handlers), m, 0, n, Verdict(false, false), Dispatch(w, s, m).1)
    ensures !Open(s) ==> n == 0 && Dispatch(w, s, m) == (s, Verdict(false, false))
    ensures PluginsReady(w, |s.calls|) && Open(s) ==> n == |s.handlers|
  {
    if !Open(s) {
      n := 0;
      NoMoreCalls(s.calls, Visited(s.handlers), 0, m);
    } else {
      n := LoopCalls(w, s, 0, Verdict(false, false), m, Dispatch(w, s, m), |s.calls|);
      RemovedIsGone(s.handlers);
    }
  }

  /**
   With every plugin ready, the channel's own configuration (the first-message handler followed by at most one
   plugin) has each handler called exactly once for the message, and the first-message handler never again.
   */
  lemma EachHandlerOnce(w: World, s: Session, m: ClientMessage)
    requires Distinct(s.handlers) && IndexOf(s.handlers, First) + 2 >= |s.handlers|
    requires PluginsReady(w, |s.calls|) && Open(s)
    ensures Dispatch(w, s, m).0.calls == s.calls + CallsOf(s.handlers, m)
    ensures First !in Dispatch(w, s, m).0.handlers
  {
    VisitedInPlace(s.handlers);
    var n := DispatchCalls(w, s, m);
    assert s.handlers[0..n] == s.handlers;
    RemovedIsGone(s.handlers);
  }

  lemma RemovedIsGone(hs: seq<Handler>)
    requires FirstOnce(hs)
    ensures First !in Removed(hs, First) && FirstOnce(Removed(hs, First))
  {
  }

  /** With two plugins behind it, the first of them misses the message and the second gets it twice. */
  lemma TwoPluginsMisdelivered(w: World, s: Session, m: ClientMessage)
    requires s.handlers == [First, Plugin(0), Plugin(1)] && s.sessionType == Unset && PluginsReady(w, |s.calls|)
    ensures Dispatch(w, s, m).0.calls == s.calls + [Call(First, m), Call(Plugin(1), m), Call(Plugin(1), m)]
  {
    var n := DispatchCalls(w, s, m);
    assert Visited(s.handlers) == [First, Plugin(1), Plugin(1)];
    assert CallsOf(Visited(s.handlers)[0..3], m) == [Call(First, m), Call(Plugin(1), m), Call(Plugin(1), m)];
  }

  // ---------- For any handler list ----------

  predicate SameEncryption(s: Session, r: Session) {
    s.encrypter == r.encrypter && s.encryptionEnabled == r.encryptionEnabled
  }

  /** What handlers leave alone: the negotiated encryption and agent version, and a session type that is set. */
  predicate Unnegotiated(before: Session, after: Session) {
    && SameEncryption(before, after)
    && after.agentVersion == before.agentVersion
    && (before.sessionType != Unset ==> after.sessionType == before.sessionType)
  }

  /** `after` has more calls than `before`, if any, and all the new ones carry `m`. */
  ghost predicate Extends(before: seq<Call>, after: seq<Call>, m: ClientMessage) {
    before <= after && forall j :: |before| <= j < |after| ==> after[j].message == m
  }

  lemma {:induction false} DispatchFromExtends(w: World, s: Session, backing: seq<Handler>, i: nat, v: Verdict,
                                               m: ClientMessage, r: (Session, Verdict))
    requires i <= |backing| && |s.handlers| <= |backing| && r == DispatchFrom(w, s, backing, i, v, m)
    ensures Unnegotiated(s, r.0) && Extends(s.calls, r.0.calls, m)
    ensures i < |backing| ==> s.calls + [Call(backing[i], m)] <= r.0.calls
    decreases |backing| - i
  {
    if i < |backing| {
      if backing[i] == First {
        DispatchFromExtends(w, InvokeFirst(s, m), Shifted(backing, |s.handlers|, First), i + 1, READY, m, r);
      } else {
        var v' := w.plugin(|s.calls|, backing[i], m);
        if !v'.failed && v'.ready {
          DispatchFromExtends(w, s.(calls := s.calls + [Call(backing[i], m)]), backing, i + 1, v', m, r);
        }
      }
    }
  }

  /** A message reaches a handler exactly when the session is attended, and the first in the list then sees it. */
  lemma DispatchExtends(w: World, s: Session, m: ClientMessage)
    ensures var r := Dispatch(w, s, m).0;
            && Unnegotiated(s, r) && Extends(s.calls, r.calls, m)
            && (Attended(s) ==> s.calls + [Call(s.handlers[0], m)] <= r.calls)
            && (!Attended(s) ==> r == s)
  {
    if Open(s) {
      DispatchFromExtends(w, s, s.handlers, 0, Verdict(false, false), m, Dispatch(w, s, m));
    }
  }

  /** The same for a message that has to be opened first. */
  lemma HandOverExtends(w: World, s: Session, m: ClientMessage)
    ensures Unnegotiated(s, HandOver(w, s, m).0) && s.calls <= HandOver(w, s, m).0.calls
    ensures Opened(w, s, m).Ok? ==>
              var r, plain := HandOver(w, s, m).0, Opened(w, s, m).value;
              && Extends(s.calls, r.calls, plain)
              && (Attended(s) ==> s.calls + [Call(s.handlers[0], plain)] <= r.calls)
              && (!Attended(s) ==> r == s)
  {
    if Opened(w, s, m).Ok? {
      DispatchExtends(w, s, Opened(w, s, m).value);
    }
  }

  // ---------- Registration and the session type ----------

  /**
   A registration appends the handler; afterwards the session is attended exactly when the handler is session
   specific or no session type is known yet.
   */
  lemma RegistrationOpens(w: World, s: State, h: Handler, specific: bool)
    requires Keyed(s.incoming)
    ensures var r := Step(w, s, Register(h, specific)).session;
            && r.handlers == s.session.handlers + [h]
            && (Attended(r) <==> specific || s.session.sessionType == Unset)
            && r == s.session.(handlers := r.handlers, specificHandlerSet := specific)
  {
  }

  lemma {:induction false} LoopType(w: World, s: Session, backing: seq<Handler>, i: nat, v: Verdict, m: ClientMessage,
                                    r: (Session, Verdict))
    requires i <= |backing| && |s.handlers| <= |backing| && r == DispatchFrom(w, s, backing, i, v, m)
    ensures r.0.sessionType == s.sessionType
            || (s.sessionType == Unset && m.payloadType == 1 && r.0.sessionType == StandardStream)
    ensures s.sessionType == Unset && m.payloadType == 1 && i < |backing| && backing[i] == First ==>
              r.0.sessionType == StandardStream
    decreases |backing| - i
  {
    if i < |backing| {
      if backing[i] == First {
        LoopType(w, InvokeFirst(s, m), Shifted(backing, |s.handlers|, First), i + 1, READY, m, r);
      } else {
        var v' := w.plugin(|s.calls|, backing[i], m);
        if !v'.failed && v'.ready {
          LoopType(w, s.(calls := s.calls + [Call(backing[i], m)]), backing, i + 1, v', m, r);
        }
      }
    }
  }

  /** A message decides the session type only as output when none was negotiated: the session is then a shell. */
  lemma FirstMessageDecides(w: World, s: Session, m: ClientMessage)
    ensures var r := Dispatch(w, s, m).0;
            && (r.sessionType != s.sessionType ==>
                  s.sessionType == Unset && m.payloadType == 1 && r.sessionType == StandardStream)
            && (s.sessionType == Unset && m.payloadType == 1 && s.handlers != [] && s.handlers[0] == First ==>
                  r.sessionType == StandardStream)
  {
    if Open(s) {
      LoopType(w, s, s.handlers, 0, Verdict(false, false), m, Dispatch(w, s, m));
    }
  }

  /** Deregistering takes out the first occurrence, at index `i`, and nothing else. */
  lemma RemovedOne(hs: seq<Handler>, h: Handler) returns (i: nat)
    ensures i <= |hs| && h !in hs[..i]
    ensures if i < |hs| then hs[i] == h && Removed(hs, h) == hs[..i] + hs[i + 1..] else Removed(hs, h) == hs
  {
    i := IndexOf(hs, h);
  }
}
