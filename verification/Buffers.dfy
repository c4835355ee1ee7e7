/** The two bounded message buffers of the `datachannel` package. */
module Buffers {
  import opened Wrappers

  // ---------- Specification ----------

  /** The list after removing its first element that satisfies `p`. */
  function RemoveFirst<T>(s: seq<T>, p: T -> bool): seq<T> {
    if s == [] then [] else if p(s[0]) then s[1..] else [s[0]] + RemoveFirst(s[1..], p)
  }

  function Find<T>(s: seq<T>, p: T -> bool): Option<T> {
    if s == [] then None else if p(s[0]) then Some(s[0]) else Find(s[1..], p)
  }

  /** The list after pushing to the back, the oldest element making room when it is full. */
  function Pushed<T>(s: seq<T>, capacity: nat, item: T): seq<T> {
    (if |s| == capacity && s != [] then s[1..] else s) + [item]
  }

  lemma {:induction false} RemoveFirstAt<T>(s: seq<T>, p: T -> bool, i: nat)
    requires i <= |s| && forall j :: 0 <= j < i ==> !p(s[j])
    requires i < |s| ==> p(s[i])
    ensures i < |s| ==> RemoveFirst(s, p) == s[..i] + s[i + 1..] && Find(s, p) == Some(s[i])
    ensures i == |s| ==> RemoveFirst(s, p) == s && Find(s, p) == None
  {
    if i > 0 {
      RemoveFirstAt(s[1..], p, i - 1);
      assert i < |s| ==> s[1..][..i - 1] == s[1..i];
      assert s == [s[0]] + s[1..];
    }
  }

  lemma {:induction false} RemoveNone<T>(s: seq<T>, p: T -> bool)
    ensures Find(s, p).None? ==> RemoveFirst(s, p) == s
  {
    if s != [] {
      RemoveNone(s[1..], p);
    }
  }

  // ---------- The code ----------

  /** Outgoing messages in arrival order; a list in the source. */
  class ListMessageBuffer<T> {
    var messages: seq<T>
    const capacity: nat

    ghost predicate Valid()
      reads this
    {
      |messages| <= capacity
    }

    constructor (capacity: nat)
      ensures Valid() && messages == [] && this.capacity == capacity
    {
      this.capacity := capacity;
      messages := [];
    }

    /** A copy of the oldest element. */
    method Front() returns (item: Option<T>)
      ensures item == if messages == [] then None else Some(messages[0])
    {
      if |messages| == 0 {
        return None;
      }
      return Some(messages[0]);
    }

    /** With a capacity of zero the list is full and empty at once, and removing its front panics. */
    method ForcePushBack(item: T) returns (r: Result<()>)
      requires Valid()
      modifies this
      ensures Valid() && (r.Ok? <==> capacity > 0) && (r.Err? ==> r.error == Panic)
      ensures messages == if r.Ok? then Pushed(old(messages), capacity, item) else old(messages)
    {
      if |messages| == capacity {
        if |messages| == 0 {
          return Err(Panic);
        }
        messages := messages[1..];
      }
      messages := messages + [item];
      return Ok(());
    }

    method RemoveIf(p: T -> bool) returns (item: Option<T>)
      requires Valid()
      modifies this
      ensures Valid()
      ensures messages == RemoveFirst(old(messages), p) && item == Find(old(messages), p)
    {
      var i := 0;
      while i < |messages|
        invariant i <= |messages| && messages == old(messages)
        invariant forall j :: 0 <= j < i ==> !p(messages[j])
      {
        if p(messages[i]) {
          RemoveFirstAt(messages, p, i);
          item := Some(messages[i]);
          messages := messages[..i] + messages[i + 1..];
          return;
        }
        i := i + 1;
      }
      RemoveFirstAt(messages, p, i);
      item := None;
    }
  }

  /** Incoming messages that are ahead of their turn; a map in the source. */
  class MapMessageBuffer<K(==), V> {
    var messages: map<K, V>
    const capacity: nat

    ghost predicate Valid()
      reads this
    {
      |messages| <= capacity
    }

    constructor (capacity: nat)
      ensures Valid() && messages == map[] && this.capacity == capacity
    {
      this.capacity := capacity;
      messages := map[];
    }

    method Get(key: K) returns (item: Option<V>)
      ensures item == if key in messages then Some(messages[key]) else None
    {
      item := if key in messages then Some(messages[key]) else None;
    }

    /** A full buffer refuses even to overwrite a key it holds. */
    method SetUnlessFull(key: K, item: V) returns (done: bool)
      requires Valid()
      modifies this
      ensures Valid()
      ensures done == (|old(messages)| != capacity)
      ensures messages == if done then old(messages)[key := item] else old(messages)
    {
      if |messages| == capacity {
        return false;
      }
      assert |messages[key := item]| <= |messages| + 1 by {
        assert messages[key := item].Keys == messages.Keys + {key};
      }
      messages := messages[key := item];
      return true;
    }

    method Remove(key: K) returns (item: Option<V>)
      requires Valid()
      modifies this
      ensures Valid() && messages == old(messages) - {key}
      ensures item == if key in old(messages) then Some(old(messages)[key]) else None
    {
      item := if key in messages then Some(messages[key]) else None;
      if key in messages {
        assert (messages - {key}).Keys == messages.Keys - {key};
        messages := messages - {key};
      }
    }

    method IsFull() returns (full: bool)
      ensures full == (|messages| == capacity)
    {
      full := |messages| == capacity;
    }
  }
}
