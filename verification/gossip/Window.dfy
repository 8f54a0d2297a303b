/** The receiving side: each gossip message reaches the handlers unless its key was accepted recently. */
module GossipWindow {
  import F = Fingerprint

  const MAX_SEEN := 2000

  type Key = string

  /** The keys accepted after one more arrival. */
  function Accept(accepted: seq<Key>, key: Key): seq<Key> {
    if key in F.Last(MAX_SEEN, accepted) then accepted else accepted + [key]
  }

  function AcceptAll(accepted: seq<Key>, arrivals: seq<Key>): seq<Key> {
    if arrivals == [] then accepted
    else Accept(AcceptAll(accepted, arrivals[..|arrivals| - 1]), arrivals[|arrivals| - 1])
  }

  /** Equal keys lie more than a window apart. */
  ghost predicate Spaced(accepted: seq<Key>) {
    forall i, j :: 0 <= i < j < |accepted| && accepted[i] == accepted[j] ==> j - i > MAX_SEEN
  }

  lemma AcceptKeepsSpaced(accepted: seq<Key>, key: Key)
    requires Spaced(accepted)
    ensures Spaced(Accept(accepted, key))
  {
  }

  /** Whatever arrives, in whatever order: two deliveries of one key have at least 2000 other deliveries between them. */
  lemma {:induction false} DeliveriesAreSpaced(arrivals: seq<Key>)
    ensures Spaced(AcceptAll([], arrivals))
    ensures var a := AcceptAll([], arrivals);
            forall i, j :: 0 <= i < j < |a| && a[i] == a[j] ==> j - i > 2000
  {
    if arrivals != [] {
      DeliveriesAreSpaced(arrivals[..|arrivals| - 1]);
      AcceptKeepsSpaced(AcceptAll([], arrivals[..|arrivals| - 1]), arrivals[|arrivals| - 1]);
    }
  }

  /** Every arriving key has been delivered at least once. */
  lemma {:induction false} EveryKeyIsDelivered(arrivals: seq<Key>, key: Key)
    requires key in arrivals
    ensures key in AcceptAll([], arrivals)
  {
    var front, last := arrivals[..|arrivals| - 1], arrivals[|arrivals| - 1];
    var before := AcceptAll([], front);
    if key == last {
      var w := F.Last(MAX_SEEN, before);
      assert forall k :: k in w ==> k in before;
    } else {
      assert arrivals == front + [last];
      EveryKeyIsDelivered(front, key);
    }
  }

  /** A key is accepted if and only if it is none of the last 2000 accepted ones. */
  lemma AcceptedExactly(accepted: seq<Key>, key: Key)
    ensures Accept(accepted, key) == accepted + [key] <==>
            forall i :: 0 <= i < |accepted| && i >= |accepted| - 2000 ==> accepted[i] != key
    ensures Accept(accepted, key) == accepted || Accept(accepted, key) == accepted + [key]
  {
    if i :| 0 <= i < |accepted| && i >= |accepted| - 2000 && accepted[i] == key {
      LastHolds(accepted, i);
    }
    if key in F.Last(MAX_SEEN, accepted) {
      var w := F.Last(MAX_SEEN, accepted);
      var k :| 0 <= k < |w| && w[k] == key;
      assert accepted[|accepted| - |w| + k] == key;
    }
    assert |accepted + [key]| != |accepted|;
  }

  lemma LastHolds(accepted: seq<Key>, i: int)
    requires 0 <= i < |accepted| && |accepted| - i <= 2000
    ensures accepted[i] in F.Last(MAX_SEEN, accepted)
  {
    var w := F.Last(MAX_SEEN, accepted);
    assert w[i - (|accepted| - |w|)] == accepted[i];
  }

  /** Messages with one key agree in sender, topic and time, and those alone make the key. */
  lemma KeyIdentifies(topic: string, m: Message, topic': string, m': Message)
    requires ':' !in m.from && ':' !in m'.from && ':' !in m.timestamp && ':' !in m'.timestamp
    ensures KeyOf(topic, m) == KeyOf(topic', m') <==>
            m.from == m'.from && topic == topic' && m.timestamp == m'.timestamp
  {
    if KeyOf(topic, m) == KeyOf(topic', m') {
      F.Injective(m.from, topic, m.timestamp, m'.from, topic', m'.timestamp);
    }
  }

  /** Until the window has overflowed, every key is delivered exactly once. */
  lemma NoRepeatBeforeOverflow(arrivals: seq<Key>, i: nat, j: nat)
    requires i < j < |AcceptAll([], arrivals)| <= MAX_SEEN + 1
    ensures AcceptAll([], arrivals)[i] != AcceptAll([], arrivals)[j]
  {
  }

  datatype Message = Message(from: string, data: string, timestamp: string)

  function KeyOf(topic: string, m: Message): Key {
    F.Of(m.from, topic, m.timestamp)
  }

  function KeysOf(topic: string, ms: seq<Message>): seq<Key> {
    if ms == [] then [] else KeysOf(topic, ms[..|ms| - 1]) + [KeyOf(topic, ms[|ms| - 1])]
  }

  lemma KeysAppend(topic: string, ms: seq<Message>, m: Message)
    ensures KeysOf(topic, ms + [m]) == KeysOf(topic, ms) + [KeyOf(topic, m)]
  {
  }

  lemma AcceptAllAppend(accepted: seq<Key>, arrivals: seq<Key>, key: Key)
    ensures AcceptAll(accepted, arrivals + [key]) == Accept(AcceptAll(accepted, arrivals), key)
  {
  }

  /** One more message received: the arrivals and, if it was handled, the handled messages grow by it. */
  lemma ReceivedOneMore(accepted: seq<Key>, topic: string, messages: seq<Message>, i: nat, handled: seq<Message>)
    requires i < |messages|
    requires AcceptAll(accepted, KeysOf(topic, messages[..i])) == accepted + KeysOf(topic, handled)
    ensures var now := accepted + KeysOf(topic, handled);
            var key := KeyOf(topic, messages[i]);
            && AcceptAll(accepted, KeysOf(topic, messages[..i + 1])) == Accept(now, key)
            && Accept(now, key) == if key in F.Last(MAX_SEEN, now) then now
                                   else accepted + KeysOf(topic, handled + [messages[i]])
  {
    var m := messages[i];
    assert messages[..i + 1] == messages[..i] + [m];
    KeysAppend(topic, messages[..i], m);
    AcceptAllAppend(accepted, KeysOf(topic, messages[..i]), KeyOf(topic, m));
    KeysAppend(topic, handled, m);
  }

  function Elements(q: seq<Key>): set<Key> {
    set k | k in q
  }

  lemma ElementsAppend(q: seq<Key>, key: Key)
    ensures Elements(q + [key]) == Elements(q) + {key}
  {
  }

  lemma ElementsTail(q: seq<Key>)
    requires q != [] && forall i, j :: 0 <= i < j < |q| ==> q[i] != q[j]
    ensures Elements(q[1..]) == Elements(q) - {q[0]}
  {
  }

  ghost predicate AllFrom(handled: seq<Message>, messages: seq<Message>) {
    forall h :: h in handled ==> h in messages
  }

  class GossipSub {
    var seenMessages: set<Key>
    var seenMessageQueue: seq<Key>
    ghost var accepted: seq<Key>

    /** The set and the queue hold the same distinct keys: the last 2000 accepted. */
    ghost predicate Valid()
      reads this
    {
      && seenMessageQueue == F.Last(MAX_SEEN, accepted)
      && seenMessages == Elements(seenMessageQueue)
      && Spaced(accepted)
      && forall k :: k in accepted ==> k != ""
    }

    constructor ()
      ensures Valid() && accepted == []
    {
      seenMessages, seenMessageQueue, accepted := {}, [], [];
    }

    /** The block between two handler awaits: one message is dropped or passed to the handlers. */
    method Receive(topic: string, m: Message) returns (delivered: bool)
      requires Valid()
      modifies this
      ensures Valid()
      ensures delivered <==> KeyOf(topic, m) !in F.Last(MAX_SEEN, old(accepted))
      ensures accepted == Accept(old(accepted), KeyOf(topic, m))
      ensures |seenMessageQueue| <= MAX_SEEN
    {
      var key := KeyOf(topic, m);
      assert |key| > 0;
      if key in seenMessages {
        return false;
      }
      F.LastAppend(MAX_SEEN, accepted, key);
      AcceptKeepsSpaced(accepted, key);
      ghost var window := seenMessageQueue + [key];
      WindowIsDistinct(accepted, key);
      ElementsAppend(seenMessageQueue, key);
      seenMessages := seenMessages + {key};
      seenMessageQueue := seenMessageQueue + [key];
      if |seenMessageQueue| > MAX_SEEN {
        var evicted := seenMessageQueue[0];
        seenMessageQueue := seenMessageQueue[1..];
        ElementsTail(window);
        assert evicted in accepted;
        if evicted != "" {
          seenMessages := seenMessages - {evicted};
        }
      }
      accepted := accepted + [key];
      delivered := true;
    }

    /** One answered poll of a topic, not overlapped by another. */
    method Poll(topic: string, messages: seq<Message>) returns (handled: seq<Message>)
      requires Valid()
      modifies this
      ensures Valid()
      ensures accepted == AcceptAll(old(accepted), KeysOf(topic, messages))
      ensures accepted == old(accepted) + KeysOf(topic, handled)
      ensures AllFrom(handled, messages)
    {
      handled := [];
      var i := 0;
      while i < |messages|
        invariant 0 <= i <= |messages| && Valid()
        invariant accepted == AcceptAll(old(accepted), KeysOf(topic, messages[..i]))
        invariant accepted == old(accepted) + KeysOf(topic, handled)
        invariant AllFrom(handled, messages)
      {
        var m := messages[i];
        ReceivedOneMore(old(accepted), topic, messages, i, handled);
        assert m in messages;
        var delivered := Receive(topic, m);
        if delivered {
          handled := handled + [m];
        }
        i := i + 1;
      }
      assert messages[..i] == messages;
    }
  }

  /** A key outside the window extends it without repetition. */
  lemma WindowIsDistinct(accepted: seq<Key>, key: Key)
    requires Spaced(accepted) && key !in F.Last(MAX_SEEN, accepted)
    ensures var w := F.Last(MAX_SEEN, accepted) + [key];
            forall i, j :: 0 <= i < j < |w| ==> w[i] != w[j]
  {
  }
}
