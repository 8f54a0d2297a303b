/** Exactly when the broker forgets a message too early, and a run in which it does. */
module GossipExpiry {
  import F = Fingerprint
  import opened GossipBuffer

  /**
   Within 5000 later acceptances, a message is no longer recognised if and only if a timer for its
   fingerprint has run since it was last accepted.
   */
  lemma ForgottenExactly(es: seq<Event>, p: Mark)
    requires Run(EMPTY, es) && p in After(EMPTY, es).newest
    requires var b := After(EMPTY, es); |b.log| - 1 - b.newest[p] < SEEN_MAX
    ensures var b := After(EMPTY, es);
            p !in b.seen <==> exists f :: f in b.fired && 0 <= f.k < |b.log| && b.log[f.k].mark == p && b.newest[p] < f.count
  {
    RunInv(EMPTY, es);
    ForgottenIffExpired(After(EMPTY, es), p);
  }

  lemma ForgottenIffExpired(b: Buffer, p: Mark)
    requires Inv(b) && p in b.newest && |b.log| - 1 - b.newest[p] < SEEN_MAX
    ensures p !in b.seen <==> Expired(b, p)
  {
    if p !in b.seen {
      assert Forgotten(b, b.newest[p], |b.log|);
    }
  }

  /**
   Before its time to live is over as well, that timer is a stale one: armed by an earlier
   acceptance, and run since the newest.
   */
  lemma ForgottenEarlyExactly(es: seq<Event>, p: Mark)
    requires Run(EMPTY, es) && p in After(EMPTY, es).newest
    requires var b := After(EMPTY, es);
             && |b.log| - 1 - b.newest[p] < 5000
             && b.newest[p] < |b.log| && b.now < b.log[b.newest[p]].at + 30000
    ensures var b := After(EMPTY, es);
            p !in b.seen <==> exists f :: f in b.fired && f.k < b.newest[p] < f.count && b.log[f.k].mark == p
  {
    RunInv(EMPTY, es);
    EarlyIffStale(After(EMPTY, es), p);
  }

  lemma EarlyIffStale(b: Buffer, p: Mark)
    requires Inv(b) && p in b.newest && |b.log| - 1 - b.newest[p] < SEEN_MAX
    requires b.now < b.log[b.newest[p]].at + TTL_MS
    ensures p !in b.seen <==> exists f :: f in b.fired && f.k < b.newest[p] < f.count && b.log[f.k].mark == p
  {
    ForgottenIffExpired(b, p);
    if f :| f in b.fired && f.k < |b.log| && b.log[f.k].mark == p && b.newest[p] < f.count {
      assert f.k <= b.newest[p];
      assert f.at <= b.now;
    }
  }

  // ------------------------------------------------- a run in which it happens

  ghost predicate Reachable(b: Buffer) {
    exists es :: Run(EMPTY, es) && After(EMPTY, es) == b
  }

  lemma {:induction false} OneMore(b: Buffer, es: seq<Event>, e: Event)
    requires Run(b, es) && Enabled(After(b, es), e)
    ensures Run(b, es + [e]) && After(b, es + [e]) == Next(After(b, es), e)
    decreases |es|
  {
    if es == [] {
      assert [] + [e] == [e];
      assert [e][1..] == [];
    } else {
      assert (es + [e])[1..] == es[1..] + [e];
      OneMore(Next(b, es[0]), es[1..], e);
    }
  }

  lemma Reach(b: Buffer, e: Event)
    requires Reachable(b) && Enabled(b, e)
    ensures Reachable(Next(b, e))
  {
    var es :| Run(EMPTY, es) && After(EMPTY, es) == b;
    OneMore(EMPTY, es, e);
  }

  /** Messages told apart by the length of their timestamps. */
  function Numbered(i: nat): Message {
    Message("peer", "", seq(i, _ => '0'))
  }

  function NumberedMark(topic: Topic, i: nat): (p: Mark)
    ensures |p| == |topic| + i + 6
  {
    MarkOf(topic, Numbered(i))
  }

  /** At time 0, the first `n` numbered messages have been accepted and no timer has run. */
  ghost predicate Filled(b: Buffer, topic: Topic, n: nat) {
    var d := if n > SEEN_MAX then n - SEEN_MAX else 0;
    && Reachable(b) && b.now == 0
    && |b.log| == n && (forall i :: 0 <= i < n ==> b.log[i] == Entry(NumberedMark(topic, i), 0) && i in b.timers)
    && |b.seen| == n - d && forall i :: 0 <= i < n - d ==> b.seen[i] == NumberedMark(topic, d + i)
  }

  lemma FillOne(b: Buffer, topic: Topic, n: nat)
    requires Filled(b, topic, n) && n <= SEEN_MAX
    ensures Filled(Next(b, Arrive(topic, Numbered(n))), topic, n + 1)
  {
    assert NumberedMark(topic, n) !in b.seen;
    Reach(b, Arrive(topic, Numbered(n)));
  }

  lemma {:induction false} Fill(topic: Topic, n: nat) returns (b: Buffer)
    requires n <= SEEN_MAX + 1
    ensures Filled(b, topic, n)
  {
    if n == 0 {
      b := EMPTY;
      assert Run(EMPTY, []) && After(EMPTY, []) == EMPTY;
    } else {
      b := Fill(topic, n - 1);
      FillOne(b, topic, n - 1);
      b := Next(b, Arrive(topic, Numbered(n - 1)));
    }
  }

  /** Evicted by 5000 others, the first message is accepted again a moment later; its first timer is still armed. */
  lemma AcceptedTwice(topic: Topic) returns (b: Buffer)
    ensures Reachable(b) && b.now == 1 && |b.log| > 1 && 0 in b.timers
    ensures var p := NumberedMark(topic, 0);
            b.log[0] == Entry(p, 0) && b.log[|b.log| - 1] == Entry(p, 1)
  {
    b := Fill(topic, SEEN_MAX + 1);
    Reach(b, Tick(1));
    b := Next(b, Tick(1));
    assert NumberedMark(topic, 0) !in b.seen;
    Reach(b, Arrive(topic, Numbered(0)));
    b := Next(b, Arrive(topic, Numbered(0)));
  }

  /** That timer runs, and the very next acceptance is the same message once more. */
  lemma AcceptedAgain(topic: Topic, b: Buffer) returns (c: Buffer)
    requires Reachable(b) && b.now == 1 && |b.log| > 1 && 0 in b.timers
    requires var p := NumberedMark(topic, 0);
             b.log[0] == Entry(p, 0) && b.log[|b.log| - 1] == Entry(p, 1)
    ensures Reachable(c) && c.log == b.log + [Entry(NumberedMark(topic, 0), TTL_MS)]
  {
    Reach(b, Tick(TTL_MS));
    c := Next(b, Tick(TTL_MS));
    Reach(c, Fire(0));
    DeleteIs(c.seen, NumberedMark(topic, 0));
    c := Next(c, Fire(0));
    Reach(c, Arrive(topic, Numbered(0)));
    c := Next(c, Arrive(topic, Numbered(0)));
  }

  /** A stale timer does end deduplication early: two adjacent acceptances of one message within its time to live. */
  lemma StaleTimerEndsDeduplication(topic: Topic)
    ensures exists b, k :: Reachable(b) && Repeats(b, k, k + 1) && b.log[k + 1].at < b.log[k].at + 30000
  {
    var b := AcceptedTwice(topic);
    var c := AcceptedAgain(topic, b);
    var k := |b.log| - 1;
    assert c.log[k] == b.log[k];
    assert Repeats(c, k, k + 1);
  }
}
