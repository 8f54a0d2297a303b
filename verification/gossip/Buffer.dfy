/** The broker's side: fingerprints with expiry timers, and one bounded queue per topic. */
module GossipBuffer {
  import F = Fingerprint

  const SEEN_MAX := 5000
  const QUEUE_MAX := 500
  const TTL_MS := 30000

  type Mark = string
  type Topic = string

  datatype Message = Message(from: string, data: string, timestamp: string)

  /** An accepted message: its fingerprint and the time of acceptance. */
  datatype Entry = Entry(mark: Mark, at: nat)

  /** A timer callback: which acceptance armed it, and how many had been accepted when it ran. */
  datatype Firing = Firing(k: nat, count: nat, at: nat)

  /**
   `seen`: the fingerprint set in insertion order; `timers`: armed timers, named by the index of the
   acceptance that armed them; `queues`: the topic queues. The rest is history: `log`, all
   acceptances; `newest`, each fingerprint's latest; `since`, what each topic accepted since it was
   last drained; `fired`, the timer callbacks so far; `now`, the time.
   */
  datatype Buffer = Buffer(
    seen: seq<Mark>,
    timers: set<nat>,
    queues: map<Topic, seq<Message>>,
    log: seq<Entry>,
    newest: map<Mark, nat>,
    since: map<Topic, seq<Message>>,
    fired: seq<Firing>,
    now: nat)
  {
    function QueueOf(t: Topic): seq<Message> {
      if t in queues then queues[t] else []
    }

    function SinceDrain(t: Topic): seq<Message> {
      if t in since then since[t] else []
    }
  }

  const EMPTY := Buffer([], {}, map[], [], map[], map[], [], 0)

  datatype Event =
    | Arrive(topic: Topic, message: Message)
    | Fire(k: nat)
    | Drain(topic: Topic)
    | Tick(now: nat)

  function Delete(seen: seq<Mark>, p: Mark): seq<Mark> {
    if seen == [] then []
    else if seen[0] == p then Delete(seen[1..], p)
    else [seen[0]] + Delete(seen[1..], p)
  }

  /** The set after adding a new fingerprint, the oldest leaving when there are too many. */
  function Add(seen: seq<Mark>, p: Mark): seq<Mark> {
    var s := seen + [p];
    if |s| > SEEN_MAX then s[1..] else s
  }

  function Push(q: seq<Message>, m: Message): seq<Message> {
    var r := q + [m];
    if |r| > QUEUE_MAX then r[1..] else r
  }

  function MarkOf(topic: Topic, m: Message): Mark {
    F.Of(m.from, topic, m.timestamp)
  }

  predicate Enabled(b: Buffer, e: Event) {
    match e
    case Fire(k) => k in b.timers && k < |b.log| && b.log[k].at + TTL_MS <= b.now
    case Tick(now) => b.now <= now
    case _ => true
  }

  function Next(b: Buffer, e: Event): Buffer
    requires Enabled(b, e)
  {
    match e
    case Arrive(topic, m) =>
      var p := MarkOf(topic, m);
      if p in b.seen then b
      else
        b.(seen := Add(b.seen, p),
           timers := b.timers + {|b.log|},
           queues := b.queues[topic := Push(b.QueueOf(topic), m)],
           log := b.log + [Entry(p, b.now)],
           newest := b.newest[p := |b.log|],
           since := b.since[topic := b.SinceDrain(topic) + [m]])
    case Fire(k) =>
      b.(seen := Delete(b.seen, b.log[k].mark),
         timers := b.timers - {k},
         fired := b.fired + [Firing(k, |b.log|, b.now)])
    case Drain(topic) =>
      b.(queues := b.queues[topic := []], since := b.since[topic := []])
    case Tick(now) => b.(now := now)
  }

  predicate Run(b: Buffer, es: seq<Event>)
    decreases |es|
  {
    es == [] || (Enabled(b, es[0]) && Run(Next(b, es[0]), es[1..]))
  }

  function After(b: Buffer, es: seq<Event>): Buffer
    requires Run(b, es)
    decreases |es|
  {
    if es == [] then b else After(Next(b, es[0]), es[1..])
  }

  // ------------------------------------------------- invariants

  /** Each topic queue is the last 500 messages accepted since its last drain. */
  ghost predicate QueuesAreTails(b: Buffer) {
    forall t :: b.QueueOf(t) == F.Last(QUEUE_MAX, b.SinceDrain(t))
  }

  /** A remembered fingerprint has the timer of its newest acceptance armed. */
  ghost predicate Armed(b: Buffer) {
    forall p :: p in b.seen ==> p in b.newest && b.newest[p] in b.timers
  }

  ghost predicate NewestIs(b: Buffer) {
    && (forall p :: p in b.newest ==> b.newest[p] < |b.log| && b.log[b.newest[p]].mark == p)
    && (forall k :: 0 <= k < |b.log| ==> b.log[k].mark in b.newest && k <= b.newest[b.log[k].mark])
    && (forall p :: p in b.seen ==> p in b.newest)
  }

  /** The set is in order of newest acceptance, and bounded. */
  ghost predicate Ordered(b: Buffer)
    requires NewestIs(b)
  {
    && |b.seen| <= SEEN_MAX
    && (forall i, j :: 0 <= i < j < |b.seen| ==> b.newest[b.seen[i]] < b.newest[b.seen[j]])
  }

  ghost predicate Times(b: Buffer) {
    && (forall k :: k in b.timers ==> k < |b.log|)
    && (forall k :: 0 <= k < |b.log| ==> b.log[k].at <= b.now)
    && (forall f :: f in b.fired ==> f.k < f.count <= |b.log| && b.log[f.k].at + TTL_MS <= f.at <= b.now)
    && (forall f, j :: f in b.fired && f.count <= j < |b.log| ==> f.at <= b.log[j].at)
  }

  /** Acceptance `k` was forgotten before acceptance number `until`: pushed out, or by a timer for its fingerprint. */
  ghost predicate Forgotten(b: Buffer, k: nat, until: nat)
    requires k < |b.log|
  {
    || until - 1 - k >= SEEN_MAX
    || exists f :: f in b.fired && f.k < |b.log| && b.log[f.k].mark == b.log[k].mark && k < f.count <= until
  }

  /** A fingerprint that is no longer remembered was forgotten for one of those reasons. */
  ghost predicate Explained(b: Buffer)
    requires NewestIs(b)
  {
    forall p :: p in b.newest && p !in b.seen ==> Forgotten(b, b.newest[p], |b.log|)
  }

  /** Acceptance `j` is the next one of the message accepted as `k`. */
  ghost predicate Repeats(b: Buffer, k: int, j: int) {
    && 0 <= k < j < |b.log| && b.log[k].mark == b.log[j].mark
    && forall i :: k < i < j ==> b.log[i].mark != b.log[k].mark
  }

  /** Every repetition in the log is preceded by such a forgetting. */
  ghost predicate Repetitions(b: Buffer) {
    forall k, j :: Repeats(b, k, j) ==> Forgotten(b, k, j)
  }

  /** A timer for this fingerprint has run since its newest acceptance. */
  ghost predicate Expired(b: Buffer, p: Mark)
    requires p in b.newest
  {
    exists f :: f in b.fired && f.k < |b.log| && b.log[f.k].mark == p && b.newest[p] < f.count
  }

  ghost predicate Unexpired(b: Buffer)
    requires NewestIs(b)
  {
    forall p :: p in b.seen ==> !Expired(b, p)
  }

  ghost predicate Inv(b: Buffer) {
    && QueuesAreTails(b) && Armed(b) && NewestIs(b) && Ordered(b) && Times(b) && Explained(b) && Repetitions(b)
    && Unexpired(b)
  }

  lemma {:induction false} DeleteIs(seen: seq<Mark>, p: Mark)
    ensures forall x :: x in Delete(seen, p) <==> x in seen && x != p
    ensures |Delete(seen, p)| <= |seen|
  {
    if seen != [] {
      DeleteIs(seen[1..], p);
    }
  }

  lemma {:induction false} DeleteOrdered(seen: seq<Mark>, p: Mark, rank: map<Mark, nat>)
    requires forall x :: x in seen ==> x in rank
    requires forall i, j :: 0 <= i < j < |seen| ==> rank[seen[i]] < rank[seen[j]]
    ensures forall x :: x in Delete(seen, p) ==> x in rank
    ensures var d := Delete(seen, p); forall i, j :: 0 <= i < j < |d| ==> rank[d[i]] < rank[d[j]]
  {
    DeleteIs(seen, p);
    if seen != [] {
      var tail := seen[1..];
      assert forall x :: x in tail ==> x in seen;
      DeleteOrdered(tail, p, rank);
      DeleteIs(tail, p);
      assert forall x :: x in tail ==> rank[seen[0]] < rank[x];
    }
  }

  lemma {:induction false} RanksSpread(seen: seq<Mark>, rank: map<Mark, nat>, j: nat)
    requires j < |seen| && forall x :: x in seen ==> x in rank
    requires forall i, k :: 0 <= i < k < |seen| ==> rank[seen[i]] < rank[seen[k]]
    ensures rank[seen[0]] + j <= rank[seen[j]]
  {
    if j > 0 {
      RanksSpread(seen, rank, j - 1);
    }
  }

  // ------------------------------------------------- arrivals

  /** A new fingerprint arrives. */
  predicate Accepts(b: Buffer, e: Event) {
    e.Arrive? && MarkOf(e.topic, e.message) !in b.seen
  }

  lemma AddIs(b: Buffer, p: Mark)
    requires NewestIs(b) && Ordered(b) && p !in b.seen
    ensures |Add(b.seen, p)| <= SEEN_MAX && p in Add(b.seen, p)
    ensures forall x :: x in Add(b.seen, p) ==> x == p || x in b.seen
    ensures forall x :: x in b.seen && x !in Add(b.seen, p) ==> |b.log| - b.newest[x] >= SEEN_MAX
  {
    var s := b.seen + [p];
    assert forall i :: 0 <= i < |b.seen| ==> s[i] == b.seen[i];
    if |s| > SEEN_MAX {
      assert Add(b.seen, p)[|b.seen| - 1] == p;
      RanksSpread(b.seen, b.newest, |b.seen| - 1);
      assert forall i :: 1 <= i < |b.seen| ==> s[1..][i - 1] == b.seen[i];
    } else {
      assert s[|b.seen|] == p;
    }
  }

  lemma AddOrdered(seen: seq<Mark>, p: Mark, rank: map<Mark, nat>, n: nat)
    requires p !in seen && forall x :: x in seen ==> x in rank && rank[x] < n
    requires forall i, j :: 0 <= i < j < |seen| ==> rank[seen[i]] < rank[seen[j]]
    ensures var r := rank[p := n];
            var s := Add(seen, p);
            forall i, j :: 0 <= i < j < |s| ==> s[i] in r && s[j] in r && r[s[i]] < r[s[j]]
  {
  }

  lemma ForgottenStays(b: Buffer, c: Buffer, k: nat, u: nat, v: nat)
    requires k < |b.log| <= |c.log| && c.log[..|b.log|] == b.log && u <= v
    requires forall f :: f in b.fired ==> f in c.fired
    requires Forgotten(b, k, u)
    ensures Forgotten(c, k, v)
  {
  }

  lemma AcceptNewest(b: Buffer, e: Event)
    requires Inv(b) && Accepts(b, e)
    ensures var c := Next(b, e); NewestIs(c) && Ordered(c) && Armed(c)
  {
    var c, p := Next(b, e), MarkOf(e.topic, e.message);
    AddIs(b, p);
    AddOrdered(b.seen, p, b.newest, |b.log|);
    forall x | x in c.newest
      ensures c.newest[x] < |c.log| && c.log[c.newest[x]].mark == x
    {
      if x != p {
        assert c.log[b.newest[x]] == b.log[b.newest[x]];
      }
    }
  }

  lemma AcceptExplained(b: Buffer, e: Event)
    requires Inv(b) && Accepts(b, e) && NewestIs(Next(b, e))
    ensures Explained(Next(b, e))
  {
    var c, p := Next(b, e), MarkOf(e.topic, e.message);
    AddIs(b, p);
    assert c.log[..|b.log|] == b.log;
    forall x | x in c.newest && x !in c.seen
      ensures Forgotten(c, c.newest[x], |c.log|)
    {
      assert c.newest[x] == b.newest[x];
      if x !in b.seen {
        ForgottenStays(b, c, b.newest[x], |b.log|, |c.log|);
      }
    }
  }

  lemma AcceptRepetitions(b: Buffer, e: Event)
    requires Inv(b) && Accepts(b, e)
    ensures Repetitions(Next(b, e))
  {
    var c, p := Next(b, e), MarkOf(e.topic, e.message);
    assert c.log[..|b.log|] == b.log;
    forall k, j | Repeats(c, k, j)
      ensures Forgotten(c, k, j)
    {
      assert b.log[k] == c.log[k];
      if j < |b.log| {
        assert b.log[j] == c.log[j];
        assert forall i :: k < i < j ==> b.log[i] == c.log[i];
        assert Repeats(b, k, j);
        ForgottenStays(b, c, k, j, j);
      } else {
        var n := b.newest[p];
        assert b.log[n] == c.log[n];
        assert n == k;
        ForgottenStays(b, c, k, j, j);
      }
    }
  }

  lemma AcceptUnexpired(b: Buffer, e: Event)
    requires Inv(b) && Accepts(b, e) && NewestIs(Next(b, e))
    ensures Unexpired(Next(b, e))
  {
    var c, p := Next(b, e), MarkOf(e.topic, e.message);
    AddIs(b, p);
    forall x | x in c.seen
      ensures !Expired(c, x)
    {
      if x != p {
        assert !Expired(b, x) && c.newest[x] == b.newest[x];
        assert forall k :: 0 <= k < |b.log| ==> c.log[k] == b.log[k];
      }
    }
  }

  lemma AcceptQueues(b: Buffer, e: Event)
    requires QueuesAreTails(b) && Accepts(b, e)
    ensures QueuesAreTails(Next(b, e))
  {
    var c := Next(b, e);
    F.LastAppend(QUEUE_MAX, b.SinceDrain(e.topic), e.message);
    assert b.QueueOf(e.topic) == F.Last(QUEUE_MAX, b.SinceDrain(e.topic));
    forall t
      ensures c.QueueOf(t) == F.Last(QUEUE_MAX, c.SinceDrain(t))
    {
      if t != e.topic {
        assert c.QueueOf(t) == b.QueueOf(t) && c.SinceDrain(t) == b.SinceDrain(t);
      }
    }
  }

  lemma AcceptTimes(b: Buffer, e: Event)
    requires Times(b) && Accepts(b, e)
    ensures Times(Next(b, e))
  {
    var c := Next(b, e);
    assert c.log == b.log + [Entry(MarkOf(e.topic, e.message), b.now)];
  }

  // ------------------------------------------------- timers, drains, time

  lemma FireSeen(b: Buffer, e: Event)
    requires Inv(b) && Enabled(b, e) && e.Fire?
    ensures var c := Next(b, e); Armed(c) && NewestIs(c) && Ordered(c) && QueuesAreTails(c) && Times(c)
  {
    var c, p := Next(b, e), b.log[e.k].mark;
    DeleteIs(b.seen, p);
    DeleteOrdered(b.seen, p, b.newest);
    assert forall t :: c.QueueOf(t) == b.QueueOf(t) && c.SinceDrain(t) == b.SinceDrain(t);
  }

  lemma FireUnexpired(b: Buffer, e: Event)
    requires Inv(b) && Enabled(b, e) && e.Fire? && NewestIs(Next(b, e))
    ensures Unexpired(Next(b, e))
  {
    var c, p := Next(b, e), b.log[e.k].mark;
    DeleteIs(b.seen, p);
    forall x | x in c.seen
      ensures !Expired(c, x)
    {
      assert x != p && !Expired(b, x);
    }
  }

  lemma FireExplained(b: Buffer, e: Event)
    requires Inv(b) && Enabled(b, e) && e.Fire? && NewestIs(Next(b, e))
    ensures Explained(Next(b, e)) && Repetitions(Next(b, e))
  {
    var c, p := Next(b, e), b.log[e.k].mark;
    DeleteIs(b.seen, p);
    assert Firing(e.k, |b.log|, b.now) in c.fired;
    assert c.log[..|b.log|] == b.log;
    forall x | x in c.newest && x !in c.seen
      ensures Forgotten(c, c.newest[x], |c.log|)
    {
      if x !in b.seen {
        ForgottenStays(b, c, b.newest[x], |b.log|, |c.log|);
      }
    }
    forall k, j | Repeats(c, k, j)
      ensures Forgotten(c, k, j)
    {
      assert Repeats(b, k, j);
      ForgottenStays(b, c, k, j, j);
    }
  }

  /** Drains and time touch neither the acceptances nor the timers. */
  lemma DrainKeepsLog(b: Buffer, c: Buffer)
    requires Inv(b) && c == b.(queues := c.queues, since := c.since, now := c.now)
    ensures Armed(c) && NewestIs(c) && Ordered(c) && Explained(c) && Repetitions(c) && Unexpired(c)
  {
    forall k, u | 0 <= k < |b.log| && Forgotten(b, k, u)
      ensures Forgotten(c, k, u)
    {
      ForgottenStays(b, c, k, u, u);
    }
    assert forall k, j :: Repeats(c, k, j) ==> Repeats(b, k, j);
    assert forall p :: p in b.newest ==> (Expired(c, p) <==> Expired(b, p));
  }

  lemma DrainStep(b: Buffer, e: Event)
    requires Inv(b) && Enabled(b, e) && (e.Drain? || e.Tick?)
    ensures Inv(Next(b, e))
  {
    var c := Next(b, e);
    DrainKeepsLog(b, c);
    forall t
      ensures c.QueueOf(t) == F.Last(QUEUE_MAX, c.SinceDrain(t))
    {
      assert b.QueueOf(t) == F.Last(QUEUE_MAX, b.SinceDrain(t));
    }
  }

  lemma InvStep(b: Buffer, e: Event)
    requires Inv(b) && Enabled(b, e)
    ensures Inv(Next(b, e))
  {
    match e
    case Arrive(_, _) =>
      if Accepts(b, e) {
        AcceptNewest(b, e);
        AcceptExplained(b, e);
        AcceptRepetitions(b, e);
        AcceptUnexpired(b, e);
        AcceptQueues(b, e);
        AcceptTimes(b, e);
      }
    case Fire(_) =>
      FireSeen(b, e);
      FireUnexpired(b, e);
      FireExplained(b, e);
    case _ => DrainStep(b, e);
  }

  lemma {:induction false} RunInv(b: Buffer, es: seq<Event>)
    requires Inv(b) && Run(b, es)
    ensures Inv(After(b, es))
    decreases |es|
  {
    if es != [] {
      InvStep(b, es[0]);
      RunInv(Next(b, es[0]), es[1..]);
    }
  }

  // ------------------------------------------------- single events

  /** An accepted message is the last one queued for its topic; an unaccepted one changes nothing; other topics never change. */
  lemma ArrivalIsQueued(b: Buffer, topic: Topic, m: Message, other: Topic)
    ensures var c := Next(b, Arrive(topic, m));
            && (MarkOf(topic, m) in b.seen ==> c == b)
            && (MarkOf(topic, m) !in b.seen ==>
                  && c.QueueOf(topic) != [] && c.QueueOf(topic)[|c.QueueOf(topic)| - 1] == m
                  && |c.QueueOf(topic)| == (if |b.QueueOf(topic)| < 500 then |b.QueueOf(topic)| + 1 else |b.QueueOf(topic)|)
                  && c.SinceDrain(topic) == b.SinceDrain(topic) + [m]
                  && MarkOf(topic, m) in Add(b.seen, MarkOf(topic, m)))
            && (other != topic ==> c.QueueOf(other) == b.QueueOf(other))
  {
    var p := MarkOf(topic, m);
    assert (b.seen + [p])[|b.seen|] == p;
    if |b.seen + [p]| > SEEN_MAX {
      assert (b.seen + [p])[1..][|b.seen| - 1] == p;
    }
  }

  /** Draining a topic empties it and nothing else; timers and time leave all queues alone. */
  lemma DrainEmptiesItsTopic(b: Buffer, topic: Topic, other: Topic)
    ensures var c := Next(b, Drain(topic));
            && c.QueueOf(topic) == [] && c.SinceDrain(topic) == []
            && (other != topic ==> c.QueueOf(other) == b.QueueOf(other))
            && c.seen == b.seen && c.timers == b.timers
  {
  }

  /** A timer is due 30 seconds after its acceptance, and takes its own fingerprint out of the set, and only that. */
  lemma ExpiryTakesItsMark(b: Buffer, k: nat, x: Mark)
    requires k < |b.log|
    ensures Enabled(b, Fire(k)) <==> k in b.timers && b.log[k].at + 30000 <= b.now
    ensures Enabled(b, Fire(k)) ==>
              var c := Next(b, Fire(k));
              && (x in c.seen <==> x in b.seen && x != b.log[k].mark)
              && c.timers == b.timers - {k} && c.queues == b.queues
  {
    DeleteIs(b.seen, b.log[k].mark);
  }

  lemma MarkIdentifies(topic: Topic, m: Message, topic': Topic, m': Message)
    requires ':' !in m.from && ':' !in m'.from && ':' !in m.timestamp && ':' !in m'.timestamp
    ensures MarkOf(topic, m) == MarkOf(topic', m') <==>
            m.from == m'.from && topic == topic' && m.timestamp == m'.timestamp
  {
    if MarkOf(topic, m) == MarkOf(topic', m') {
      F.Injective(m.from, topic, m.timestamp, m'.from, topic', m'.timestamp);
    }
  }

  // ------------------------------------------------- theorems

  /** In every reachable state: bounded set, armed timers, and queues that are the tails of what was accepted. */
  lemma BufferInvariant(es: seq<Event>, topic: Topic, p: Mark)
    requires Run(EMPTY, es)
    ensures var b := After(EMPTY, es);
            && |b.seen| <= 5000
            && b.QueueOf(topic) == F.Last(500, b.SinceDrain(topic))
            && (p in b.seen ==> p in b.newest && b.newest[p] in b.timers)
  {
    RunInv(EMPTY, es);
  }

  /** Once every due timer has run, only fingerprints younger than the time to live are remembered. */
  lemma NothingOutlivesItsTimer(es: seq<Event>, p: Mark)
    requires Run(EMPTY, es) && p in After(EMPTY, es).seen
    requires var b := After(EMPTY, es); forall k :: k in b.timers && k < |b.log| ==> b.now < b.log[k].at + TTL_MS
    ensures var b := After(EMPTY, es);
            p in b.newest && b.newest[p] < |b.log| && b.now < b.log[b.newest[p]].at + 30000
  {
    RunInv(EMPTY, es);
  }

  lemma WhyRepeated(b: Buffer, k: nat, j: nat)
    requires Inv(b) && Repeats(b, k, j)
    ensures || j - k > SEEN_MAX
            || b.log[j].at >= b.log[k].at + TTL_MS
            || exists f :: f in b.fired && f.k < k && b.log[f.k].mark == b.log[k].mark && k < f.count <= j
  {
    assert Forgotten(b, k, j);
    if j - 1 - k < SEEN_MAX {
      var f :| f in b.fired && f.k < |b.log| && b.log[f.k].mark == b.log[k].mark && k < f.count <= j;
      assert f.k <= k;
      assert f.at <= b.log[j].at;
    }
  }

  /**
   A message is accepted again only after 5000 other acceptances, or after its time to live, or
   because the timer of a still earlier acceptance of it, left over from an eviction, ran meanwhile.
   */
  lemma WhyAcceptedAgain(es: seq<Event>, k: nat, j: nat)
    requires Run(EMPTY, es) && Repeats(After(EMPTY, es), k, j)
    ensures var b := After(EMPTY, es);
            || j - k > 5000
            || b.log[j].at >= b.log[k].at + 30000
            || exists f :: f in b.fired && f.k < k && b.log[f.k].mark == b.log[k].mark && k < f.count <= j
  {
    RunInv(EMPTY, es);
    WhyRepeated(After(EMPTY, es), k, j);
  }

  class GossipBroker {
    var seenGossip: seq<Mark>
    var gossipQueues: map<Topic, seq<Message>>
    ghost var state: Buffer

    ghost predicate Valid()
      reads this
    {
      seenGossip == state.seen && gossipQueues == state.queues
    }

    constructor ()
      ensures Valid() && state == EMPTY
    {
      seenGossip, gossipQueues, state := [], map[], EMPTY;
    }

    method EnqueueGossip(topic: Topic, m: Message)
      requires Valid()
      modifies this
      ensures Valid() && state == Next(old(state), Arrive(topic, m))
    {
      var fp := F.Of(m.from, topic, m.timestamp);
      if fp in seenGossip {
        return;
      }
      seenGossip := seenGossip + [fp];
      if |seenGossip| > 5000 {
        seenGossip := seenGossip[1..];
      }
      var queue := (if topic in gossipQueues then gossipQueues[topic] else []) + [m];
      if |queue| > 500 {
        queue := queue[1..];
      }
      gossipQueues := gossipQueues[topic := queue];
      state := Next(state, Arrive(topic, m));
    }

    /** The expiry callback armed by acceptance `k`, for the fingerprint it closed over. */
    method Expire(fp: Mark, ghost k: nat)
      requires Valid() && Enabled(state, Fire(k)) && state.log[k].mark == fp
      modifies this
      ensures Valid() && state == Next(old(state), Fire(k))
    {
      seenGossip := Delete(seenGossip, fp);
      state := Next(state, Fire(k));
    }

    method Messages(topic: Topic) returns (messages: seq<Message>)
      requires Valid()
      modifies this
      ensures Valid() && state == Next(old(state), Drain(topic))
      ensures messages == old(state).QueueOf(topic)
    {
      messages := if topic in gossipQueues then gossipQueues[topic] else [];
      gossipQueues := gossipQueues[topic := []];
      state := Next(state, Drain(topic));
    }
  }
}
