/** A handler that waits for calls of its own can be too late with its answer. */
module AxlDeadlines {
  import opened Options
  import opened Wire
  import opened AxlClient
  import opened AxlAgent
  import opened AxlNetwork
  import opened AxlAgreement
  import opened AxlTheorems
  import opened AxlTiming

  /** The addressee's handler has returned a result for this call. */
  ghost predicate Computed(n: Net, r: RequestId) {
    r in n.issued && exists v :: Execution(CallTask(n.issued[r], r), McpResult(v)) in n.executed
  }

  /** The call has ended for the code that awaits it: it was settled, or its own send threw. */
  predicate Over(n: Net, a: RequestId) {
    a in n.issued && (Fate(n, a).Some? || a in n.unsent)
  }

  /** The handler of `r` returns a result only once every call it awaits is over. */
  ghost predicate Patient(t: Timed, m: Moment, r: RequestId, awaited: set<RequestId>) {
    (m.Happens? && m.e.Return? && m.e.answer.McpResult? && r in t.net.issued && m.e.task == CallTask(t.net.issued[r], r))
    ==> forall a :: a in awaited ==> Over(t.net, a)
  }

  /** A2A results carry a `type` of their own. */
  predicate Labelled(m: Moment) {
    m.Happens? && m.e.Return? ==> OwnTyped(m.e.answer)
  }

  /** One step of a run in which `r` is an MCP call and its handler awaits the calls in `awaited`. */
  ghost predicate Step(t: Timed, m: Moment, late: nat, r: RequestId, awaited: set<RequestId>) {
    && MayHappen(t, m, late) && Patient(t, m, r, awaited) && Labelled(m)
    && (m.Happens? && m.e.Issue? && m.e.r == r ==> m.e.call.Mcp?)
  }

  ghost predicate Leads(t: Timed, ms: seq<Moment>, u: Timed, late: nat, r: RequestId, awaited: set<RequestId>)
    decreases |ms|
  {
    if ms == [] then t == u
    else Step(t, ms[0], late, r, awaited) && Leads(Advance(t, ms[0]), ms[1..], u, late, r, awaited)
  }

  // ------------------------------------------------- invariants

  ghost predicate ExecutedCarried(n: Net) {
    forall x :: x in n.executed ==> SentTask(n, x.task) && OwnTyped(x.answer)
  }

  /** A result was returned only when nothing was awaited any more, and no later call has timed out before it. */
  ghost predicate Punctual(t: Timed, late: nat, r: RequestId, awaited: set<RequestId>)
    requires OnTime(t, late)
  {
    && (Computed(t.net, r) ==> forall a :: a in awaited ==> Over(t.net, a))
    && (r in t.net.issued && Answered(t.net, r) ==> forall a :: a in awaited ==> !OutwaitedBy(t, late, r, a))
  }

  predicate Answered(n: Net, r: RequestId) {
    Fate(n, r).Some? && Fate(n, r).value.Resolved?
  }

  /** A call awaited to its timeout, and issued later than `r` by more than a timer may be late. */
  predicate OutwaitedBy(t: Timed, late: nat, r: RequestId, a: RequestId) {
    && r in t.since && a in t.since && t.since[a] > t.since[r] + late
    && Fate(t.net, a) == Some(TimedOut) && a !in t.net.unsent
  }

  ghost predicate Sound(t: Timed, late: nat, r: RequestId, awaited: set<RequestId>) {
    && Inv(t.net, true) && OnTime(t, late) && ExecutedCarried(t.net)
    && (r in t.net.issued ==> t.net.issued[r].call.Mcp?)
    && Punctual(t, late, r, awaited)
  }

  lemma ExecutedStep(n: Net, e: Event)
    requires Inv(n, true) && ExecutedCarried(n) && Enabled(n, e) && (e.Return? ==> OwnTyped(e.answer))
    ensures ExecutedCarried(Next(n, e))
  {
    var m := Next(n, e);
    assert n.packets <= m.packets;
    forall x | x in m.executed
      ensures SentTask(m, x.task) && OwnTyped(x.answer)
    {
      if x in n.executed {
        assert SentTask(n, x.task);
      } else {
        NewExecution(n, e, x);
        assert SentTask(n, e.task);
      }
    }
  }

  lemma OverStays(n: Net, e: Event, a: RequestId)
    requires Inv(n, true) && Enabled(n, e) && Over(n, a)
    ensures Over(Next(n, e), a)
  {
    IssuedStays(n, e, a);
    FateStep(n, e, a);
  }

  /** Nothing is computed for a call before it is issued. */
  lemma FreshIsNotComputed(n: Net, e: Event, r: RequestId)
    requires Inv(n, true) && ExecutedCarried(n) && Enabled(n, e) && r !in n.issued && r in Next(n, e).issued
    ensures !Computed(Next(n, e), r)
  {
    NewlyIssued(n, e, r);
    IssuedIs(n, e);
    var m := Next(n, e);
    CallPacketIs(m.issued[r], r);
    forall v
      ensures Execution(CallTask(m.issued[r], r), McpResult(v)) !in m.executed
    {
      UnknownIsNotExecuted(n, Execution(CallTask(m.issued[r], r), McpResult(v)), r);
    }
  }

  lemma UnknownIsNotExecuted(n: Net, x: Execution, r: RequestId)
    requires Inv(n, true) && ExecutedCarried(n) && r !in n.used && RequestOf(x.task.data) == Some(r)
    ensures x !in n.executed
  {
    var k := Packet(x.task.at, x.task.from, x.task.data);
    assert RequestOf(k.data) == Some(r);
    assert k !in n.packets;
  }

  lemma NewExecution(n: Net, e: Event, x: Execution)
    requires Enabled(n, e) && x in Next(n, e).executed && x !in n.executed
    ensures (e.Return? && x == Execution(e.task, e.answer)) || (e.ReplyThrows? && x == Execution(e.task, Thrown(e.error)))
  {
  }

  lemma ComputedStep(t: Timed, e: Event, late: nat, r: RequestId, awaited: set<RequestId>)
    requires Sound(t, late, r, awaited) && Step(t, Happens(e), late, r, awaited) && Computed(Next(t.net, e), r)
    ensures forall a :: a in awaited ==> Over(Next(t.net, e), a)
  {
    var n, m := t.net, Next(t.net, e);
    if r !in n.issued {
      FreshIsNotComputed(n, e, r);
      assert false;
    }
    IssuedStays(n, e, r);
    var v :| Execution(CallTask(m.issued[r], r), McpResult(v)) in m.executed;
    if Execution(CallTask(m.issued[r], r), McpResult(v)) !in n.executed {
      NewExecution(n, e, Execution(CallTask(m.issued[r], r), McpResult(v)));
    }
    forall a | a in awaited
      ensures Over(m, a)
    {
      OverStays(n, e, a);
    }
  }

  lemma AnsweredWasComputed(n: Net, r: RequestId)
    requires Inv(n, true) && r in n.issued && n.issued[r].call.Mcp? && Answered(n, r)
    ensures Computed(n, r)
  {
    ResolvedMcp(n, n.issued[r].caller, r, true);
  }

  lemma AnsweredStep(t: Timed, e: Event, late: nat, r: RequestId, a: RequestId, awaited: set<RequestId>)
    requires Sound(t, late, r, awaited) && Step(t, Happens(e), late, r, awaited) && a in awaited
    requires Answered(Next(t.net, e), r)
    ensures !OutwaitedBy(Advance(t, Happens(e)), late, r, a)
  {
    var n, u := t.net, Advance(t, Happens(e));
    FateStep(n, e, r);
    FateStep(n, e, a);
    SinceStep(t, e);
    if OutwaitedBy(u, late, r, a) {
      if r !in n.issued {
        NewlyIssued(n, e, r);
        assert false;
      } else if a !in n.issued {
        NewlyIssued(n, e, a);
        assert false;
      } else if Fate(n, r).None? {
        EarlierIsSettled(t, late, r, a);
        assert false;
      } else {
        AnsweredWasComputed(n, r);
        assert Over(n, a) && n.unsent <= u.net.unsent;
        assert OutwaitedBy(t, late, r, a);
        assert false;
      }
    }
  }

  lemma PunctualStep(t: Timed, e: Event, late: nat, r: RequestId, awaited: set<RequestId>)
    requires Sound(t, late, r, awaited) && Step(t, Happens(e), late, r, awaited)
    requires OnTime(Advance(t, Happens(e)), late)
    ensures Punctual(Advance(t, Happens(e)), late, r, awaited)
  {
    if Computed(Next(t.net, e), r) {
      ComputedStep(t, e, late, r, awaited);
    }
    if Answered(Next(t.net, e), r) {
      forall a | a in awaited
        ensures !OutwaitedBy(Advance(t, Happens(e)), late, r, a)
      {
        AnsweredStep(t, e, late, r, a, awaited);
      }
    }
  }

  lemma PassingIsPunctual(t: Timed, to: nat, late: nat, r: RequestId, awaited: set<RequestId>)
    requires OnTime(t, late) && Punctual(t, late, r, awaited) && OnTime(t.(now := to), late)
    ensures Punctual(t.(now := to), late, r, awaited)
  {
    assert forall a :: OutwaitedBy(t.(now := to), late, r, a) ==> OutwaitedBy(t, late, r, a);
  }

  lemma SoundStep(t: Timed, m: Moment, late: nat, r: RequestId, awaited: set<RequestId>)
    requires Sound(t, late, r, awaited) && Step(t, m, late, r, awaited)
    ensures Sound(Advance(t, m), late, r, awaited)
  {
    OnTimeStep(t, m, late);
    match m
    case Happens(e) =>
      IssuedIs(t.net, e);
      InvStep(t.net, e, true);
      ExecutedStep(t.net, e);
      PunctualStep(t, e, late, r, awaited);
    case Passes(to) =>
      PassingIsPunctual(t, to, late, r, awaited);
  }

  lemma {:induction false} LeadsSoundly(t: Timed, ms: seq<Moment>, u: Timed, late: nat, r: RequestId, awaited: set<RequestId>)
    requires Sound(t, late, r, awaited) && Leads(t, ms, u, late, r, awaited)
    ensures Sound(u, late, r, awaited)
    ensures Fate(t.net, r).Some? ==> Fate(u.net, r) == Fate(t.net, r)
    decreases |ms|
  {
    if ms != [] {
      SoundStep(t, ms[0], late, r, awaited);
      if ms[0].Happens? {
        FateStep(t.net, ms[0].e, r);
      }
      LeadsSoundly(Advance(t, ms[0]), ms[1..], u, late, r, awaited);
    }
  }

  lemma RunIsSound(ms: seq<Moment>, t: Timed, late: nat, r: RequestId, awaited: set<RequestId>)
    requires Leads(BEGINNING, ms, t, late, r, awaited)
    ensures Sound(t, late, r, awaited)
  {
    StartInv(true);
    LeadsSoundly(BEGINNING, ms, t, late, r, awaited);
  }

  // ------------------------------------------------- theorems

  /** A call times out 45 seconds after it was issued and not before, and is pending no longer than the lateness beyond. */
  lemma TimesOutAfter45Seconds(ms: seq<Moment>, t: Timed, late: nat, r: RequestId, awaited: set<RequestId>, a: RequestId)
    requires Leads(BEGINNING, ms, t, late, r, awaited) && a in t.net.issued
    ensures a in t.since
    ensures Fate(t.net, a) == Some(TimedOut) ==> t.now >= t.since[a] + 45000
    ensures Pending(t.net, a) ==> t.since[a] <= t.now <= t.since[a] + 45000 + late
  {
    RunIsSound(ms, t, late, r, awaited);
  }

  /**
   When a call issued later than `r`, by more than a timer may be late, has timed out before the
   handler of `r` returned, `r` has already ended for its caller, and not with an answer.
   */
  lemma TimeoutComesTooLate(ms: seq<Moment>, t: Timed, late: nat, r: RequestId, a: RequestId, awaited: set<RequestId>)
    requires Leads(BEGINNING, ms, t, late, r, awaited)
    requires r in t.since && a in t.since && t.since[a] > t.since[r] + late
    requires Fate(t.net, a) == Some(TimedOut) && !Computed(t.net, r)
    ensures Fate(t.net, r).Some? && !Fate(t.net, r).value.Resolved?
  {
    RunIsSound(ms, t, late, r, awaited);
    EarlierIsSettled(t, late, r, a);
    if Answered(t.net, r) {
      AnsweredWasComputed(t.net, r);
      assert false;
    }
  }

  /**
   A call whose handler awaits A2A calls of its own is answered only if each of them, issued later,
   failed early: its send threw, its handler reported an error, or its client was shut down.
   */
  lemma AnswerNeedsEarlyFailures(ms: seq<Moment>, t: Timed, late: nat, r: RequestId, a: RequestId, awaited: set<RequestId>)
    requires Leads(BEGINNING, ms, t, late, r, awaited) && r in t.net.issued && Answered(t.net, r) && a in awaited
    ensures a in t.net.issued && r in t.since && a in t.since
    ensures t.net.issued[a].call.A2a? && t.since[a] > t.since[r] + late ==>
              a in t.net.unsent
              || (Fate(t.net, a).Some? && (Fate(t.net, a).value.RemoteError? || Fate(t.net, a).value.ShutDown?))
  {
    RunIsSound(ms, t, late, r, awaited);
    AnsweredWasComputed(t.net, r);
    assert Over(t.net, a) && !OutwaitedBy(t, late, r, a);
    if t.net.issued[a].call.A2a? && Answered(t.net, a) {
      UnansweredA2a(t.net, a);
      assert false;
    }
  }

  lemma UnansweredA2a(n: Net, a: RequestId)
    requires Inv(n, true) && ExecutedCarried(n) && a in n.issued && n.issued[a].call.A2a?
    ensures !Answered(n, a)
  {
    if Answered(n, a) {
      ResolvedA2a(n, n.issued[a].caller, a);
      assert false;
    }
  }

  // ------------------------------------------------- when an answer can still arrive

  ghost predicate Reaches(t: Timed, u: Timed, late: nat, r: RequestId, awaited: set<RequestId>) {
    exists ms :: Leads(t, ms, u, late, r, awaited)
  }

  lemma {:induction false} LeadsOn(t: Timed, ms: seq<Moment>, u: Timed, m: Moment, late: nat, r: RequestId,
                                   awaited: set<RequestId>)
    requires Leads(t, ms, u, late, r, awaited) && Step(u, m, late, r, awaited)
    ensures Leads(t, ms + [m], Advance(u, m), late, r, awaited)
    decreases |ms|
  {
    if ms == [] {
      assert [] + [m] == [m];
      assert [m][1..] == [];
    } else {
      assert (ms + [m])[1..] == ms[1..] + [m];
      LeadsOn(Advance(t, ms[0]), ms[1..], u, m, late, r, awaited);
    }
  }

  lemma ReachesOn(t: Timed, u: Timed, m: Moment, late: nat, r: RequestId, awaited: set<RequestId>)
    requires Reaches(t, u, late, r, awaited) && Step(u, m, late, r, awaited)
    ensures Reaches(t, Advance(u, m), late, r, awaited)
  {
    var ms :| Leads(t, ms, u, late, r, awaited);
    LeadsOn(t, ms, u, m, late, r, awaited);
  }

  lemma ReachesSelf(t: Timed, late: nat, r: RequestId, awaited: set<RequestId>)
    ensures Reaches(t, t, late, r, awaited)
  {
    assert Leads(t, [], t, late, r, awaited);
  }

  /** Whatever waits at a broker can be received and lost on the way. */
  lemma EmptyQueue(t: Timed, p: Peer, late: nat, r: RequestId, awaited: set<RequestId>) returns (u: Timed)
    ensures Reaches(t, u, late, r, awaited) && u.since == t.since && u.now == t.now
    ensures u.net.QueueAt(p) == [] && u.net.clients == t.net.clients && u.net.unsent == t.net.unsent
    ensures u.net.issued == t.net.issued && u.net.tasks == t.net.tasks && u.net.packets == t.net.packets
  {
    ReachesSelf(t, late, r, awaited);
    var batch := Batch(p, t.net.QueueAt(p));
    ReachesOn(t, t, Happens(Recv(p)), late, r, awaited);
    u := Advance(t, Happens(Recv(p)));
    ReachesOn(t, u, Happens(LoseBatch(batch)), late, r, awaited);
    u := Advance(u, Happens(LoseBatch(batch)));
  }

  /** A packet is delivered, received and processed, in no time. */
  lemma Carry(t: Timed, u: Timed, k: Packet, late: nat, r: RequestId, awaited: set<RequestId>) returns (v: Timed)
    requires Reaches(t, u, late, r, awaited) && k in u.net.packets && u.net.QueueAt(k.to) == []
    ensures Reaches(t, v, late, r, awaited) && v == u.(net := Travelled(u.net, k))
  {
    ReceivedIs(u.net, k);
    ReachesOn(t, u, Happens(Deliver(k)), late, r, awaited);
    v := Advance(u, Happens(Deliver(k)));
    ReachesOn(t, v, Happens(Recv(k.to)), late, r, awaited);
    v := Advance(v, Happens(Recv(k.to)));
    var process := Happens(Process(Batch(k.to, u.net.QueueAt(k.to) + [k])));
    ReachesOn(t, v, process, late, r, awaited);
    v := Advance(v, process);
  }

  ghost predicate MayReturn(t: Timed, r: RequestId, awaited: set<RequestId>) {
    && r in t.net.issued && t.net.issued[r].call.Mcp? && CallTask(t.net.issued[r], r) in t.net.tasks
    && forall a :: a in awaited ==> Over(t.net, a)
  }

  lemma ReturnNow(t: Timed, u: Timed, late: nat, r: RequestId, awaited: set<RequestId>, v: Option<Json>) returns (w: Timed)
    requires Reaches(t, u, late, r, awaited) && MayReturn(u, r, awaited)
    ensures Reaches(t, w, late, r, awaited)
    ensures w.net.issued == u.net.issued && w.net.clients == u.net.clients && w.net.inbound == u.net.inbound
    ensures Packet(u.net.issued[r].caller, u.net.issued[r].call.to, McpReplyData(v, Some(Uuid(r)))) in w.net.packets
  {
    CallPacketIs(u.net.issued[r], r);
    var e := Return(CallTask(u.net.issued[r], r), McpResult(v));
    ReachesOn(t, u, Happens(e), late, r, awaited);
    w := Advance(u, Happens(e));
  }

  lemma TravelledIssues(n: Net, k: Packet)
    requires k in n.packets
    ensures Travelled(n, k).issued == n.issued
  {
    ReceivedIs(n, k);
    ProcessIssuesNothing(Received(n, k), Batch(k.to, n.QueueAt(k.to) + [k]));
  }

  lemma ReplyArrives(t: Timed, u: Timed, late: nat, r: RequestId, awaited: set<RequestId>, v: Option<Json>) returns (w: Timed)
    requires Reaches(t, u, late, r, awaited) && r in u.net.issued
    requires var i := u.net.issued[r];
             && Packet(i.caller, i.call.to, McpReplyData(v, Some(Uuid(r)))) in u.net.packets
             && u.net.QueueAt(i.caller) == []
             && r in u.net.ClientAt(i.caller).pending && r !in u.net.ClientAt(i.caller).outcome
    ensures Reaches(t, w, late, r, awaited) && Fate(w.net, r) == Some(Resolved(ResultField(v)))
  {
    var i := u.net.issued[r];
    var k := Packet(i.caller, i.call.to, McpReplyData(v, Some(Uuid(r))));
    w := Carry(t, u, k, late, r, awaited);
    TravelledIs(u.net, k);
    TravelledIssues(u.net, k);
    ReplySettles(u.net.ClientAt(i.caller), r, v);
  }

  lemma ReadinessStays(t: Timed, u: Timed, r: RequestId, awaited: set<RequestId>)
    requires MayReturn(t, r, awaited)
    requires u.net.clients == t.net.clients && u.net.unsent == t.net.unsent
    requires u.net.issued == t.net.issued && u.net.tasks == t.net.tasks
    ensures MayReturn(u, r, awaited) && forall p :: u.net.ClientAt(p) == t.net.ClientAt(p)
  {
    forall a | a in awaited
      ensures Over(u.net, a)
    {
      assert Over(t.net, a);
    }
  }

  lemma AnswerCanArrive(t: Timed, late: nat, r: RequestId, awaited: set<RequestId>, v: Option<Json>) returns (w: Timed)
    requires MayReturn(t, r, awaited)
    requires var c := t.net.ClientAt(t.net.issued[r].caller); r in c.pending && r !in c.outcome
    ensures Reaches(t, w, late, r, awaited) && Fate(w.net, r) == Some(Resolved(ResultField(v)))
  {
    var p := t.net.issued[r].caller;
    var u := EmptyQueue(t, p, late, r, awaited);
    ReadinessStays(t, u, r, awaited);
    var x := ReturnNow(t, u, late, r, awaited, v);
    assert x.net.ClientAt(p) == u.net.ClientAt(p) && x.net.QueueAt(p) == u.net.QueueAt(p);
    w := ReplyArrives(t, x, late, r, awaited, v);
  }

  lemma ReplySettles(c: Client, r: RequestId, v: Option<Json>)
    requires r in c.pending && r !in c.outcome
    ensures var d := Route(c, McpReplyData(v, Some(Uuid(r))));
            r in d.outcome && d.outcome[r] == Resolved(ResultField(v))
  {
    var data := McpReplyData(v, Some(Uuid(r)));
    assert RequestOf(data) == Some(r) && Get(data, Result) == v && HasTag(data, McpResponse);
  }

  /**
   When the handler of `r` is ready to return its first result, that result can still reach the caller
   if and only if `r` is still pending.
   */
  lemma AnswerArrivesExactly(ms: seq<Moment>, t: Timed, late: nat, r: RequestId, awaited: set<RequestId>, v: Option<Json>)
    requires Leads(BEGINNING, ms, t, late, r, awaited) && MayReturn(t, r, awaited) && !Computed(t.net, r)
    ensures Pending(t.net, r) <==>
            exists u :: Reaches(t, u, late, r, awaited) && Fate(u.net, r) == Some(Resolved(ResultField(v)))
  {
    RunIsSound(ms, t, late, r, awaited);
    assert SettledOnce(t.net.ClientAt(t.net.issued[r].caller));
    if Pending(t.net, r) {
      var u := AnswerCanArrive(t, late, r, awaited, v);
    } else {
      SettledStays(t, late, r, awaited);
    }
  }

  lemma SettledStays(t: Timed, late: nat, r: RequestId, awaited: set<RequestId>)
    requires Sound(t, late, r, awaited) && r in t.net.issued && !Pending(t.net, r) && !Computed(t.net, r)
    ensures forall u :: Reaches(t, u, late, r, awaited) ==> !Answered(u.net, r)
  {
    var p := t.net.issued[r].caller;
    assert r in t.net.ClientAt(p).pending || r in t.net.ClientAt(p).outcome;
    if Answered(t.net, r) {
      AnsweredWasComputed(t.net, r);
      assert false;
    }
    forall u | Reaches(t, u, late, r, awaited)
      ensures !Answered(u.net, r)
    {
      var ms :| Leads(t, ms, u, late, r, awaited);
      LeadsSoundly(t, ms, u, late, r, awaited);
    }
  }
}
