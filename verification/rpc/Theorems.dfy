/** The promises of the request/response protocol, over every run of the network. */
module AxlTheorems {
  import opened Options
  import opened Wire
  import opened AxlClient
  import opened AxlAgent
  import opened AxlNetwork
  import opened AxlAgreement

  /**
   Over a network that loses, repeats and reorders: the value an MCP call resolves with is one the
   addressee's handler returned for a message with that call's own id, method and parameters.
   */
  lemma McpAgreement(es: seq<Event>, p: Peer, r: RequestId)
    requires Run(START, es)
    requires var n := After(START, es);
             && r in n.issued && n.issued[r].call.Mcp?
             && r in n.ClientAt(p).outcome && n.ClientAt(p).outcome[r].Resolved?
    ensures var n := After(START, es);
            var i := n.issued[r];
            && i.caller == p
            && exists v, data :: n.ClientAt(p).outcome[r] == Resolved(ResultField(v))
                 && Execution(Task(i.call.to, p, data), McpResult(v)) in n.executed
                 && Get(data, Service) == Some(Text(i.call.service)) && Get(data, Method) == Some(Text(i.call.operation))
                 && Get(data, Params) == Some(Obj(i.call.params)) && RequestOf(data) == Some(r)
  {
    StartInv(false);
    RunInv(START, es, false);
    ResolvedMcp(After(START, es), p, r, false);
    CallCarries(After(START, es).issued[r], r);
  }

  /** An error that a call is rejected with is the text of an error its addressee's handler ended in, for that very call. */
  lemma FaultAgreement(es: seq<Event>, p: Peer, r: RequestId)
    requires Run(START, es)
    requires var n := After(START, es);
             && r in n.issued && (n.issued[r].call.Mcp? || AllPlain(es))
             && r in n.ClientAt(p).outcome && n.ClientAt(p).outcome[r].RemoteError?
    ensures var n := After(START, es);
            var i := n.issued[r];
            && i.caller == p
            && exists error, data :: n.ClientAt(p).outcome[r] == RemoteError(Some(Text(error)))
                 && Execution(Task(i.call.to, p, data), Thrown(error)) in n.executed && Carries(data, p, i.call, r)
  {
    var n := After(START, es);
    var plain := n.issued[r].call.A2a?;
    StartInv(plain);
    RunInv(START, es, plain);
    assert Tracked(n, r, plain);
    assert Agreed(n, p, r);
    var answer :| AnsweredBy(n, n.issued[r], r, n.ClientAt(p).outcome[r], answer);
    AnswerIs(n.issued[r], r, answer);
    CallCarries(n.issued[r], r);
    assert answer.Thrown?;
  }

  /** An A2A reply holds every field of the handler's result, but for the request id, which is the call's. */
  lemma A2aReplyKeepsResult(result: Data, requestId: Option<Json>, f: Field)
    ensures f in result && f != RequestIdField ==> Get(A2aReplyData(result, requestId), f) == Some(result[f])
    ensures f !in result && f != RequestIdField && f != Type ==> Get(A2aReplyData(result, requestId), f) == None
    ensures Get(A2aReplyData(result, requestId), RequestIdField) == requestId
  {
  }


  lemma ResolvedMcp(n: Net, p: Peer, r: RequestId, plain: bool)
    requires Inv(n, plain) && r in n.issued && n.issued[r].call.Mcp?
    requires r in n.ClientAt(p).outcome && n.ClientAt(p).outcome[r].Resolved?
    ensures n.issued[r].caller == p
    ensures exists v :: n.ClientAt(p).outcome[r] == Resolved(ResultField(v))
                        && Execution(CallTask(n.issued[r], r), McpResult(v)) in n.executed
  {
    assert Tracked(n, r, plain);
    assert Agreed(n, p, r);
    var answer :| AnsweredBy(n, n.issued[r], r, n.ClientAt(p).outcome[r], answer);
    CallPacketIs(n.issued[r], r);
    AnswerIs(n.issued[r], r, answer);
    assert answer.McpResult? && Get(ReplyTo(CallTask(n.issued[r], r), answer).data, Result) == answer.value;
  }

  /**
   In every reachable state the pending calls of a client are exactly its calls not yet settled,
   each with one armed timer, and no call was resolved or rejected twice.
   */
  lemma SettledExactlyOnce(es: seq<Event>, p: Peer, r: RequestId)
    requires Run(START, es)
    ensures var n := After(START, es);
            var c := n.ClientAt(p);
            && c.timers == c.pending
            && (r in c.pending <==> r in n.issued && n.issued[r].caller == p && c.settles[r] == 0)
            && (r in n.issued && n.issued[r].caller == p && r !in c.pending ==> c.settles[r] == 1 && r in c.outcome)
            && c.settles[r] <= 1
  {
    StartInv(false);
    RunInv(START, es, false);
    assert SettledOnce(After(START, es).ClientAt(p));
  }

  lemma {:induction false} RunConcat(n: Net, a: seq<Event>, e: Event)
    requires Run(n, a) && Enabled(After(n, a), e)
    ensures Run(n, a + [e]) && After(n, a + [e]) == Next(After(n, a), e)
    decreases |a|
  {
    if a == [] {
      assert [] + [e] == [e];
      assert [e][1..] == [];
    } else {
      assert (a + [e])[0] == a[0] && (a + [e])[1..] == a[1..] + [e];
      RunConcat(Next(n, a[0]), a[1..], e);
    }
  }

  /** Shutdown settles everything that was pending and leaves no timer armed. */
  lemma ShutdownSettlesAll(es: seq<Event>, p: Peer)
    requires Run(START, es)
    ensures var c := After(START, es).ClientAt(p);
            var d := Next(After(START, es), Shutdown(p)).ClientAt(p);
            && d.pending == {} && d.timers == {}
            && forall r :: r in c.pending ==> r in d.outcome && d.outcome[r] == ShutDown && d.settles[r] == 1
  {
    StartInv(false);
    RunInv(START, es, false);
    assert SettledOnce(After(START, es).ClientAt(p));
  }

  /**
   A call whose own send fails has already thrown to its caller, yet stays pending with its timer
   armed: the entry outlives the call.
   */
  lemma FailedSendLeavesPending(p: Peer, call: Call, r: RequestId)
    ensures var es := [Issue(p, call, r), SendThrows(r)];
            && Run(START, es)
            && r in After(START, es).unsent
            && r in After(START, es).ClientAt(p).pending
            && r in After(START, es).ClientAt(p).timers
  {
    var e0, e1 := Issue(p, call, r), SendThrows(r);
    var n := Next(START, e0);
    assert [e0, e1][1..] == [e1];
    assert After(n, [e1]) == Next(n, e1);
  }

  ghost predicate SendsAreIssued(n: Net) {
    (forall r :: r in n.sending ==> r in n.issued) && (forall r :: r in n.unsent ==> r in n.issued)
  }

  lemma {:induction false} RunSendsIssued(n: Net, es: seq<Event>)
    requires SendsAreIssued(n) && Run(n, es)
    ensures SendsAreIssued(After(n, es))
    decreases |es|
  {
    if es != [] {
      RunSendsIssued(Next(n, es[0]), es[1..]);
    }
  }

  /**
   In every run, the entry and the timer of a call whose send threw are left if and only if nothing has
   settled it: an answer may have come during the retries of its send, or a timeout or shutdown since.
   */
  lemma FailedSendPendingExactly(es: seq<Event>, r: RequestId)
    requires Run(START, es) && r in After(START, es).unsent
    ensures var n := After(START, es);
            && r in n.issued
            && var c := n.ClientAt(n.issued[r].caller);
               && (r in c.pending <==> r !in c.outcome)
               && (r in c.timers <==> r in c.pending)
  {
    RunSendsIssued(START, es);
    StartInv(false);
    RunInv(START, es, false);
    var n := After(START, es);
    assert SettledOnce(n.ClientAt(n.issued[r].caller));
  }

  // ------------------------------------------------- repetitions

  /** A reply or fault that its client will not take again: its call is neither pending nor can it be issued anew. */
  predicate Spent(n: Net, p: Peer, d: Data) {
    !Intercepts(n.ClientAt(p), d)
    && ((IsReply(d) || IsFault(d)) && RequestOf(d).Some? ==> RequestOf(d).value in n.used)
  }

  lemma {:induction false} RouteAllShrinks(c: Client, ds: seq<Data>)
    ensures RouteAll(c, ds).pending <= c.pending
  {
    if ds != [] {
      RouteAllShrinks(c, ds[..|ds| - 1]);
    }
  }

  /** Only an issue adds a pending call. */
  lemma PendingAfter(n: Net, e: Event, p: Peer)
    requires Enabled(n, e)
    ensures forall r :: r in ClientAfter(n, e, p).pending ==> r in n.ClientAt(p).pending || (e.Issue? && e.r == r)
  {
    if e.Process? && e.batch.at == p {
      RouteAllShrinks(n.ClientAt(p), DataOf(e.batch.packets));
    }
  }

  lemma UsedGrows(n: Net, e: Event)
    requires Enabled(n, e)
    ensures n.used <= Next(n, e).used && (e.Issue? ==> e.r !in n.used)
  {
  }

  lemma SpentStep(n: Net, e: Event, p: Peer, d: Data)
    requires Enabled(n, e) && Spent(n, p, d)
    ensures Spent(Next(n, e), p, d)
  {
    ClientAfterIs(n, e, p);
    PendingAfter(n, e, p);
    UsedGrows(n, e);
  }

  lemma {:induction false} RunSpent(n: Net, es: seq<Event>, p: Peer, d: Data)
    requires Run(n, es) && Spent(n, p, d)
    ensures Spent(After(n, es), p, d)
    decreases |es|
  {
    if es != [] {
      SpentStep(n, es[0], p, d);
      RunSpent(Next(n, es[0]), es[1..], p, d);
    }
  }

  lemma ProcessedIsSpent(n: Net, batch: Batch, d: Data)
    requires Inv(n, false) && batch in n.batches && d in DataOf(batch.packets)
    ensures Spent(Next(n, Process(batch)), batch.at, d)
  {
    RepeatedMessageIsIgnored(n.ClientAt(batch.at), DataOf(batch.packets), d);
    ClientAfterIs(n, Process(batch), batch.at);
    var k :| 0 <= k < |batch.packets| && batch.packets[k].data == d;
    assert batch.packets[k] in batch.packets && batch.packets[k] in n.packets;
  }

  /**
   Once a client has processed a message, it never takes a copy of it for an answer again, whatever
   calls, timeouts, shutdowns and other messages come in between.
   */
  lemma ProcessedOnce(es: seq<Event>, batch: Batch, d: Data, later: seq<Event>)
    requires Run(START, es) && batch in After(START, es).batches && d in DataOf(batch.packets)
    requires Run(Next(After(START, es), Process(batch)), later)
    ensures var n := After(Next(After(START, es), Process(batch)), later);
            !Intercepts(n.ClientAt(batch.at), d) && Route(n.ClientAt(batch.at), d) == n.ClientAt(batch.at)
  {
    StartInv(false);
    RunInv(START, es, false);
    ProcessedIsSpent(After(START, es), batch, d);
    RunSpent(Next(After(START, es), Process(batch)), later, batch.at, d);
  }

  // ------------------------------------------------- the MCP round trip

  /** The state after a sent packet is delivered and received. */
  function Received(n: Net, k: Packet): Net
    requires k in n.packets
  {
    Next(Next(n, Deliver(k)), Recv(k.to))
  }

  lemma ReceivedIs(n: Net, k: Packet)
    requires k in n.packets
    ensures var m := Received(n, k);
            && m.clients == n.clients && m.packets == n.packets && m.tasks == n.tasks
            && Batch(k.to, n.QueueAt(k.to) + [k]) in m.batches
            && m.QueueAt(k.to) == []
            && forall q :: q != k.to ==> m.QueueAt(q) == n.QueueAt(q)
  {
  }

  /** The state after the batch that ends in a sent packet is processed. */
  function Travelled(n: Net, k: Packet): Net
    requires k in n.packets
  {
    ReceivedIs(n, k);
    Next(Received(n, k), Process(Batch(k.to, n.QueueAt(k.to) + [k])))
  }

  lemma TravelledIs(n: Net, k: Packet)
    requires k in n.packets && n.QueueAt(k.to) == []
    ensures var m := Travelled(n, k);
            && m.packets == n.packets
            && (forall q :: m.QueueAt(q) == n.QueueAt(q))
            && m.tasks == n.tasks + (if IsCall(k.data) then multiset{Task(k.to, k.from, k.data)} else multiset{})
            && (forall q :: m.ClientAt(q) == if q == k.to then Route(n.ClientAt(q), k.data) else n.ClientAt(q))
  {
    ReceivedIs(n, k);
    OneMessage(n.ClientAt(k.to), k);
    assert [] + [k] == [k];
  }

  lemma OneMessage(c: Client, k: Packet)
    ensures RouteAll(c, DataOf([k])) == Route(c, k.data)
    ensures TasksOf(k.to, [k]) == if IsCall(k.data) then multiset{Task(k.to, k.from, k.data)} else multiset{}
  {
  }

  /** Delivered, received and processed, a packet reaches its addressee and changes nothing else. */
  lemma Travel(es: seq<Event>, k: Packet) returns (r: seq<Event>)
    requires Run(START, es) && k in After(START, es).packets && After(START, es).QueueAt(k.to) == []
    ensures Run(START, r)
    ensures var n, m := After(START, es), After(START, r);
            && m.packets == n.packets
            && (forall q :: m.QueueAt(q) == n.QueueAt(q))
            && m.tasks == n.tasks + (if IsCall(k.data) then multiset{Task(k.to, k.from, k.data)} else multiset{})
            && (forall q :: m.ClientAt(q) == if q == k.to then Route(n.ClientAt(q), k.data) else n.ClientAt(q))
  {
    var n := After(START, es);
    ReceivedIs(n, k);
    RunConcat(START, es, Deliver(k));
    RunConcat(START, es + [Deliver(k)], Recv(k.to));
    r := es + [Deliver(k)] + [Recv(k.to)];
    var process := Process(Batch(k.to, n.QueueAt(k.to) + [k]));
    RunConcat(START, r, process);
    r := r + [process];
    TravelledIs(n, k);
  }

  lemma AfterIssue(p: Peer, call: Call, r: RequestId)
    ensures Run(START, [Issue(p, call, r)])
    ensures var n := After(START, [Issue(p, call, r)]);
            && CallPacket(Issued(p, call), r) in n.packets
            && (forall q :: n.QueueAt(q) == [])
            && r in n.ClientAt(p).pending && r !in n.ClientAt(p).outcome
  {
  }

  /** The addressee ends up running the call's handler, while the caller still waits. */
  lemma CallArrives(p: Peer, call: Call, r: RequestId) returns (es: seq<Event>)
    ensures Run(START, es)
    ensures var n := After(START, es);
            && CallTask(Issued(p, call), r) in n.tasks
            && (forall q :: n.QueueAt(q) == [])
            && r in n.ClientAt(p).pending && r !in n.ClientAt(p).outcome
  {
    var issue, k := [Issue(p, call, r)], CallPacket(Issued(p, call), r);
    AfterIssue(p, call, r);
    CallPacketIs(Issued(p, call), r);
    assert forall c :: Route(c, k.data) == c;
    es := Travel(issue, k);
  }

  predicate EndsWith(es: seq<Event>, p: Peer, r: RequestId, o: Outcome) {
    Run(START, es) && r in After(START, es).ClientAt(p).outcome && After(START, es).ClientAt(p).outcome[r] == o
  }

  /** For every call and every answer the client recognises, some run brings that answer back. */
  lemma AnswerReturns(p: Peer, call: Call, r: RequestId, answer: Answer)
    requires Fits(CallTask(Issued(p, call), r), answer) && PlainAnswer(answer)
    requires var d := ReplyTo(CallTask(Issued(p, call), r), answer).data; IsReply(d) || IsFault(d)
    ensures exists es :: EndsWith(es, p, r, OutcomeOf(ReplyTo(CallTask(Issued(p, call), r), answer).data))
  {
    var t := CallTask(Issued(p, call), r);
    var es := CallArrives(p, call, r);
    var e, k := Return(t, answer), ReplyTo(t, answer);
    RunConcat(START, es, e);
    AnswerIs(Issued(p, call), r, answer);
    var n := After(START, es + [e]);
    assert n.ClientAt(p) == After(START, es).ClientAt(p);
    assert n.QueueAt(k.to) == After(START, es).QueueAt(k.to);
    var back := Travel(es + [e], k);
    assert EndsWith(back, p, r, OutcomeOf(k.data));
  }

  /** From the call to the resolved promise, for every MCP call and every result. */
  lemma McpRoundTrip(p: Peer, call: Call, r: RequestId, v: Option<Json>)
    requires call.Mcp?
    ensures exists es :: EndsWith(es, p, r, Resolved(ResultField(v)))
  {
    CallPacketIs(Issued(p, call), r);
    assert Get(McpReplyData(v, Some(Uuid(r))), Result) == v;
    AnswerReturns(p, call, r, McpResult(v));
  }

  /** The same for A2A calls, for results without a `type` of their own. */
  lemma A2aRoundTrip(p: Peer, call: Call, r: RequestId, result: Data)
    requires call.A2a? && Type !in result
    ensures exists es :: EndsWith(es, p, r, Resolved(WholeMessage(A2aReplyData(result, Some(Uuid(r))))))
  {
    CallPacketIs(Issued(p, call), r);
    AnswerIs(Issued(p, call), r, A2aResult(result));
    AnswerReturns(p, call, r, A2aResult(result));
  }

  /** And an error, from either kind of handler, comes back as a rejection with its text. */
  lemma ErrorRoundTrip(p: Peer, call: Call, r: RequestId, error: string)
    ensures exists es :: EndsWith(es, p, r, RemoteError(Some(Text(error))))
  {
    CallPacketIs(Issued(p, call), r);
    AnswerIs(Issued(p, call), r, Thrown(error));
    AnswerReturns(p, call, r, Thrown(error));
  }

  // ------------------------------------------------- A2A calls

  /**
   As long as no handler result poses as a protocol message, an A2A call resolves only with a result
   its addressee computed for that very call, and that carries no `type` of its own.
   */
  lemma A2aAgreement(es: seq<Event>, p: Peer, r: RequestId)
    requires Run(START, es) && AllPlain(es)
    requires var n := After(START, es);
             && r in n.issued && n.issued[r].call.A2a?
             && r in n.ClientAt(p).outcome && n.ClientAt(p).outcome[r].Resolved?
    ensures var n := After(START, es);
            var i := n.issued[r];
            && i.caller == p
            && exists result, data :: Type !in result
                 && n.ClientAt(p).outcome[r] == Resolved(WholeMessage(A2aReplyData(result, Some(Uuid(r)))))
                 && Execution(Task(i.call.to, p, data), A2aResult(result)) in n.executed
                 && Get(data, Payload) == Some(Obj(i.call.payload)) && RequestOf(data) == Some(r)
  {
    StartInv(true);
    RunInv(START, es, true);
    ResolvedA2a(After(START, es), p, r);
    CallCarries(After(START, es).issued[r], r);
  }

  lemma ResolvedA2a(n: Net, p: Peer, r: RequestId)
    requires Inv(n, true) && r in n.issued && n.issued[r].call.A2a?
    requires r in n.ClientAt(p).outcome && n.ClientAt(p).outcome[r].Resolved?
    ensures n.issued[r].caller == p
    ensures exists result :: Type !in result
              && n.ClientAt(p).outcome[r] == Resolved(WholeMessage(A2aReplyData(result, Some(Uuid(r)))))
              && Execution(CallTask(n.issued[r], r), A2aResult(result)) in n.executed
  {
    var i := n.issued[r];
    assert Tracked(n, r, true);
    assert Agreed(n, p, r);
    var answer :| AnsweredBy(n, i, r, n.ClientAt(p).outcome[r], answer);
    AnswerIs(i, r, answer);
    CallPacketIs(i, r);
    assert answer.A2aResult? && Type !in answer.data;
  }

  /** An A2A handler result carrying a `type` of its own, as those of all six agents do. */
  predicate OwnTyped(answer: Answer) {
    answer.A2aResult? ==> Type in answer.data && PlainAnswer(answer)
  }

  lemma {:induction false} ExecutedWereReturned(n: Net, es: seq<Event>)
    requires Run(n, es) && forall e :: e in es && e.Return? ==> OwnTyped(e.answer)
    requires forall x :: x in n.executed ==> OwnTyped(x.answer)
    ensures forall x :: x in After(n, es).executed ==> OwnTyped(x.answer)
    decreases |es|
  {
    if es != [] {
      assert es[0] in es;
      ExecutedWereReturned(Next(n, es[0]), es[1..]);
    }
  }

  /**
   With agents whose A2A results name their own `type`, no A2A call is ever answered: in every
   run it ends in an error of the handler, a timeout or a shutdown, or is still pending.
   */
  lemma A2aIsNeverAnswered(es: seq<Event>, p: Peer, r: RequestId)
    requires Run(START, es) && forall e :: e in es && e.Return? ==> OwnTyped(e.answer)
    requires r in After(START, es).ClientAt(p).outcome
    requires r in After(START, es).issued && After(START, es).issued[r].call.A2a?
    ensures !After(START, es).ClientAt(p).outcome[r].Resolved?
  {
    ExecutedWereReturned(START, es);
    if After(START, es).ClientAt(p).outcome[r].Resolved? {
      A2aAgreement(es, p, r);
      assert false;
    }
  }
}
