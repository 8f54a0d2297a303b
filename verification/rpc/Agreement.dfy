/** What every run of the network keeps, and what a settled call tells its caller. */
module AxlAgreement {
  import opened Options
  import opened Wire
  import opened AxlClient
  import opened AxlAgent
  import opened AxlNetwork

  // ------------------------------------------------- settlement

  /** A client's calls are exactly those it issued, each pending with its timer, or settled once. */
  ghost predicate Settlement(n: Net) {
    forall p ::
      && SettledOnce(n.ClientAt(p))
      && forall r :: r in n.ClientAt(p).pending || r in n.ClientAt(p).outcome <==>
                     r in n.issued && n.issued[r].caller == p
  }

  ghost predicate KnownIds(n: Net) {
    && (forall r :: r in n.issued ==> r in n.used)
    && (forall k :: k in n.packets && RequestOf(k.data).Some? ==> RequestOf(k.data).value in n.used)
  }

  lemma ClientStep(n: Net, p: Peer, c: Client)
    requires Settlement(n) && SettledOnce(c)
    requires forall r :: r in c.pending || r in c.outcome <==> r in n.ClientAt(p).pending || r in n.ClientAt(p).outcome
    ensures Settlement(WithClient(n, p, c))
  {
    var m := WithClient(n, p, c);
    forall q
      ensures SettledOnce(m.ClientAt(q))
      ensures forall r :: r in m.ClientAt(q).pending || r in m.ClientAt(q).outcome <==>
                          r in m.issued && m.issued[r].caller == q
    {
      assert SettledOnce(n.ClientAt(q));
      assert m.ClientAt(q) == if q == p then c else n.ClientAt(q);
    }
  }

  lemma OtherStep(n: Net, m: Net)
    requires Settlement(n) && m.clients == n.clients && m.issued == n.issued
    ensures Settlement(m)
  {
    forall p
      ensures SettledOnce(m.ClientAt(p))
      ensures forall r :: r in m.ClientAt(p).pending || r in m.ClientAt(p).outcome <==>
                          r in m.issued && m.issued[r].caller == p
    {
      assert m.ClientAt(p) == n.ClientAt(p);
      assert SettledOnce(n.ClientAt(p));
    }
  }

  lemma IssueAtClient(c: Client, r: RequestId)
    requires SettledOnce(c) && r !in c.pending && r !in c.outcome
    ensures SettledOnce(Register(c, r))
    ensures forall q :: q in Register(c, r).pending || q in Register(c, r).outcome <==> q == r || q in c.pending || q in c.outcome
  {
  }

  lemma IssueIs(n: Net, e: Event)
    requires Enabled(n, e) && e.Issue?
    ensures Next(n, e).issued == n.issued[e.r := Issued(e.caller, e.call)] && e.r !in n.used
  {
  }

  /** Whose calls a client holds. */
  ghost predicate OwnCalls(n: Net, p: Peer) {
    && SettledOnce(n.ClientAt(p))
    && forall r :: r in n.ClientAt(p).pending || r in n.ClientAt(p).outcome <==> r in n.issued && n.issued[r].caller == p
  }

  lemma IssueOwn(n: Net, e: Event, p: Peer)
    requires Settlement(n) && KnownIds(n) && Enabled(n, e) && e.Issue?
    ensures OwnCalls(Next(n, e), p)
  {
    IssueIs(n, e);
    WithClientAt(n, e.caller, Register(n.ClientAt(e.caller), e.r), p);
    assert SettledOnce(n.ClientAt(p)) && e.r !in n.issued;
    IssueAtClient(n.ClientAt(p), e.r);
  }

  lemma IssueStep(n: Net, e: Event)
    requires Settlement(n) && KnownIds(n) && Enabled(n, e) && e.Issue?
    ensures Settlement(Next(n, e))
  {
    var m := Next(n, e);
    forall p
      ensures SettledOnce(m.ClientAt(p))
      ensures forall r :: r in m.ClientAt(p).pending || r in m.ClientAt(p).outcome <==>
                          r in m.issued && m.issued[r].caller == p
    {
      IssueOwn(n, e, p);
    }
  }

  lemma ShutdownKeepsSettledOnce(c: Client)
    requires SettledOnce(c)
    ensures SettledOnce(ShutdownAll(c))
    ensures forall r :: r in ShutdownAll(c).outcome <==> r in c.pending || r in c.outcome
  {
  }

  lemma SettlementStep(n: Net, e: Event)
    requires Settlement(n) && KnownIds(n) && Enabled(n, e)
    ensures Settlement(Next(n, e))
  {
    var m := Next(n, e);
    match e
    case Issue(_, _, _) =>
      IssueStep(n, e);
    case Process(batch) =>
      var c := n.ClientAt(batch.at);
      assert SettledOnce(c);
      RouteAllKeepsSettledOnce(c, DataOf(batch.packets));
      ClientStep(n, batch.at, RouteAll(c, DataOf(batch.packets)));
      OtherStep(WithClient(n, batch.at, RouteAll(c, DataOf(batch.packets))), m);
    case Timer(at, r) =>
      assert SettledOnce(n.ClientAt(at));
      ClientStep(n, at, TimerFires(n.ClientAt(at), r));
    case Shutdown(at) =>
      assert SettledOnce(n.ClientAt(at));
      ShutdownKeepsSettledOnce(n.ClientAt(at));
      ClientStep(n, at, ShutdownAll(n.ClientAt(at)));
    case _ =>
      OtherStep(n, m);
  }

  // ------------------------------------------------- where messages come from

  ghost predicate SentTask(n: Net, t: Task) {
    Packet(t.at, t.from, t.data) in n.packets && IsCall(t.data)
  }

  ghost predicate InboundCarried(n: Net) {
    forall p, k :: p in n.inbound && k in n.inbound[p] ==> k in n.packets && k.to == p
  }

  ghost predicate BatchesCarried(n: Net) {
    forall b, k :: b in n.batches && k in b.packets ==> k in n.packets && k.to == b.at
  }

  ghost predicate TasksCarried(n: Net) {
    && (forall t :: t in n.tasks ==> SentTask(n, t))
    && (forall t :: t in n.replying ==> SentTask(n, t))
  }

  /** Queues, batches and handlers hold only packets that were sent, at the peer they were sent to. */
  ghost predicate Carried(n: Net) {
    InboundCarried(n) && BatchesCarried(n) && TasksCarried(n)
  }

  lemma {:induction false} BatchTasks(n: Net, at: Peer, packets: seq<Packet>)
    requires forall k :: k in packets ==> k in n.packets && k.to == at
    ensures forall t :: t in TasksOf(at, packets) ==> SentTask(n, t)
  {
    if packets != [] {
      var m := |packets| - 1;
      assert forall k :: k in packets[..m] ==> k in packets;
      BatchTasks(n, at, packets[..m]);
      assert packets[m] in packets;
      assert packets[m] == Packet(at, packets[m].from, packets[m].data);
    }
  }

  lemma TasksCarriedStep(n: Net, e: Event)
    requires Carried(n) && Enabled(n, e)
    ensures TasksCarried(Next(n, e))
  {
    var m := Next(n, e);
    assert n.packets <= m.packets;
    if e.Process? {
      BatchTasks(n, e.batch.at, e.batch.packets);
    }
    forall t | t in n.tasks ensures SentTask(m, t) { assert SentTask(n, t); }
    forall t | t in n.replying ensures SentTask(m, t) { assert SentTask(n, t); }
  }

  lemma InboundCarriedStep(n: Net, e: Event)
    requires InboundCarried(n) && Enabled(n, e)
    ensures InboundCarried(Next(n, e))
  {
    var m := Next(n, e);
    assert n.packets <= m.packets;
    forall p, k | p in m.inbound && k in m.inbound[p]
      ensures k in m.packets && k.to == p
    {
      match e
      case Deliver(packet) => assert k in n.QueueAt(p) || (k == packet && p == packet.to);
      case Recv(at) => assert p != at && k in n.inbound[p];
      case _ => assert k in n.inbound[p];
    }
  }

  lemma BatchesCarriedStep(n: Net, e: Event)
    requires InboundCarried(n) && BatchesCarried(n) && Enabled(n, e)
    ensures BatchesCarried(Next(n, e))
  {
    var m := Next(n, e);
    assert n.packets <= m.packets;
    match e
    case Recv(at) =>
      assert m.batches == n.batches + multiset{Batch(at, n.QueueAt(at))};
    case LoseBatch(b) =>
      assert forall x :: x in m.batches ==> x in n.batches;
    case Process(b) =>
      assert forall x :: x in m.batches ==> x in n.batches;
    case _ =>
      assert m.batches == n.batches;
  }

  lemma KnownIdsStep(n: Net, e: Event)
    requires KnownIds(n) && Carried(n) && Enabled(n, e)
    ensures KnownIds(Next(n, e))
  {
    match e
    case Return(task, answer) =>
      assert SentTask(n, task);
      ReplyKeepsRequest(task, answer);
    case ReplyThrows(task, error) =>
      assert SentTask(n, task);
      ReplyKeepsRequest(task, Thrown(error));
    case _ =>
  }

  /** The handler run a call asks for. */
  function CallTask(i: Issued, r: RequestId): Task {
    Task(i.call.to, i.caller, CallData(i.caller, i.call, r))
  }

  /** No A2A handler returns a result that poses as one of the protocol's own messages. */
  predicate Plain(e: Event) {
    e.Return? ==> PlainAnswer(e.answer)
  }

  predicate PlainAnswer(answer: Answer) {
    answer.A2aResult? && TagOf(answer.data).Some? ==> !TagOf(answer.data).value.Reserved()
  }

  /** A reply to the very call `r`, with what its addressee's handler ended in. */
  ghost predicate IsAnswer(n: Net, k: Packet, i: Issued, r: RequestId, answer: Answer) {
    && Fits(CallTask(i, r), answer) && k == ReplyTo(CallTask(i, r), answer) && PlainAnswer(answer)
    && Execution(CallTask(i, r), answer) in n.executed
  }

  ghost predicate Traced(n: Net, k: Packet, i: Issued, r: RequestId) {
    k == CallPacket(i, r) || exists answer :: IsAnswer(n, k, i, r, answer)
  }

  /** The calls whose packets are traced: the MCP calls, and all calls if A2A results are plain. */
  ghost predicate Tracked(n: Net, r: RequestId, plain: bool) {
    r in n.issued && (plain || n.issued[r].call.Mcp?)
  }

  ghost predicate Honest(n: Net, plain: bool) {
    forall k :: k in n.packets && RequestOf(k.data).Some? && Tracked(n, RequestOf(k.data).value, plain) ==>
      Traced(n, k, n.issued[RequestOf(k.data).value], RequestOf(k.data).value)
  }

  /** What a call's message holds, field by field. */
  predicate Carries(data: Data, caller: Peer, call: Call, r: RequestId) {
    && RequestOf(data) == Some(r)
    && match call
       case Mcp(_, service, operation, params) =>
         && Get(data, Type) == Some(TypeName(McpCall)) && Get(data, Service) == Some(Text(service))
         && Get(data, Method) == Some(Text(operation)) && Get(data, Params) == Some(Obj(params))
       case A2a(_, payload) =>
         && Get(data, Type) == Some(TypeName(A2aCall)) && Get(data, Payload) == Some(Obj(payload))
         && Get(data, FromPeer) == Some(PeerName(caller))
  }

  lemma CallCarries(i: Issued, r: RequestId)
    ensures Carries(CallTask(i, r).data, i.caller, i.call, r)
    ensures CallTask(i, r).at == i.call.to && CallTask(i, r).from == i.caller
  {
  }

  lemma CallPacketIs(i: Issued, r: RequestId)
    ensures var k := CallPacket(i, r);
            && IsCall(k.data) && RequestOf(k.data) == Some(r) && Task(k.to, k.from, k.data) == CallTask(i, r)
            && (HasTag(k.data, McpCall) <==> i.call.Mcp?)
  {
  }

  /** A plain answer is no call, and what it is a reply to can be read off. */
  lemma AnswerIs(i: Issued, r: RequestId, answer: Answer)
    requires Fits(CallTask(i, r), answer) && PlainAnswer(answer)
    ensures var k := ReplyTo(CallTask(i, r), answer);
            && !IsCall(k.data) && k.to == i.caller && RequestOf(k.data) == Some(r)
            && (IsReply(k.data) <==> answer.McpResult? || (answer.A2aResult? && Type !in answer.data))
            && (IsFault(k.data) <==> answer.Thrown?)
            && (answer.Thrown? ==> OutcomeOf(k.data) == RemoteError(Some(Text(answer.error))))
  {
    CallPacketIs(i, r);
    ReplyKeepsRequest(CallTask(i, r), answer);
    var d := ReplyTo(CallTask(i, r), answer).data;
    if answer.A2aResult? {
      assert Get(d, Type) == if Type in answer.data then Get(answer.data, Type) else Some(TypeName(A2aResponse));
    }
  }

  lemma TracedStays(n: Net, m: Net, k: Packet, i: Issued, r: RequestId)
    requires Traced(n, k, i, r) && n.executed <= m.executed
    ensures Traced(m, k, i, r)
  {
    if answer :| IsAnswer(n, k, i, r, answer) {
      assert IsAnswer(m, k, i, r, answer);
    }
  }

  /** A task bearing a tracked call's id runs that very call at its addressee. */
  lemma TrackedTask(n: Net, t: Task, r: RequestId, plain: bool)
    requires Honest(n, plain) && SentTask(n, t) && RequestOf(t.data) == Some(r) && Tracked(n, r, plain)
    ensures t == CallTask(n.issued[r], r)
  {
    var k := Packet(t.at, t.from, t.data);
    var i := n.issued[r];
    assert Traced(n, k, i, r);
    CallPacketIs(i, r);
    if answer :| IsAnswer(n, k, i, r, answer) {
      AnswerIs(i, r, answer);
    }
  }

  lemma ReplyIsTraced(n: Net, m: Net, t: Task, answer: Answer, r: RequestId, plain: bool)
    requires Honest(n, plain) && SentTask(n, t) && Fits(t, answer) && (plain ==> PlainAnswer(answer))
    requires m.issued == n.issued && Execution(t, answer) in m.executed
    requires RequestOf(ReplyTo(t, answer).data) == Some(r) && Tracked(n, r, plain)
    ensures Traced(m, ReplyTo(t, answer), m.issued[r], r)
  {
    ReplyKeepsRequest(t, answer);
    TrackedTask(n, t, r, plain);
    CallPacketIs(n.issued[r], r);
    assert PlainAnswer(answer);
    assert IsAnswer(m, ReplyTo(t, answer), m.issued[r], r, answer);
  }

  lemma OldPacketTraced(n: Net, e: Event, k: Packet, r: RequestId, plain: bool)
    requires Honest(n, plain) && KnownIds(n) && Enabled(n, e)
    requires k in n.packets && RequestOf(k.data) == Some(r) && Tracked(Next(n, e), r, plain)
    ensures Traced(Next(n, e), k, Next(n, e).issued[r], r)
  {
    var m := Next(n, e);
    assert n.executed <= m.executed;
    assert r in n.used;
    assert r in n.issued && m.issued[r] == n.issued[r];
    TracedStays(n, m, k, n.issued[r], r);
  }

  lemma NewPacketTraced(n: Net, e: Event, k: Packet, r: RequestId, plain: bool)
    requires Honest(n, plain) && TasksCarried(n) && Enabled(n, e) && (plain ==> Plain(e))
    requires k in Next(n, e).packets && k !in n.packets
    requires RequestOf(k.data) == Some(r) && Tracked(Next(n, e), r, plain)
    ensures Traced(Next(n, e), k, Next(n, e).issued[r], r)
  {
    match e
    case Issue(caller, call, r') =>
      CallPacketIs(Issued(caller, call), r');
    case Return(task, answer) =>
      assert SentTask(n, task);
      ReplyIsTraced(n, Next(n, e), task, answer, r, plain);
    case ReplyThrows(task, error) =>
      assert SentTask(n, task);
      ReplyIsTraced(n, Next(n, e), task, Thrown(error), r, plain);
    case AppSend(_, _, _) =>
  }

  lemma HonestStep(n: Net, e: Event, plain: bool)
    requires Honest(n, plain) && TasksCarried(n) && KnownIds(n) && Enabled(n, e) && (plain ==> Plain(e))
    ensures Honest(Next(n, e), plain)
  {
    var m := Next(n, e);
    forall k | k in m.packets && RequestOf(k.data).Some? && Tracked(m, RequestOf(k.data).value, plain)
      ensures Traced(m, k, m.issued[RequestOf(k.data).value], RequestOf(k.data).value)
    {
      if k in n.packets {
        OldPacketTraced(n, e, k, RequestOf(k.data).value, plain);
      } else {
        NewPacketTraced(n, e, k, RequestOf(k.data).value, plain);
      }
    }
  }

  // ------------------------------------------------- what a settled call tells its caller

  /** The outcome is that of an answer its own addressee computed for that very call. */
  ghost predicate AnsweredBy(n: Net, i: Issued, r: RequestId, o: Outcome, answer: Answer) {
    && Fits(CallTask(i, r), answer) && PlainAnswer(answer) && Execution(CallTask(i, r), answer) in n.executed
    && (IsReply(ReplyTo(CallTask(i, r), answer).data) || IsFault(ReplyTo(CallTask(i, r), answer).data))
    && o == OutcomeOf(ReplyTo(CallTask(i, r), answer).data)
  }

  ghost predicate Agreed(n: Net, p: Peer, r: RequestId)
    requires r in n.issued && r in n.ClientAt(p).outcome
  {
    n.issued[r].caller == p && exists answer :: AnsweredBy(n, n.issued[r], r, n.ClientAt(p).outcome[r], answer)
  }

  /** A message settled the call, not a timer or a shutdown. */
  predicate ByMessage(o: Outcome) {
    o.Resolved? || o.RemoteError?
  }

  ghost predicate Agreement(n: Net, plain: bool) {
    forall p, r :: r in n.ClientAt(p).outcome && ByMessage(n.ClientAt(p).outcome[r]) && Tracked(n, r, plain) ==>
      Agreed(n, p, r)
  }

  /** A settlement made by a batch comes from a message of the batch with that id. */
  lemma {:induction false} RouteAllSource(c: Client, ds: seq<Data>, r: RequestId)
    requires r in RouteAll(c, ds).outcome && r !in c.outcome
    ensures exists k :: 0 <= k < |ds| && RequestOf(ds[k]) == Some(r) && (IsReply(ds[k]) || IsFault(ds[k])) &&
                        RouteAll(c, ds).outcome[r] == OutcomeOf(ds[k])
  {
    var m := |ds| - 1;
    if ds != [] {
      if r in RouteAll(c, ds[..m]).outcome {
        RouteAllSource(c, ds[..m], r);
        var k :| 0 <= k < m && RequestOf(ds[..m][k]) == Some(r) && (IsReply(ds[..m][k]) || IsFault(ds[..m][k])) &&
                 RouteAll(c, ds[..m]).outcome[r] == OutcomeOf(ds[..m][k]);
        assert ds[..m][k] == ds[k];
      } else {
        assert RequestOf(ds[m]) == Some(r) && RouteAll(c, ds).outcome[r] == OutcomeOf(ds[m]);
      }
    }
  }

  lemma {:induction false} RouteAllKeepsOutcomes(c: Client, ds: seq<Data>, r: RequestId)
    requires r in c.outcome
    ensures r in RouteAll(c, ds).outcome && RouteAll(c, ds).outcome[r] == c.outcome[r]
  {
    if ds != [] {
      RouteAllKeepsOutcomes(c, ds[..|ds| - 1], r);
    }
  }

  lemma AgreedStays(n: Net, m: Net, p: Peer, r: RequestId)
    requires r in n.ClientAt(p).outcome && r in n.issued && Agreed(n, p, r)
    requires r in m.issued && m.issued[r] == n.issued[r] && n.executed <= m.executed
    requires r in m.ClientAt(p).outcome && m.ClientAt(p).outcome[r] == n.ClientAt(p).outcome[r]
    ensures Agreed(m, p, r)
  {
    var answer :| AnsweredBy(n, n.issued[r], r, n.ClientAt(p).outcome[r], answer);
    assert AnsweredBy(m, m.issued[r], r, m.ClientAt(p).outcome[r], answer);
  }

  /** A reply packet for a tracked call, routed at its addressee, agrees. */
  lemma ReplyAgrees(n: Net, k: Packet, r: RequestId, plain: bool)
    requires Honest(n, plain) && k in n.packets && RequestOf(k.data) == Some(r) && Tracked(n, r, plain)
    requires IsReply(k.data) || IsFault(k.data)
    ensures n.issued[r].caller == k.to
    ensures exists answer :: AnsweredBy(n, n.issued[r], r, OutcomeOf(k.data), answer)
  {
    var i := n.issued[r];
    assert Traced(n, k, i, r);
    CallPacketIs(i, r);
    var answer :| IsAnswer(n, k, i, r, answer);
    AnswerIs(i, r, answer);
    assert AnsweredBy(n, i, r, OutcomeOf(k.data), answer);
  }

  lemma ProcessAgrees(n: Net, e: Event, r: RequestId, plain: bool)
    requires Honest(n, plain) && Carried(n) && Agreement(n, plain) && Enabled(n, e) && e.Process?
    requires var m := Next(n, e);
             var c := m.ClientAt(e.batch.at);
             r in c.outcome && ByMessage(c.outcome[r]) && Tracked(m, r, plain)
    ensures r in Next(n, e).issued
    ensures Agreed(Next(n, e), e.batch.at, r)
  {
    var m, p, ds := Next(n, e), e.batch.at, DataOf(e.batch.packets);
    var c := n.ClientAt(p);
    assert m.ClientAt(p) == RouteAll(c, ds);
    if r in c.outcome {
      RouteAllKeepsOutcomes(c, ds, r);
      AgreedStays(n, m, p, r);
    } else {
      RouteAllSource(c, ds, r);
      var k :| 0 <= k < |ds| && RequestOf(ds[k]) == Some(r) && (IsReply(ds[k]) || IsFault(ds[k])) &&
               RouteAll(c, ds).outcome[r] == OutcomeOf(ds[k]);
      var packet := e.batch.packets[k];
      assert packet in e.batch.packets;
      ReplyAgrees(n, packet, r, plain);
      var answer :| AnsweredBy(n, n.issued[r], r, OutcomeOf(packet.data), answer);
      assert AnsweredBy(m, n.issued[r], r, OutcomeOf(packet.data), answer);
    }
  }

  lemma AgreementStep(n: Net, e: Event, plain: bool)
    requires Honest(n, plain) && Carried(n) && Agreement(n, plain) && Settlement(n) && KnownIds(n) && Enabled(n, e)
    ensures Agreement(Next(n, e), plain)
  {
    var m := Next(n, e);
    forall p, r | r in m.ClientAt(p).outcome && ByMessage(m.ClientAt(p).outcome[r]) && Tracked(m, r, plain)
      ensures Agreed(m, p, r)
    {
      if e.Process? && p == e.batch.at {
        ProcessAgrees(n, e, r, plain);
      } else {
        OldOutcome(n, e, p, r);
        AgreedStays(n, m, p, r);
      }
    }
  }

  /** What one event does to one client. */
  function ClientAfter(n: Net, e: Event, p: Peer): Client
    requires Enabled(n, e)
  {
    var c := n.ClientAt(p);
    match e
    case Issue(q, _, r) => if q == p then Register(c, r) else c
    case Process(b) => if b.at == p then RouteAll(c, DataOf(b.packets)) else c
    case Timer(q, r) => if q == p then TimerFires(c, r) else c
    case Shutdown(q) => if q == p then ShutdownAll(c) else c
    case _ => c
  }

  lemma WithClientAt(n: Net, q: Peer, c: Client, p: Peer)
    ensures WithClient(n, q, c).ClientAt(p) == if p == q then c else n.ClientAt(p)
  {
  }

  lemma ClientAfterIs(n: Net, e: Event, p: Peer)
    requires Enabled(n, e)
    ensures Next(n, e).ClientAt(p) == ClientAfter(n, e, p)
  {
    match e
    case Issue(q, _, r) => WithClientAt(n, q, Register(n.ClientAt(q), r), p);
    case Process(b) => WithClientAt(n, b.at, RouteAll(n.ClientAt(b.at), DataOf(b.packets)), p);
    case Timer(q, r) => WithClientAt(n, q, TimerFires(n.ClientAt(q), r), p);
    case Shutdown(q) => WithClientAt(n, q, ShutdownAll(n.ClientAt(q)), p);
    case _ =>
  }

  lemma IssuedStays(n: Net, e: Event, r: RequestId)
    requires KnownIds(n) && Enabled(n, e) && r in n.issued
    ensures r in Next(n, e).issued && Next(n, e).issued[r] == n.issued[r]
  {
  }

  /** Only `Process` settles by a message. */
  lemma OldOutcome(n: Net, e: Event, p: Peer, r: RequestId)
    requires Settlement(n) && KnownIds(n) && Enabled(n, e) && !(e.Process? && p == e.batch.at)
    requires var c := Next(n, e).ClientAt(p); r in c.outcome && ByMessage(c.outcome[r])
    ensures r in n.ClientAt(p).outcome && n.ClientAt(p).outcome[r] == Next(n, e).ClientAt(p).outcome[r]
    ensures r in n.issued && r in Next(n, e).issued && Next(n, e).issued[r] == n.issued[r]
  {
    assert SettledOnce(n.ClientAt(p));
    ClientAfterIs(n, e, p);
    IssuedStays(n, e, r);
  }

  // ------------------------------------------------- every run

  ghost predicate Inv(n: Net, plain: bool) {
    Settlement(n) && KnownIds(n) && Carried(n) && Honest(n, plain) && Agreement(n, plain)
  }

  lemma StartInv(plain: bool)
    ensures Inv(START, plain)
  {
  }

  predicate AllPlain(es: seq<Event>) {
    forall e :: e in es ==> Plain(e)
  }

  lemma InvStep(n: Net, e: Event, plain: bool)
    requires Inv(n, plain) && Enabled(n, e) && (plain ==> Plain(e))
    ensures Inv(Next(n, e), plain)
  {
    SettlementStep(n, e);
    KnownIdsStep(n, e);
    TasksCarriedStep(n, e);
    InboundCarriedStep(n, e);
    BatchesCarriedStep(n, e);
    HonestStep(n, e, plain);
    AgreementStep(n, e, plain);
  }

  lemma {:induction false} RunInv(n: Net, es: seq<Event>, plain: bool)
    requires Inv(n, plain) && Run(n, es) && (plain ==> AllPlain(es))
    ensures Inv(After(n, es), plain)
    decreases |es|
  {
    if es != [] {
      InvStep(n, es[0], plain);
      RunInv(Next(n, es[0]), es[1..], plain);
    }
  }
}
