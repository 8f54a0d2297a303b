/** Clients, brokers, agents and the network between them as one step system. */
module AxlNetwork {
  import opened Options
  import opened Wire
  import opened AxlClient
  import opened AxlAgent

  datatype Call =
    | Mcp(to: Peer, service: string, operation: string, params: Data)
    | A2a(to: Peer, payload: Data)

  datatype Issued = Issued(caller: Peer, call: Call)

  /** A finished handler call: what was handled where, for whom, and how it ended. */
  datatype Execution = Execution(task: Task, answer: Answer)

  datatype Batch = Batch(at: Peer, packets: seq<Packet>)

  /**
   `packets`: everything ever sent; the network may deliver any of it any number of times, in any
   order, or never. `inbound`: broker queues; `batches`: answers of `/recv` on their way to the
   client; `tasks`: running handlers; `replying`: tasks whose reply is being sent;
   `sending`: calls whose own `send` has not returned; `unsent`: calls whose `send` threw.
   `issued`, `used` and `executed` are history.
   */
  datatype Net = Net(
    clients: map<Peer, Client>,
    packets: set<Packet>,
    inbound: map<Peer, seq<Packet>>,
    batches: multiset<Batch>,
    tasks: multiset<Task>,
    replying: multiset<Task>,
    sending: set<RequestId>,
    unsent: set<RequestId>,
    issued: map<RequestId, Issued>,
    used: set<RequestId>,
    executed: set<Execution>)
  {
    function ClientAt(p: Peer): Client {
      if p in clients then clients[p] else IDLE
    }

    function QueueAt(p: Peer): seq<Packet> {
      if p in inbound then inbound[p] else []
    }
  }

  datatype Event =
    | Issue(caller: Peer, call: Call, r: RequestId)
    | SendReturns(r: RequestId)
    | SendThrows(r: RequestId)
    | AppSend(sender: Peer, to: Peer, data: Data)
    | Deliver(packet: Packet)
    | Recv(at: Peer)
    | LoseBatch(batch: Batch)
    | Process(batch: Batch)
    | Return(task: Task, answer: Answer)
    | ReplySent(task: Task)
    | ReplyThrows(task: Task, error: string)
    | Timer(at: Peer, r: RequestId)
    | Shutdown(at: Peer)

  const START := Net(map[], {}, map[], multiset{}, multiset{}, multiset{}, {}, {}, map[], {}, {})

  function CallData(caller: Peer, call: Call, r: RequestId): Data {
    match call
    case Mcp(_, service, operation, params) => McpCallData(service, operation, params, r)
    case A2a(_, payload) => A2aCallData(payload, caller, r)
  }

  function CallPacket(i: Issued, r: RequestId): Packet {
    Packet(i.call.to, i.caller, CallData(i.caller, i.call, r))
  }

  function DataOf(packets: seq<Packet>): seq<Data> {
    seq(|packets|, i requires 0 <= i < |packets| => packets[i].data)
  }

  /** The handlers a batch starts: its calls, none of which the client intercepts. */
  function TasksOf(at: Peer, packets: seq<Packet>): multiset<Task> {
    if packets == [] then multiset{}
    else
      var p := packets[|packets| - 1];
      TasksOf(at, packets[..|packets| - 1]) + if IsCall(p.data) then multiset{Task(at, p.from, p.data)} else multiset{}
  }

  predicate Enabled(n: Net, e: Event) {
    match e
    case Issue(_, _, r) => r !in n.used
    case SendReturns(r) => r in n.sending
    case SendThrows(r) => r in n.sending
    case AppSend(_, _, data) =>
      && (TagOf(data).Some? ==> !TagOf(data).value.Reserved())
      && (RequestOf(data).Some? ==> RequestOf(data).value !in n.issued)
    case Deliver(packet) => packet in n.packets
    case Recv(_) => true
    case LoseBatch(batch) => batch in n.batches
    case Process(batch) => batch in n.batches
    case Return(task, answer) => task in n.tasks && Fits(task, answer)
    case ReplySent(task) => task in n.replying
    case ReplyThrows(task, _) => task in n.replying
    case Timer(at, r) => r in n.ClientAt(at).timers
    case Shutdown(_) => true
  }

  function WithClient(n: Net, p: Peer, c: Client): Net {
    n.(clients := n.clients[p := c])
  }

  function Next(n: Net, e: Event): Net
    requires Enabled(n, e)
  {
    match e
    case Issue(caller, call, r) =>
      var i := Issued(caller, call);
      WithClient(n, caller, Register(n.ClientAt(caller), r)).(
        packets := n.packets + {CallPacket(i, r)},
        sending := n.sending + {r},
        issued := n.issued[r := i],
        used := n.used + {r})
    case SendReturns(r) => n.(sending := n.sending - {r})
    case SendThrows(r) => n.(sending := n.sending - {r}, unsent := n.unsent + {r})
    case AppSend(sender, to, data) =>
      n.(packets := n.packets + {Packet(to, sender, data)},
         used := if RequestOf(data).Some? then n.used + {RequestOf(data).value} else n.used)
    case Deliver(packet) => n.(inbound := n.inbound[packet.to := n.QueueAt(packet.to) + [packet]])
    case Recv(at) =>
      n.(inbound := n.inbound[at := []], batches := n.batches + multiset{Batch(at, n.QueueAt(at))})
    case LoseBatch(batch) => n.(batches := n.batches - multiset{batch})
    case Process(batch) =>
      WithClient(n, batch.at, RouteAll(n.ClientAt(batch.at), DataOf(batch.packets))).(
        batches := n.batches - multiset{batch},
        tasks := n.tasks + TasksOf(batch.at, batch.packets))
    case Return(task, answer) =>
      n.(tasks := n.tasks - multiset{task},
         replying := n.replying + multiset{task},
         packets := n.packets + {ReplyTo(task, answer)},
         executed := n.executed + {Execution(task, answer)})
    case ReplySent(task) => n.(replying := n.replying - multiset{task})
    case ReplyThrows(task, error) =>
      // the `catch` that follows the reply's `send` answers with an error, even after a result went out
      n.(replying := n.replying - multiset{task},
         packets := if IsCall(task.data) then n.packets + {ReplyTo(task, Thrown(error))} else n.packets,
         executed := n.executed + {Execution(task, Thrown(error))})
    case Timer(at, r) => WithClient(n, at, TimerFires(n.ClientAt(at), r))
    case Shutdown(at) => WithClient(n, at, ShutdownAll(n.ClientAt(at)))
  }

  predicate Run(n: Net, es: seq<Event>)
    decreases |es|
  {
    es == [] || (Enabled(n, es[0]) && Run(Next(n, es[0]), es[1..]))
  }

  function After(n: Net, es: seq<Event>): Net
    requires Run(n, es)
    decreases |es|
  {
    if es == [] then n else After(Next(n, es[0]), es[1..])
  }

  /** A handler ends once: it is no longer running, its one reply is sent to its caller, and it fails again at most once, in that send. */
  lemma HandlersEndOnce(n: Net, task: Task, answer: Answer, error: string)
    requires Enabled(n, Return(task, answer))
    ensures var m := Next(n, Return(task, answer));
            && m.tasks == n.tasks - multiset{task} && m.replying == n.replying + multiset{task}
            && m.packets == n.packets + {ReplyTo(task, answer)} && ReplyTo(task, answer).to == task.from
            && Enabled(m, ReplyThrows(task, error)) && Enabled(m, ReplySent(task))
            && Next(m, ReplySent(task)).replying == n.replying
            && Next(m, ReplyThrows(task, error)).replying == n.replying
            && Next(m, ReplyThrows(task, error)).packets == m.packets + {ReplyTo(task, Thrown(error))}
  {
  }

  /** The calls of a batch always reach the agent: the client intercepts replies and faults only. */
  lemma {:induction false} CallsPassTheClient(c: Client, at: Peer, packets: seq<Packet>, k: nat)
    requires k < |packets| && IsCall(packets[k].data)
    ensures packets[k].data in PassedOn(c, DataOf(packets))
    ensures Task(at, packets[k].from, packets[k].data) in TasksOf(at, packets)
  {
    var m := |packets| - 1;
    assert DataOf(packets)[..m] == DataOf(packets[..m]);
    if k < m {
      CallsPassTheClient(c, at, packets[..m], k);
    }
  }
}
