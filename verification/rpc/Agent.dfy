/** The answering half: the broker that carries messages and the agent that handles them. */
module AxlAgent {
  import opened Options
  import opened Wire

  datatype Packet = Packet(to: Peer, from: Peer, data: Data)

  /** A running `handleMCPCall` or `handleA2ACall`. */
  datatype Task = Task(at: Peer, from: Peer, data: Data)

  /** How a handler ends. */
  datatype Answer = McpResult(value: Option<Json>) | A2aResult(data: Data) | Thrown(error: string)

  predicate Fits(t: Task, answer: Answer) {
    match answer
    case McpResult(_) => HasTag(t.data, McpCall)
    case A2aResult(_) => HasTag(t.data, A2aCall)
    case Thrown(_) => IsCall(t.data)
  }

  /** What the agent sends back for an answer. */
  function ReplyTo(t: Task, answer: Answer): Packet
    requires Fits(t, answer)
  {
    var requestId := Get(t.data, RequestIdField);
    Packet(t.from, t.at, match answer
      case McpResult(value) => McpReplyData(value, requestId)
      case A2aResult(data) => A2aReplyData(data, requestId)
      case Thrown(error) =>
        if HasTag(t.data, McpCall) then McpFaultData(error, requestId) else A2aFaultData(error, requestId))
  }

  /** Every reply carries the request id of the message it answers, whatever the handler returned. */
  lemma ReplyKeepsRequest(t: Task, answer: Answer)
    requires Fits(t, answer)
    ensures RequestOf(ReplyTo(t, answer).data) == RequestOf(t.data)
    ensures ReplyTo(t, answer).to == t.from
  {
  }

  /** An error is reported in the type that belongs to the call, with its text. */
  lemma FaultSays(t: Task, error: string)
    requires IsCall(t.data)
    ensures var d := ReplyTo(t, Thrown(error)).data;
            && Get(d, Type) == Some(TypeName(if HasTag(t.data, McpCall) then McpError else A2aError))
            && Get(d, Error) == Some(Text(error))
  {
  }

  /**
   A reply to an A2A call reaches the caller's promise exactly when the handler's result has no
   `type` of its own, or one of the four reply types.
   */
  lemma A2aReplyRecognised(t: Task, result: Data)
    requires HasTag(t.data, A2aCall)
    ensures var d := ReplyTo(t, A2aResult(result)).data;
            && ((IsReply(d) || IsFault(d)) <==>
                (Type !in result || TagOf(result) in {Some(A2aResponse), Some(McpResponse), Some(A2aError), Some(McpError)}))
            && (IsReply(d) <==> (Type !in result || TagOf(result) in {Some(A2aResponse), Some(McpResponse)}))
  {
  }

  class Agent {
    const self: Peer
    var running: multiset<Task>

    constructor (self: Peer)
      ensures this.self == self && running == multiset{}
    {
      this.self, running := self, multiset{};
    }

    /** Starts the handler a message asks for; anything but a call is ignored. */
    method HandleRawMessage(from: Peer, data: Data)
      modifies this
      ensures running == old(running) + if IsCall(data) then multiset{Task(self, from, data)} else multiset{}
    {
      if HasTag(data, McpCall) {
        running := running + multiset{Task(self, from, data)};
      } else if HasTag(data, A2aCall) {
        running := running + multiset{Task(self, from, data)};
      }
    }
  }

  datatype PeerInfo = PeerInfo(peer: Peer, online: bool, lastSeen: nat)

  class Broker {
    const self: Peer
    var peers: seq<PeerInfo>
    var inboundQueue: seq<Packet>

    constructor (self: Peer, peers: seq<PeerInfo>)
      ensures this.self == self && this.peers == peers && inboundQueue == []
    {
      this.self, this.peers, inboundQueue := self, peers, [];
    }

    method Deliver(p: Packet)
      modifies this`inboundQueue
      ensures inboundQueue == old(inboundQueue) + [p]
    {
      inboundQueue := inboundQueue + [p];
    }

    method Recv() returns (messages: seq<Packet>)
      modifies this`inboundQueue
      ensures messages == old(inboundQueue) && inboundQueue == []
    {
      messages := inboundQueue;
      inboundQueue := [];
    }

    /**
     Forwards to the first peer with that id, and notes whether it could be reached. The HTTP answer
     is 200 in every case: an unknown peer or a failed delivery is visible only in the `success`
     field, which the client ignores.
     */
    method Send(to: Peer, data: Data, reached: bool, now: nat) returns (forwarded: Option<Packet>, success: bool)
      modifies this`peers
      ensures success <==> reached && exists i :: 0 <= i < |old(peers)| && old(peers)[i].peer == to
      ensures forwarded == if success then Some(Packet(to, self, data)) else None
      ensures |peers| == |old(peers)|
      ensures forall i :: 0 <= i < |peers| ==>
                peers[i] == if FirstAt(old(peers), to, i) then
                              if reached then PeerInfo(to, true, now) else old(peers)[i].(online := false)
                            else old(peers)[i]
    {
      forwarded, success := None, false;
      var i := 0;
      while i < |peers|
        invariant 0 <= i <= |peers|
        invariant peers == old(peers) && !success && forwarded == None
        invariant forall j :: 0 <= j < i ==> peers[j].peer != to
      {
        if peers[i].peer == to {
          if reached {
            peers := peers[i := PeerInfo(to, true, now)];
            return Some(Packet(to, self, data)), true;
          }
          peers := peers[i := peers[i].(online := false)];
          return;
        }
        i := i + 1;
      }
    }
  }

  /** The first record of a peer is at this index. */
  predicate FirstAt(peers: seq<PeerInfo>, to: Peer, i: nat) {
    i < |peers| && peers[i].peer == to && forall j :: 0 <= j < i ==> peers[j].peer != to
  }
}
