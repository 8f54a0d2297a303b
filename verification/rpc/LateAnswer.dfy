/** A run in which a handler waits for a call of its own until its answer is too late. */
module AxlLateAnswer {
  import opened Options
  import opened Wire
  import opened AxlClient
  import opened AxlAgent
  import opened AxlNetwork
  import opened AxlAgreement
  import opened AxlTheorems
  import opened AxlTiming
  import opened AxlDeadlines

  /** `p` calls `q` by MCP, whose handler then calls by A2A. */
  datatype Scene = Scene(p: Peer, outer: Call, r: RequestId, q: Peer, inner: Call, a: RequestId) {
    predicate Proper() {
      outer.Mcp? && outer.to == q && inner.A2a? && p != q && r != a
    }

    function Running(): Task {
      CallTask(Issued(p, outer), r)
    }
  }

  ghost predicate From(t: Timed, s: Scene) {
    Reaches(BEGINNING, t, 0, s.r, {s.a})
  }

  lemma On(t: Timed, m: Moment, s: Scene)
    requires From(t, s) && Step(t, m, 0, s.r, {s.a})
    ensures From(Advance(t, m), s)
  {
    ReachesOn(BEGINNING, t, m, 0, s.r, {s.a});
  }

  /** The handler runs, and the caller waits. */
  ghost predicate Called(t: Timed, s: Scene) {
    && From(t, s) && t.now == 0 && t.since == map[s.r := 0]
    && t.net.issued == map[s.r := Issued(s.p, s.outer)] && t.net.used == {s.r} && t.net.unsent == {}
    && s.Running() in t.net.tasks
    && (forall x :: t.net.ClientAt(x) == if x == s.p then Register(IDLE, s.r) else IDLE)
  }

  lemma FirstCall(s: Scene) returns (t: Timed)
    requires s.Proper()
    ensures From(t, s) && t.now == 0 && t.since == map[s.r := 0]
    ensures t.net == Next(START, Issue(s.p, s.outer, s.r))
  {
    ReachesSelf(BEGINNING, 0, s.r, {s.a});
    On(BEGINNING, Happens(Issue(s.p, s.outer, s.r)), s);
    t := Advance(BEGINNING, Happens(Issue(s.p, s.outer, s.r)));
  }

  lemma TravelledUses(n: Net, k: Packet)
    requires k in n.packets
    ensures Travelled(n, k).used == n.used && Travelled(n, k).unsent == n.unsent
  {
  }

  lemma Call(s: Scene) returns (t: Timed)
    requires s.Proper()
    ensures Called(t, s)
  {
    var i := Issued(s.p, s.outer);
    var k := CallPacket(i, s.r);
    var u := FirstCall(s);
    CallPacketIs(i, s.r);
    t := Carry(BEGINNING, u, k, 0, s.r, {s.a});
    TravelledIs(u.net, k);
    TravelledIssues(u.net, k);
    TravelledUses(u.net, k);
  }

  /** The handler awaits its own call, issued a millisecond later; the first timer is due. */
  ghost predicate Waiting(t: Timed, s: Scene) {
    && From(t, s) && t.now == TIMEOUT_MS && t.since == map[s.r := 0, s.a := 1]
    && t.net.issued == map[s.r := Issued(s.p, s.outer), s.a := Issued(s.q, s.inner)] && t.net.unsent == {}
    && s.Running() in t.net.tasks
    && t.net.ClientAt(s.p) == Register(IDLE, s.r) && t.net.ClientAt(s.q) == Register(IDLE, s.a)
  }

  lemma Wait(t: Timed, s: Scene) returns (u: Timed)
    requires s.Proper() && Called(t, s)
    ensures Waiting(u, s)
  {
    On(t, Passes(1), s);
    u := Advance(t, Passes(1));
    var issue := Issue(s.q, s.inner, s.a);
    IssueIs(u.net, issue);
    WithClientAt(u.net, s.q, Register(u.net.ClientAt(s.q), s.a), s.p);
    WithClientAt(u.net, s.q, Register(u.net.ClientAt(s.q), s.a), s.q);
    On(u, Happens(issue), s);
    u := Advance(u, Happens(issue));
    On(u, Passes(TIMEOUT_MS), s);
    u := Advance(u, Passes(TIMEOUT_MS));
  }

  /** Both calls have timed out, the outer one first. */
  ghost predicate Missed(t: Timed, s: Scene) {
    && From(t, s) && t.since == map[s.r := 0, s.a := 1] && t.net.unsent == {}
    && t.net.issued == map[s.r := Issued(s.p, s.outer), s.a := Issued(s.q, s.inner)]
    && s.Running() in t.net.tasks
    && Fate(t.net, s.r) == Some(TimedOut) && Fate(t.net, s.a) == Some(TimedOut)
  }

  lemma FireOne(t: Timed, s: Scene, p: Peer, r: RequestId) returns (u: Timed)
    requires From(t, s) && r in t.net.ClientAt(p).timers && r in t.since && t.since[r] + TIMEOUT_MS <= t.now
    ensures From(u, s) && u.now == t.now && u.since == t.since
    ensures u.net.issued == t.net.issued && u.net.unsent == t.net.unsent && u.net.tasks == t.net.tasks
    ensures forall x :: u.net.ClientAt(x) == if x == p then TimerFires(t.net.ClientAt(p), r) else t.net.ClientAt(x)
  {
    TimerIssuesNothing(t.net, p, r);
    On(t, Happens(Timer(p, r)), s);
    u := Advance(t, Happens(Timer(p, r)));
    forall x
      ensures u.net.ClientAt(x) == if x == p then TimerFires(t.net.ClientAt(p), r) else t.net.ClientAt(x)
    {
      WithClientAt(t.net, p, TimerFires(t.net.ClientAt(p), r), x);
    }
  }

  lemma Miss(t: Timed, s: Scene) returns (u: Timed)
    requires s.Proper() && Waiting(t, s)
    ensures Missed(u, s)
  {
    u := FireOne(t, s, s.p, s.r);
    On(u, Passes(TIMEOUT_MS + 1), s);
    u := Advance(u, Passes(TIMEOUT_MS + 1));
    u := FireOne(u, s, s.q, s.a);
  }

  /** Only now may the handler return, and does. */
  lemma ReturnLate(t: Timed, s: Scene, v: Option<Json>) returns (u: Timed)
    requires s.Proper() && Missed(t, s)
    ensures From(u, s) && Computed(u.net, s.r)
    ensures u.net.issued == t.net.issued && u.net.clients == t.net.clients
  {
    var e := Return(s.Running(), McpResult(v));
    CallPacketIs(Issued(s.p, s.outer), s.r);
    On(t, Happens(e), s);
    u := Advance(t, Happens(e));
    assert Execution(CallTask(u.net.issued[s.r], s.r), McpResult(v)) in u.net.executed;
  }

  /** With timers exactly on time: the result is there, but its call has timed out. */
  lemma LateAnswer(s: Scene, v: Option<Json>) returns (ms: seq<Moment>, t: Timed)
    requires s.Proper()
    ensures Leads(BEGINNING, ms, t, 0, s.r, {s.a}) && Computed(t.net, s.r)
    ensures t.net.issued == map[s.r := Issued(s.p, s.outer), s.a := Issued(s.q, s.inner)]
    ensures Fate(t.net, s.r) == Some(TimedOut) && Fate(t.net, s.a) == Some(TimedOut)
  {
    var u := Call(s);
    u := Wait(u, s);
    u := Miss(u, s);
    t := ReturnLate(u, s, v);
    assert forall x :: t.net.ClientAt(x) == u.net.ClientAt(x);
    ms :| Leads(BEGINNING, ms, t, 0, s.r, {s.a});
  }
}
