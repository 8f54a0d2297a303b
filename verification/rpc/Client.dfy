/** The calling half: pending calls, their timers, and the routing of replies. */
module AxlClient {
  import opened Options
  import opened Wire

  datatype Reply = ResultField(value: Option<Json>) | WholeMessage(data: Data)

  datatype Outcome = Resolved(reply: Reply) | RemoteError(error: Option<Json>) | TimedOut | ShutDown

  /**
   `pending`: keys of `pendingCalls`; `timers`: armed timeouts, named by their call;
   `settles`: how often each call's promise was resolved or rejected; `outcome`: how it was settled first.
   */
  datatype Client = Client(
    pending: set<RequestId>,
    timers: set<RequestId>,
    settles: multiset<RequestId>,
    outcome: map<RequestId, Outcome>)

  const IDLE := Client({}, {}, multiset{}, map[])

  function Register(c: Client, r: RequestId): Client {
    c.(pending := c.pending + {r}, timers := c.timers + {r})
  }

  function Settle(c: Client, r: RequestId, o: Outcome): Client {
    c.(pending := c.pending - {r},
       timers := c.timers - {r},
       settles := c.settles + multiset{r},
       outcome := if r in c.outcome then c.outcome else c.outcome[r := o])
  }

  /** Whether the polling loop keeps the message for itself. */
  predicate Intercepts(c: Client, d: Data) {
    (IsReply(d) || IsFault(d)) && RequestOf(d).Some? && RequestOf(d).value in c.pending
  }

  function OutcomeOf(d: Data): Outcome {
    if HasTag(d, McpResponse) then Resolved(ResultField(Get(d, Result)))
    else if HasTag(d, A2aResponse) then Resolved(WholeMessage(d))
    else RemoteError(Get(d, Error))
  }

  function Route(c: Client, d: Data): Client {
    if Intercepts(c, d) then Settle(c, RequestOf(d).value, OutcomeOf(d)) else c
  }

  function RouteAll(c: Client, ds: seq<Data>): Client {
    if ds == [] then c else Route(RouteAll(c, ds[..|ds| - 1]), ds[|ds| - 1])
  }

  /** The messages of a batch that reach the application handler, in order. */
  function PassedOn(c: Client, ds: seq<Data>): seq<Data> {
    if ds == [] then []
    else
      var d := ds[|ds| - 1];
      PassedOn(c, ds[..|ds| - 1]) + if Intercepts(RouteAll(c, ds[..|ds| - 1]), d) then [] else [d]
  }

  function TimerFires(c: Client, r: RequestId): Client
    requires r in c.timers
  {
    Settle(c, r, TimedOut)
  }

  /** The calls in `done` rejected by a shutdown. */
  function ShutSome(c: Client, done: set<RequestId>): Client {
    Client(c.pending - done, c.timers - done, c.settles + multiset(done),
           (map r | r in done :: ShutDown) + c.outcome)
  }

  function ShutdownAll(c: Client): Client {
    ShutSome(c, c.pending)
  }

  lemma ShutNone(c: Client)
    ensures ShutSome(c, {}) == c
  {
  }

  lemma ShutOneMore(c: Client, done: set<RequestId>, r: RequestId)
    requires r !in done
    ensures Settle(ShutSome(c, done), r, ShutDown) == ShutSome(c, done + {r})
  {
  }

  /** Each call is pending with an armed timer and unsettled, or settled exactly once. */
  ghost predicate SettledOnce(c: Client) {
    && c.timers == c.pending
    && (forall r :: c.settles[r] <= 1)
    && (forall r :: r in c.settles <==> r in c.outcome)
    && (forall r :: r in c.pending ==> r !in c.outcome)
  }

  lemma {:induction false} RouteAllKeepsSettledOnce(c: Client, ds: seq<Data>)
    requires SettledOnce(c)
    ensures SettledOnce(RouteAll(c, ds))
    ensures RouteAll(c, ds).pending <= c.pending
    ensures forall r :: r in RouteAll(c, ds).outcome <==> r in c.outcome || (r in c.pending && r !in RouteAll(c, ds).pending)
  {
    if ds != [] {
      RouteAllKeepsSettledOnce(c, ds[..|ds| - 1]);
    }
  }

  /**
   A repetition, however late and whatever came in between, changes nothing: neither the call it
   answers nor any other.
   */
  lemma {:induction false} RepeatedMessageIsIgnored(c: Client, ds: seq<Data>, d: Data)
    requires d in ds
    ensures !Intercepts(RouteAll(c, ds), d)
    ensures RouteAll(c, ds + [d]) == RouteAll(c, ds)
  {
    var m := |ds| - 1;
    if ds[m] != d {
      assert ds == ds[..m] + [ds[m]];
      RepeatedMessageIsIgnored(c, ds[..m], d);
    }
    assert (ds + [d])[..|ds|] == ds;
  }

  /** Every message either settles its call or is passed on, and what is no reply or fault is passed on. */
  lemma {:induction false} EveryMessageOnce(c: Client, ds: seq<Data>)
    ensures |PassedOn(c, ds)| + |RouteAll(c, ds).settles| == |ds| + |c.settles|
    ensures forall d :: d in ds && !IsReply(d) && !IsFault(d) ==> d in PassedOn(c, ds)
    ensures (forall d :: d in ds ==> !IsReply(d) && !IsFault(d)) ==> PassedOn(c, ds) == ds
  {
    if ds != [] {
      var m := |ds| - 1;
      assert ds == ds[..m] + [ds[m]];
      EveryMessageOnce(c, ds[..m]);
    }
  }

  /** A message touches no call but the one it names. */
  lemma {:induction false} OtherCallsUntouched(c: Client, ds: seq<Data>, r: RequestId)
    requires forall d :: d in ds ==> RequestOf(d) != Some(r)
    ensures r in RouteAll(c, ds).pending <==> r in c.pending
    ensures RouteAll(c, ds).settles[r] == c.settles[r]
    ensures r in RouteAll(c, ds).outcome <==> r in c.outcome
  {
    if ds != [] {
      assert ds[|ds| - 1] in ds;
      assert forall d :: d in ds[..|ds| - 1] ==> d in ds;
      OtherCallsUntouched(c, ds[..|ds| - 1], r);
    }
  }

  class AXLClient {
    var pendingCalls: set<RequestId>
    var timers: set<RequestId>
    ghost var settles: multiset<RequestId>
    ghost var outcome: map<RequestId, Outcome>

    constructor ()
      ensures View() == IDLE
    {
      pendingCalls, timers, settles, outcome := {}, {}, multiset{}, map[];
    }

    ghost function View(): Client
      reads this
    {
      Client(pendingCalls, timers, settles, outcome)
    }

    /** A call registers its promise and arms its timer before it sends. */
    method BeginCall(r: RequestId)
      modifies this
      ensures View() == Register(old(View()), r)
    {
      timers := timers + {r};
      pendingCalls := pendingCalls + {r};
    }

    /** `clearTimeout`, `pendingCalls.delete` and one `resolve` or `reject`. */
    method SettleCall(r: RequestId, ghost o: Outcome)
      modifies this
      ensures View() == Settle(old(View()), r, o)
    {
      timers := timers - {r};
      pendingCalls := pendingCalls - {r};
      settles := settles + multiset{r};
      outcome := if r in outcome then outcome else outcome[r := o];
    }

    method Timeout(r: RequestId)
      requires r in timers
      modifies this
      ensures View() == TimerFires(old(View()), r)
    {
      SettleCall(r, TimedOut);
    }

    /** The body of one poll, after `/recv` has answered with `messages`. */
    method Poll(messages: seq<Data>) returns (passed: seq<Data>)
      modifies this
      ensures View() == RouteAll(old(View()), messages)
      ensures passed == PassedOn(old(View()), messages)
    {
      passed := [];
      var i := 0;
      ghost var before := View();
      while i < |messages|
        invariant 0 <= i <= |messages|
        invariant View() == RouteAll(before, messages[..i])
        invariant passed == PassedOn(before, messages[..i])
      {
        var data := messages[i];
        assert messages[..i + 1][..i] == messages[..i];
        var requestId := RequestOf(data);
        if requestId.Some? && IsReply(data) && requestId.value in pendingCalls {
          if HasTag(data, McpResponse) {
            SettleCall(requestId.value, Resolved(ResultField(Get(data, Result))));
          } else {
            SettleCall(requestId.value, Resolved(WholeMessage(data)));
          }
        } else if requestId.Some? && IsFault(data) && requestId.value in pendingCalls {
          SettleCall(requestId.value, RemoteError(Get(data, Error)));
        } else {
          passed := passed + [data];
        }
        i := i + 1;
      }
      assert messages[..i] == messages;
    }

    /** Rejects every pending call, in any order. */
    method StopPolling()
      modifies this
      ensures View() == ShutdownAll(old(View()))
      ensures pendingCalls == {}
    {
      var rest := pendingCalls;
      ghost var before := View();
      ghost var done := {};
      ShutNone(before);
      while rest != {}
        invariant rest == before.pending - done && done <= before.pending
        invariant View() == ShutSome(before, done)
        decreases rest
      {
        var r :| r in rest;
        ShutOneMore(before, done, r);
        SettleCall(r, ShutDown);
        rest, done := rest - {r}, done + {r};
      }
      assert done == before.pending;
    }
  }
}
