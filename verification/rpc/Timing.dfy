/** The protocol under a clock: timers are armed when a call is issued and fire when they are due. */
module AxlTiming {
  import opened Options
  import opened Wire
  import opened AxlClient
  import opened AxlAgent
  import opened AxlNetwork
  import opened AxlAgreement
  import opened AxlTheorems

  const TIMEOUT_MS := 45000

  /** `since`: when each call armed its timer. */
  datatype Timed = Timed(net: Net, now: nat, since: map<RequestId, nat>)

  datatype Moment = Happens(e: Event) | Passes(to: nat)

  const BEGINNING := Timed(START, 0, map[])

  function Pending(n: Net, r: RequestId): bool {
    r in n.issued && r in n.ClientAt(n.issued[r].caller).pending
  }

  /** How a call ended for its caller. */
  function Fate(n: Net, r: RequestId): Option<Outcome> {
    if r in n.issued && r in n.ClientAt(n.issued[r].caller).outcome
    then Some(n.ClientAt(n.issued[r].caller).outcome[r]) else None
  }

  /** A timer never fires early, and no later than `late` after it is due. */
  ghost predicate MayHappen(t: Timed, m: Moment, late: nat) {
    match m
    case Happens(e) => Enabled(t.net, e) && (e.Timer? ==> e.r in t.since && t.since[e.r] + TIMEOUT_MS <= t.now)
    case Passes(to) => t.now <= to && forall r :: r in t.since && Pending(t.net, r) ==> to <= t.since[r] + TIMEOUT_MS + late
  }

  function Advance(t: Timed, m: Moment): Timed
    requires m.Happens? ==> Enabled(t.net, m.e)
  {
    match m
    case Happens(e) => Timed(Next(t.net, e), t.now, if e.Issue? then t.since[e.r := t.now] else t.since)
    case Passes(to) => t.(now := to)
  }

  ghost predicate TimedRun(t: Timed, ms: seq<Moment>, late: nat)
    decreases |ms|
  {
    ms == [] || (MayHappen(t, ms[0], late) && TimedRun(Advance(t, ms[0]), ms[1..], late))
  }

  ghost function TimedAfter(t: Timed, ms: seq<Moment>, late: nat): Timed
    requires TimedRun(t, ms, late)
    decreases |ms|
  {
    if ms == [] then t else TimedAfter(Advance(t, ms[0]), ms[1..], late)
  }

  // ------------------------------------------------- what one step does to one call

  lemma FateStep(n: Net, e: Event, r: RequestId)
    requires Inv(n, true) && Enabled(n, e)
    ensures Fate(n, r).Some? ==> Fate(Next(n, e), r) == Fate(n, r)
    ensures Fate(n, r).None? && Fate(Next(n, e), r).Some? ==>
              && Pending(n, r)
              && (Fate(Next(n, e), r) == Some(TimedOut) ==> e.Timer? && e.r == r)
              && (Fate(Next(n, e), r).value.Resolved? ==> e.Process?)
  {
    if r in n.issued {
      IssuedStays(n, e, r);
      var p := n.issued[r].caller;
      ClientAfterIs(n, e, p);
      assert SettledOnce(n.ClientAt(p));
      OutcomeStep(n, e, p, r);
    } else if r in Next(n, e).issued {
      NewlyIssued(n, e, r);
    }
  }

  lemma NewlyIssued(n: Net, e: Event, r: RequestId)
    requires Inv(n, true) && Enabled(n, e) && r !in n.issued && r in Next(n, e).issued
    ensures e.Issue? && e.r == r && Fate(Next(n, e), r).None? && Pending(Next(n, e), r)
  {
    ClientAfterIs(n, e, e.caller);
    assert SettledOnce(n.ClientAt(e.caller));
    assert r !in n.ClientAt(e.caller).outcome;
  }

  lemma OutcomeStep(n: Net, e: Event, p: Peer, r: RequestId)
    requires Enabled(n, e) && SettledOnce(n.ClientAt(p))
    ensures var c, d := n.ClientAt(p), ClientAfter(n, e, p);
            && (r in c.outcome ==> r in d.outcome && d.outcome[r] == c.outcome[r])
            && (r !in c.outcome && r in d.outcome ==>
                  && r in c.pending
                  && (d.outcome[r] == TimedOut ==> e.Timer? && e.r == r)
                  && (d.outcome[r].Resolved? ==> e.Process?))
  {
    if e.Process? && e.batch.at == p {
      var c, ds := n.ClientAt(p), DataOf(e.batch.packets);
      RouteAllKeepsSettledOnce(c, ds);
      if r in c.outcome {
        RouteAllKeepsOutcomes(c, ds, r);
      } else if r in RouteAll(c, ds).outcome {
        RouteAllSource(c, ds, r);
      }
    }
  }

  // ------------------------------------------------- the clock

  /** Every call has its time; a pending one is not overdue, a timed-out one was due. */
  ghost predicate OnTime(t: Timed, late: nat) {
    && (forall r :: r in t.since <==> r in t.net.issued)
    && (forall r :: r in t.since ==> t.since[r] <= t.now)
    && (forall r :: r in t.since && Pending(t.net, r) ==> t.now <= t.since[r] + TIMEOUT_MS + late)
    && (forall r :: r in t.since && Fate(t.net, r) == Some(TimedOut) ==> t.since[r] + TIMEOUT_MS <= t.now)
  }

  lemma StillPending(n: Net, e: Event, r: RequestId)
    requires Inv(n, true) && Enabled(n, e) && Pending(Next(n, e), r)
    ensures Pending(n, r) || (e.Issue? && e.r == r)
  {
    if r in n.issued {
      IssuedStays(n, e, r);
      ClientAfterIs(n, e, n.issued[r].caller);
      PendingAfter(n, e, n.issued[r].caller);
    } else {
      NewlyIssued(n, e, r);
    }
  }

  lemma TimerIssuesNothing(n: Net, at: Peer, r: RequestId)
    requires Enabled(n, Timer(at, r))
    ensures Next(n, Timer(at, r)).issued == n.issued
  {
  }

  lemma ProcessIssuesNothing(n: Net, batch: Batch)
    requires Enabled(n, Process(batch))
    ensures Next(n, Process(batch)).issued == n.issued
  {
  }

  lemma ShutdownIssuesNothing(n: Net, at: Peer)
    ensures Next(n, Shutdown(at)).issued == n.issued
  {
  }

  lemma OthersIssueNothing(n: Net, e: Event)
    requires Enabled(n, e) && !e.Issue?
    ensures Next(n, e).issued == n.issued
  {
    match e
    case Timer(at, r) => TimerIssuesNothing(n, at, r);
    case Process(batch) => ProcessIssuesNothing(n, batch);
    case Shutdown(at) => ShutdownIssuesNothing(n, at);
    case _ =>
  }

  lemma IssuedIs(n: Net, e: Event)
    requires Enabled(n, e)
    ensures Next(n, e).issued == if e.Issue? then n.issued[e.r := Issued(e.caller, e.call)] else n.issued
    ensures e.Issue? ==> e.r !in n.used
  {
    if e.Issue? {
      IssueIs(n, e);
    } else {
      OthersIssueNothing(n, e);
    }
  }

  lemma SinceStep(t: Timed, e: Event)
    requires Inv(t.net, true) && Enabled(t.net, e) && forall r :: r in t.since <==> r in t.net.issued
    ensures var u := Advance(t, Happens(e));
            && (forall r :: r in u.since <==> r in u.net.issued)
            && (forall r :: r in t.since ==> r in u.since && u.since[r] == t.since[r])
            && (forall r :: r in u.since && r !in t.since ==> u.since[r] == t.now)
            && (e.Issue? ==> e.r in u.since && u.since[e.r] == t.now)
  {
    IssuedIs(t.net, e);
  }

  lemma OnTimeStep(t: Timed, m: Moment, late: nat)
    requires Inv(t.net, true) && OnTime(t, late) && MayHappen(t, m, late)
    ensures OnTime(Advance(t, m), late)
  {
    if m.Happens? {
      var u := Advance(t, m);
      SinceStep(t, m.e);
      forall r | r in u.since && Pending(u.net, r)
        ensures u.now <= u.since[r] + TIMEOUT_MS + late
      {
        StillPending(t.net, m.e, r);
      }
      forall r | r in u.since && Fate(u.net, r) == Some(TimedOut)
        ensures u.since[r] + TIMEOUT_MS <= u.now
      {
        FateStep(t.net, m.e, r);
      }
    }
  }

  /**
   An earlier call cannot outlast a later one: when a call issued more than `late` after `r` has timed
   out, `r` is settled.
   */
  lemma EarlierIsSettled(t: Timed, late: nat, r: RequestId, a: RequestId)
    requires Settlement(t.net) && OnTime(t, late) && r in t.since && a in t.since
    requires Fate(t.net, a) == Some(TimedOut) && t.since[a] > t.since[r] + late
    ensures Fate(t.net, r).Some?
  {
    assert !Pending(t.net, r);
    assert r in t.net.ClientAt(t.net.issued[r].caller).pending || r in t.net.ClientAt(t.net.issued[r].caller).outcome;
  }
}
