/** The review decision on top of the agents' protocol: debates without answers, and reports that come too late. */
module Unanswered {
  import opened Options
  import opened ReviewTypes
  import opened Pipeline
  import opened MergeTheorems
  import Consensus
  import Debate
  import Wire
  import Network = AxlNetwork
  import Protocol = AxlTheorems
  import Timing = AxlTiming
  import Deadlines = AxlDeadlines
  import Late = AxlLateAnswer

  /** One debate the red team opens: its A2A call, and what came of it. */
  datatype Attempt = Attempt(
    exploit: Exploit,
    requestId: nat,
    call: nat,
    first: Option<Debate.Answer>,
    invented: bool,
    bypasses: bool,
    final: Option<Debate.Answer>)

  /** All the messages an attack reports. */
  function Collected(attempts: seq<Attempt>): seq<DebateMessage> {
    if attempts == [] then []
    else
      var a := attempts[|attempts| - 1];
      Collected(attempts[..|attempts| - 1]) +
      Debate.Held(a.exploit.severity, a.requestId, a.first, a.invented, a.bypasses, a.final)
  }

  /** A first answer is what the red team's `callA2A` resolved with. */
  predicate Received(n: Network.Net, redteam: nat, a: Attempt) {
    a.first.Some? ==>
      && a.call in n.issued && n.issued[a.call].call.A2a?
      && a.call in n.ClientAt(redteam).outcome && n.ClientAt(redteam).outcome[a.call].Resolved?
  }

  predicate OwnTyped(e: Network.Event) {
    e.Return? ==> Protocol.OwnTyped(e.answer)
  }

  // ------------------------------------------------- debates

  ghost predicate NoneAnswered(n: Network.Net) {
    forall p, r :: r in n.ClientAt(p).outcome && r in n.issued && n.issued[r].call.A2a? ==>
      !n.ClientAt(p).outcome[r].Resolved?
  }

  lemma {:induction false} NothingCollected(n: Network.Net, redteam: nat, attempts: seq<Attempt>)
    requires NoneAnswered(n) && forall a :: a in attempts ==> Received(n, redteam, a)
    ensures Collected(attempts) == []
  {
    if attempts != [] {
      assert attempts[|attempts| - 1] in attempts;
      NothingCollected(n, redteam, attempts[..|attempts| - 1]);
    }
  }

  lemma NoDebateIsHeld(es: seq<Network.Event>, redteam: nat, attempts: seq<Attempt>)
    requires Network.Run(Network.START, es) && forall e :: e in es ==> OwnTyped(e)
    requires forall a :: a in attempts ==> Received(Network.After(Network.START, es), redteam, a)
    ensures Collected(attempts) == []
  {
    var n := Network.After(Network.START, es);
    forall p, r | r in n.ClientAt(p).outcome && r in n.issued && n.issued[r].call.A2a?
      ensures !n.ClientAt(p).outcome[r].Resolved?
    {
      Protocol.A2aIsNeverAnswered(es, p, r);
    }
    NothingCollected(n, redteam, attempts);
  }

  /** Without debates, the exploits that reached the gateway decide alone. */
  lemma WithoutDebates(p: Panel, human: Option<Consensus.HumanVote>, threshold: int)
    requires Debates(p) == []
    ensures Merges(p, human, threshold) ==> forall e :: e in Exploits(p) ==> !e.severity.Blocking()
    ensures Merges(p, None, threshold) <==>
            && SomeoneVotes(p) && ReviewersClean(p) && threshold <= 10000
            && forall e :: e in Exploits(p) ==> !e.severity.Blocking()
  {
    DebatesNeverRescue(p, threshold);
    if Votes(p) == [] {
      NobodyVotes(p, human, threshold);
    } else {
      GuardrailsMean(p, human, threshold);
    }
  }

  /**
   With agents whose A2A results carry a `type` of their own, no debate is ever held, whatever ids it
   would use and whatever the network does. So any critical or high exploit that reached the gateway
   blocks the merge, with or without a human vote, and without one nothing else about them matters.
   */
  lemma ReportedExploitsBlock(es: seq<Network.Event>, redteam: nat, attempts: seq<Attempt>, p: Panel,
                              human: Option<Consensus.HumanVote>, threshold: int)
    requires Network.Run(Network.START, es) && forall e :: e in es ==> OwnTyped(e)
    requires forall a :: a in attempts ==> Received(Network.After(Network.START, es), redteam, a)
    requires p.attack.Some? ==> p.attack.value.debates == Collected(attempts)
    ensures Merges(p, human, threshold) ==> forall e :: e in Exploits(p) ==> !e.severity.Blocking()
    ensures Merges(p, None, threshold) <==>
            && SomeoneVotes(p) && ReviewersClean(p) && threshold <= 10000
            && forall e :: e in Exploits(p) ==> !e.severity.Blocking()
  {
    NoDebateIsHeld(es, redteam, attempts);
    WithoutDebates(p, human, threshold);
  }

  // ------------------------------------------------- the red team's report

  /** The gateway's `callMCP` to the red team has resolved. */
  predicate Reported(n: Network.Net, r: nat) {
    r !in n.unsent && Deadlines.Answered(n, r)
  }

  /** The panel of a run with red team and security agent, in which the red team found `found`. */
  ghost predicate Gathers(p: Panel, n: Network.Net, r: nat, redteam: nat, attempts: seq<Attempt>, found: seq<Exploit>) {
    && p.redteam.Some? && p.security.Some?
    && p.attack == (if Reported(n, r) then Some(Attack(found, Collected(attempts))) else None)
    && forall a :: a in attempts ==> Received(n, redteam, a)
  }

  lemma NothingReceived(t: Timing.Timed, late: nat, r: nat, awaited: set<nat>, redteam: nat, attempts: seq<Attempt>)
    requires Deadlines.Sound(t, late, r, awaited) && forall a :: a in attempts ==> Received(t.net, redteam, a)
    ensures Collected(attempts) == []
  {
    forall p, a | a in t.net.ClientAt(p).outcome && a in t.net.issued && t.net.issued[a].call.A2a?
      ensures !t.net.ClientAt(p).outcome[a].Resolved?
    {
      if t.net.ClientAt(p).outcome[a].Resolved? {
        Protocol.ResolvedA2a(t.net, p, a);
        assert false;
      }
    }
    NothingCollected(t.net, redteam, attempts);
  }

  /**
   A critical or high exploit that the red team found blocks the merge if and only if the red team's
   report has reached the gateway; otherwise whatever it found is as if it had found nothing.
   */
  lemma FoundExploitsBlockExactlyIfReported(ms: seq<Timing.Moment>, t: Timing.Timed, late: nat, r: nat, awaited: set<nat>,
                                            redteam: nat, attempts: seq<Attempt>, found: seq<Exploit>, p: Panel,
                                            human: Option<Consensus.HumanVote>, threshold: int)
    requires Deadlines.Leads(Timing.BEGINNING, ms, t, late, r, awaited)
    requires Gathers(p, t.net, r, redteam, attempts, found)
    ensures Merges(p, None, threshold) <==>
            && ReviewersClean(p) && threshold <= 10000
            && (Reported(t.net, r) ==> forall e :: e in found ==> !e.severity.Blocking())
    ensures Merges(p, human, threshold) && Reported(t.net, r) ==> forall e :: e in found ==> !e.severity.Blocking()
  {
    Deadlines.RunIsSound(ms, t, late, r, awaited);
    NothingReceived(t, late, r, awaited, redteam, attempts);
    WithoutDebates(p, human, threshold);
  }

  /**
   The report is lost whenever the red team has awaited, or still awaits, one of its debates without an
   early failure: the debate's call was issued later than the gateway's, so its timer is due later too.
   The run then merges exactly if the other agents found nothing, whatever the red team found.
   */
  lemma AwaitedDebateLosesTheReport(ms: seq<Timing.Moment>, t: Timing.Timed, late: nat, r: nat, awaited: set<nat>, a: nat,
                                    redteam: nat, attempts: seq<Attempt>, found: seq<Exploit>, p: Panel, threshold: int)
    requires Deadlines.Leads(Timing.BEGINNING, ms, t, late, r, awaited)
    requires Gathers(p, t.net, r, redteam, attempts, found)
    requires a in awaited && r in t.since && a in t.since && t.since[a] > t.since[r] + late
    requires a in t.net.issued && t.net.issued[a].call.A2a? && a !in t.net.unsent
    requires var fate := Timing.Fate(t.net, a); fate.Some? ==> !fate.value.RemoteError? && !fate.value.ShutDown?
    ensures !Reported(t.net, r)
    ensures Merges(p, None, threshold) <==> ReviewersClean(p) && threshold <= 10000
  {
    if Reported(t.net, r) {
      Deadlines.AnswerNeedsEarlyFailures(ms, t, late, r, a, awaited);
      assert false;
    }
    FoundExploitsBlockExactlyIfReported(ms, t, late, r, awaited, redteam, attempts, found, p, None, threshold);
  }

  /** For instance: the red team has returned a critical exploit, and the run merges. */
  lemma FoundExploitCanMerge(s: Late.Scene, v: Option<Wire.Json>, exploit: Exploit)
    returns (ms: seq<Timing.Moment>, t: Timing.Timed, p: Panel)
    requires s.Proper() && exploit.severity.Critical?
    ensures Deadlines.Leads(Timing.BEGINNING, ms, t, 0, s.r, {s.a}) && Deadlines.Computed(t.net, s.r)
    ensures Gathers(p, t.net, s.r, s.q, [Attempt(exploit, 0, s.a, None, false, false, None)], [exploit])
    ensures Merges(p, None, 7500)
  {
    ms, t := Late.LateAnswer(s, v);
    p := Panel(Some(Peer(None)), None, None, Some(Peer(None)), Some([]), None, None, [], None);
    var attempts := [Attempt(exploit, 0, s.a, None, false, false, None)];
    assert Gathers(p, t.net, s.r, s.q, attempts, [exploit]);
    FoundExploitsBlockExactlyIfReported(ms, t, 0, s.r, {s.a}, s.q, attempts, [exploit], p, None, 7500);
    assert SecurityFindings(p) == [];
  }
}
