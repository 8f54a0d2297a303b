/** From the agents' answers to the merge decision. */
module Pipeline {
  import opened Options
  import opened Sequences
  import opened ReviewTypes
  import opened Consensus
  import opened Guardrails

  datatype Peer = Peer(reputation: Option<real>)

  datatype Attack = Attack(exploits: seq<Exploit>, debates: seq<DebateMessage>)

  /**
   What one run gathers: the first online peer of each role, each review agent's findings (none when
   its call failed), the gateway's own scan, and the red team's answer (none when its call failed).
   */
  datatype Panel = Panel(
    security: Option<Peer>,
    performance: Option<Peer>,
    style: Option<Peer>,
    redteam: Option<Peer>,
    securityReply: Option<seq<Finding>>,
    performanceReply: Option<seq<Finding>>,
    styleReply: Option<seq<Finding>>,
    scan: seq<Finding>,
    attack: Option<Attack>)

  /** A missing peer or a failed call contributes no findings. */
  function Reported(peer: Option<Peer>, reply: Option<seq<Finding>>): seq<Finding> {
    if peer.None? then [] else reply.GetOr([])
  }

  /** Nothing from the security agent, for whatever reason, means the gateway's scan is used. */
  function SecurityFindings(p: Panel): seq<Finding> {
    var f := Reported(p.security, p.securityReply);
    if f == [] then p.scan else f
  }

  function Exploits(p: Panel): seq<Exploit> {
    if p.redteam.Some? && p.security.Some? && p.attack.Some? then p.attack.value.exploits else []
  }

  function Debates(p: Panel): seq<DebateMessage> {
    if p.redteam.Some? && p.security.Some? && p.attack.Some? then p.attack.value.debates else []
  }

  /** The red-team vote's test: some message about the exploit claims mitigation. */
  predicate Answered(id: nat, debates: seq<DebateMessage>) {
    exists d :: d in debates && d.requestId == id && d.mitigated.Truthy()
  }

  function UnansweredTest(debates: seq<DebateMessage>): Exploit -> bool {
    (e: Exploit) => !Answered(e.id, debates)
  }

  function Unmitigated(exploits: seq<Exploit>, debates: seq<DebateMessage>): (r: seq<Exploit>)
    ensures forall e :: e in r <==> e in exploits && !Answered(e.id, debates)
  {
    FilterMembers(exploits, UnansweredTest(debates));
    Filter(exploits, UnansweredTest(debates))
  }

  function BuildVote(peer: Peer, findings: seq<Finding>, role: Role): Vote {
    var blocking := BlockingOnly(findings);
    Vote(role, if |blocking| > 0 then Reject else Approve, RoleWeight(role), blocking, peer.reputation)
  }

  function RedTeamVote(exploits: seq<Exploit>, debates: seq<DebateMessage>): Vote {
    var unmitigated := Unmitigated(exploits, debates);
    Vote(RedTeam, if exists e :: e in unmitigated && e.severity.Blocking() then Reject else Approve, 4.0,
         AsFindings(unmitigated), None)
  }

  /** The stand-in for a missing security peer. */
  const HEURISTIC_PEER := Peer(Some(80.0))

  function SecurityVotes(p: Panel): seq<Vote> {
    if |SecurityFindings(p)| > 0 || p.security.Some? then
      [BuildVote(p.security.GetOr(HEURISTIC_PEER), SecurityFindings(p), Security)]
    else []
  }

  function PerformanceVotes(p: Panel): seq<Vote> {
    if p.performance.Some? then
      [BuildVote(p.performance.value, Reported(p.performance, p.performanceReply), Performance)]
    else []
  }

  function StyleVotes(p: Panel): seq<Vote> {
    if p.style.Some? then [BuildVote(p.style.value, Reported(p.style, p.styleReply), Style)] else []
  }

  function RedTeamVotes(p: Panel): seq<Vote> {
    if p.redteam.Some? then [RedTeamVote(Exploits(p), Debates(p))] else []
  }

  function Votes(p: Panel): seq<Vote> {
    SecurityVotes(p) + PerformanceVotes(p) + StyleVotes(p) + RedTeamVotes(p)
  }

  function Decision(p: Panel, human: Option<HumanVote>, threshold: int): Result {
    Decide(Votes(p), Exploits(p), Debates(p), human, threshold)
  }

  predicate Merges(p: Panel, human: Option<HumanVote>, threshold: int) {
    EnforceAutoMerge(Decision(p, human, threshold)).Allowed?
  }

  /** The votes of one run, pushed in the order of the roles. */
  method CollectVotes(p: Panel) returns (votes: seq<Vote>)
    ensures votes == Votes(p)
  {
    var secFindings := Reported(p.security, p.securityReply);
    if |secFindings| == 0 {
      secFindings := p.scan;
    }
    votes := [];
    if |secFindings| > 0 || p.security.Some? {
      votes := votes + [BuildVote(p.security.GetOr(HEURISTIC_PEER), secFindings, Security)];
    }
    assert votes == SecurityVotes(p);
    if p.performance.Some? {
      votes := votes + [BuildVote(p.performance.value, Reported(p.performance, p.performanceReply), Performance)];
    }
    assert votes == SecurityVotes(p) + PerformanceVotes(p);
    if p.style.Some? {
      votes := votes + [BuildVote(p.style.value, Reported(p.style, p.styleReply), Style)];
    }
    assert votes == SecurityVotes(p) + PerformanceVotes(p) + StyleVotes(p);
    if p.redteam.Some? {
      votes := votes + [RedTeamVote(Exploits(p), Debates(p))];
    }
  }

  /** Vote construction and the merge decision of one pipeline run. */
  method Run(p: Panel, human: Option<HumanVote>, threshold: int) returns (merged: bool, consensus: Result)
    ensures consensus == Decision(p, human, threshold)
    ensures merged == Merges(p, human, threshold)
  {
    var votes := CollectVotes(p);
    consensus := ComputeConsensus(votes, Exploits(p), Debates(p), human, threshold);
    var guardrail := EnforceAutoMerge(consensus);
    merged := guardrail.Allowed?;
  }
}
