/** What the reported result says about the votes, the exploits and the decision. */
module ResultTheorems {
  import opened Options
  import opened Sequences
  import opened ReviewTypes
  import opened Consensus
  import opened ConsensusTheorems
  import opened Guardrails

  function Rejecting(v: Vote): real { if v.verdict.Reject? then Weight(v) else 0.0 }

  lemma {:induction false} RejectSum(votes: seq<Vote>)
    ensures SumOf(Weighted(votes), Reject) == Sum(votes, Rejecting)
  {
    if votes != [] {
      var n := |votes| - 1;
      assert Weighted(votes)[..n] == Weighted(votes[..n]);
      assert votes == votes[..n] + [votes[n]];
      RejectSum(votes[..n]);
      SumAppend(votes[..n], votes[n], Rejecting);
    }
  }

  /** The weights in a result are the sums of the votes' effective weights, by verdict, whatever was decided. */
  lemma ResultWeights(votes: seq<Vote>, exploits: seq<Exploit>, debates: seq<DebateMessage>,
                      human: Option<HumanVote>, threshold: int)
    requires votes != []
    ensures var r := Decide(votes, exploits, debates, human, threshold);
            && r.approveWeight == Sum(votes, Approving)
            && r.rejectWeight == Sum(votes, Rejecting)
            && r.totalWeight == Sum(votes, Cast)
  {
    WeightedSums(votes);
    RejectSum(votes);
  }

  lemma ResultLists(votes: seq<Vote>, exploits: seq<Exploit>, debates: seq<DebateMessage>,
                    human: Option<HumanVote>, threshold: int)
    requires votes != []
    ensures var r := Decide(votes, exploits, debates, human, threshold);
            && |r.votes| == |votes|
            && (forall i :: 0 <= i < |votes| ==> r.votes[i] == votes[i].(weight := Weight(votes[i])))
            && r.exploitsFound == exploits && r.exploitsMitigated == CountDefended(exploits, debates)
  {
  }

  /** `c` is the share of `a` in `t`, in basis points, rounded to the nearest with halves up. */
  predicate Nearest(a: real, t: real, c: int) {
    (2 * c - 1) as real * t <= 20000.0 * a < (2 * c + 1) as real * t
  }

  lemma ScoreIsNearest(a: real, t: real)
    requires t > 0.0
    ensures Nearest(a, t, Score(a, t))
  {
    ScoreAtLeast(a, t, Score(a, t));
    ScoreAtLeast(a, t, Score(a, t) + 1);
  }

  /** What the human adds to the weights that a result reports. */
  function HumanSays(human: Option<HumanVote>): (real, real) {
    match human
    case None => (0.0, 0.0)
    case Some(HumanVote(true)) => (2.0, 2.0)
    case Some(HumanVote(false)) => (0.0, 2.0)
  }

  /**
   Without a veto the confidence is the nearest basis point of the reported approving weight in the
   reported total, each with the human's two points; the decision compares it with the threshold.
   */
  lemma ConfidenceOfResult(votes: seq<Vote>, exploits: seq<Exploit>, debates: seq<DebateMessage>,
                           human: Option<HumanVote>, threshold: int)
    requires votes != [] && forall e :: e in exploits && e.severity == Critical ==> WasMitigated(e.id, debates)
    ensures var r, h := Decide(votes, exploits, debates, human, threshold), HumanSays(human);
            && Nearest(r.approveWeight + h.0, r.totalWeight + h.1, r.confidence)
            && (r.approved <==> r.confidence >= threshold)
  {
    VetoMeans(exploits, debates);
    ResultWeights(votes, exploits, debates, human, threshold);
    DecideIs(votes, exploits, debates, human, threshold, Confidence(votes, human));
    ConfidenceIs(votes, human);
    ScoreIsNearest(PanelApproval(votes, human), PanelWeight(votes, human));
  }

  /** The tally's totals are the weights that the result reports, plus exactly the human's two points. */
  lemma TallyIsResult(votes: seq<Vote>, exploits: seq<Exploit>, debates: seq<DebateMessage>,
                      human: Option<HumanVote>, threshold: int, approve: real, reject: real, total: real)
    requires votes != []
    requires total == TotalOf(Weighted(votes)) + HumanTotal(human)
    requires approve == SumOf(Weighted(votes), Approve) + HumanApproval(human)
    requires reject == SumOf(Weighted(votes), Reject) + HumanTotal(human) - HumanApproval(human)
    ensures var r, h := Decide(votes, exploits, debates, human, threshold), HumanSays(human);
            approve == r.approveWeight + h.0 && total == r.totalWeight + h.1 && reject == r.rejectWeight + (h.1 - h.0)
  {
    WeightedSums(votes);
    RejectSum(votes);
    ResultWeights(votes, exploits, debates, human, threshold);
  }

  // ------------------------------------------------- issues

  /** On the voting path the issues are the critical and high findings of the votes, and the critical ones among them. */
  lemma IssuesOfResult(votes: seq<Vote>, exploits: seq<Exploit>, debates: seq<DebateMessage>,
                       human: Option<HumanVote>, threshold: int)
    requires votes != [] && forall e :: e in exploits && e.severity == Critical ==> WasMitigated(e.id, debates)
    ensures var r := Decide(votes, exploits, debates, human, threshold);
            && (forall f :: f in r.blockingIssues <==>
                  (f.severity == Critical || f.severity == High) && exists v :: v in votes && f in v.keyFindings)
            && (forall f :: f in r.criticalFindings <==> f in r.blockingIssues && f.severity == Critical)
  {
    VetoMeans(exploits, debates);
    DecideIs(votes, exploits, debates, human, threshold, Confidence(votes, human));
    assert forall f: Finding :: f.severity.Blocking() <==> f.severity == Critical || f.severity == High;
  }

  lemma {:induction false} KeyFindingsInOrder(votes: seq<Vote>, others: seq<Vote>)
    ensures KeyFindings(votes + others) == KeyFindings(votes) + KeyFindings(others)
  {
    if others == [] {
      assert votes + [] == votes;
    } else {
      var n := |others| - 1;
      assert (votes + others)[..|votes| + n] == votes + others[..n];
      assert (votes + others)[|votes| + n] == others[n];
      KeyFindingsInOrder(votes, others[..n]);
    }
  }

  /** A veto refuses with confidence 0, and lists exactly the critical exploits whose last message does not settle them. */
  lemma VetoOfResult(votes: seq<Vote>, exploits: seq<Exploit>, debates: seq<DebateMessage>,
                     human: Option<HumanVote>, threshold: int, e: Exploit)
    requires votes != [] && e in exploits && e.severity == Critical && !WasMitigated(e.id, debates)
    ensures var r := Decide(votes, exploits, debates, human, threshold);
            && !r.approved && r.confidence == 0 && r.criticalFindings == []
            && Finding(e.id, e.title, Critical) in r.blockingIssues
            && forall f :: f in r.blockingIssues ==>
                 exists x :: x in exploits && x.severity == Critical && !WasMitigated(x.id, debates)
                             && f == Finding(x.id, x.title, Critical)
  {
    var v, r := Vetoing(exploits, debates), Decide(votes, exploits, debates, human, threshold);
    var i :| 0 <= i < |v| && v[i] == e;
    assert r.blockingIssues == AsFindings(v);
    assert r.blockingIssues[i] == Finding(e.id, e.title, Critical);
    forall f | f in r.blockingIssues
      ensures exists x :: x in exploits && x.severity == Critical && !WasMitigated(x.id, debates)
                          && f == Finding(x.id, x.title, Critical)
    {
      var j :| 0 <= j < |v| && r.blockingIssues[j] == f;
      assert v[j] in v;
    }
  }

  /** Nobody having voted, the pull request is refused for safety, with nothing to show. */
  lemma NoVotes(exploits: seq<Exploit>, debates: seq<DebateMessage>, human: Option<HumanVote>, threshold: int)
    ensures var r := Decide([], exploits, debates, human, threshold);
            && !r.approved && r.confidence == 0 && r.blockingIssues == [] && r.criticalFindings == [] && r.votes == []
            && r.totalWeight == 0.0 && r.approveWeight == 0.0 && r.rejectWeight == 0.0 && r.exploitsFound == exploits
  {
  }

  /** The count of mitigated exploits grows by one with every exploit some defense claims to mitigate. */
  lemma MitigatedCount(exploits: seq<Exploit>, e: Exploit, debates: seq<DebateMessage>)
    ensures CountDefended([], debates) == 0
    ensures CountDefended(exploits + [e], debates) == CountDefended(exploits, debates) +
              if exists d :: d in debates && d.requestId == e.id && d.kind == Defense
                             && (d.mitigated == Stated(true) || d.mitigated == Other(true)) then 1 else 0
  {
    FilterConcat(exploits, [e], DefenseTest(debates));
    assert [e][1..] == [];
    assert forall d :: d in debates ==>
      (d.mitigated.Truthy() <==> d.mitigated == Stated(true) || d.mitigated == Other(true));
    assert DefenseTest(debates)(e) <==> Defended(e.id, debates);
  }

  /** Each refusal of the guardrails names the first of their three grounds. */
  lemma RefusalNamesItsGround(r: Result)
    ensures !r.approved ==> EnforceAutoMerge(r) == Refused("Consensus rejected the pull request")
    ensures r.approved && r.blockingIssues != [] ==>
              EnforceAutoMerge(r) == Refused("Consensus still contains blocking issues")
    ensures r.approved && r.blockingIssues == [] && r.exploitsMitigated < |r.exploitsFound| ==>
              (EnforceAutoMerge(r) == Refused("Unmitigated critical exploit remains") <==>
               exists e :: e in r.exploitsFound && e.severity == Critical)
  {
  }

  /** The published weights: red team four, security three, performance two, every other agent one. */
  lemma PublishedWeights(v: Vote)
    requires v.reputation.None? || v.reputation == Some(0.0)
    ensures v.role == RedTeam ==> Weight(v) == 4.0
    ensures v.role == Security ==> Weight(v) == 3.0
    ensures v.role == Performance ==> Weight(v) == 2.0
    ensures v.role != RedTeam && v.role != Security && v.role != Performance ==> Weight(v) == 1.0
  {
    assert Multiplier(v.reputation) == 1.0;
  }
}
