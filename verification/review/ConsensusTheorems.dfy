/** What the vote promises: an exact threshold, monotonicity, bounded influence, order independence. */
module ConsensusTheorems {
  import opened Options
  import opened Sequences
  import opened ReviewTypes
  import opened Consensus
  import opened Guardrails

  // ------------------------------------------------- sums over effective weights

  /** Sum of a weight over the votes satisfying a verdict test. */
  function Sum(votes: seq<Vote>, w: Vote -> real): real {
    if votes == [] then 0.0 else w(votes[0]) + Sum(votes[1..], w)
  }

  function Cast(v: Vote): real { Weight(v) }

  function Approving(v: Vote): real { if v.verdict.Approve? then Weight(v) else 0.0 }

  function CastRole(v: Vote): real { RoleWeight(v.role) }

  function ApprovingRole(v: Vote): real { if v.verdict.Approve? then RoleWeight(v.role) else 0.0 }

  lemma {:induction false} SumAppend(votes: seq<Vote>, v: Vote, w: Vote -> real)
    ensures Sum(votes + [v], w) == Sum(votes, w) + w(v)
  {
    if votes == [] {
      assert [] + [v] == [v];
      assert [v][1..] == [];
    } else {
      assert (votes + [v])[1..] == votes[1..] + [v];
      SumAppend(votes[1..], v, w);
    }
  }

  /** The sums over re-weighted votes are sums of the effective weights. */
  lemma {:induction false} WeightedSums(votes: seq<Vote>)
    ensures TotalOf(Weighted(votes)) == Sum(votes, Cast)
    ensures SumOf(Weighted(votes), Approve) == Sum(votes, Approving)
  {
    if votes != [] {
      var n := |votes| - 1;
      assert Weighted(votes)[..n] == Weighted(votes[..n]);
      assert votes == votes[..n] + [votes[n]];
      WeightedSums(votes[..n]);
      SumAppend(votes[..n], votes[n], Cast);
      SumAppend(votes[..n], votes[n], Approving);
    }
  }

  lemma {:induction false} SumBounds(votes: seq<Vote>)
    ensures 0.0 <= Sum(votes, Approving) <= Sum(votes, Cast)
    ensures votes != [] ==> Sum(votes, Cast) > 0.0
  {
    if votes != [] {
      SumBounds(votes[1..]);
    }
  }

  function PanelApproval(votes: seq<Vote>, human: Option<HumanVote>): real {
    Sum(votes, Approving) + HumanApproval(human)
  }

  function PanelWeight(votes: seq<Vote>, human: Option<HumanVote>): real {
    Sum(votes, Cast) + HumanTotal(human)
  }

  lemma ConfidenceIs(votes: seq<Vote>, human: Option<HumanVote>)
    ensures Confidence(votes, human) == Score(PanelApproval(votes, human), PanelWeight(votes, human))
    ensures 0.0 <= PanelApproval(votes, human) <= PanelWeight(votes, human)
    ensures votes != [] ==> PanelWeight(votes, human) > 0.0
  {
    WeightedSums(votes);
    SumBounds(votes);
  }

  // ------------------------------------------------- rounding

  lemma ScoreAtLeast(a: real, t: real, k: int)
    requires t > 0.0
    ensures Score(a, t) >= k <==> 20000.0 * a >= (2 * k - 1) as real * t
  {
    var q := a / t;
    assert q * t == a;
    RoundAtLeast(q * 10000.0, k);
    Scaled(q * 20000.0, (2 * k - 1) as real, t);
    assert q * 20000.0 * t == 20000.0 * a;
  }

  lemma RoundAtLeast(x: real, k: int)
    ensures Round(x) >= k <==> 2.0 * x >= (2 * k - 1) as real
  {
  }

  lemma Scaled(x: real, y: real, t: real)
    requires t > 0.0
    ensures x >= y <==> x * t >= y * t
  {
  }

  lemma ScaleUp(x: real, y: real, t: real)
    requires x >= y && t >= 0.0
    ensures x * t >= y * t
  {
  }

  lemma StrictScale(x: real, y: real, t: real)
    requires x > y && t > 0.0
    ensures x * t > y * t
  {
  }

  /** With integer thresholds, rounding half up makes the decision this linear inequality of the weights. */
  lemma ExactThreshold(votes: seq<Vote>, human: Option<HumanVote>, threshold: int)
    requires votes != []
    ensures Confidence(votes, human) >= threshold <==>
            20000.0 * PanelApproval(votes, human) >= (2 * threshold - 1) as real * PanelWeight(votes, human)
  {
    ConfidenceIs(votes, human);
    ScoreAtLeast(PanelApproval(votes, human), PanelWeight(votes, human), threshold);
  }

  lemma SumOfFour(a: Vote, b: Vote, c: Vote, d: Vote, w: Vote -> real)
    ensures Sum([a, b, c, d], w) == w(a) + w(b) + w(c) + w(d)
  {
    assert [a, b, c, d][1..] == [b, c, d];
    assert [b, c, d][1..] == [c, d];
    assert [c, d][1..] == [d];
    assert [d][1..] == [];
    assert Sum([d], w) == w(d);
    assert Sum([c, d], w) == w(c) + w(d);
  }

  lemma ReputedWeight(v: Vote, s: real)
    requires v.reputation.GetOr(0.0) == s && -250.0 <= s <= 500.0
    ensures Weight(v) == RoleWeight(v.role) * (1.0 + s / 500.0)
  {
  }

  lemma RoundingWeights(a: Vote, b: Vote, c: Vote, d: Vote)
    requires a.role.RedTeam? && a.reputation.None? && b.role.Performance? && b.reputation.None?
    requires c.role.Style? && c.reputation == Some(261.0) && d.role.Security? && d.reputation == Some(-82.0)
    ensures Weight(a) == 4.0 && Weight(b) == 2.0 && Weight(c) == 761.0 / 500.0 && Weight(d) == 1254.0 / 500.0
  {
    ReputedWeight(a, 0.0);
    ReputedWeight(b, 0.0);
    ReputedWeight(c, 261.0);
    ReputedWeight(d, -82.0);
  }

  lemma RoundingShare(a: Vote, b: Vote, c: Vote, d: Vote)
    requires a.verdict.Approve? && b.verdict.Approve? && c.verdict.Approve? && !d.verdict.Approve?
    requires Weight(a) == 4.0 && Weight(b) == 2.0 && Weight(c) == 761.0 / 500.0 && Weight(d) == 1254.0 / 500.0
    ensures PanelApproval([a, b, c, d], None) == 3761.0 / 500.0 && PanelWeight([a, b, c, d], None) == 5015.0 / 500.0
  {
    SumOfFour(a, b, c, d, Cast);
    SumOfFour(a, b, c, d, Approving);
  }

  /**
   For instance, red team, performance and style (261 points) against security (-82 points): the exact
   share, 3761 of 5015, is below 75 percent, and is approved at 7500 nevertheless.
   */
  lemma RoundingApproves(a: Vote, b: Vote, c: Vote, d: Vote)
    requires a == Vote(RedTeam, Approve, 4.0, [], None)
    requires b == Vote(Performance, Approve, 2.0, [], None)
    requires c == Vote(Style, Approve, 1.0, [], Some(261.0))
    requires d == Vote(Security, Reject, 3.0, [], Some(-82.0))
    ensures 10000.0 * PanelApproval([a, b, c, d], None) < 7500.0 * PanelWeight([a, b, c, d], None)
    ensures Decide([a, b, c, d], [], [], None, 7500).approved
  {
    RoundingWeights(a, b, c, d);
    RoundingShare(a, b, c, d);
    ApprovedByShare([a, b, c, d], None, 7500);
  }

  lemma ApprovedByShare(votes: seq<Vote>, human: Option<HumanVote>, threshold: int)
    requires votes != []
    ensures Decide(votes, [], [], human, threshold).approved <==>
            20000.0 * PanelApproval(votes, human) >= (2 * threshold - 1) as real * PanelWeight(votes, human)
  {
    ExactThreshold(votes, human, threshold);
    ApprovedByConfidence(votes, human, threshold);
  }

  lemma ApprovedByConfidence(votes: seq<Vote>, human: Option<HumanVote>, threshold: int)
    requires votes != []
    ensures Decide(votes, [], [], human, threshold).approved <==> Confidence(votes, human) >= threshold
  {
  }

  lemma ConfidenceInRange(votes: seq<Vote>, human: Option<HumanVote>)
    ensures 0 <= Confidence(votes, human) <= 10000
  {
    ConfidenceIs(votes, human);
    var a, t := PanelApproval(votes, human), PanelWeight(votes, human);
    if t > 0.0 {
      ScoreAtLeast(a, t, 0);
      ScoreAtLeast(a, t, 10001);
    }
  }

  // ------------------------------------------------- monotonicity

  lemma ScoreMonotone(a: real, t: real, b: real, u: real)
    requires t > 0.0 && u > 0.0 && a * u <= b * t
    ensures Score(a, t) <= Score(b, u)
  {
    var p, q := a / t, b / u;
    assert p * t == a && q * u == b;
    if p > q {
      StrictScale(p, q, t * u);
      assert p * (t * u) == a * u;
      assert q * (t * u) == b * t;
    }
  }

  lemma {:induction false} SumReplace(votes: seq<Vote>, i: nat, v: Vote, w: Vote -> real)
    requires i < |votes|
    ensures Sum(votes[i := v], w) == Sum(votes, w) - w(votes[i]) + w(v)
  {
    if i > 0 {
      assert votes[i := v][1..] == votes[1..][i - 1 := v];
      SumReplace(votes[1..], i - 1, v, w);
    } else {
      assert votes[0 := v][1..] == votes[1..];
    }
  }

  /** Comparing two panels by their weights. */
  lemma Compare(votes: seq<Vote>, others: seq<Vote>, human: Option<HumanVote>)
    requires votes != [] && others != []
    requires PanelApproval(votes, human) * PanelWeight(others, human) <= PanelApproval(others, human) * PanelWeight(votes, human)
    ensures Confidence(votes, human) <= Confidence(others, human)
  {
    ConfidenceIs(votes, human);
    ConfidenceIs(others, human);
    ScoreMonotone(PanelApproval(votes, human), PanelWeight(votes, human),
                  PanelApproval(others, human), PanelWeight(others, human));
  }

  lemma MoreApproval(a: real, t: real, b: real, u: real, d: real)
    requires 0.0 <= a <= t && d >= 0.0 && b == a + d && u == t + d
    ensures a * u <= b * t
  {
  }

  /** The same weight added to the approvals and to the total. */
  lemma CompareMoreApproval(votes: seq<Vote>, others: seq<Vote>, human: Option<HumanVote>, d: real)
    requires votes != [] && others != [] && d >= 0.0
    requires PanelApproval(others, human) == PanelApproval(votes, human) + d
    requires PanelWeight(others, human) == PanelWeight(votes, human) + d
    ensures Confidence(votes, human) <= Confidence(others, human)
  {
    ConfidenceIs(votes, human);
    MoreApproval(PanelApproval(votes, human), PanelWeight(votes, human),
                 PanelApproval(others, human), PanelWeight(others, human), d);
    Compare(votes, others, human);
  }

  lemma MoreOfTheSame(a: real, b: real, t: real)
    requires a <= b && t > 0.0
    ensures Score(a, t) <= Score(b, t)
  {
    ScaleUp(b, a, t);
    ScoreMonotone(a, t, b, t);
  }

  lemma SameOfMore(a: real, t: real, u: real)
    requires a >= 0.0 && 0.0 < t <= u
    ensures Score(a, u) <= Score(a, t)
  {
    ScaleUp(u, t, a);
    ScoreMonotone(a, u, a, t);
  }

  /** More approvals in the same total. */
  lemma CompareSameTotal(votes: seq<Vote>, others: seq<Vote>, human: Option<HumanVote>)
    requires votes != [] && others != []
    requires PanelApproval(others, human) >= PanelApproval(votes, human)
    requires PanelWeight(others, human) == PanelWeight(votes, human)
    ensures Confidence(votes, human) <= Confidence(others, human)
  {
    ConfidenceIs(votes, human);
    ConfidenceIs(others, human);
    MoreOfTheSame(PanelApproval(votes, human), PanelApproval(others, human), PanelWeight(votes, human));
  }

  /** The same approvals in a larger total. */
  lemma CompareMoreTotal(votes: seq<Vote>, others: seq<Vote>, human: Option<HumanVote>)
    requires votes != [] && others != []
    requires PanelApproval(others, human) == PanelApproval(votes, human)
    requires PanelWeight(others, human) >= PanelWeight(votes, human)
    ensures Confidence(others, human) <= Confidence(votes, human)
  {
    ConfidenceIs(votes, human);
    ConfidenceIs(others, human);
    SameOfMore(PanelApproval(votes, human), PanelWeight(votes, human), PanelWeight(others, human));
  }

  lemma Replaced(votes: seq<Vote>, i: nat, v: Vote, human: Option<HumanVote>)
    requires i < |votes|
    ensures PanelApproval(votes[i := v], human) == PanelApproval(votes, human) - Approving(votes[i]) + Approving(v)
    ensures PanelWeight(votes[i := v], human) == PanelWeight(votes, human) - Cast(votes[i]) + Cast(v)
    ensures 0.0 <= PanelApproval(votes, human) <= PanelWeight(votes, human)
  {
    SumReplace(votes, i, v, Cast);
    SumReplace(votes, i, v, Approving);
    SumBounds(votes);
  }

  lemma WeightMonotone(v: Vote, s: real)
    requires v.reputation.GetOr(0.0) <= s
    ensures Weight(v) <= Weight(v.(reputation := Some(s)))
  {
  }

  /** Turning any vote into an approval never lowers the confidence. */
  lemma ApprovalHelps(votes: seq<Vote>, human: Option<HumanVote>, i: nat)
    requires i < |votes|
    ensures Confidence(votes, human) <= Confidence(votes[i := votes[i].(verdict := Approve)], human)
  {
    var v := votes[i].(verdict := Approve);
    Replaced(votes, i, v, human);
    CompareSameTotal(votes, votes[i := v], human);
  }

  /** One more approving vote never lowers the confidence. */
  lemma AddedApprovalHelps(votes: seq<Vote>, human: Option<HumanVote>, v: Vote)
    requires votes != [] && v.verdict.Approve?
    ensures Confidence(votes, human) <= Confidence(votes + [v], human)
  {
    SumAppend(votes, v, Cast);
    SumAppend(votes, v, Approving);
    CompareMoreApproval(votes, votes + [v], human, Weight(v));
  }

  /** Raising a reputation helps the side its owner voted for, never the other. */
  lemma ReputationHelpsItsSide(votes: seq<Vote>, human: Option<HumanVote>, i: nat, s: real)
    requires i < |votes| && votes[i].reputation.GetOr(0.0) <= s
    ensures var after := votes[i := votes[i].(reputation := Some(s))];
            if votes[i].verdict.Approve? then Confidence(votes, human) <= Confidence(after, human)
            else Confidence(after, human) <= Confidence(votes, human)
  {
    var v := votes[i].(reputation := Some(s));
    Replaced(votes, i, v, human);
    WeightMonotone(votes[i], s);
    if votes[i].verdict.Approve? {
      CompareMoreApproval(votes, votes[i := v], human, Weight(v) - Weight(votes[i]));
    } else {
      CompareMoreTotal(votes, votes[i := v], human);
    }
  }

  /** An abstention counts exactly like a rejection. */
  lemma AbstainIsReject(votes: seq<Vote>, human: Option<HumanVote>, i: nat)
    requires i < |votes| && votes[i].verdict.Abstain?
    ensures Confidence(votes[i := votes[i].(verdict := Reject)], human) == Confidence(votes, human)
  {
    var v := votes[i].(verdict := Reject);
    Replaced(votes, i, v, human);
    CompareSameTotal(votes, votes[i := v], human);
    CompareSameTotal(votes[i := v], votes, human);
  }

  // ------------------------------------------------- influence of reputations

  /** Every 100 points of reputation are worth a fifth of the role's weight, up to half and double the weight. */
  lemma HundredPointsAreAFifth(v: Vote, s: real)
    requires -250.0 <= s <= 400.0
    ensures Weight(v.(reputation := Some(s + 100.0))) == Weight(v.(reputation := Some(s))) + RoleWeight(v.role) / 5.0
    ensures Weight(v.(reputation := Some(0.0))) == Weight(v.(reputation := None)) == RoleWeight(v.role)
    ensures Weight(v.(reputation := Some(-250.0))) == RoleWeight(v.role) / 2.0
    ensures Weight(v.(reputation := Some(500.0))) == RoleWeight(v.role) * 2.0
  {
    assert Multiplier(Some(s + 100.0)) == Multiplier(Some(s)) + 0.2;
  }

  lemma {:induction false} WeightRange(votes: seq<Vote>)
    ensures var a, t := Sum(votes, Approving), Sum(votes, Cast);
            var b, u := Sum(votes, ApprovingRole), Sum(votes, CastRole);
            && 0.0 <= b <= u
            && b <= 2.0 * a && a <= 2.0 * b
            && u - b <= 2.0 * (t - a) && t - a <= 2.0 * (u - b)
  {
    if votes != [] {
      WeightRange(votes[1..]);
      var v := votes[0];
      ScaleUp(2.0, Multiplier(v.reputation), RoleWeight(v.role));
      ScaleUp(Multiplier(v.reputation), 0.5, RoleWeight(v.role));
    }
  }

  /** The share a / t lies between b / (4u - 3b) and 4b / (u + 3b). */
  predicate ShareWithin(a: real, t: real, b: real, u: real) {
    b * t <= a * (4.0 * u - 3.0 * b) && a * (u + 3.0 * b) <= 4.0 * b * t
  }

  /** Whatever the reputations, the approving share stays within bounds set by the role weights alone. */
  lemma ReputationInfluenceIsBounded(votes: seq<Vote>)
    ensures ShareWithin(Sum(votes, Approving), Sum(votes, Cast), Sum(votes, ApprovingRole), Sum(votes, CastRole))
  {
    WeightRange(votes);
    SumBounds(votes);
    ShareBounds(Sum(votes, Approving), Sum(votes, Cast), Sum(votes, ApprovingRole), Sum(votes, CastRole));
  }

  lemma ShareBounds(a: real, t: real, b: real, u: real)
    requires 0.0 <= a <= t && 0.0 <= b <= u
    requires b <= 2.0 * a && a <= 2.0 * b && u - b <= 2.0 * (t - a) && t - a <= 2.0 * (u - b)
    ensures ShareWithin(a, t, b, u)
  {
    CrossBound(a, t - a, b, u - b);
    assert b * t == b * a + b * (t - a);
    assert a * (4.0 * u - 3.0 * b) == a * b + 4.0 * (a * (u - b));
    assert a * (u + 3.0 * b) == 4.0 * (a * b) + a * (u - b);
    assert 4.0 * b * t == 4.0 * (b * a) + 4.0 * (b * (t - a));
  }

  lemma CrossBound(a: real, r: real, b: real, s: real)
    requires a >= 0.0 && r >= 0.0 && b >= 0.0 && s >= 0.0
    requires b <= 2.0 * a && a <= 2.0 * b && s <= 2.0 * r && r <= 2.0 * s
    ensures b * r <= 4.0 * (a * s) && a * s <= 4.0 * (b * r)
  {
  }

  // ------------------------------------------------- the veto

  lemma VetoMeans(exploits: seq<Exploit>, debates: seq<DebateMessage>)
    ensures Vetoing(exploits, debates) == [] <==>
            forall e :: e in exploits && e.severity.Critical? ==> WasMitigated(e.id, debates)
  {
    var v := Vetoing(exploits, debates);
    assert v != [] ==> v[0] in v;
  }

  // ------------------------------------------------- order independence

  lemma {:induction false} SumPermuted(votes: seq<Vote>, others: seq<Vote>, w: Vote -> real)
    requires multiset(votes) == multiset(others)
    ensures Sum(votes, w) == Sum(others, w)
  {
    if votes == [] {
      assert |multiset(others)| == 0;
    } else {
      var v := votes[0];
      assert votes == [v] + votes[1..];
      assert v in multiset(others);
      var k :| 0 <= k < |others| && others[k] == v;
      var rest := others[..k] + others[k + 1..];
      assert others == others[..k] + [v] + others[k + 1..];
      assert multiset(rest) == multiset(others) - multiset{v};
      SumPermuted(votes[1..], rest, w);
      SumMiddle(others[..k], v, others[k + 1..], w);
    }
  }

  lemma {:induction false} SumMiddle(front: seq<Vote>, v: Vote, back: seq<Vote>, w: Vote -> real)
    ensures Sum(front + [v] + back, w) == w(v) + Sum(front + back, w)
  {
    if front == [] {
      assert [] + [v] + back == [v] + back && [] + back == back;
    } else {
      assert (front + [v] + back)[1..] == front[1..] + [v] + back;
      assert (front + back)[1..] == front[1..] + back;
      SumMiddle(front[1..], v, back, w);
    }
  }

  lemma ConfidencePermuted(votes: seq<Vote>, others: seq<Vote>, human: Option<HumanVote>)
    requires multiset(votes) == multiset(others)
    ensures Confidence(votes, human) == Confidence(others, human)
  {
    SumPermuted(votes, others, Cast);
    SumPermuted(votes, others, Approving);
    ConfidenceIs(votes, human);
    ConfidenceIs(others, human);
  }

  lemma {:induction false} KeyFindingsCount(votes: seq<Vote>, f: Finding, w: Vote -> real)
    requires forall v :: w(v) == multiset(v.keyFindings)[f] as real
    ensures multiset(KeyFindings(votes))[f] as real == Sum(votes, w)
  {
    if votes != [] {
      var n := |votes| - 1;
      KeyFindingsCount(votes[..n], f, w);
      SumAppend(votes[..n], votes[n], w);
      assert votes == votes[..n] + [votes[n]];
      assert multiset(KeyFindings(votes)) == multiset(KeyFindings(votes[..n])) + multiset(votes[n].keyFindings);
    }
  }

  lemma KeyFindingsPermuted(votes: seq<Vote>, others: seq<Vote>)
    requires multiset(votes) == multiset(others)
    ensures multiset(KeyFindings(votes)) == multiset(KeyFindings(others))
  {
    forall f: Finding
      ensures multiset(KeyFindings(votes))[f] == multiset(KeyFindings(others))[f]
    {
      var w := (v: Vote) => multiset(v.keyFindings)[f] as real;
      SumPermuted(votes, others, w);
      KeyFindingsCount(votes, f, w);
      KeyFindingsCount(others, f, w);
    }
  }

  lemma IssuesPermuted(votes: seq<Vote>, others: seq<Vote>)
    requires multiset(votes) == multiset(others)
    ensures var b, c := BlockingOnly(KeyFindings(votes)), BlockingOnly(KeyFindings(others));
            && multiset(b) == multiset(c) && |b| == |c|
            && multiset(CriticalOnly(b)) == multiset(CriticalOnly(c))
  {
    KeyFindingsPermuted(votes, others);
    var b, c := BlockingOnly(KeyFindings(votes)), BlockingOnly(KeyFindings(others));
    forall f: Finding
      ensures multiset(b)[f] == multiset(c)[f]
    {
      FilterCount(KeyFindings(votes), IsBlocking, f);
      FilterCount(KeyFindings(others), IsBlocking, f);
    }
    assert multiset(b) == multiset(c);
    assert |b| == |multiset(b)| == |multiset(c)| == |c|;
    forall f: Finding
      ensures multiset(CriticalOnly(b))[f] == multiset(CriticalOnly(c))[f]
    {
      FilterCount(b, IsCritical, f);
      FilterCount(c, IsCritical, f);
    }
  }

  lemma SameEmptiness(votes: seq<Vote>, others: seq<Vote>)
    requires multiset(votes) == multiset(others)
    ensures votes == [] <==> others == []
  {
    assert |votes| == |multiset(votes)| == |multiset(others)| == |others|;
  }

  /** What a result says apart from the votes it lists. */
  ghost predicate SaysTheSame(r: Result, s: Result) {
    && r.approved == s.approved && r.confidence == s.confidence
    && multiset(r.blockingIssues) == multiset(s.blockingIssues)
    && multiset(r.criticalFindings) == multiset(s.criticalFindings)
    && r.exploitsFound == s.exploitsFound && r.exploitsMitigated == s.exploitsMitigated
    && EnforceAutoMerge(r) == EnforceAutoMerge(s)
  }

  lemma BuildsTheSame(approved: bool, confidence: int, votes: seq<Vote>, others: seq<Vote>, exploits: seq<Exploit>,
                      debates: seq<DebateMessage>, b: seq<Finding>, c: seq<Finding>)
    requires multiset(b) == multiset(c) && |b| == |c| && multiset(CriticalOnly(b)) == multiset(CriticalOnly(c))
    ensures SaysTheSame(BuildResult(approved, confidence, votes, exploits, debates, b, CriticalOnly(b)),
                        BuildResult(approved, confidence, others, exploits, debates, c, CriticalOnly(c)))
  {
  }

  lemma SameUnlessVoting(votes: seq<Vote>, others: seq<Vote>, exploits: seq<Exploit>,
                         debates: seq<DebateMessage>, human: Option<HumanVote>, threshold: int)
    requires votes == [] <==> others == []
    requires votes == [] || Vetoing(exploits, debates) != []
    ensures SaysTheSame(Decide(votes, exploits, debates, human, threshold),
                        Decide(others, exploits, debates, human, threshold))
  {
  }

  /** Nothing that is decided or reported about the issues depends on the order of the votes. */
  lemma OrderOfVotesIsIrrelevant(votes: seq<Vote>, others: seq<Vote>, exploits: seq<Exploit>,
                                 debates: seq<DebateMessage>, human: Option<HumanVote>, threshold: int)
    requires multiset(votes) == multiset(others)
    ensures SaysTheSame(Decide(votes, exploits, debates, human, threshold),
                        Decide(others, exploits, debates, human, threshold))
  {
    SameEmptiness(votes, others);
    if votes == [] || Vetoing(exploits, debates) != [] {
      SameUnlessVoting(votes, others, exploits, debates, human, threshold);
    } else {
      var confidence := Confidence(votes, human);
      ConfidencePermuted(votes, others, human);
      IssuesPermuted(votes, others);
      DecideIs(votes, exploits, debates, human, threshold, confidence);
      DecideIs(others, exploits, debates, human, threshold, confidence);
      BuildsTheSame(confidence >= threshold, confidence, Weighted(votes), Weighted(others), exploits, debates,
                    BlockingOnly(KeyFindings(votes)), BlockingOnly(KeyFindings(others)));
    }
  }
}
