/** Weighted voting with reputation, rounding to basis points, and the veto of unmitigated critical exploits. */
module Consensus {
  import opened Options
  import opened Sequences
  import opened ReviewTypes

  function RoleWeight(role: Role): (w: real)
    ensures w >= 1.0
  {
    match role
    case RedTeam => 4.0
    case Security => 3.0
    case Performance => 2.0
    case _ => 1.0
  }

  function Min(a: real, b: real): real { if a <= b then a else b }

  function Max(a: real, b: real): real { if a >= b then a else b }

  /** One fifth more or less for every 100 points of reputation, between a half and twice. */
  function Multiplier(reputation: Option<real>): (m: real)
    ensures 0.5 <= m <= 2.0
  {
    Max(0.5, Min(2.0, match reputation case Some(s) => 1.0 + s / 500.0 case None => 1.0))
  }

  function Weight(v: Vote): (w: real)
    ensures w >= 0.5
  {
    RoleWeight(v.role) * Multiplier(v.reputation)
  }

  function Weighted(votes: seq<Vote>): (r: seq<Vote>)
    ensures |r| == |votes|
    ensures forall i :: 0 <= i < |votes| ==> r[i] == votes[i].(weight := Weight(votes[i]))
  {
    seq(|votes|, i requires 0 <= i < |votes| => votes[i].(weight := Weight(votes[i])))
  }

  /** `Math.round`: halves go up. */
  function Round(x: real): int {
    (x + 0.5).Floor
  }

  function Score(approve: real, total: real): int {
    if total > 0.0 then Round(approve / total * 10000.0) else 0
  }

  // Sums over the `weight` field, as the result reports them.

  function TotalOf(votes: seq<Vote>): real {
    if votes == [] then 0.0 else TotalOf(votes[..|votes| - 1]) + votes[|votes| - 1].weight
  }

  function SumOf(votes: seq<Vote>, verdict: Verdict): real {
    if votes == [] then 0.0
    else SumOf(votes[..|votes| - 1], verdict) +
         if votes[|votes| - 1].verdict == verdict then votes[|votes| - 1].weight else 0.0
  }

  datatype HumanVote = HumanVote(approves: bool)

  const HUMAN_WEIGHT := 2.0

  function HumanTotal(human: Option<HumanVote>): real {
    if human.Some? then HUMAN_WEIGHT else 0.0
  }

  function HumanApproval(human: Option<HumanVote>): real {
    if human.Some? && human.value.approves then HUMAN_WEIGHT else 0.0
  }

  // ------------------------------------------------- the two mitigation tests made here

  /** The last message about an exploit. */
  function LastAbout(id: nat, debates: seq<DebateMessage>): Option<DebateMessage> {
    if debates == [] then None
    else if debates[|debates| - 1].requestId == id then Some(debates[|debates| - 1])
    else LastAbout(id, debates[..|debates| - 1])
  }

  /** The veto's test: the last message says so, with a literal `true`. */
  predicate WasMitigated(id: nat, debates: seq<DebateMessage>) {
    var last := LastAbout(id, debates);
    last.Some? && last.value.mitigated == Stated(true)
  }

  /** The report's test: some defense claims mitigation. */
  predicate Defended(id: nat, debates: seq<DebateMessage>) {
    exists d :: d in debates && d.requestId == id && d.mitigated.Truthy() && d.kind.Defense?
  }

  predicate Vetoes(e: Exploit, debates: seq<DebateMessage>) {
    e.severity.Critical? && !WasMitigated(e.id, debates)
  }

  function VetoTest(debates: seq<DebateMessage>): Exploit -> bool {
    (e: Exploit) => Vetoes(e, debates)
  }

  function Vetoing(exploits: seq<Exploit>, debates: seq<DebateMessage>): (r: seq<Exploit>)
    ensures forall e :: e in r <==> e in exploits && Vetoes(e, debates)
  {
    FilterMembers(exploits, VetoTest(debates));
    Filter(exploits, VetoTest(debates))
  }

  function DefenseTest(debates: seq<DebateMessage>): Exploit -> bool {
    (e: Exploit) => Defended(e.id, debates)
  }

  function CountDefended(exploits: seq<Exploit>, debates: seq<DebateMessage>): (n: nat)
    ensures n <= |exploits|
    ensures n == |exploits| <==> forall e :: e in exploits ==> Defended(e.id, debates)
  {
    FilterMembers(exploits, DefenseTest(debates));
    |Filter(exploits, DefenseTest(debates))|
  }

  function AsFindings(exploits: seq<Exploit>): (r: seq<Finding>)
    ensures |r| == |exploits|
    ensures forall i :: 0 <= i < |r| ==> r[i] == Finding(exploits[i].id, exploits[i].title, exploits[i].severity)
  {
    seq(|exploits|, i requires 0 <= i < |exploits| => Finding(exploits[i].id, exploits[i].title, exploits[i].severity))
  }

  function IsBlocking(f: Finding): bool {
    f.severity.Blocking()
  }

  function IsCritical(f: Finding): bool {
    f.severity.Critical?
  }

  function BlockingOnly(findings: seq<Finding>): (r: seq<Finding>)
    ensures forall f :: f in r <==> f in findings && f.severity.Blocking()
  {
    FilterMembers(findings, IsBlocking);
    Filter(findings, IsBlocking)
  }

  function CriticalOnly(findings: seq<Finding>): (r: seq<Finding>)
    ensures forall f :: f in r <==> f in findings && f.severity.Critical?
  {
    FilterMembers(findings, IsCritical);
    Filter(findings, IsCritical)
  }

  function KeyFindings(votes: seq<Vote>): (r: seq<Finding>)
    ensures forall f :: f in r <==> exists v :: v in votes && f in v.keyFindings
  {
    if votes == [] then []
    else
      assert votes == votes[..|votes| - 1] + [votes[|votes| - 1]];
      KeyFindings(votes[..|votes| - 1]) + votes[|votes| - 1].keyFindings
  }

  // ------------------------------------------------- the decision

  datatype Result = Result(
    approved: bool,
    confidence: int,
    totalWeight: real,
    approveWeight: real,
    rejectWeight: real,
    votes: seq<Vote>,
    exploitsFound: seq<Exploit>,
    exploitsMitigated: nat,
    blockingIssues: seq<Finding>,
    criticalFindings: seq<Finding>)

  function BuildResult(approved: bool, confidence: int, votes: seq<Vote>, exploits: seq<Exploit>,
                       debates: seq<DebateMessage>, blocking: seq<Finding>, critical: seq<Finding>): Result {
    Result(approved, confidence, TotalOf(votes), SumOf(votes, Approve), SumOf(votes, Reject),
           votes, exploits, CountDefended(exploits, debates), blocking, critical)
  }

  /** The panel's share of approval, with the human's two points, in basis points. */
  function Confidence(votes: seq<Vote>, human: Option<HumanVote>): int {
    var w := Weighted(votes);
    Score(SumOf(w, Approve) + HumanApproval(human), TotalOf(w) + HumanTotal(human))
  }

  function Decide(votes: seq<Vote>, exploits: seq<Exploit>, debates: seq<DebateMessage>,
                  human: Option<HumanVote>, threshold: int): Result {
    if votes == [] then BuildResult(false, 0, votes, exploits, debates, [], [])
    else
      var vetoing := Vetoing(exploits, debates);
      if vetoing != [] then BuildResult(false, 0, Weighted(votes), exploits, debates, AsFindings(vetoing), [])
      else
        var blocking := BlockingOnly(KeyFindings(votes));
        var confidence := Confidence(votes, human);
        BuildResult(confidence >= threshold, confidence, Weighted(votes), exploits, debates,
                    blocking, CriticalOnly(blocking))
  }

  lemma SumStep(votes: seq<Vote>, i: nat)
    requires i < |votes|
    ensures TotalOf(votes[..i + 1]) == TotalOf(votes[..i]) + votes[i].weight
    ensures forall d :: SumOf(votes[..i + 1], d) ==
                        SumOf(votes[..i], d) + if votes[i].verdict == d then votes[i].weight else 0.0
  {
    assert votes[..i + 1][..i] == votes[..i];
  }

  /** The tally loop: its running totals are the sums the result reports, plus exactly the human's weight. */
  method Tally(weightedVotes: seq<Vote>, human: Option<HumanVote>)
    returns (approveWeight: real, rejectWeight: real, totalWeight: real)
    ensures totalWeight == TotalOf(weightedVotes) + HumanTotal(human)
    ensures approveWeight == SumOf(weightedVotes, Approve) + HumanApproval(human)
    ensures rejectWeight == SumOf(weightedVotes, Reject) + HumanTotal(human) - HumanApproval(human)
  {
    approveWeight, rejectWeight, totalWeight := 0.0, 0.0, 0.0;
    for i := 0 to |weightedVotes|
      invariant totalWeight == TotalOf(weightedVotes[..i])
      invariant approveWeight == SumOf(weightedVotes[..i], Approve)
      invariant rejectWeight == SumOf(weightedVotes[..i], Reject)
    {
      var vote := weightedVotes[i];
      SumStep(weightedVotes, i);
      totalWeight := totalWeight + vote.weight;
      if vote.verdict == Approve {
        approveWeight := approveWeight + vote.weight;
      } else if vote.verdict == Reject {
        rejectWeight := rejectWeight + vote.weight;
      }
    }
    assert weightedVotes[..|weightedVotes|] == weightedVotes;
    if human.Some? {
      totalWeight := totalWeight + 2.0;
      if human.value.approves {
        approveWeight := approveWeight + 2.0;
      } else {
        rejectWeight := rejectWeight + 2.0;
      }
    }
  }

  lemma DecideIs(votes: seq<Vote>, exploits: seq<Exploit>, debates: seq<DebateMessage>, human: Option<HumanVote>,
                 threshold: int, confidence: int)
    requires votes != [] && Vetoing(exploits, debates) == [] && confidence == Confidence(votes, human)
    ensures var b := BlockingOnly(KeyFindings(votes));
            Decide(votes, exploits, debates, human, threshold)
              == BuildResult(confidence >= threshold, confidence, Weighted(votes), exploits, debates, b, CriticalOnly(b))
  {
  }

  lemma ConfidenceByTally(votes: seq<Vote>, human: Option<HumanVote>, approve: real, total: real)
    requires approve == SumOf(Weighted(votes), Approve) + HumanApproval(human)
    requires total == TotalOf(Weighted(votes)) + HumanTotal(human)
    ensures Score(approve, total) == Confidence(votes, human)
  {
  }

  method ComputeConsensus(votes: seq<Vote>, exploits: seq<Exploit>, debates: seq<DebateMessage>,
                          human: Option<HumanVote>, threshold: int) returns (r: Result)
    ensures r == Decide(votes, exploits, debates, human, threshold)
  {
    if |votes| == 0 {
      return BuildResult(false, 0, votes, exploits, debates, [], []);
    }
    var weightedVotes := Weighted(votes);
    var criticalUnmitigated := Vetoing(exploits, debates);
    if |criticalUnmitigated| > 0 {
      return BuildResult(false, 0, weightedVotes, exploits, debates, AsFindings(criticalUnmitigated), []);
    }
    var approveWeight, _, totalWeight := Tally(weightedVotes, human);
    var confidenceScore := Score(approveWeight, totalWeight);
    ConfidenceByTally(votes, human, approveWeight, totalWeight);
    DecideIs(votes, exploits, debates, human, threshold, confidenceScore);
    var blockingIssues := BlockingOnly(KeyFindings(votes));
    r := BuildResult(confidenceScore >= threshold, confidenceScore, weightedVotes, exploits, debates,
                     blockingIssues, CriticalOnly(blockingIssues));
  }
}
