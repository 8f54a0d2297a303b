/** When a pull request is merged, in terms of what the agents reported. */
module MergeTheorems {
  import opened Options
  import opened Sequences
  import opened ReviewTypes
  import opened Consensus
  import opened ConsensusTheorems
  import opened Guardrails
  import opened Pipeline
  import Debate

  predicate NoneBlocking(findings: seq<Finding>) {
    forall f :: f in findings ==> !f.severity.Blocking()
  }

  predicate SomeoneVotes(p: Panel) {
    p.security.Some? || SecurityFindings(p) != [] || p.performance.Some? || p.style.Some? || p.redteam.Some?
  }

  predicate ReviewersClean(p: Panel) {
    && NoneBlocking(SecurityFindings(p))
    && NoneBlocking(Reported(p.performance, p.performanceReply))
    && NoneBlocking(Reported(p.style, p.styleReply))
  }

  /** All three mitigation tests in their places: the red team's, the veto's, and the guardrail's count. */
  predicate ExploitsClean(exploits: seq<Exploit>, debates: seq<DebateMessage>) {
    && (forall e :: e in exploits && e.severity.Blocking() ==> Answered(e.id, debates))
    && (forall e :: e in exploits && e.severity.Critical? ==> WasMitigated(e.id, debates))
    && ((exists e :: e in exploits && e.severity.Critical?) ==> forall e :: e in exploits ==> Defended(e.id, debates))
  }

  predicate Clean(p: Panel) {
    SomeoneVotes(p) && ReviewersClean(p) && ExploitsClean(Exploits(p), Debates(p))
  }

  // ------------------------------------------------- single votes

  /** A vote with no blocking key finding, which for the votes built here means an approval. */
  predicate Unblocking(v: Vote) {
    v.verdict.Approve? && NoneBlocking(v.keyFindings)
  }

  lemma ReviewerVote(peer: Peer, findings: seq<Finding>, role: Role)
    ensures Unblocking(BuildVote(peer, findings, role)) <==> NoneBlocking(findings)
    ensures !NoneBlocking(findings) ==> !NoneBlocking(BuildVote(peer, findings, role).keyFindings)
  {
    var b := BlockingOnly(findings);
    assert |b| > 0 ==> b[0] in b;
    if f :| f in findings && f.severity.Blocking() {
      assert f in b;
    }
  }

  lemma RedTeamsVote(exploits: seq<Exploit>, debates: seq<DebateMessage>)
    ensures var v := RedTeamVote(exploits, debates);
            var clean := forall e :: e in exploits && e.severity.Blocking() ==> Answered(e.id, debates);
            && (Unblocking(v) <==> clean)
            && (!clean ==> !NoneBlocking(v.keyFindings))
  {
  }

  predicate RedTeamClean(p: Panel) {
    forall e :: e in Exploits(p) && e.severity.Blocking() ==> Answered(e.id, Debates(p))
  }

  predicate AllUnblocking(votes: seq<Vote>) {
    forall v :: v in votes ==> Unblocking(v)
  }

  /** A vote that is no unblocking approval shows it in its key findings. */
  predicate Frank(v: Vote) {
    NoneBlocking(v.keyFindings) ==> Unblocking(v)
  }

  lemma ReviewersVotes(p: Panel)
    ensures AllUnblocking(SecurityVotes(p)) <==> NoneBlocking(SecurityFindings(p))
    ensures AllUnblocking(PerformanceVotes(p)) <==> NoneBlocking(Reported(p.performance, p.performanceReply))
    ensures AllUnblocking(StyleVotes(p)) <==> NoneBlocking(Reported(p.style, p.styleReply))
    ensures forall v :: v in SecurityVotes(p) || v in PerformanceVotes(p) || v in StyleVotes(p) ==> Frank(v)
  {
    ReviewerVote(p.security.GetOr(HEURISTIC_PEER), SecurityFindings(p), Security);
    if p.performance.Some? {
      ReviewerVote(p.performance.value, Reported(p.performance, p.performanceReply), Performance);
    }
    if p.style.Some? {
      ReviewerVote(p.style.value, Reported(p.style, p.styleReply), Style);
    }
  }

  lemma RedTeamsVotes(p: Panel)
    ensures AllUnblocking(RedTeamVotes(p)) <==> RedTeamClean(p)
    ensures forall v :: v in RedTeamVotes(p) ==> Frank(v)
  {
    RedTeamsVote(Exploits(p), Debates(p));
  }

  lemma VotesUnblocking(p: Panel)
    ensures AllUnblocking(Votes(p)) <==> ReviewersClean(p) && RedTeamClean(p)
    ensures AllUnblocking(Votes(p)) <==> NoneBlocking(KeyFindings(Votes(p)))
    ensures Votes(p) != [] <==> SomeoneVotes(p)
  {
    VoteMembers(p);
    ReviewersVotes(p);
    RedTeamsVotes(p);
    BlockedVotesShow(Votes(p));
    assert forall v :: v in Votes(p) ==> Frank(v);
  }

  lemma VoteMembers(p: Panel)
    ensures forall v :: v in Votes(p) <==>
              v in SecurityVotes(p) || v in PerformanceVotes(p) || v in StyleVotes(p) || v in RedTeamVotes(p)
  {
  }

  /** When every vote that is not an approval holds a blocking finding, one blocked vote shows in the key findings. */
  lemma BlockedVotesShow(votes: seq<Vote>)
    ensures AllUnblocking(votes) ==> NoneBlocking(KeyFindings(votes))
    ensures NoneBlocking(KeyFindings(votes)) ==> forall v :: v in votes ==> NoneBlocking(v.keyFindings)
  {
  }

  // ------------------------------------------------- the decision

  lemma {:induction false} AllApprove(votes: seq<Vote>)
    requires forall v :: v in votes ==> v.verdict.Approve?
    ensures Sum(votes, Approving) == Sum(votes, Cast)
  {
    if votes != [] {
      assert votes[0] in votes;
      AllApprove(votes[1..]);
    }
  }

  lemma FullScore(t: real)
    requires t > 0.0
    ensures Score(t, t) == 10000
  {
  }

  /** The conditions of a merge, in terms of the votes. */
  lemma GuardrailsPass(votes: seq<Vote>, exploits: seq<Exploit>, debates: seq<DebateMessage>,
                       human: Option<HumanVote>, threshold: int)
    requires votes != []
    ensures var r := Decide(votes, exploits, debates, human, threshold);
            && (EnforceAutoMerge(r).Allowed? ==> r.confidence == Confidence(votes, human))
            && (EnforceAutoMerge(r).Allowed? <==>
                && Vetoing(exploits, debates) == []
                && Confidence(votes, human) >= threshold
                && NoneBlocking(KeyFindings(votes))
                && (CountDefended(exploits, debates) == |exploits| || forall e :: e in exploits ==> !e.severity.Critical?))
  {
    BlockingEmpty(KeyFindings(votes));
  }

  /** The red team's test, the veto and the count together say that the exploits are clean. */
  lemma ExploitTestsMean(p: Panel)
    ensures var exploits, debates := Exploits(p), Debates(p);
            ExploitsClean(exploits, debates) <==>
              && RedTeamClean(p)
              && Vetoing(exploits, debates) == []
              && (CountDefended(exploits, debates) == |exploits| || forall e :: e in exploits ==> !e.severity.Critical?)
  {
    VetoMeans(Exploits(p), Debates(p));
  }

  /** What the guardrails amount to. */
  lemma GuardrailsMean(p: Panel, human: Option<HumanVote>, threshold: int)
    requires Votes(p) != []
    ensures Merges(p, human, threshold) <==>
            && Clean(p)
            && Confidence(Votes(p), human) >= threshold
    ensures Merges(p, human, threshold) ==> Decision(p, human, threshold).confidence == Confidence(Votes(p), human)
  {
    VotesUnblocking(p);
    ExploitTestsMean(p);
    GuardrailsPass(Votes(p), Exploits(p), Debates(p), human, threshold);
  }

  lemma BlockingEmpty(findings: seq<Finding>)
    ensures BlockingOnly(findings) == [] <==> NoneBlocking(findings)
  {
    var b := BlockingOnly(findings);
    assert b != [] ==> b[0] in b;
  }

  lemma NobodyVotes(p: Panel, human: Option<HumanVote>, threshold: int)
    requires Votes(p) == []
    ensures !Merges(p, human, threshold) && !SomeoneVotes(p)
  {
  }

  lemma CleanApproves(p: Panel)
    requires Clean(p)
    ensures Votes(p) != [] && forall v :: v in Votes(p) ==> v.verdict.Approve?
  {
    VotesUnblocking(p);
    assert RedTeamClean(p);
    forall v | v in Votes(p)
      ensures v.verdict.Approve?
    {
      assert Unblocking(v);
    }
  }

  lemma UnanimousConfidence(votes: seq<Vote>, human: Option<HumanVote>)
    requires votes != [] && forall v :: v in votes ==> v.verdict.Approve?
    ensures var t := Sum(votes, Cast);
            t > 0.0 && Confidence(votes, human) == Score(t + HumanApproval(human), t + HumanTotal(human))
  {
    AllApprove(votes);
    ConfidenceIs(votes, human);
    SumBounds(votes);
  }

  /** A clean panel approves unanimously. */
  lemma CleanConfidence(p: Panel, human: Option<HumanVote>)
    requires Clean(p)
    ensures Votes(p) != []
    ensures var t := Sum(Votes(p), Cast);
            t > 0.0 && Confidence(Votes(p), human) == Score(t + HumanApproval(human), t + HumanTotal(human))
  {
    CleanApproves(p);
    UnanimousConfidence(Votes(p), human);
  }

  lemma FullConfidence(p: Panel, human: Option<HumanVote>)
    requires Clean(p) && (human.Some? ==> human.value.approves)
    ensures Confidence(Votes(p), human) == 10000
  {
    CleanConfidence(p, human);
    FullScore(Sum(Votes(p), Cast) + HumanTotal(human));
  }

  // ------------------------------------------------- the theorems

  /**
   Without a human vote a run merges exactly when its panel is clean and the threshold can be
   reached at all; the confidence is then full, so the threshold decides nothing.
   */
  lemma MergeCharacterisation(p: Panel, threshold: int)
    ensures Merges(p, None, threshold) <==> Clean(p) && threshold <= 10000
    ensures Merges(p, None, threshold) ==> Decision(p, None, threshold).confidence == 10000
  {
    if Votes(p) == [] {
      NobodyVotes(p, None, threshold);
    } else {
      GuardrailsMean(p, None, threshold);
      if Clean(p) {
        FullConfidence(p, None);
      }
    }
  }

  /** Whether a unanimous panel of this weight reaches the threshold against a human rejection. */
  predicate OutweighsRejection(t: real, threshold: int) {
    20000.0 * t >= (2 * threshold - 1) as real * (t + 2.0)
  }

  lemma RejectedScore(t: real, threshold: int)
    requires t > 0.0
    ensures Score(t, t + 2.0) >= threshold <==> OutweighsRejection(t, threshold)
  {
    ScoreAtLeast(t, t + 2.0, threshold);
  }

  lemma RejectedConfidence(p: Panel, threshold: int)
    requires Clean(p)
    ensures Confidence(Votes(p), Some(HumanVote(false))) >= threshold <==> OutweighsRejection(Sum(Votes(p), Cast), threshold)
  {
    CleanConfidence(p, Some(HumanVote(false)));
    RejectedScore(Sum(Votes(p), Cast), threshold);
  }

  /**
   A human approval adds nothing to that condition, and no human vote ever removes one of its parts.
   A rejection, which the code calls non-blocking, blocks exactly the panels that are too light.
   */
  lemma MergeWithHuman(p: Panel, approves: bool, threshold: int)
    ensures Merges(p, Some(HumanVote(approves)), threshold) <==>
              && Clean(p)
              && if approves then threshold <= 10000 else OutweighsRejection(Sum(Votes(p), Cast), threshold)
  {
    var human := Some(HumanVote(approves));
    if Votes(p) == [] {
      NobodyVotes(p, human, threshold);
    } else {
      GuardrailsMean(p, human, threshold);
      if Clean(p) {
        if approves {
          FullConfidence(p, human);
        } else {
          RejectedConfidence(p, threshold);
        }
      }
    }
  }

  lemma DefaultThreshold(t: real)
    ensures OutweighsRejection(t, 7500) <==> 5001.0 * t >= 29998.0
  {
  }

  /** At the default threshold a human rejection blocks a clean panel of effective weight below 29998 / 5001. */
  lemma HumanRejectionAtDefaultThreshold(p: Panel, t: real)
    requires Clean(p) && t == Sum(Votes(p), Cast)
    ensures Merges(p, Some(HumanVote(false)), 7500) <==> 5001.0 * t >= 29998.0
  {
    MergeWithHuman(p, false, 7500);
    DefaultThreshold(t);
  }

  lemma {:induction false} SumConcat(a: seq<Vote>, b: seq<Vote>)
    ensures Sum(a + b, Cast) == Sum(a, Cast) + Sum(b, Cast)
  {
    if a == [] {
      assert [] + b == b;
    } else {
      assert (a + b)[1..] == a[1..] + b;
      SumConcat(a[1..], b);
    }
  }

  lemma LeastWeight(v: Vote, w: real)
    requires RoleWeight(v.role) == w
    ensures Sum([v], Cast) >= w / 2.0
    ensures v.reputation.None? ==> Sum([v], Cast) == w
    ensures v.reputation.Some? && v.reputation.value <= -250.0 ==> Sum([v], Cast) == w / 2.0
    ensures v.reputation == Some(80.0) ==> Sum([v], Cast) == w * 1.16
  {
    assert [v][1..] == [];
    ScaleUp(Multiplier(v.reputation), 0.5, w);
  }

  predicate WorstReputation(peer: Option<Peer>) {
    peer.Some? ==> peer.value.reputation.Some? && peer.value.reputation.value <= -250.0
  }

  /** What each role weighs at least; the stand-in for a security peer has a fixed weight. */
  function LeastSecurity(p: Panel): real {
    if p.security.Some? then 1.5 else if SecurityFindings(p) != [] then 3.48 else 0.0
  }

  function LeastOthers(p: Panel): real {
    (if p.performance.Some? then 1.0 else 0.0) + (if p.style.Some? then 0.5 else 0.0)
  }

  function RedTeamWeight(p: Panel): real {
    if p.redteam.Some? then 4.0 else 0.0
  }

  lemma SecurityWeighs(p: Panel)
    ensures Sum(SecurityVotes(p), Cast) >= LeastSecurity(p)
    ensures WorstReputation(p.security) ==> Sum(SecurityVotes(p), Cast) == LeastSecurity(p)
  {
    if SecurityVotes(p) != [] {
      LeastWeight(SecurityVotes(p)[0], 3.0);
    }
  }

  lemma OthersWeigh(p: Panel)
    ensures Sum(PerformanceVotes(p), Cast) + Sum(StyleVotes(p), Cast) >= LeastOthers(p)
    ensures WorstReputation(p.performance) && WorstReputation(p.style) ==>
              Sum(PerformanceVotes(p), Cast) + Sum(StyleVotes(p), Cast) == LeastOthers(p)
  {
    if PerformanceVotes(p) != [] {
      LeastWeight(PerformanceVotes(p)[0], 2.0);
    }
    if StyleVotes(p) != [] {
      LeastWeight(StyleVotes(p)[0], 1.0);
    }
  }

  lemma RedTeamWeighs(p: Panel)
    ensures Sum(RedTeamVotes(p), Cast) == RedTeamWeight(p)
  {
    if RedTeamVotes(p) != [] {
      LeastWeight(RedTeamVotes(p)[0], 4.0);
    }
  }

  lemma PanelParts(p: Panel)
    ensures Sum(Votes(p), Cast) == Sum(SecurityVotes(p), Cast) + Sum(PerformanceVotes(p), Cast)
                                 + Sum(StyleVotes(p), Cast) + Sum(RedTeamVotes(p), Cast)
  {
    var s, f, y, r := SecurityVotes(p), PerformanceVotes(p), StyleVotes(p), RedTeamVotes(p);
    SumConcat(s + f + y, r);
    SumConcat(s + f, y);
    SumConcat(s, f);
  }

  /** The least weight of a panel, reached when the reputations are at their worst. */
  lemma LeastPanelWeight(p: Panel)
    ensures Sum(Votes(p), Cast) >= LeastSecurity(p) + LeastOthers(p) + RedTeamWeight(p)
    ensures WorstReputation(p.security) && WorstReputation(p.performance) && WorstReputation(p.style) ==>
              Sum(Votes(p), Cast) == LeastSecurity(p) + LeastOthers(p) + RedTeamWeight(p)
  {
    PanelParts(p);
    SecurityWeighs(p);
    OthersWeigh(p);
    RedTeamWeighs(p);
  }

  /**
   The role weights leave the human powerless against three agents: a clean panel with red team,
   security and one more merges at the default threshold despite a rejection, whatever the reputations.
   */
  lemma ThreeAgentsOutweighTheHuman(p: Panel)
    requires Clean(p) && p.redteam.Some? && p.security.Some? && (p.performance.Some? || p.style.Some?)
    ensures Merges(p, Some(HumanVote(false)), 7500)
  {
    LeastPanelWeight(p);
    HumanRejectionAtDefaultThreshold(p, Sum(Votes(p), Cast));
  }

  lemma LoneVote(v: Vote)
    requires v.role.Style? && v.reputation.None?
    ensures Sum([v], Cast) == 1.0
  {
  }

  /** For instance, a lone style agent with nothing to report is overruled by one rejection. */
  lemma HumanRejectionCanBlock(p: Panel)
    requires p == Panel(None, None, Some(Peer(None)), None, None, None, Some([]), [], None)
    ensures Merges(p, None, 7500) && !Merges(p, Some(HumanVote(false)), 7500)
  {
    assert Clean(p);
    MergeCharacterisation(p, 7500);
    var v := BuildVote(Peer(None), [], Style);
    assert Votes(p) == [v];
    LoneVote(v);
    HumanRejectionAtDefaultThreshold(p, 1.0);
  }

  // ------------------------------------------------- debates and exploit ids

  /** No debate message carries the id of an exploit, as is the case when debates draw fresh request ids. */
  predicate Unrelated(exploits: seq<Exploit>, debates: seq<DebateMessage>) {
    forall e, d :: e in exploits && d in debates ==> d.requestId != e.id
  }

  lemma {:induction false} NothingAbout(id: nat, debates: seq<DebateMessage>)
    requires forall d :: d in debates ==> d.requestId != id
    ensures LastAbout(id, debates) == None
  {
    if debates != [] {
      assert debates[|debates| - 1] in debates;
      assert forall d :: d in debates[..|debates| - 1] ==> d in debates;
      NothingAbout(id, debates[..|debates| - 1]);
    }
  }

  /**
   The decision looks debates up by exploit id, while each debate carries a request id of its own.
   As long as the two never coincide, no debate can rescue an exploit: any critical or high exploit
   prevents the merge, however well it was defended.
   */
  lemma DebatesNeverRescue(p: Panel, threshold: int)
    requires Unrelated(Exploits(p), Debates(p))
    ensures Merges(p, None, threshold) <==>
            && SomeoneVotes(p) && ReviewersClean(p) && threshold <= 10000
            && forall e :: e in Exploits(p) ==> !e.severity.Blocking()
  {
    MergeCharacterisation(p, threshold);
    forall e | e in Exploits(p)
      ensures !Answered(e.id, Debates(p)) && !WasMitigated(e.id, Debates(p))
    {
      NothingAbout(e.id, Debates(p));
    }
  }

  // ------------------------------------------------- the three mitigation tests compared

  predicate DefenseTyped(debates: seq<DebateMessage>) {
    forall d :: d in debates && d.mitigated.Truthy() ==> d.kind.Defense?
  }

  /** The messages about one exploit. */
  function About(id: nat, debates: seq<DebateMessage>): (r: seq<DebateMessage>)
    ensures forall d :: d in r <==> d in debates && d.requestId == id
  {
    if debates == [] then []
    else About(id, debates[..|debates| - 1]) +
         if debates[|debates| - 1].requestId == id then [debates[|debates| - 1]] else []
  }

  lemma {:induction false} LastAboutIsLast(id: nat, debates: seq<DebateMessage>)
    ensures var a := About(id, debates);
            LastAbout(id, debates) == if a == [] then None else Some(a[|a| - 1])
  {
    if debates != [] {
      LastAboutIsLast(id, debates[..|debates| - 1]);
    }
  }

  lemma {:induction false} StatedSomewhere(messages: seq<DebateMessage>)
    requires Debate.LastStated(messages) == Some(true)
    ensures exists d :: d in messages && d.mitigated == Stated(true)
  {
    var n := |messages| - 1;
    if messages[n].mitigated.Stated? {
      assert messages[n] in messages;
    } else {
      StatedSomewhere(messages[..n]);
      var d :| d in messages[..n] && d.mitigated == Stated(true);
      assert d in messages;
    }
  }

  /** The veto's test is the strictest: it implies the last stated verdict, which implies being counted. */
  lemma MitigationChain(id: nat, debates: seq<DebateMessage>)
    requires DefenseTyped(debates)
    ensures WasMitigated(id, debates) ==> Debate.LastStated(About(id, debates)) == Some(true)
    ensures Debate.LastStated(About(id, debates)) == Some(true) ==> Defended(id, debates)
    ensures Defended(id, debates) <==> Answered(id, debates)
  {
    LastAboutIsLast(id, debates);
    if Debate.LastStated(About(id, debates)) == Some(true) {
      StatedSomewhere(About(id, debates));
    }
  }

  /** What the report counts as mitigated and what the red-team vote lists add up to all exploits. */
  lemma CountsAddUp(exploits: seq<Exploit>, debates: seq<DebateMessage>)
    requires DefenseTyped(debates)
    ensures CountDefended(exploits, debates) + |Unmitigated(exploits, debates)| == |exploits|
  {
    forall e | e in exploits
      ensures UnansweredTest(debates)(e) <==> !DefenseTest(debates)(e)
    {
      MitigationChain(e.id, debates);
    }
    FilterComplement(exploits, DefenseTest(debates), UnansweredTest(debates));
  }

  /**
   Even were the ids the same, the veto and the debate disagree: a defended critical exploit counts
   as mitigated for the veto only if the counter-attack claimed a bypass and was answered once more.
   */
  lemma VetoVersusDebate(severity: Severity, id: nat, first: Debate.Answer, bypasses: bool, final: Option<Debate.Answer>)
    ensures var messages := Debate.Transcript(severity, id, first, bypasses, final);
            WasMitigated(id, messages) <==>
              && Debate.LastAnswer(severity, first, bypasses, final) == Stated(true)
              && (severity.Low? || (bypasses && final.Some?))
  {
  }
}
