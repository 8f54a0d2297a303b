/** The merge decision in terms of the fields of the panel alone. */
module MergeConditions {
  import opened Options
  import opened ReviewTypes
  import opened Consensus
  import opened Pipeline
  import opened MergeTheorems

  predicate Grave(severity: Severity) {
    severity == Critical || severity == High
  }

  ghost predicate NoneGrave(findings: seq<Finding>) {
    forall f :: f in findings ==> !Grave(f.severity)
  }

  /** An agent that is there and answered reported nothing critical or high. */
  ghost predicate AgentClean(peer: Option<Peer>, reply: Option<seq<Finding>>) {
    peer.Some? && reply.Some? ==> NoneGrave(reply.value)
  }

  /** The security agent's findings count if there are any, and otherwise the gateway's scan. */
  ghost predicate SecurityClean(p: Panel) {
    if p.security.Some? && p.securityReply.Some? && p.securityReply.value != [] then NoneGrave(p.securityReply.value)
    else NoneGrave(p.scan)
  }

  predicate Claims(d: DebateMessage, id: nat) {
    d.requestId == id && (d.mitigated == Stated(true) || d.mitigated == Other(true))
  }

  /** The message at `k` is the last one about the exploit. */
  ghost predicate LastWord(debates: seq<DebateMessage>, id: nat, k: int) {
    0 <= k < |debates| && debates[k].requestId == id && forall j :: k < j < |debates| ==> debates[j].requestId != id
  }

  /** Every critical or high exploit has a message that claims its mitigation. */
  ghost predicate GraveClaimed(exploits: seq<Exploit>, debates: seq<DebateMessage>) {
    forall e :: e in exploits && Grave(e.severity) ==> exists d :: d in debates && Claims(d, e.id)
  }

  /** The last message about every critical exploit states its mitigation. */
  ghost predicate CriticalSettled(exploits: seq<Exploit>, debates: seq<DebateMessage>) {
    forall e :: e in exploits && e.severity == Critical ==>
      exists k :: LastWord(debates, e.id, k) && debates[k].mitigated == Stated(true)
  }

  /** With a critical exploit around, every exploit has a defense that claims its mitigation. */
  ghost predicate AllDefended(exploits: seq<Exploit>, debates: seq<DebateMessage>) {
    (exists e :: e in exploits && e.severity == Critical) ==>
      forall e :: e in exploits ==> exists d :: d in debates && Claims(d, e.id) && d.kind == Defense
  }

  ghost predicate AttackClean(p: Panel) {
    p.redteam.Some? && p.security.Some? && p.attack.Some? ==>
      var exploits, debates := p.attack.value.exploits, p.attack.value.debates;
      GraveClaimed(exploits, debates) && CriticalSettled(exploits, debates) && AllDefended(exploits, debates)
  }

  predicate SomebodyReports(p: Panel) {
    p.security.Some? || p.performance.Some? || p.style.Some? || p.redteam.Some? || p.scan != []
  }

  // ------------------------------------------------- what the tests of the model mean

  lemma {:induction false} LastAboutAt(id: nat, debates: seq<DebateMessage>)
    ensures LastAbout(id, debates).None? ==> forall k :: 0 <= k < |debates| ==> debates[k].requestId != id
    ensures LastAbout(id, debates).Some? ==> exists k :: LastWord(debates, id, k) && debates[k] == LastAbout(id, debates).value
  {
    if debates != [] {
      var n := |debates| - 1;
      if debates[n].requestId == id {
        assert LastWord(debates, id, n);
      } else {
        LastAboutAt(id, debates[..n]);
        if LastAbout(id, debates).Some? {
          var k :| LastWord(debates[..n], id, k) && debates[..n][k] == LastAbout(id, debates).value;
          assert LastWord(debates, id, k);
        }
      }
    }
  }

  lemma WasMitigatedMeans(id: nat, debates: seq<DebateMessage>)
    ensures WasMitigated(id, debates) <==> exists k :: LastWord(debates, id, k) && debates[k].mitigated == Stated(true)
  {
    LastAboutAt(id, debates);
  }

  lemma AnsweredMeans(id: nat, debates: seq<DebateMessage>)
    ensures Answered(id, debates) <==> exists d :: d in debates && Claims(d, id)
    ensures Defended(id, debates) <==> exists d :: d in debates && Claims(d, id) && d.kind == Defense
  {
    assert forall d :: d in debates ==> (Claims(d, id) <==> d.requestId == id && d.mitigated.Truthy());
  }

  lemma ExploitsCleanMeans(exploits: seq<Exploit>, debates: seq<DebateMessage>)
    ensures ExploitsClean(exploits, debates) <==>
            GraveClaimed(exploits, debates) && CriticalSettled(exploits, debates) && AllDefended(exploits, debates)
  {
    forall e | e in exploits
      ensures e.severity.Blocking() <==> Grave(e.severity)
      ensures WasMitigated(e.id, debates) <==>
              exists k :: LastWord(debates, e.id, k) && debates[k].mitigated == Stated(true)
      ensures Answered(e.id, debates) <==> exists d :: d in debates && Claims(d, e.id)
      ensures Defended(e.id, debates) <==> exists d :: d in debates && Claims(d, e.id) && d.kind == Defense
    {
      WasMitigatedMeans(e.id, debates);
      AnsweredMeans(e.id, debates);
    }
  }

  lemma ReviewersCleanMeans(p: Panel)
    ensures ReviewersClean(p) <==>
            SecurityClean(p) && AgentClean(p.performance, p.performanceReply) && AgentClean(p.style, p.styleReply)
    ensures SomeoneVotes(p) <==> SomebodyReports(p)
  {
    assert forall f: Finding :: f.severity.Blocking() <==> Grave(f.severity);
  }

  lemma CleanMeans(p: Panel)
    ensures Clean(p) <==>
            && SomebodyReports(p) && SecurityClean(p)
            && AgentClean(p.performance, p.performanceReply) && AgentClean(p.style, p.styleReply)
            && AttackClean(p)
  {
    ReviewersCleanMeans(p);
    ExploitsCleanMeans(Exploits(p), Debates(p));
    if !(p.redteam.Some? && p.security.Some? && p.attack.Some?) {
      assert Exploits(p) == [];
    }
  }

  // ------------------------------------------------- theorems

  /** The merge condition without a human vote, on the panel's own fields. */
  lemma MergesExactly(p: Panel, threshold: int)
    ensures Merges(p, None, threshold) <==>
            && threshold <= 10000 && SomebodyReports(p) && SecurityClean(p)
            && AgentClean(p.performance, p.performanceReply) && AgentClean(p.style, p.styleReply)
            && AttackClean(p)
  {
    CleanMeans(p);
    MergeCharacterisation(p, threshold);
  }

  lemma MergeNeedsClean(p: Panel, human: Option<HumanVote>, threshold: int)
    requires Merges(p, human, threshold)
    ensures Clean(p)
  {
    if Votes(p) == [] {
      NobodyVotes(p, human, threshold);
    } else {
      GuardrailsMean(p, human, threshold);
    }
  }

  /** One critical or high finding of an agent that is there blocks the merge, whatever the human says. */
  lemma GraveFindingBlocks(p: Panel, human: Option<HumanVote>, threshold: int, f: Finding)
    requires f.severity == Critical || f.severity == High
    requires || (p.performance.Some? && p.performanceReply.Some? && f in p.performanceReply.value)
             || (p.style.Some? && p.styleReply.Some? && f in p.styleReply.value)
             || (p.security.Some? && p.securityReply.Some? && f in p.securityReply.value)
    ensures !Merges(p, human, threshold)
  {
    if Merges(p, human, threshold) {
      MergeNeedsClean(p, human, threshold);
      CleanMeans(p);
      assert false;
    }
  }

  /** Without findings of a security agent, be it missing, failed or content, one such finding of the scan does. */
  lemma GraveScanBlocks(p: Panel, human: Option<HumanVote>, threshold: int, f: Finding)
    requires f.severity == Critical || f.severity == High
    requires f in p.scan && (p.security.None? || p.securityReply.None? || p.securityReply.value == [])
    ensures !Merges(p, human, threshold)
  {
    if Merges(p, human, threshold) {
      MergeNeedsClean(p, human, threshold);
      CleanMeans(p);
      assert false;
    }
  }

  /** So does a critical or high exploit of which no message claims the mitigation. */
  lemma GraveExploitBlocks(p: Panel, human: Option<HumanVote>, threshold: int, e: Exploit)
    requires e.severity == Critical || e.severity == High
    requires p.redteam.Some? && p.security.Some? && p.attack.Some? && e in p.attack.value.exploits
    requires forall d :: d in p.attack.value.debates && d.requestId == e.id ==>
               d.mitigated != Stated(true) && d.mitigated != Other(true)
    ensures !Merges(p, human, threshold)
  {
    if Merges(p, human, threshold) {
      MergeNeedsClean(p, human, threshold);
      CleanMeans(p);
      assert false;
    }
  }

  // ------------------------------------------------- what the votes and the refusals say

  /** A review agent's vote rejects exactly over critical or high findings, and lists exactly those. */
  lemma BuildVoteSays(peer: Peer, findings: seq<Finding>, role: Role)
    ensures var v := BuildVote(peer, findings, role);
            && v.role == role && v.reputation == peer.reputation
            && (role == Security ==> v.weight == 3.0) && (role == Performance ==> v.weight == 2.0)
            && (role == Style ==> v.weight == 1.0)
            && v.verdict == (if exists f :: f in findings && Grave(f.severity) then Reject else Approve)
            && forall f :: f in v.keyFindings <==> f in findings && Grave(f.severity)
  {
    var v := BuildVote(peer, findings, role);
    assert forall f: Finding :: f.severity.Blocking() <==> Grave(f.severity);
    if f :| f in findings && Grave(f.severity) {
      assert f in v.keyFindings;
    }
    assert v.keyFindings != [] ==> v.keyFindings[0] in v.keyFindings;
  }

  /** The red team's vote rejects exactly over unanswered critical or high exploits, and lists all unanswered ones. */
  lemma RedTeamVoteSays(exploits: seq<Exploit>, debates: seq<DebateMessage>)
    ensures var v := RedTeamVote(exploits, debates);
            && v.role == RedTeam && v.reputation == None && v.weight == 4.0
            && v.verdict == (if GraveClaimed(exploits, debates) then Approve else Reject)
            && |v.keyFindings| == |Unmitigated(exploits, debates)|
            && forall e :: e in exploits && !(exists d :: d in debates && Claims(d, e.id)) ==>
                 Finding(e.id, e.title, e.severity) in v.keyFindings
  {
    var u, v := Unmitigated(exploits, debates), RedTeamVote(exploits, debates);
    forall e | e in exploits
      ensures Answered(e.id, debates) <==> exists d :: d in debates && Claims(d, e.id)
      ensures e.severity.Blocking() <==> Grave(e.severity)
    {
      AnsweredMeans(e.id, debates);
    }
    forall e | e in exploits && !(exists d :: d in debates && Claims(d, e.id))
      ensures Finding(e.id, e.title, e.severity) in v.keyFindings
    {
      var i :| 0 <= i < |u| && u[i] == e;
      assert v.keyFindings[i] == Finding(e.id, e.title, e.severity);
    }
  }
}
