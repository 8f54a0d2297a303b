/** The on-chain reputation ledger: statistics per agent, kept by approved callers. */
module Reputation {
  import opened Rounding

  /** Account addresses; 0 is the zero address. */
  type Address = nat

  const MAX_UINT: int := 0x1_0000_0000_0000_0000_0000_0000_0000_0000_0000_0000_0000_0000_0000_0000_0000_0000 - 1
  const MAX_INT: int := MAX_UINT / 2
  const MIN_INT: int := -MAX_INT - 1

  const ACCURATE_REVIEW_BONUS := 10
  const INACCURATE_REVIEW_PENALTY := 20
  const EXPLOIT_FOUND_BONUS := 25
  const FALSE_POSITIVE_PENALTY := 5

  datatype Stats = Stats(
    reputationScore: int,
    totalReviews: nat,
    accurateReviews: nat,
    exploitsFound: nat,
    exploitsFalsePositive: nat,
    lastUpdated: nat,
    registered: bool)

  const NO_STATS := Stats(0, 0, 0, 0, 0, 0, false)

  datatype Ledger = Ledger(owner: Address, approved: set<Address>, stats: map<Address, Stats>, agents: seq<Address>) {
    /** A mapping read: absent entries are zero. */
    function StatsOf(a: Address): Stats {
      if a in stats then stats[a] else NO_STATS
    }

    predicate MayWrite(sender: Address) {
      sender in approved || sender == owner
    }
  }

  datatype Call =
    | ApproveCaller(caller: Address)
    | RegisterAgent(agent: Address)
    | UpdateReputation(agent: Address, wasAccurate: bool)
    | RecordExploit(agent: Address, falsePositive: bool)

  datatype Revert = NotOwner | NotApprovedCaller | InvalidAddress | ArithmeticOverflow

  datatype Outcome = Done | Reverted(reason: Revert)

  function Deployed(sender: Address): Ledger {
    Ledger(sender, {sender}, map[], [])
  }

  /** The state in which the agent certainly has an entry. */
  function Ensured(l: Ledger, a: Address, now: nat): Ledger {
    if l.StatsOf(a).registered then l
    else l.(stats := l.stats[a := Stats(0, 0, 0, 0, 0, now, true)], agents := l.agents + [a])
  }

  predicate Fits(s: Stats) {
    && MIN_INT <= s.reputationScore <= MAX_INT
    && s.totalReviews <= MAX_UINT && s.accurateReviews <= MAX_UINT
    && s.exploitsFound <= MAX_UINT && s.exploitsFalsePositive <= MAX_UINT
  }

  function Reviewed(s: Stats, wasAccurate: bool, now: nat): Stats {
    s.(totalReviews := s.totalReviews + 1,
       lastUpdated := now,
       accurateReviews := s.accurateReviews + if wasAccurate then 1 else 0,
       reputationScore := s.reputationScore + if wasAccurate then ACCURATE_REVIEW_BONUS else -INACCURATE_REVIEW_PENALTY)
  }

  function Exploited(s: Stats, falsePositive: bool, now: nat): Stats {
    if falsePositive then
      s.(exploitsFalsePositive := s.exploitsFalsePositive + 1, lastUpdated := now,
         reputationScore := s.reputationScore - FALSE_POSITIVE_PENALTY)
    else
      s.(exploitsFound := s.exploitsFound + 1, lastUpdated := now,
         reputationScore := s.reputationScore + EXPLOIT_FOUND_BONUS)
  }

  /** One transaction: the outcome, and the ledger, which a revert leaves as it was. */
  function Apply(l: Ledger, sender: Address, now: nat, c: Call): (Outcome, Ledger) {
    match c
    case ApproveCaller(caller) =>
      if sender != l.owner then (Reverted(NotOwner), l)
      else if caller == 0 then (Reverted(InvalidAddress), l)
      else (Done, l.(approved := l.approved + {caller}))
    case RegisterAgent(agent) =>
      if !l.MayWrite(sender) then (Reverted(NotApprovedCaller), l)
      else if agent == 0 then (Reverted(InvalidAddress), l)
      else (Done, Ensured(l, agent, now))
    case UpdateReputation(agent, wasAccurate) =>
      if !l.MayWrite(sender) then (Reverted(NotApprovedCaller), l)
      else
        var m := Ensured(l, agent, now);
        var s := Reviewed(m.StatsOf(agent), wasAccurate, now);
        if Fits(s) then (Done, m.(stats := m.stats[agent := s])) else (Reverted(ArithmeticOverflow), l)
    case RecordExploit(agent, falsePositive) =>
      if !l.MayWrite(sender) then (Reverted(NotApprovedCaller), l)
      else
        var m := Ensured(l, agent, now);
        var s := Exploited(m.StatsOf(agent), falsePositive, now);
        if Fits(s) then (Done, m.(stats := m.stats[agent := s])) else (Reverted(ArithmeticOverflow), l)
  }

  datatype Tx = Tx(sender: Address, now: nat, call: Call)

  function Run(l: Ledger, txs: seq<Tx>): Ledger {
    if txs == [] then l
    else
      var t := txs[|txs| - 1];
      Apply(Run(l, txs[..|txs| - 1]), t.sender, t.now, t.call).1
  }

  /** The successful transactions of a run. */
  function Successes(l: Ledger, txs: seq<Tx>): seq<Call> {
    if txs == [] then []
    else
      var t := txs[|txs| - 1];
      Successes(l, txs[..|txs| - 1]) +
      if Apply(Run(l, txs[..|txs| - 1]), t.sender, t.now, t.call).0.Done? then [t.call] else []
  }

  function Count(calls: seq<Call>, c: Call): nat {
    if calls == [] then 0 else Count(calls[..|calls| - 1], c) + if calls[|calls| - 1] == c then 1 else 0
  }

  /** The agent a call gives an entry to. */
  predicate Touches(c: Call, a: Address) {
    match c
    case ApproveCaller(_) => false
    case RegisterAgent(agent) => agent == a
    case UpdateReputation(agent, _) => agent == a
    case RecordExploit(agent, _) => agent == a
  }

  predicate Figures(s: Stats, calls: seq<Call>, a: Address) {
    var good, bad := Count(calls, UpdateReputation(a, true)), Count(calls, UpdateReputation(a, false));
    && s.accurateReviews == good && s.totalReviews == good + bad
    && s.exploitsFound == Count(calls, RecordExploit(a, false))
    && s.exploitsFalsePositive == Count(calls, RecordExploit(a, true))
    && s.reputationScore == 10 * good - 20 * bad + 25 * s.exploitsFound - 5 * s.exploitsFalsePositive
  }

  /** Every figure of an agent is a count of successful calls about it. */
  ghost predicate Tallied(s: Stats, calls: seq<Call>, a: Address) {
    && Figures(s, calls, a)
    && (s.registered <==> exists c :: c in calls && Touches(c, a))
    && (!s.registered ==> s == NO_STATS)
    && Fits(s)
  }

  /** Registered agents are distinct and are exactly those with an entry. */
  ghost predicate Consistent(l: Ledger) {
    && (forall i, j :: 0 <= i < j < |l.agents| ==> l.agents[i] != l.agents[j])
    && (forall a :: a in l.agents <==> l.StatsOf(a).registered)
  }

  lemma ApplyKeepsConsistent(l: Ledger, sender: Address, now: nat, c: Call)
    requires Consistent(l)
    ensures Consistent(Apply(l, sender, now, c).1)
  {
  }

  lemma CountAppend(calls: seq<Call>, d: Call)
    ensures forall c :: Count(calls + [d], c) == Count(calls, c) + if d == c then 1 else 0
  {
  }

  /** What a successful call does to one agent's entry. */
  function StatsAfter(s: Stats, a: Address, now: nat, c: Call): Stats {
    if !Touches(c, a) then s
    else
      var e := if s.registered then s else Stats(0, 0, 0, 0, 0, now, true);
      match c
      case UpdateReputation(_, wasAccurate) => Reviewed(e, wasAccurate, now)
      case RecordExploit(_, falsePositive) => Exploited(e, falsePositive, now)
      case _ => e
  }

  lemma ApplyOnEntry(l: Ledger, sender: Address, now: nat, c: Call, a: Address)
    requires Consistent(l)
    ensures var (outcome, m) := Apply(l, sender, now, c);
            if outcome.Done? then
              m.StatsOf(a) == StatsAfter(l.StatsOf(a), a, now, c) && (Fits(l.StatsOf(a)) ==> Fits(m.StatsOf(a)))
            else m == l
  {
  }

  lemma FiguresStep(s: Stats, calls: seq<Call>, a: Address, now: nat, c: Call)
    requires Figures(s, calls, a) && (!s.registered ==> s == NO_STATS)
    ensures Figures(StatsAfter(s, a, now, c), calls + [c], a)
  {
    CountAppend(calls, c);
  }

  lemma TallyStep(s: Stats, calls: seq<Call>, a: Address, now: nat, c: Call)
    requires Tallied(s, calls, a) && Fits(StatsAfter(s, a, now, c))
    ensures Tallied(StatsAfter(s, a, now, c), calls + [c], a)
  {
    FiguresStep(s, calls, a, now, c);
    assert forall x :: x in calls + [c] <==> x in calls || x == c;
    if Touches(c, a) {
      assert c in calls + [c];
    }
  }

  /** After any sequence of transactions, the ledger is consistent and its figures are counts of the successful ones. */
  lemma {:induction false} LedgerIsTally(deployer: Address, txs: seq<Tx>, a: Address)
    ensures var l := Run(Deployed(deployer), txs);
            Consistent(l) && Tallied(l.StatsOf(a), Successes(Deployed(deployer), txs), a)
  {
    if txs != [] {
      var t, front := txs[|txs| - 1], txs[..|txs| - 1];
      LedgerIsTally(deployer, front, a);
      var l, calls := Run(Deployed(deployer), front), Successes(Deployed(deployer), front);
      ApplyKeepsConsistent(l, t.sender, t.now, t.call);
      ApplyOnEntry(l, t.sender, t.now, t.call, a);
      if Apply(l, t.sender, t.now, t.call).0.Done? {
        TallyStep(l.StatsOf(a), calls, a, t.now, t.call);
      } else {
        assert calls + [] == calls;
      }
    }
  }

  /** What an owner's approval changes: exactly one more account may write. */
  lemma ApprovalLetsWrite(l: Ledger, sender: Address, now: nat, caller: Address, x: Address)
    ensures var (outcome, m) := Apply(l, sender, now, ApproveCaller(caller));
            && (outcome == Done <==> sender == l.owner && caller != 0)
            && (outcome == Reverted(NotOwner) <==> sender != l.owner)
            && (outcome == Done ==> (m.MayWrite(x) <==> x == caller || x == l.owner || x in l.approved))
            && m.owner == l.owner && m.stats == l.stats && m.agents == l.agents
  {
  }

  lemma DeployerIsApproved(deployer: Address)
    ensures Deployed(deployer).owner == deployer && Deployed(deployer).approved == {deployer}
    ensures Deployed(deployer).agents == [] && forall a :: Deployed(deployer).StatsOf(a) == NO_STATS
  {
  }

  /** A caller that may write succeeds unless a figure would overflow, or the account to register is none. */
  lemma WriterSucceeds(l: Ledger, sender: Address, now: nat, agent: Address)
    requires sender == l.owner || sender in l.approved
    ensures Apply(l, sender, now, RegisterAgent(agent)).0 == if agent == 0 then Reverted(InvalidAddress) else Done
    ensures forall accurate :: Room(l.StatsOf(agent)) ==>
              var (outcome, m) := Apply(l, sender, now, UpdateReputation(agent, accurate));
              outcome == Done && m.StatsOf(agent).lastUpdated == now && m.StatsOf(agent).registered
              && m.StatsOf(agent).totalReviews == l.StatsOf(agent).totalReviews + 1
    ensures forall falsePositive :: Room(l.StatsOf(agent)) ==>
              var (outcome, m) := Apply(l, sender, now, RecordExploit(agent, falsePositive));
              outcome == Done && m.StatsOf(agent).lastUpdated == now && m.StatsOf(agent).registered
  {
  }

  /** No figure is at the end of its range. */
  predicate Room(s: Stats) {
    && (!s.registered ==> s == NO_STATS)
    && MIN_INT + 20 <= s.reputationScore <= MAX_INT - 25
    && s.totalReviews < MAX_UINT && s.accurateReviews < MAX_UINT
    && s.exploitsFound < MAX_UINT && s.exploitsFalsePositive < MAX_UINT
  }

  lemma StrangersAreRefused(l: Ledger, sender: Address, now: nat, agent: Address, flag: bool)
    requires sender != l.owner && sender !in l.approved
    ensures Apply(l, sender, now, RegisterAgent(agent)) == (Reverted(NotApprovedCaller), l)
    ensures Apply(l, sender, now, UpdateReputation(agent, flag)) == (Reverted(NotApprovedCaller), l)
    ensures Apply(l, sender, now, RecordExploit(agent, flag)) == (Reverted(NotApprovedCaller), l)
  {
  }

  /** Registration sets the time once, and never again. */
  lemma RegistrationIsIdempotent(l: Ledger, sender: Address, now: nat, agent: Address)
    requires (sender == l.owner || sender in l.approved) && agent != 0
    ensures var m := Apply(l, sender, now, RegisterAgent(agent)).1;
            && m.StatsOf(agent) == (if l.StatsOf(agent).registered then l.StatsOf(agent)
                                    else Stats(0, 0, 0, 0, 0, now, true))
            && m.StatsOf(agent).registered
            && forall later :: Apply(m, sender, later, RegisterAgent(agent)) == (Done, m)
  {
  }

  /** Accounts that are neither owner nor approved change nothing, whatever they call together. */
  lemma {:induction false} OutsidersChangeNothing(l: Ledger, txs: seq<Tx>)
    requires forall t :: t in txs ==> !l.MayWrite(t.sender)
    ensures Run(l, txs) == l && Successes(l, txs) == []
  {
    if txs != [] {
      assert txs[|txs| - 1] in txs;
      assert forall t :: t in txs[..|txs| - 1] ==> t in txs;
      OutsidersChangeNothing(l, txs[..|txs| - 1]);
    }
  }

  /** The rate in basis points; the product reverts when it does not fit. */
  function AccuracyRate(s: Stats): (Outcome, int) {
    if s.totalReviews == 0 then (Done, 0)
    else if s.accurateReviews * 10000 > MAX_UINT then (Reverted(ArithmeticOverflow), 0)
    else (Done, s.accurateReviews * 10000 / s.totalReviews)
  }

  /** The rate is the share in basis points, rounded down; 0 without reviews; and it reverts exactly on overflow. */
  lemma RateIsShare(s: Stats)
    ensures var (outcome, rate) := AccuracyRate(s);
            && (s.totalReviews == 0 ==> outcome == Done && rate == 0)
            && (s.totalReviews > 0 ==>
                  (outcome == Reverted(ArithmeticOverflow) <==> s.accurateReviews * 10000 > MAX_UINT)
                  && (outcome == Done || outcome == Reverted(ArithmeticOverflow)))
            && (s.totalReviews > 0 && outcome == Done ==>
                  rate * s.totalReviews <= 10000 * s.accurateReviews < (rate + 1) * s.totalReviews)
  {
    if s.totalReviews > 0 {
      Quotient(s.accurateReviews * 10000, s.totalReviews);
    }
  }

  lemma RateBounds(a: nat, t: nat)
    requires a <= t && t > 0
    ensures a * 10000 / t <= 10000
    ensures a * 10000 / t == 10000 <==> a == t
  {
    var q, r := a * 10000 / t, a * 10000 % t;
    QuotientBounds(a, t, q, r);
  }

  lemma QuotientBounds(a: nat, t: nat, q: int, r: int)
    requires a <= t && a * 10000 == t * q + r && 0 <= r < t
    ensures q <= 10000 && (q == 10000 <==> a == t)
  {
    if q > 10000 {
      Scale(t, 10001, q);
    } else if q < 10000 {
      Scale(t, q, 9999);
    }
  }

  lemma Scale(t: nat, x: int, y: int)
    requires x <= y
    ensures t * x <= t * y
  {
  }

  lemma EntryRate(s: Stats)
    requires s.accurateReviews <= s.totalReviews
    ensures var (outcome, rate) := AccuracyRate(s);
            && 0 <= rate <= 10000
            && (outcome.Done? && s.totalReviews > 0 ==> (rate == 10000 <==> s.accurateReviews == s.totalReviews))
  {
    if s.totalReviews > 0 {
      RateBounds(s.accurateReviews, s.totalReviews);
    }
  }

  /** In every reachable state a rate that is returned is at most 10000, and is that exactly when no review was inaccurate. */
  lemma AccuracyRateIsARate(deployer: Address, txs: seq<Tx>, a: Address)
    ensures var s := Run(Deployed(deployer), txs).StatsOf(a);
            var (outcome, rate) := AccuracyRate(s);
            && 0 <= rate <= 10000
            && (outcome.Done? && s.totalReviews > 0 ==> (rate == 10000 <==> s.accurateReviews == s.totalReviews))
  {
    LedgerIsTally(deployer, txs, a);
    EntryRate(Run(Deployed(deployer), txs).StatsOf(a));
  }

  class AdversaReputation {
    var owner: Address
    var agentStats: map<Address, Stats>
    var approvedCallers: set<Address>
    var registeredAgents: seq<Address>

    constructor (sender: Address)
      ensures View() == Deployed(sender)
    {
      owner, approvedCallers, agentStats, registeredAgents := sender, {sender}, map[], [];
    }

    function View(): Ledger
      reads this
    {
      Ledger(owner, approvedCallers, agentStats, registeredAgents)
    }

    method ApproveCallerTx(sender: Address, now: nat, caller: Address) returns (outcome: Outcome)
      modifies this
      ensures (outcome, View()) == Apply(old(View()), sender, now, ApproveCaller(caller))
    {
      if sender != owner { return Reverted(NotOwner); }
      if caller == 0 { return Reverted(InvalidAddress); }
      approvedCallers := approvedCallers + {caller};
      outcome := Done;
    }

    method Register(agent: Address, now: nat)
      modifies this`agentStats, this`registeredAgents
      ensures View() == Ensured(old(View()), agent, now)
    {
      if agent !in agentStats || !agentStats[agent].registered {
        agentStats := agentStats[agent := Stats(0, 0, 0, 0, 0, now, true)];
        registeredAgents := registeredAgents + [agent];
      }
    }

    method RegisterAgentTx(sender: Address, now: nat, agent: Address) returns (outcome: Outcome)
      modifies this
      ensures (outcome, View()) == Apply(old(View()), sender, now, RegisterAgent(agent))
    {
      if sender !in approvedCallers && sender != owner { return Reverted(NotApprovedCaller); }
      if agent == 0 { return Reverted(InvalidAddress); }
      Register(agent, now);
      outcome := Done;
    }

    method UpdateReputationTx(sender: Address, now: nat, agent: Address, wasAccurate: bool) returns (outcome: Outcome)
      modifies this
      ensures (outcome, View()) == Apply(old(View()), sender, now, UpdateReputation(agent, wasAccurate))
    {
      if sender !in approvedCallers && sender != owner { return Reverted(NotApprovedCaller); }
      var agentStats', registeredAgents' := agentStats, registeredAgents;
      Register(agent, now);
      var stats := agentStats[agent];
      stats := stats.(totalReviews := stats.totalReviews + 1, lastUpdated := now);
      if wasAccurate {
        stats := stats.(accurateReviews := stats.accurateReviews + 1);
        stats := stats.(reputationScore := stats.reputationScore + ACCURATE_REVIEW_BONUS);
      } else {
        stats := stats.(reputationScore := stats.reputationScore - INACCURATE_REVIEW_PENALTY);
      }
      if !Fits(stats) {
        agentStats, registeredAgents := agentStats', registeredAgents';
        return Reverted(ArithmeticOverflow);
      }
      agentStats := agentStats[agent := stats];
      outcome := Done;
    }

    method RecordExploitTx(sender: Address, now: nat, agent: Address, falsePositive: bool) returns (outcome: Outcome)
      modifies this
      ensures (outcome, View()) == Apply(old(View()), sender, now, RecordExploit(agent, falsePositive))
    {
      if sender !in approvedCallers && sender != owner { return Reverted(NotApprovedCaller); }
      var agentStats', registeredAgents' := agentStats, registeredAgents;
      Register(agent, now);
      var stats := agentStats[agent];
      if falsePositive {
        stats := stats.(exploitsFalsePositive := stats.exploitsFalsePositive + 1);
        stats := stats.(reputationScore := stats.reputationScore - FALSE_POSITIVE_PENALTY);
      } else {
        stats := stats.(exploitsFound := stats.exploitsFound + 1);
        stats := stats.(reputationScore := stats.reputationScore + EXPLOIT_FOUND_BONUS);
      }
      stats := stats.(lastUpdated := now);
      if !Fits(stats) {
        agentStats, registeredAgents := agentStats', registeredAgents';
        return Reverted(ArithmeticOverflow);
      }
      agentStats := agentStats[agent := stats];
      outcome := Done;
    }

    method GetAccuracyRate(agent: Address) returns (outcome: Outcome, rate: int)
      ensures (outcome, rate) == AccuracyRate(View().StatsOf(agent))
      ensures var s := View().StatsOf(agent);
              s.totalReviews > 0 && outcome == Done ==>
                rate * s.totalReviews <= 10000 * s.accurateReviews < (rate + 1) * s.totalReviews
    {
      RateIsShare(View().StatsOf(agent));
      var stats := if agent in agentStats then agentStats[agent] else NO_STATS;
      if stats.totalReviews == 0 { return Done, 0; }
      if stats.accurateReviews * 10000 > MAX_UINT { return Reverted(ArithmeticOverflow), 0; }
      return Done, stats.accurateReviews * 10000 / stats.totalReviews;
    }
  }
}
