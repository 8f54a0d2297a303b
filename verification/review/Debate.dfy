/** The debate over one exploit between the red team and the security agent. */
module Debate {
  import opened Options
  import opened ReviewTypes

  /** The last stated verdict of a message list. */
  function LastStated(messages: seq<DebateMessage>): Option<bool> {
    if messages == [] then None
    else
      var last := messages[|messages| - 1].mitigated;
      if last.Stated? then Some(last.b) else LastStated(messages[..|messages| - 1])
  }

  /** Searches from the end for a message whose verdict is a boolean; there may be none. */
  method LastMitigationState(messages: seq<DebateMessage>) returns (r: Option<bool>)
    ensures r == LastStated(messages)
    ensures r.Some? <==> exists k :: 0 <= k < |messages| && messages[k].mitigated.Stated?
    ensures r.Some? ==> exists k :: 0 <= k < |messages| && messages[k].mitigated == Stated(r.value) &&
                                    forall j :: k < j < |messages| ==> !messages[j].mitigated.Stated?
  {
    var i := |messages| - 1;
    assert messages[..i + 1] == messages;
    while i >= 0
      invariant -1 <= i < |messages|
      invariant LastStated(messages) == LastStated(messages[..i + 1])
      invariant forall j :: i < j < |messages| ==> !messages[j].mitigated.Stated?
    {
      var mitigated := messages[i].mitigated;
      assert messages[..i + 1][..i] == messages[..i];
      if mitigated.Stated? {
        return Some(mitigated.b);
      }
      i := i - 1;
    }
    return None;
  }

  /** The answer to a challenge; a failed call is the absence of one. */
  datatype Answer = Answer(mitigated: Mitigated)

  /** `debateExploit`'s result. */
  datatype Outcome = Outcome(mitigated: Mitigated, messages: seq<DebateMessage>)

  /** Messages of one debate: one request id, opened by the challenge, every mitigation claimed by a defense. */
  ghost predicate WellFormed(messages: seq<DebateMessage>, requestId: nat) {
    && (forall m :: m in messages ==> m.requestId == requestId)
    && (forall m :: m in messages ==> (m.mitigated.Truthy() <==> m.kind.Defense?))
    && messages != [] && messages[0] == DebateMessage(requestId, ExploitChallenge, Unstated)
  }

  function AnswerMessage(requestId: nat, mitigated: Mitigated): DebateMessage {
    DebateMessage(requestId, if mitigated.Truthy() then Defense else Concession, mitigated)
  }

  /** The counter-attack: the bypass attempt and, if it claims to work, the final answer, if any comes. */
  method LaunchCounterAttack(requestId: nat, bypasses: bool, final: Option<Answer>) returns (messages: seq<DebateMessage>)
    ensures |messages| == if bypasses && final.Some? then 2 else 1
    ensures messages[0] == DebateMessage(requestId, CounterAttack, Unstated)
    ensures |messages| == 2 ==> messages[1] == AnswerMessage(requestId, final.value.mitigated.OrElse(Stated(false)))
  {
    var counter := DebateMessage(requestId, CounterAttack, Unstated);
    if !bypasses {
      return [counter];
    }
    match final
    case None => return [counter];
    case Some(answer) =>
      var kind := if answer.mitigated.Truthy() then Defense else Concession;
      return [counter, DebateMessage(requestId, kind, answer.mitigated.OrElse(Stated(false)))];
  }

  /** A claimed mitigation is attacked once more, unless the exploit is minor. */
  predicate Countered(severity: Severity, first: Answer) {
    first.mitigated.Truthy() && !severity.Low?
  }

  /** The field of the last answer a debate receives. */
  function LastAnswer(severity: Severity, first: Answer, bypasses: bool, final: Option<Answer>): Mitigated {
    if Countered(severity, first) && bypasses && final.Some? then final.value.mitigated
    else first.mitigated
  }

  /** Everything said in a debate: challenge, answer, and a counter-attack on a mitigation worth attacking. */
  function Transcript(severity: Severity, requestId: nat, first: Answer, bypasses: bool, final: Option<Answer>)
    : seq<DebateMessage>
  {
    [DebateMessage(requestId, ExploitChallenge, Unstated),
     AnswerMessage(requestId, first.mitigated.OrElse(Stated(false)))]
    + if !Countered(severity, first) then []
      else if bypasses && final.Some? then
        [DebateMessage(requestId, CounterAttack, Unstated),
         AnswerMessage(requestId, final.value.mitigated.OrElse(Stated(false)))]
      else [DebateMessage(requestId, CounterAttack, Unstated)]
  }

  /** The messages a debate leaves behind: none when its first call, or the invention of its counter-attack, fails. */
  function Held(severity: Severity, requestId: nat, first: Option<Answer>, invented: bool, bypasses: bool,
                final: Option<Answer>): seq<DebateMessage>
  {
    if first.None? || (Countered(severity, first.value) && !invented) then []
    else Transcript(severity, requestId, first.value, bypasses, final)
  }

  /** `invented`: whether the model came up with a counter-attack at all; if not, the whole debate fails. */
  method DebateExploit(severity: Severity, requestId: nat, first: Option<Answer>, invented: bool, bypasses: bool,
                       final: Option<Answer>)
    returns (outcome: Option<Outcome>)
    ensures outcome.None? <==> first.None? || (Countered(severity, first.value) && !invented)
    ensures outcome.None? ==> Held(severity, requestId, first, invented, bypasses, final) == []
    ensures outcome.Some? ==>
              && outcome.value.messages == Held(severity, requestId, first, invented, bypasses, final)
              && outcome.value.messages == Transcript(severity, requestId, first.value, bypasses, final)
              && outcome.value.mitigated == LastAnswer(severity, first.value, bypasses, final).OrElse(Stated(false))
  {
    if first.None? {
      return None;
    }
    var messages := [DebateMessage(requestId, ExploitChallenge, Unstated)];
    var mitigated := first.value.mitigated.OrElse(Stated(false));
    messages := messages + [DebateMessage(requestId, if mitigated.Truthy() then Defense else Concession, mitigated)];
    if mitigated.Truthy() && !severity.Low? {
      if !invented {
        return None;
      }
      var counter := LaunchCounterAttack(requestId, bypasses, final);
      messages := messages + counter;
      var last := messages[|messages| - 1];
      return Some(Outcome(last.mitigated.OrElse(mitigated), messages));
    }
    return Some(Outcome(mitigated, messages));
  }

  /** The challenge comes first, the counter-attack third, and the others are answers, named by what they claim. */
  function KindAt(i: nat, mitigated: Mitigated): MessageKind {
    if i == 0 then ExploitChallenge
    else if i == 2 then CounterAttack
    else if mitigated == Stated(true) || mitigated == Other(true) then Defense
    else Concession
  }

  /**
   On every path the messages share the debate's request id, claim mitigation exactly in defenses,
   and the last verdict stated in them is the reported one, if and only if the last answer's
   `mitigated` is a boolean or missing.
   */
  lemma VerdictAgreement(severity: Severity, requestId: nat, first: Answer, bypasses: bool, final: Option<Answer>)
    ensures var messages := Transcript(severity, requestId, first, bypasses, final);
            var countered := (first.mitigated == Stated(true) || first.mitigated == Other(true)) && severity != Low;
            && |messages| == (if !countered then 2 else if bypasses && final.Some? then 4 else 3)
            && forall i :: 0 <= i < |messages| ==> messages[i].kind == KindAt(i, messages[i].mitigated)
    ensures var messages := Transcript(severity, requestId, first, bypasses, final);
            var reported := LastAnswer(severity, first, bypasses, final).OrElse(Stated(false));
            && WellFormed(messages, requestId)
            && (reported.Stated? && LastStated(messages) == Some(reported.b)
                <==> !LastAnswer(severity, first, bypasses, final).Other?)
  {
  }
}
