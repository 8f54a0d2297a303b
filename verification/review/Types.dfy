/** The data of a review, as far as its decision depends on it. */
module ReviewTypes {
  import opened Options

  datatype Severity = Critical | High | Medium | Low | Info {
    predicate Blocking() {
      Critical? || High?
    }
  }

  datatype Finding = Finding(id: nat, title: string, severity: Severity)

  datatype Exploit = Exploit(id: nat, title: string, severity: Severity)

  /**
   The `mitigated` field of a message. The defender's answer is parsed from a model's output, so
   besides a boolean or nothing it may hold any other value, of which only the truth matters.
   */
  datatype Mitigated = Unstated | Stated(b: bool) | Other(truthy: bool) {
    predicate Truthy() {
      this == Stated(true) || this == Other(true)
    }

    /** `value ?? fallback` */
    function OrElse(fallback: Mitigated): Mitigated {
      if Unstated? then fallback else this
    }
  }

  datatype MessageKind = ExploitChallenge | Defense | CounterAttack | Concession

  datatype DebateMessage = DebateMessage(requestId: nat, kind: MessageKind, mitigated: Mitigated)

  datatype Verdict = Approve | Reject | Abstain

  datatype Role = RedTeam | Security | Performance | Style | Gateway | Coder | OtherRole(name: string)

  datatype Vote = Vote(
    role: Role,
    verdict: Verdict,
    weight: real,
    keyFindings: seq<Finding>,
    reputation: Option<real>)
}
