/** The last check before an automatic merge. */
module Guardrails {
  import opened ReviewTypes
  import opened Consensus

  datatype GuardrailDecision = Allowed | Refused(reason: string)

  function EnforceAutoMerge(r: Result): GuardrailDecision {
    if !r.approved then Refused("Consensus rejected the pull request")
    else if |r.blockingIssues| > 0 then Refused("Consensus still contains blocking issues")
    else if (exists e :: e in r.exploitsFound && e.severity.Critical?) && r.exploitsMitigated < |r.exploitsFound| then
      Refused("Unmitigated critical exploit remains")
    else Allowed
  }
}
