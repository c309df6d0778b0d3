/** Datatypes shared by every component of the model. */
module Base {

  datatype Option<+T> = None | Some(value: T)

  /** `PolicyAction` (apps/api/app/models/enums.py): the three verdicts a policy or the risk
      engine can give, in increasing severity. */
  datatype PolicyAction = Allow | RequireApproval | Block

  function Severity(a: PolicyAction): nat {
    match a
    case Allow => 0
    case RequireApproval => 1
    case Block => 2
  }

  predicate AtMost(a: PolicyAction, b: PolicyAction) {
    Severity(a) <= Severity(b)
  }

  /** `combine_decisions`: Python's `max` with a severity key keeps the first of two equals. */
  function CombineDecisions(policy: PolicyAction, risk: PolicyAction): PolicyAction {
    if Severity(risk) > Severity(policy) then risk else policy
  }

  /** A tool call: the tool's name and the canonical text of its arguments. */
  datatype Call = Call(tool: string, args: string)

  datatype Permission = PermitAllow | PermitConditional | PermitDeny
}
