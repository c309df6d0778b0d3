/** The audit events of each multi-event commit of apps/api/app/services/tool_gateway.py, in order.
    The row builders that number them are in GatewayRows. */
module Chunks {
  import opened Base
  import opened Rows

  /** `_policy_outcome_rows`. */
  function PolicyEvent(action: PolicyAction): Event {
    match action
    case Allow => PolicyAllowed
    case RequireApproval => PolicyApprovalRequired
    case Block => PolicyBlocked
  }

  function PolicyChunk(matched: bool, action: PolicyAction): seq<Event> {
    (if matched then [PolicyMatched] else []) + [PolicyEvent(action)]
  }

  function SignalEvents(n: nat): (events: seq<Event>)
    ensures |events| == n && forall i :: 0 <= i < n ==> events[i] == RiskSignalDetected
  {
    if n == 0 then [] else SignalEvents(n - 1) + [RiskSignalDetected]
  }

  /** `build_risk_rows`: one event for each detected signal between the two markers. */
  function RiskChunk(signals: nat): seq<Event> {
    [RiskAssessmentStarted] + SignalEvents(signals) + [RiskAssessed]
  }

  /** `build_block_rows` of `_finalize_risk_block`; an incident is raised when a signal fired. */
  function RiskBlockChunk(escalated: bool, incident: bool): seq<Event> {
    (if escalated then [RiskEscalated] else []) + [ActionBlockedByRisk]
    + (if incident then [SecurityIncidentCreated] else [])
  }

  /** `build_rows` of `_create_approval_and_commit`. */
  function ApprovalChunk(escalated: bool): seq<Event> {
    (if escalated then [RiskEscalated] else []) + [ApprovalRequested]
  }
}
