/** Closed state vocabularies and their transition graphs. */
module States {
  import opened Outcomes

  datatype PaymentState = Unknown | Unpaid | Authorized | PartiallyPaid | Paid | Overpaid | Exception

  datatype RecoveryState =
    | Dormant | Observing | Assessing | Waiting | ApprovalRequired | ActionQueued | Executing
    | ActionUncertain | Active | Recovered | SuppressedPaid | SuppressedPolicy | Exhausted
    | FailedSafe | Escalated | DuplicateReview

  datatype IncidentState = Normal | Suspected | Confirmed | Cooling

  predicate CollectionTerminal(s: RecoveryState) {
    || s.Recovered? || s.SuppressedPaid? || s.SuppressedPolicy? || s.Exhausted? || s.FailedSafe?
    || s.Escalated? || s.DuplicateReview?
  }

  predicate PaymentEdge(current: PaymentState, target: PaymentState) {
    match current
    case Unknown => target.Unpaid? || target.Authorized? || target.PartiallyPaid? || target.Paid? || target.Overpaid? || target.Exception?
    case Unpaid => target.Authorized? || target.PartiallyPaid? || target.Paid? || target.Overpaid? || target.Exception?
    case Authorized => target.PartiallyPaid? || target.Paid? || target.Overpaid? || target.Exception?
    case PartiallyPaid => target.Paid? || target.Overpaid? || target.Exception?
    case Paid => target.Overpaid? || target.Exception?
    case Overpaid => target.Exception?
    case Exception => false
  }

  predicate RecoveryEdge(current: RecoveryState, target: RecoveryState) {
    match current
    case Dormant => target.Observing?
    case Observing => target.Assessing? || target.SuppressedPaid?
    case Assessing => target.Waiting? || target.ApprovalRequired? || target.ActionQueued? || target.Exhausted? || target.SuppressedPolicy? || target.SuppressedPaid? || target.Escalated?
    case Waiting => target.Assessing? || target.SuppressedPaid? || target.SuppressedPolicy? || target.Exhausted?
    case ApprovalRequired => target.ActionQueued? || target.SuppressedPolicy? || target.SuppressedPaid?
    case ActionQueued => target.Executing? || target.SuppressedPaid? || target.SuppressedPolicy?
    case Executing => target.Active? || target.ActionUncertain? || target.FailedSafe? || target.SuppressedPaid?
    case ActionUncertain => target.Active? || target.ActionQueued? || target.Escalated? || target.SuppressedPaid?
    case Active => target.Recovered? || target.SuppressedPaid? || target.Assessing? || target.Exhausted?
    case _ => false
  }

  predicate IncidentEdge(current: IncidentState, target: IncidentState) {
    match current
    case Normal => target.Suspected?
    case Suspected => target.Confirmed? || target.Normal?
    case Confirmed => target.Cooling?
    case Cooling => target.Confirmed? || target.Normal?
  }

  datatype TransitionError = InvalidTransition

  /** Whether the state changes; a self-loop is accepted and changes nothing. */
  function PaymentTransition(current: PaymentState, target: PaymentState): Result<bool, TransitionError> {
    if current == target then Ok(false)
    else if PaymentEdge(current, target) then Ok(true)
    else Err(InvalidTransition)
  }

  /** Any started case may move to duplicate review. */
  function RecoveryTransition(current: RecoveryState, target: RecoveryState): Result<bool, TransitionError> {
    if current == target then Ok(false)
    else if target == DuplicateReview && current != Dormant then Ok(true)
    else if RecoveryEdge(current, target) then Ok(true)
    else Err(InvalidTransition)
  }

  function IncidentTransition(current: IncidentState, target: IncidentState): Result<bool, TransitionError> {
    if current == target then Ok(false)
    else if IncidentEdge(current, target) then Ok(true)
    else Err(InvalidTransition)
  }
}
