/**
 The versioned recovery case. A command takes the current value and returns the
 next one with its event, or the error it raises; nothing is updated in place.
 */
module Aggregate {
  import opened Outcomes
  import opened Text
  import opened States
  import opened Actions
  import opened Gate

  /** The floor under every late-capture observation window, in microseconds. */
  const MINIMUM_WINDOW := 120_000_000

  datatype Case = Case(
    merchantId: string,
    caseId: string,
    orderId: string,
    amountDue: Money,
    state: RecoveryState,
    truth: PaymentState,
    incident: IncidentState,
    version: int,
    decisionVersion: int,
    actionKey: Option<string>,
    proposalId: Option<string>,
    instrument: Option<string>,
    lastAt: Option<int>,
    window: int,
    startedAt: Option<int>,
    deadline: Option<int>)
  {
    /** What construction enforces, and so every replacement of a field too. */
    predicate Valid() {
      && IsIdentifier(merchantId) && IsIdentifier(caseId) && IsIdentifier(orderId)
      && amountDue.Valid() && amountDue.minorUnits > 0 && window >= MINIMUM_WINDOW
      && 0 <= decisionVersion <= version
      && (actionKey.Some? ==> IsIdentifier(actionKey.value) && "act_" <= actionKey.value)
      && (proposalId.Some? ==> IsIdentifier(proposalId.value))
      && (instrument.Some? ==> IsIdentifier(instrument.value))
      && (if state.Dormant? then startedAt.None? && deadline.None?
          else startedAt.Some? && deadline.Some? && lastAt.Some?)
      && (startedAt.Some? && deadline.Some? ==>
            && deadline.value >= startedAt.value + window
            && (lastAt.Some? ==> startedAt.value <= lastAt.value))
    }

    /** A case as it is first created. */
    predicate Fresh() {
      && Valid() && state.Dormant? && truth.Unknown? && incident.Normal? && version == 0 && decisionVersion == 0
      && actionKey.None? && proposalId.None? && instrument.None? && lastAt.None?
    }

    predicate Closed() { CollectionTerminal(state) }
  }

  datatype Event = Event(kind: string, caseId: string, version: int, occurredAt: int)

  datatype Change = Change(after: Case, event: Option<Event>)

  datatype CommandError = InvalidValue | VersionConflict | NotInGraph | BindingMismatch | Refused

  datatype Body =
    | ObserveFailure(eventId: string, extendUntil: Option<int>)
    | ReconcileTruth(target: PaymentState, evidence: string)
    | UpdateIncident(incident: IncidentState, evidence: string)
    | MarkReady
    | WaitFor(reason: string)
    | Wake
    | RequestApproval(proposal: ActionProposal, decision: GateDecision)
    | AuthorizeAction(proposal: ActionProposal, decision: GateDecision)
    | DecideInternally(proposal: ActionProposal, decision: GateDecision)
    | BeginExecution(proposal: ActionProposal, decision: GateDecision)
    | ActionActive(key: string, reference: string)
    | ActionLost(key: string, code: string)
    | RequeueAbsent(key: string)
    | EscalateLost(key: string, reason: string)
    | FailSafe(key: string, code: string)
    | InstrumentExpired(budgetRemains: bool)
    | OriginalPaid(evidence: string)
    | RecoveryPaid(evidence: string)
    | DuplicateCollection(evidence: string)

  datatype Command = Command(expectedVersion: int, at: int, body: Body)

  type Outcome = Result<Change, CommandError>

  // ---- Shared checks ----

  function Same(a: Case): Outcome {
    Ok(Change(a, None))
  }

  /** Bumps the version, stamps the time, and re-validates the whole value. */
  function Changed(a: Case, at: int, kind: string, next: Case): Outcome {
    if a.lastAt.Some? && at < a.lastAt.value then Err(InvalidValue)
    else
      var after := next.(version := a.version + 1, lastAt := Some(at));
      if after.Valid() then Ok(Change(after, Some(Event(kind, a.caseId, a.version + 1, at))))
      else Err(InvalidValue)
  }

  function Moves(current: RecoveryState, target: RecoveryState): Result<bool, CommandError> {
    match RecoveryTransition(current, target)
    case Ok(b) => Ok(b)
    case Err(_) => Err(NotInGraph)
  }

  function TruthMoves(current: PaymentState, target: PaymentState): Result<bool, CommandError> {
    match PaymentTransition(current, target)
    case Ok(b) => Ok(b)
    case Err(_) => Err(NotInGraph)
  }

  function IncidentMoves(current: IncidentState, target: IncidentState): Result<bool, CommandError> {
    match IncidentTransition(current, target)
    case Ok(b) => Ok(b)
    case Err(_) => Err(NotInGraph)
  }

  function Need(ok: bool, e: CommandError): Result<(), CommandError> {
    if ok then Ok(()) else Err(e)
  }

  function ObservationElapsed(a: Case, at: int): Result<(), CommandError> {
    Need(a.deadline.Some? && at >= a.deadline.value, Refused)
  }

  /** A workflow step: the graph must allow it, and assessing waits for the deadline. */
  function Workflow(a: Case, at: int, kind: string, target: RecoveryState, next: Case): Outcome {
    var _ :- Moves(a.state, target);
    if target.Assessing? then
      var _ :- ObservationElapsed(a, at);
      Changed(a, at, kind, next.(state := target))
    else Changed(a, at, kind, next.(state := target))
  }

  function ProposalBound(a: Case, p: ActionProposal, nextDecision: bool): Result<(), CommandError> {
    Need(p.merchantId == a.merchantId && p.caseId == a.caseId
         && p.decisionVersion == a.decisionVersion + (if nextDecision then 1 else 0), BindingMismatch)
  }

  predicate GateBinds(a: Case, p: ActionProposal, d: GateDecision, stage: Stage, allowed: bool) {
    && d.stage == stage && d.Allowed() == allowed
    && d.proposalId == p.proposalId && d.actionKey == p.ActionKey() && d.proposalDigest == p.ProposalDigest()
    && d.caseId == a.caseId && d.decisionVersion == p.decisionVersion && d.aggregateVersion == a.version
  }

  function GateBound(a: Case, p: ActionProposal, d: GateDecision, stage: Stage, allowed: bool)
    : Result<(), CommandError>
  {
    Need(GateBinds(a, p, d, stage, allowed), BindingMismatch)
  }

  function ActiveAction(a: Case, key: string): Result<(), CommandError> {
    Need(a.actionKey == Some(key), BindingMismatch)
  }

  function Pending(a: Case, p: ActionProposal): Case {
    a.(decisionVersion := p.decisionVersion, actionKey := Some(p.ActionKey()), proposalId := Some(p.proposalId))
  }

  // ---- Commands ----

  function Observe(a: Case, at: int, eventId: string, extendUntil: Option<int>): Outcome {
    var _ :- Need(IsIdentifier(eventId), InvalidValue);
    var _ :- Moves(a.state, Observing);
    var floor := at + a.window;
    var deadline := if extendUntil.Some? && extendUntil.value > floor then extendUntil.value else floor;
    Changed(a, at, "RecoveryObservationStarted",
            a.(state := Observing, startedAt := Some(at), deadline := Some(deadline)))
  }

  function Reconcile(a: Case, at: int, target: PaymentState, evidence: string): Outcome {
    var _ :- Need(IsIdentifier(evidence), InvalidValue);
    var _ :- Need(target != Paid && target != Overpaid, Refused);
    var changed :- TruthMoves(a.truth, target);
    if !changed then Same(a)
    else Changed(a, at, "CanonicalPaymentTruthChanged", a.(truth := target))
  }

  function NoteIncident(a: Case, at: int, target: IncidentState, evidence: string): Outcome {
    var _ :- Need(IsIdentifier(evidence), InvalidValue);
    var changed :- IncidentMoves(a.incident, target);
    if !changed then Same(a)
    else Changed(a, at, "IncidentStateChanged", a.(incident := target))
  }

  function Ready(a: Case, at: int, kind: string): Outcome {
    var _ :- Moves(a.state, Assessing);
    var _ :- Need(a.truth.Unpaid?, Refused);
    Workflow(a, at, kind, Assessing, a)
  }

  function Delay(a: Case, at: int, reason: string): Outcome {
    var _ :- Need(IsIdentifier(reason), InvalidValue);
    Workflow(a, at, "RecoveryWaitScheduled", Waiting, a)
  }

  function AskApproval(a: Case, at: int, p: ActionProposal, d: GateDecision): Outcome {
    var _ :- Need(a.state.Assessing?, NotInGraph);
    var _ :- ObservationElapsed(a, at);
    var _ :- ProposalBound(a, p, true);
    var _ :- GateBound(a, p, d, Policy, false);
    var _ :- Need(OnlyApprovalReasons(d.reasons), BindingMismatch);
    var _ :- Need(IsCollection(p.actionType), Refused);
    var _ :- Need(a.truth.Unpaid?, Refused);
    Workflow(a, at, "RecoveryApprovalRequested", ApprovalRequired, Pending(a, p))
  }

  function Authorize(a: Case, at: int, p: ActionProposal, d: GateDecision): Outcome {
    var _ :- Need(a.state.Assessing? || a.state.ApprovalRequired?, NotInGraph);
    var _ :- ObservationElapsed(a, at);
    var _ :- ProposalBound(a, p, a.state.Assessing?);
    var _ :- GateBound(a, p, d, Policy, true);
    var _ :- Need(IsCollection(p.actionType), Refused);
    var _ :- Need(a.truth.Unpaid?, Refused);
    var _ :- Need(a.state.ApprovalRequired? ==>
                    a.actionKey == Some(p.ActionKey()) && a.proposalId == Some(p.proposalId), BindingMismatch);
    Workflow(a, at, "RecoveryActionAuthorized", ActionQueued, Pending(a, p))
  }

  function Internal(a: Case, at: int, p: ActionProposal, d: GateDecision): Outcome {
    if !IsInternal(p.actionType) then Err(Refused)
    else
      var _ :- ProposalBound(a, p, true);
      var _ :- GateBound(a, p, d, Policy, true);
      var target := match p.actionType
        case Wait => Waiting
        case Escalate => Escalated
        case _ => SuppressedPolicy;
      Workflow(a, at, "RecoveryInternalDecisionRecorded", target, a.(decisionVersion := p.decisionVersion))
  }

  function Begin(a: Case, at: int, p: ActionProposal, d: GateDecision): Outcome {
    var _ :- ProposalBound(a, p, false);
    var _ :- GateBound(a, p, d, Effect, true);
    var _ :- Need(a.state.ActionQueued?, NotInGraph);
    var _ :- ObservationElapsed(a, at);
    var _ :- ActiveAction(a, p.ActionKey());
    var _ :- Need(a.truth.Unpaid?, Refused);
    Workflow(a, at, "RecoveryActionExecutionStarted", Executing, a)
  }

  function Activate(a: Case, at: int, key: string, reference: string): Outcome {
    var _ :- ActiveAction(a, key);
    var _ :- Need(IsIdentifier(reference), InvalidValue);
    if a.state.Active? && a.instrument == Some(reference) then Same(a)
    else Workflow(a, at, "RecoveryInstrumentActivated", Active, a.(instrument := Some(reference)))
  }

  /** A step of the pending action that names it and gives a coded reason. */
  function ActionStep(a: Case, at: int, kind: string, key: string, code: string, target: RecoveryState): Outcome {
    var _ :- ActiveAction(a, key);
    var _ :- Need(IsIdentifier(code), InvalidValue);
    Workflow(a, at, kind, target, a)
  }

  function Requeue(a: Case, at: int, key: string): Outcome {
    var _ :- ActiveAction(a, key);
    Workflow(a, at, "RecoveryActionAbsenceProven", ActionQueued, a)
  }

  function Expire(a: Case, at: int, budgetRemains: bool): Outcome {
    Workflow(a, at, "RecoveryInstrumentExpired", if budgetRemains then Assessing else Exhausted,
             a.(actionKey := None, proposalId := None, instrument := None))
  }

  function PayOriginal(a: Case, at: int, evidence: string): Outcome {
    var _ :- Need(IsIdentifier(evidence), InvalidValue);
    var _ :- Need(!a.state.Dormant?, Refused);
    if a.state.DuplicateReview? && a.truth.Overpaid? then Same(a)
    else if a.state.Recovered? then Duplicate(a, at, evidence)
    else
      var changed :- TruthMoves(a.truth, Paid);
      if a.Closed() then
        if !changed then Same(a) else Changed(a, at, "OriginalPaymentSucceeded", a.(truth := Paid))
      else
        var _ :- Moves(a.state, SuppressedPaid);
        Changed(a, at, "OriginalPaymentSucceeded",
                a.(truth := Paid, state := SuppressedPaid, actionKey := None, proposalId := None))
  }

  function PayRecovery(a: Case, at: int, evidence: string): Outcome {
    var _ :- Need(IsIdentifier(evidence), InvalidValue);
    if a.state.Recovered? && a.truth.Paid? then Same(a)
    else
      var _ :- Need(a.state.Active?, NotInGraph);
      if a.truth.Paid? then Duplicate(a, at, evidence)
      else
        var _ :- TruthMoves(a.truth, Paid);
        Changed(a, at, "RecoveryPaymentSucceeded", a.(truth := Paid, state := Recovered))
  }

  function Duplicate(a: Case, at: int, evidence: string): Outcome {
    var _ :- Need(IsIdentifier(evidence), InvalidValue);
    var paymentChanged :- TruthMoves(a.truth, Overpaid);
    var workflowChanged :- Moves(a.state, DuplicateReview);
    if !paymentChanged && !workflowChanged then Same(a)
    else Changed(a, at, "DuplicateCollectionDetected",
                 a.(truth := Overpaid, state := DuplicateReview, actionKey := None, proposalId := None))
  }

  /** Every command names the version it was decided against. */
  function Apply(a: Case, c: Command): Outcome {
    var _ :- Need(c.expectedVersion >= 0, InvalidValue);
    var _ :- Need(c.expectedVersion == a.version, VersionConflict);
    Execute(a, c.at, c.body)
  }

  function Execute(a: Case, at: int, body: Body): Outcome {
    match body
    case ObserveFailure(eventId, extendUntil) => Observe(a, at, eventId, extendUntil)
    case ReconcileTruth(target, evidence) => Reconcile(a, at, target, evidence)
    case UpdateIncident(target, evidence) => NoteIncident(a, at, target, evidence)
    case MarkReady => Ready(a, at, "RecoveryAssessmentStarted")
    case WaitFor(reason) => Delay(a, at, reason)
    case Wake => Ready(a, at, "RecoveryWaitElapsed")
    case RequestApproval(p, d) => AskApproval(a, at, p, d)
    case AuthorizeAction(p, d) => Authorize(a, at, p, d)
    case DecideInternally(p, d) => Internal(a, at, p, d)
    case BeginExecution(p, d) => Begin(a, at, p, d)
    case ActionActive(key, reference) => Activate(a, at, key, reference)
    case ActionLost(key, code) => ActionStep(a, at, "RecoveryActionOutcomeUncertain", key, code, ActionUncertain)
    case RequeueAbsent(key) => Requeue(a, at, key)
    case EscalateLost(key, reason) => ActionStep(a, at, "RecoveryActionEscalated", key, reason, Escalated)
    case FailSafe(key, code) => ActionStep(a, at, "RecoveryActionFailedSafe", key, code, FailedSafe)
    case InstrumentExpired(budgetRemains) => Expire(a, at, budgetRemains)
    case OriginalPaid(evidence) => PayOriginal(a, at, evidence)
    case RecoveryPaid(evidence) => PayRecovery(a, at, evidence)
    case DuplicateCollection(evidence) => Duplicate(a, at, evidence)
  }
}
