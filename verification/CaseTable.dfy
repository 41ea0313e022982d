/**
 The recovery case as a table: which commands a case accepts, and the whole case and event
 that each of the nineteen leaves.
 */
module CaseTable {
  import opened Outcomes
  import opened Text
  import opened States
  import opened Actions
  import opened Gate
  import opened Aggregate
  import CaseRuns

  // ---- The graphs, read backwards ----

  /** Where a case may stand to be moved to `target`; staying put is always one of these. */
  function Sources(target: RecoveryState): set<RecoveryState> {
    match target
    case Dormant => {Dormant}
    case Observing => {Dormant, Observing}
    case Assessing => {Observing, Waiting, Active, Assessing}
    case Waiting => {Assessing, Waiting}
    case ApprovalRequired => {Assessing, ApprovalRequired}
    case ActionQueued => {Assessing, ApprovalRequired, ActionUncertain, ActionQueued}
    case Executing => {ActionQueued, Executing}
    case ActionUncertain => {Executing, ActionUncertain}
    case Active => {Executing, ActionUncertain, Active}
    case Recovered => {Active, Recovered}
    case SuppressedPaid => Open() + {SuppressedPaid}
    case SuppressedPolicy => {Assessing, Waiting, ApprovalRequired, ActionQueued, SuppressedPolicy}
    case Exhausted => {Assessing, Waiting, Active, Exhausted}
    case FailedSafe => {Executing, FailedSafe}
    case Escalated => {Assessing, ActionUncertain, Escalated}
    case DuplicateReview => Open() + Terminal()
  }

  /** The states in which collection is under way. */
  function Open(): set<RecoveryState> {
    {Observing, Assessing, Waiting, ApprovalRequired, ActionQueued, Executing, ActionUncertain, Active}
  }

  /** The states in which collection is over. */
  function Terminal(): set<RecoveryState> {
    {Recovered, SuppressedPaid, SuppressedPolicy, Exhausted, FailedSafe, Escalated, DuplicateReview}
  }

  /** Payment truth only ever rises. */
  function Rank(t: PaymentState): nat {
    match t
    case Unknown => 0
    case Unpaid => 1
    case Authorized => 2
    case PartiallyPaid => 3
    case Paid => 4
    case Overpaid => 5
    case Exception => 6
  }

  lemma MovesExactly(s: RecoveryState, t: RecoveryState)
    ensures Moves(s, t) == if s in Sources(t) then Ok(s != t) else Err(NotInGraph)
  {}

  lemma TruthRises(s: PaymentState, t: PaymentState)
    ensures TruthMoves(s, t) == if Rank(s) <= Rank(t) then Ok(s != t) else Err(NotInGraph)
  {}

  /** The circle of an incident, with its two ways back. */
  predicate IncidentStep(s: IncidentState, t: IncidentState) {
    || (s == Normal && t == Suspected) || (s == Suspected && t == Normal) || (s == Suspected && t == Confirmed)
    || (s == Confirmed && t == Cooling) || (s == Cooling && t == Confirmed) || (s == Cooling && t == Normal)
  }

  lemma IncidentTurns(s: IncidentState, t: IncidentState)
    ensures IncidentMoves(s, t)
         == if s == t then Ok(false) else if IncidentStep(s, t) then Ok(true) else Err(NotInGraph)
  {}

  // ---- What a command asks for ----

  predicate Ordered(a: Case, at: int) { a.lastAt.Some? ==> a.lastAt.value <= at }

  predicate Due(a: Case, at: int) { a.deadline.Some? && a.deadline.value <= at }

  predicate Collects(p: ActionProposal) { p.actionType == CreateLink || p.actionType == NotifyLink }

  /** The decision was taken on this proposal, for this case as it now stands. */
  predicate Judged(a: Case, p: ActionProposal, d: GateDecision, stage: Stage, decision: int) {
    && p.merchantId == a.merchantId && p.caseId == a.caseId && p.decisionVersion == decision
    && d.stage == stage && d.proposalId == p.proposalId && d.actionKey == p.ActionKey()
    && d.proposalDigest == p.ProposalDigest() && d.caseId == p.caseId && d.decisionVersion == p.decisionVersion
    && d.aggregateVersion == a.version
  }

  /** Accepted without anything left to change. */
  predicate AlreadyDone(a: Case, body: Body) {
    match body
    case ReconcileTruth(target, evidence) =>
      IsIdentifier(evidence) && target == a.truth && target != Paid && target != Overpaid
    case UpdateIncident(target, evidence) => IsIdentifier(evidence) && target == a.incident
    case ActionActive(key, reference) =>
      a.actionKey == Some(key) && IsIdentifier(reference) && a.state == Active && a.instrument == Some(reference)
    case OriginalPaid(evidence) =>
      IsIdentifier(evidence)
      && (|| (a.state == DuplicateReview && a.truth == Overpaid)
          || (a.state in Terminal() && a.state != Recovered && a.truth == Paid))
    case RecoveryPaid(evidence) => IsIdentifier(evidence) && a.state == Recovered && a.truth == Paid
    case DuplicateCollection(evidence) => IsIdentifier(evidence) && a.state == DuplicateReview && a.truth == Overpaid
    case _ => false
  }

  /** The guards of a command that changes the case, apart from the order of time. */
  predicate Permitted(a: Case, at: int, body: Body) {
    match body
    case ObserveFailure(eventId, _) => IsIdentifier(eventId) && a.state in Sources(Observing)
    case ReconcileTruth(target, evidence) =>
      IsIdentifier(evidence) && target != Paid && target != Overpaid && Rank(a.truth) < Rank(target)
    case UpdateIncident(target, evidence) => IsIdentifier(evidence) && IncidentStep(a.incident, target)
    case MarkReady => a.state in Sources(Assessing) && a.truth == Unpaid && Due(a, at)
    case WaitFor(reason) => IsIdentifier(reason) && a.state in Sources(Waiting)
    case Wake => a.state in Sources(Assessing) && a.truth == Unpaid && Due(a, at)
    case RequestApproval(p, d) =>
      && a.state == Assessing && a.truth == Unpaid && Due(a, at) && Collects(p) && IsIdentifier(p.proposalId)
      && Judged(a, p, d, Policy, a.decisionVersion + 1) && d.reasons != []
      && forall i | 0 <= i < |d.reasons| :: IsApprovalReason(d.reasons[i])
    case AuthorizeAction(p, d) =>
      && a.truth == Unpaid && Due(a, at) && Collects(p) && IsIdentifier(p.proposalId) && d.reasons == []
      && (|| (a.state == Assessing && Judged(a, p, d, Policy, a.decisionVersion + 1))
          || (a.state == ApprovalRequired && Judged(a, p, d, Policy, a.decisionVersion)
              && a.actionKey == Some(p.ActionKey()) && a.proposalId == Some(p.proposalId)))
    case DecideInternally(p, d) =>
      && Judged(a, p, d, Policy, a.decisionVersion + 1) && d.reasons == []
      && (|| (p.actionType == Wait && a.state in Sources(Waiting))
          || (p.actionType == Escalate && a.state in Sources(Escalated))
          || (p.actionType == Stop && a.state in Sources(SuppressedPolicy)))
    case BeginExecution(p, d) =>
      && a.state == ActionQueued && a.truth == Unpaid && Due(a, at) && a.actionKey == Some(p.ActionKey())
      && Judged(a, p, d, Effect, a.decisionVersion) && d.reasons == []
    case ActionActive(key, reference) =>
      a.actionKey == Some(key) && IsIdentifier(reference) && a.state in Sources(Active)
    case ActionLost(key, code) => a.actionKey == Some(key) && IsIdentifier(code) && a.state in Sources(ActionUncertain)
    case RequeueAbsent(key) => a.actionKey == Some(key) && a.state in Sources(ActionQueued)
    case EscalateLost(key, reason) => a.actionKey == Some(key) && IsIdentifier(reason) && a.state in Sources(Escalated)
    case FailSafe(key, code) => a.actionKey == Some(key) && IsIdentifier(code) && a.state in Sources(FailedSafe)
    case InstrumentExpired(budgetRemains) =>
      if budgetRemains then a.state in Sources(Assessing) && Due(a, at) else a.state in Sources(Exhausted)
    case OriginalPaid(evidence) =>
      && IsIdentifier(evidence) && a.state != Dormant
      && (if a.state == Recovered then a.truth != Exception else Rank(a.truth) <= Rank(Paid))
    case RecoveryPaid(evidence) => IsIdentifier(evidence) && a.state == Active && Rank(a.truth) <= Rank(Paid)
    case DuplicateCollection(evidence) => IsIdentifier(evidence) && a.state != Dormant && a.truth != Exception
  }

  // ---- What it leaves ----

  /** The first deadline a window allows, or the later one asked for. */
  function Later(floor: int, asked: Option<int>): int {
    match asked
    case None => floor
    case Some(t) => if t > floor then t else floor
  }

  /** The duplicate case, as three commands reach it. */
  function Doubled(a: Case): Case {
    a.(truth := Overpaid, state := DuplicateReview, actionKey := None, proposalId := None)
  }

  /** The whole next case; everything not named stays as it was. */
  function After(a: Case, at: int, body: Body): Case {
    Stamped(Changes(a, at, body), a, at)
  }

  /** The version counts the change and the time is its own. */
  function Stamped(n: Case, a: Case, at: int): Case {
    n.(version := a.version + 1, lastAt := Some(at))
  }

  /** What the command changes, body by body. */
  function Changes(a: Case, at: int, body: Body): Case {
    match body
    case ObserveFailure(_, asked) =>
      a.(state := Observing, startedAt := Some(at), deadline := Some(Later(at + a.window, asked)))
    case ReconcileTruth(target, _) => a.(truth := target)
    case UpdateIncident(target, _) => a.(incident := target)
    case MarkReady => a.(state := Assessing)
    case WaitFor(_) => a.(state := Waiting)
    case Wake => a.(state := Assessing)
    case RequestApproval(p, _) =>
      a.(state := ApprovalRequired, decisionVersion := p.decisionVersion, actionKey := Some(p.ActionKey()),
         proposalId := Some(p.proposalId))
    case AuthorizeAction(p, _) =>
      a.(state := ActionQueued, decisionVersion := p.decisionVersion, actionKey := Some(p.ActionKey()),
         proposalId := Some(p.proposalId))
    case DecideInternally(p, _) =>
      a.(decisionVersion := p.decisionVersion,
         state := if p.actionType == Wait then Waiting else if p.actionType == Escalate then Escalated
                  else SuppressedPolicy)
    case BeginExecution(_, _) => a.(state := Executing)
    case ActionActive(_, reference) => a.(state := Active, instrument := Some(reference))
    case ActionLost(_, _) => a.(state := ActionUncertain)
    case RequeueAbsent(_) => a.(state := ActionQueued)
    case EscalateLost(_, _) => a.(state := Escalated)
    case FailSafe(_, _) => a.(state := FailedSafe)
    case InstrumentExpired(budgetRemains) =>
      a.(state := if budgetRemains then Assessing else Exhausted, actionKey := None, proposalId := None,
         instrument := None)
    case OriginalPaid(_) =>
      if a.state == Recovered then Doubled(a)
      else if a.state in Terminal() then a.(truth := Paid)
      else a.(state := SuppressedPaid, truth := Paid, actionKey := None, proposalId := None)
    case RecoveryPaid(_) => if a.truth == Paid then Doubled(a) else a.(state := Recovered, truth := Paid)
    case DuplicateCollection(_) => Doubled(a)
  }

  /** The name of the one event it raises. */
  function Kind(a: Case, body: Body): string {
    match body
    case ObserveFailure(_, _) => "RecoveryObservationStarted"
    case ReconcileTruth(_, _) => "CanonicalPaymentTruthChanged"
    case UpdateIncident(_, _) => "IncidentStateChanged"
    case MarkReady => "RecoveryAssessmentStarted"
    case WaitFor(_) => "RecoveryWaitScheduled"
    case Wake => "RecoveryWaitElapsed"
    case RequestApproval(_, _) => "RecoveryApprovalRequested"
    case AuthorizeAction(_, _) => "RecoveryActionAuthorized"
    case DecideInternally(_, _) => "RecoveryInternalDecisionRecorded"
    case BeginExecution(_, _) => "RecoveryActionExecutionStarted"
    case ActionActive(_, _) => "RecoveryInstrumentActivated"
    case ActionLost(_, _) => "RecoveryActionOutcomeUncertain"
    case RequeueAbsent(_) => "RecoveryActionAbsenceProven"
    case EscalateLost(_, _) => "RecoveryActionEscalated"
    case FailSafe(_, _) => "RecoveryActionFailedSafe"
    case InstrumentExpired(_) => "RecoveryInstrumentExpired"
    case OriginalPaid(_) => if a.state == Recovered then "DuplicateCollectionDetected" else "OriginalPaymentSucceeded"
    case RecoveryPaid(_) => if a.truth == Paid then "DuplicateCollectionDetected" else "RecoveryPaymentSucceeded"
    case DuplicateCollection(_) => "DuplicateCollectionDetected"
  }

  /** The outcome the table gives. */
  predicate AsTabled(a: Case, at: int, body: Body, o: Outcome) {
    if AlreadyDone(a, body) then o == Ok(Change(a, None))
    else if Permitted(a, at, body) && Ordered(a, at) then
      o == Ok(Change(After(a, at, body), Some(Event(Kind(a, body), a.caseId, a.version + 1, at))))
    else o.Err?
  }

  // ---- Command by command ----

  /** A change lands exactly in order of time, whenever it keeps the case well formed. */
  lemma ChangeLands(a: Case, at: int, kind: string, next: Case)
    requires Ordered(a, at) ==> Stamped(next, a, at).Valid()
    ensures Changed(a, at, kind, next)
         == if Ordered(a, at) then Ok(Change(Stamped(next, a, at), Some(Event(kind, a.caseId, a.version + 1, at))))
            else Err(InvalidValue)
  {
    hide Case.Valid;
  }

  /** A workflow step lands exactly from the sources of its target, and assessing only once the deadline is due. */
  lemma WorkflowLands(a: Case, at: int, kind: string, target: RecoveryState, next: Case)
    requires a.state in Sources(target) && Ordered(a, at) ==>
               Stamped(next.(state := target), a, at).Valid()
    ensures var o := Workflow(a, at, kind, target, next);
      if a.state in Sources(target) && (target == Assessing ==> Due(a, at)) && Ordered(a, at) then
        o == Ok(Change(Stamped(next.(state := target), a, at),
                       Some(Event(kind, a.caseId, a.version + 1, at))))
      else o.Err?
  {
    hide Case.Valid, Sources, Changed;
    MovesExactly(a.state, target);
    if a.state in Sources(target) { ChangeLands(a, at, kind, next.(state := target)); }
  }

  lemma ObserveTabled(a: Case, at: int, eventId: string, asked: Option<int>)
    requires a.Valid()
    ensures AsTabled(a, at, ObserveFailure(eventId, asked), Observe(a, at, eventId, asked))
  {
    hide Judged, ActionProposal.ActionKey, IsApprovalReason, IsIdentifier, Changed;
    MovesExactly(a.state, Observing);
    ChangeLands(a, at, "RecoveryObservationStarted",
                a.(state := Observing, startedAt := Some(at), deadline := Some(Later(at + a.window, asked))));
  }

  lemma ReconcileTabled(a: Case, at: int, target: PaymentState, evidence: string)
    requires a.Valid()
    ensures AsTabled(a, at, ReconcileTruth(target, evidence), Reconcile(a, at, target, evidence))
  {
    hide Judged, ActionProposal.ActionKey, IsApprovalReason, IsIdentifier, Changed;
    TruthRises(a.truth, target);
    ChangeLands(a, at, "CanonicalPaymentTruthChanged", a.(truth := target));
  }

  lemma IncidentTabled(a: Case, at: int, target: IncidentState, evidence: string)
    requires a.Valid()
    ensures AsTabled(a, at, UpdateIncident(target, evidence), NoteIncident(a, at, target, evidence))
  {
    hide Judged, ActionProposal.ActionKey, IsApprovalReason, IsIdentifier, Changed;
    IncidentTurns(a.incident, target);
    ChangeLands(a, at, "IncidentStateChanged", a.(incident := target));
  }

  /** A started case stays well formed under any change of state, truth and well-formed references. */
  lemma StaysValid(a: Case, at: int, next: Case)
    requires a.Valid() && a.state != Dormant && next.state != Dormant && Ordered(a, at)
    requires next == a.(state := next.state, truth := next.truth, decisionVersion := next.decisionVersion,
                        actionKey := next.actionKey, proposalId := next.proposalId, instrument := next.instrument)
    requires 0 <= next.decisionVersion <= a.version + 1
    requires next.actionKey.Some? ==> IsIdentifier(next.actionKey.value) && "act_" <= next.actionKey.value
    requires next.proposalId.Some? ==> IsIdentifier(next.proposalId.value)
    requires next.instrument.Some? ==> IsIdentifier(next.instrument.value)
    ensures Stamped(next, a, at).Valid()
  {
    hide IsIdentifier;
  }

  /** Moving only the state of a started case. */
  lemma StateLands(a: Case, at: int, kind: string, target: RecoveryState)
    requires a.Valid() && target != Dormant && target != Observing
    ensures var o := Workflow(a, at, kind, target, a);
      if a.state in Sources(target) && (target == Assessing ==> Due(a, at)) && Ordered(a, at) then
        o == Ok(Change(Stamped(a.(state := target), a, at),
                       Some(Event(kind, a.caseId, a.version + 1, at))))
      else o.Err?
  {
    hide Sources, Workflow, IsIdentifier;
    NoneFromDormant(a.state, target);
    if a.state in Sources(target) && Ordered(a, at) { StaysValid(a, at, a.(state := target)); }
    WorkflowLands(a, at, kind, target, a);
  }

  lemma NoneFromDormant(s: RecoveryState, t: RecoveryState)
    ensures s == Dormant && s in Sources(t) ==> t == Dormant || t == Observing
  {}

  lemma ScheduleTabled(a: Case, at: int, reason: string)
    requires a.Valid()
    ensures AsTabled(a, at, MarkReady, Ready(a, at, "RecoveryAssessmentStarted"))
    ensures AsTabled(a, at, Wake, Ready(a, at, "RecoveryWaitElapsed"))
    ensures AsTabled(a, at, WaitFor(reason), Delay(a, at, reason))
  {
    hide Stamped, Judged, ActionProposal.ActionKey, IsApprovalReason, Sources, Workflow, Case.Valid, IsIdentifier;
    MovesExactly(a.state, Assessing);
    StateLands(a, at, "RecoveryAssessmentStarted", Assessing);
    StateLands(a, at, "RecoveryWaitElapsed", Assessing);
    StateLands(a, at, "RecoveryWaitScheduled", Waiting);
  }

  lemma LossTabled(a: Case, at: int, key: string, code: string)
    requires a.Valid()
    ensures AsTabled(a, at, ActionLost(key, code),
                     ActionStep(a, at, "RecoveryActionOutcomeUncertain", key, code, ActionUncertain))
    ensures AsTabled(a, at, RequeueAbsent(key), Requeue(a, at, key))
  {
    hide Stamped, Judged, ActionProposal.ActionKey, IsApprovalReason, Sources, Workflow, Case.Valid, IsIdentifier;
    StateLands(a, at, "RecoveryActionOutcomeUncertain", ActionUncertain);
    StateLands(a, at, "RecoveryActionAbsenceProven", ActionQueued);
  }

  lemma EndTabled(a: Case, at: int, key: string, code: string)
    requires a.Valid()
    ensures AsTabled(a, at, EscalateLost(key, code), ActionStep(a, at, "RecoveryActionEscalated", key, code, Escalated))
    ensures AsTabled(a, at, FailSafe(key, code), ActionStep(a, at, "RecoveryActionFailedSafe", key, code, FailedSafe))
  {
    hide Stamped, Judged, ActionProposal.ActionKey, IsApprovalReason, Sources, Workflow, Case.Valid, IsIdentifier;
    StateLands(a, at, "RecoveryActionEscalated", Escalated);
    StateLands(a, at, "RecoveryActionFailedSafe", FailedSafe);
  }

  /** A workflow step that also rewrites references of a started case. */
  lemma RewriteLands(a: Case, at: int, kind: string, target: RecoveryState, next: Case)
    requires a.Valid() && target != Dormant && target != Observing
    requires next == a.(decisionVersion := next.decisionVersion, actionKey := next.actionKey,
                        proposalId := next.proposalId, instrument := next.instrument)
    requires 0 <= next.decisionVersion <= a.version + 1
    requires next.actionKey.Some? ==> IsIdentifier(next.actionKey.value) && "act_" <= next.actionKey.value
    requires next.proposalId.Some? ==> IsIdentifier(next.proposalId.value)
    requires next.instrument.Some? ==> IsIdentifier(next.instrument.value)
    ensures var o := Workflow(a, at, kind, target, next);
      if a.state in Sources(target) && (target == Assessing ==> Due(a, at)) && Ordered(a, at) then
        o == Ok(Change(Stamped(next.(state := target), a, at),
                       Some(Event(kind, a.caseId, a.version + 1, at))))
      else o.Err?
  {
    hide Sources, Workflow, IsIdentifier, Case.Valid;
    NoneFromDormant(a.state, target);
    if a.state in Sources(target) && Ordered(a, at) { StaysValid(a, at, next.(state := target)); }
    WorkflowLands(a, at, kind, target, next);
  }

  lemma References(a: Case)
    requires a.Valid()
    ensures 0 <= a.decisionVersion <= a.version
    ensures a.actionKey.Some? ==> IsIdentifier(a.actionKey.value) && "act_" <= a.actionKey.value
    ensures a.proposalId.Some? ==> IsIdentifier(a.proposalId.value)
    ensures a.instrument.Some? ==> IsIdentifier(a.instrument.value)
  {
    hide IsIdentifier;
  }

  lemma ExpireTabled(a: Case, at: int, budgetRemains: bool)
    requires a.Valid()
    ensures AsTabled(a, at, InstrumentExpired(budgetRemains), Expire(a, at, budgetRemains))
  {
    hide Stamped, Judged, ActionProposal.ActionKey, IsApprovalReason, Sources, Workflow, Case.Valid, IsIdentifier;
    References(a);
    RewriteLands(a, at, "RecoveryInstrumentExpired", if budgetRemains then Assessing else Exhausted,
                 a.(actionKey := None, proposalId := None, instrument := None));
  }

  lemma ActivateTabled(a: Case, at: int, key: string, reference: string)
    requires a.Valid()
    ensures AsTabled(a, at, ActionActive(key, reference), Activate(a, at, key, reference))
  {
    hide Stamped, Judged, ActionProposal.ActionKey, IsApprovalReason, Sources, Workflow, Case.Valid, IsIdentifier;
    References(a);
    if IsIdentifier(reference) {
      RewriteLands(a, at, "RecoveryInstrumentActivated", Active, a.(instrument := Some(reference)));
    }
  }

  // ---- Decisions ----

  lemma BindingIsJudged(a: Case, p: ActionProposal, d: GateDecision, next: bool, stage: Stage, allowed: bool)
    ensures var decision := a.decisionVersion + (if next then 1 else 0);
      ProposalBound(a, p, next).Ok? && GateBound(a, p, d, stage, allowed).Ok?
      <==> Judged(a, p, d, stage, decision) && (d.reasons == [] <==> allowed)
  {
    hide ActionProposal.ActionKey, ActionProposal.ProposalDigest;
  }

  lemma PendingLands(a: Case, at: int, kind: string, target: RecoveryState, p: ActionProposal)
    requires a.Valid() && target != Dormant && target != Observing && target != Assessing
    requires 0 <= p.decisionVersion <= a.version + 1
    ensures var o := Workflow(a, at, kind, target, Pending(a, p));
      if a.state in Sources(target) && Ordered(a, at) && IsIdentifier(p.proposalId) then
        o == Ok(Change(Stamped(Pending(a, p).(state := target), a, at),
                       Some(Event(kind, a.caseId, a.version + 1, at))))
      else o.Err?
  {
    hide Sources, Workflow, IsIdentifier, Case.Valid, ActionProposal.ActionKey;
    References(a);
    CaseRuns.ActionKeyNames(p);
    if IsIdentifier(p.proposalId) {
      RewriteLands(a, at, kind, target, Pending(a, p));
    } else {
      UnnamedFails(a, at, kind, target, Pending(a, p));
    }
  }

  lemma UnnamedFails(a: Case, at: int, kind: string, target: RecoveryState, next: Case)
    requires next.proposalId.Some? && !IsIdentifier(next.proposalId.value)
    ensures Workflow(a, at, kind, target, next).Err?
  {
    hide IsIdentifier;
  }

  lemma AskTabled(a: Case, at: int, p: ActionProposal, d: GateDecision)
    requires a.Valid()
    ensures AsTabled(a, at, RequestApproval(p, d), AskApproval(a, at, p, d))
  {
    hide Stamped, Workflow, Case.Valid, IsIdentifier, ProposalBound, GateBound, Judged, ActionProposal.ActionKey,
         IsApprovalReason;
    References(a);
    BindingIsJudged(a, p, d, true, Policy, false);
    JudgedVersion(a, p, d, Policy, a.decisionVersion + 1);
    if p.decisionVersion == a.decisionVersion + 1 {
      PendingLands(a, at, "RecoveryApprovalRequested", ApprovalRequired, p);
    }
  }

  lemma JudgedVersion(a: Case, p: ActionProposal, d: GateDecision, stage: Stage, decision: int)
    ensures Judged(a, p, d, stage, decision) ==> p.decisionVersion == decision
  {}

  lemma AuthorizeTabled(a: Case, at: int, p: ActionProposal, d: GateDecision)
    requires a.Valid()
    ensures AsTabled(a, at, AuthorizeAction(p, d), Aggregate.Authorize(a, at, p, d))
  {
    hide Stamped, IsApprovalReason, Workflow, Case.Valid, IsIdentifier, ProposalBound, GateBound, Judged,
         ActionProposal.ActionKey;
    References(a);
    BindingIsJudged(a, p, d, a.state == Assessing, Policy, true);
    JudgedVersion(a, p, d, Policy, a.decisionVersion + 1);
    JudgedVersion(a, p, d, Policy, a.decisionVersion);
    if 0 <= p.decisionVersion <= a.version + 1 { PendingLands(a, at, "RecoveryActionAuthorized", ActionQueued, p); }
  }

  lemma BeginTabled(a: Case, at: int, p: ActionProposal, d: GateDecision)
    requires a.Valid()
    ensures AsTabled(a, at, BeginExecution(p, d), Begin(a, at, p, d))
  {
    hide Stamped, IsApprovalReason, Workflow, Case.Valid, IsIdentifier, ProposalBound, GateBound, Judged,
         ActionProposal.ActionKey;
    BindingIsJudged(a, p, d, false, Effect, true);
    StateLands(a, at, "RecoveryActionExecutionStarted", Executing);
  }

  /** Where an internal decision leads. */
  function InternalTarget(p: ActionProposal): RecoveryState {
    if p.actionType == Wait then Waiting else if p.actionType == Escalate then Escalated else SuppressedPolicy
  }

  lemma InternalLands(a: Case, at: int, p: ActionProposal, d: GateDecision)
    requires a.Valid() && IsInternal(p.actionType)
    ensures var o, next := Internal(a, at, p, d), a.(decisionVersion := p.decisionVersion);
      if && Judged(a, p, d, Policy, a.decisionVersion + 1) && d.reasons == [] && Ordered(a, at)
         && a.state in Sources(InternalTarget(p))
      then o == Ok(Change(Stamped(next.(state := InternalTarget(p)), a, at),
                          Some(Event("RecoveryInternalDecisionRecorded", a.caseId, a.version + 1, at))))
      else o.Err?
  {
    hide Workflow, Case.Valid, IsIdentifier, ProposalBound, GateBound, Judged, Sources, Stamped;
    References(a);
    BindingIsJudged(a, p, d, true, Policy, true);
    JudgedVersion(a, p, d, Policy, a.decisionVersion + 1);
    if p.decisionVersion == a.decisionVersion + 1 {
      RewriteLands(a, at, "RecoveryInternalDecisionRecorded", InternalTarget(p),
                   a.(decisionVersion := p.decisionVersion));
    }
  }

  lemma InternalTabled(a: Case, at: int, p: ActionProposal, d: GateDecision)
    requires a.Valid()
    ensures AsTabled(a, at, DecideInternally(p, d), Internal(a, at, p, d))
  {
    hide Stamped, IsApprovalReason, ActionProposal.ActionKey, Workflow, Case.Valid, IsIdentifier, ProposalBound,
         GateBound, Judged, Sources;
    if IsInternal(p.actionType) {
      hide Internal;
      InternalLands(a, at, p, d);
    }
  }

  // ---- Money ----

  lemma PaidLands(a: Case, at: int, kind: string, next: Case)
    requires a.Valid() && a.state != Dormant && next.state != Dormant
    requires next == a.(state := next.state, truth := next.truth, actionKey := next.actionKey,
                        proposalId := next.proposalId)
    requires next.actionKey == a.actionKey || next.actionKey == None
    requires next.proposalId == a.proposalId || next.proposalId == None
    ensures Changed(a, at, kind, next)
         == if Ordered(a, at) then Ok(Change(Stamped(next, a, at), Some(Event(kind, a.caseId, a.version + 1, at))))
            else Err(InvalidValue)
  {
    hide IsIdentifier, Case.Valid, Changed;
    References(a);
    if Ordered(a, at) { StaysValid(a, at, next); }
    ChangeLands(a, at, kind, next);
  }

  lemma DuplicateLands(a: Case, at: int, evidence: string)
    requires a.Valid() && IsIdentifier(evidence)
    ensures var o := Duplicate(a, at, evidence);
      if a.state == Dormant || a.truth == Exception then o.Err?
      else if a.state == DuplicateReview && a.truth == Overpaid then o == Ok(Change(a, None))
      else if Ordered(a, at) then
        o == Ok(Change(Stamped(Doubled(a), a, at),
                       Some(Event("DuplicateCollectionDetected", a.caseId, a.version + 1, at))))
      else o.Err?
  {
    hide TruthMoves, Moves, Stamped, IsIdentifier, Case.Valid, Changed, Sources;
    TruthRises(a.truth, Overpaid);
    DuplicateSources(a.state);
    MovesExactly(a.state, DuplicateReview);
    if a.state != Dormant { PaidLands(a, at, "DuplicateCollectionDetected", Doubled(a)); }
  }

  lemma DuplicateTabled(a: Case, at: int, evidence: string)
    requires a.Valid()
    ensures AsTabled(a, at, DuplicateCollection(evidence), Duplicate(a, at, evidence))
  {
    hide Doubled, Stamped, Judged, ActionProposal.ActionKey, IsApprovalReason, IsIdentifier, Case.Valid, Changed,
         Sources, TruthMoves, Moves;
    if IsIdentifier(evidence) {
      hide Duplicate;
      DuplicateLands(a, at, evidence);
    }
  }

  lemma DuplicateSources(s: RecoveryState)
    ensures s in Sources(DuplicateReview) <==> s != Dormant
    ensures s in Sources(SuppressedPaid) <==> s != Dormant && (s !in Terminal() || s == SuppressedPaid)
    ensures CollectionTerminal(s) <==> s in Terminal()
    ensures Dormant !in Terminal() && Recovered in Terminal() && DuplicateReview in Terminal()
  {}

  lemma OriginalClosed(a: Case, at: int, evidence: string)
    requires a.Valid() && IsIdentifier(evidence) && a.state in Terminal() && a.state != Recovered
    ensures AsTabled(a, at, OriginalPaid(evidence), PayOriginal(a, at, evidence))
  {
    hide TruthMoves, Moves, IsIdentifier, Case.Valid, Changed, Sources, Duplicate, Terminal, CollectionTerminal,
         Stamped, Judged, ActionProposal.ActionKey, IsApprovalReason;
    TruthRises(a.truth, Paid);
    DuplicateSources(a.state);
    PaidLands(a, at, "OriginalPaymentSucceeded", a.(truth := Paid));
  }

  lemma OriginalOpen(a: Case, at: int, evidence: string)
    requires a.Valid() && IsIdentifier(evidence) && a.state !in Terminal() && a.state != Dormant
    ensures AsTabled(a, at, OriginalPaid(evidence), PayOriginal(a, at, evidence))
  {
    hide TruthMoves, Moves, IsIdentifier, Case.Valid, Changed, Sources, Duplicate, Terminal, CollectionTerminal,
         Stamped, Judged, ActionProposal.ActionKey, IsApprovalReason;
    TruthRises(a.truth, Paid);
    DuplicateSources(a.state);
    MovesExactly(a.state, SuppressedPaid);
    PaidLands(a, at, "OriginalPaymentSucceeded",
              a.(truth := Paid, state := SuppressedPaid, actionKey := None, proposalId := None));
  }

  lemma OriginalTabled(a: Case, at: int, evidence: string)
    requires a.Valid()
    ensures AsTabled(a, at, OriginalPaid(evidence), PayOriginal(a, at, evidence))
  {
    hide IsIdentifier, Case.Valid, Changed, Sources, Duplicate, Doubled, Terminal, CollectionTerminal, Stamped,
         Judged, ActionProposal.ActionKey, IsApprovalReason;
    DuplicateSources(a.state);
    if IsIdentifier(evidence) && a.state != Dormant {
      if a.state == Recovered {
        DuplicateLands(a, at, evidence);
      } else if a.state in Terminal() {
        hide AsTabled, PayOriginal;
        OriginalClosed(a, at, evidence);
      } else {
        hide AsTabled, PayOriginal;
        OriginalOpen(a, at, evidence);
      }
    }
  }

  lemma RecoveryTabled(a: Case, at: int, evidence: string)
    requires a.Valid()
    ensures AsTabled(a, at, RecoveryPaid(evidence), PayRecovery(a, at, evidence))
  {
    hide IsIdentifier, Case.Valid, Changed, Sources, Duplicate, Doubled, Stamped, Judged, ActionProposal.ActionKey,
         IsApprovalReason, TruthMoves;
    TruthRises(a.truth, Paid);
    if IsIdentifier(evidence) && a.state == Active {
      if a.truth == Paid {
        DuplicateLands(a, at, evidence);
      } else {
        PaidLands(a, at, "RecoveryPaymentSucceeded", a.(truth := Paid, state := Recovered));
      }
    }
  }

  // ---- The whole table ----

  lemma BodyTabled(a: Case, at: int, body: Body)
    requires a.Valid()
    ensures AsTabled(a, at, body, Execute(a, at, body))
  {
    hide Observe, Reconcile, NoteIncident, Ready, Delay, AskApproval, Aggregate.Authorize, Internal, Begin, Activate,
         ActionStep, Requeue, Expire, PayOriginal, PayRecovery, Duplicate, AsTabled;
    match body
    case ObserveFailure(eventId, asked) => ObserveTabled(a, at, eventId, asked);
    case ReconcileTruth(target, evidence) => ReconcileTabled(a, at, target, evidence);
    case UpdateIncident(target, evidence) => IncidentTabled(a, at, target, evidence);
    case MarkReady => ScheduleTabled(a, at, "");
    case WaitFor(reason) => ScheduleTabled(a, at, reason);
    case Wake => ScheduleTabled(a, at, "");
    case RequestApproval(p, d) => AskTabled(a, at, p, d);
    case AuthorizeAction(p, d) => AuthorizeTabled(a, at, p, d);
    case DecideInternally(p, d) => InternalTabled(a, at, p, d);
    case BeginExecution(p, d) => BeginTabled(a, at, p, d);
    case ActionActive(key, reference) => ActivateTabled(a, at, key, reference);
    case ActionLost(key, code) => LossTabled(a, at, key, code);
    case RequeueAbsent(key) => LossTabled(a, at, key, "");
    case EscalateLost(key, reason) => EndTabled(a, at, key, reason);
    case FailSafe(key, code) => EndTabled(a, at, key, code);
    case InstrumentExpired(budgetRemains) => ExpireTabled(a, at, budgetRemains);
    case OriginalPaid(evidence) => OriginalTabled(a, at, evidence);
    case RecoveryPaid(evidence) => RecoveryTabled(a, at, evidence);
    case DuplicateCollection(evidence) => DuplicateTabled(a, at, evidence);
  }

  /**
   A valid case accepts a command exactly when it names the current version and is permitted in
   order of time, or has nothing left to do; the case and event it leaves are those of the table.
   */
  lemma CommandTable(a: Case, c: Command)
    requires a.Valid()
    ensures c.expectedVersion == a.version ==> AsTabled(a, c.at, c.body, Apply(a, c))
    ensures c.expectedVersion != a.version ==> Apply(a, c).Err?
  {
    hide Execute, AsTabled, IsIdentifier;
    BodyTabled(a, c.at, c.body);
  }
}
