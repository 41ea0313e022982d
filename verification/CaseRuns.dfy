/** What every run of commands keeps, from a fresh case on. */
module CaseRuns {
  import opened Outcomes
  import opened Text
  import opened Calendar
  import opened Json
  import opened Hashing
  import opened States
  import opened Actions
  import opened Gate
  import opened Aggregate
  import ProposalCodec

  /** A refused command leaves the stored case as it was. */
  function Step(a: Case, c: Command): Case {
    match Apply(a, c)
    case Ok(change) => change.after
    case Err(_) => a
  }

  function Run(a: Case, commands: seq<Command>): Case {
    if commands == [] then a else Step(Run(a, commands[..|commands| - 1]), commands[|commands| - 1])
  }

  /** The case before the command at `i`. */
  function Before(a: Case, commands: seq<Command>, i: nat): Case
    requires i <= |commands|
  {
    Run(a, commands[..i])
  }

  /** Truth and workflow agree: money received closes collection. */
  predicate Sound(a: Case) {
    && a.Valid()
    && (a.truth.Paid? || a.truth.Overpaid? ==> a.Closed())
    && (a.truth.Overpaid? ==> a.state.DuplicateReview?)
    && (a.state.DuplicateReview? ==> a.truth.Overpaid? || a.truth.Exception?)
    && (a.state.Recovered? || a.state.SuppressedPaid? ==> a.truth.Paid? || a.truth.Exception?)
  }

  /** The only edges one accepted command takes. */
  predicate Edge(a: Case, b: Case) {
    && (b.state == a.state || RecoveryTransition(a.state, b.state).Ok?)
    && (b.truth == a.truth || PaymentTransition(a.truth, b.truth).Ok?)
    && (b.incident == a.incident || IncidentTransition(a.incident, b.incident).Ok?)
    && (b == a || b.version == a.version + 1)
    && a.decisionVersion <= b.decisionVersion
    && (a.lastAt.Some? ==> b.lastAt.Some? && a.lastAt.value <= b.lastAt.value)
    && b.caseId == a.caseId && b.merchantId == a.merchantId && b.window == a.window
  }

  /**
   An accepted command takes an edge, keeps soundness, raises one event exactly
   when it changes something, and enters EXECUTING only where `begins` says so.
   */
  predicate Lawful(a: Case, at: int, o: Outcome, begins: bool) {
    o.Ok? ==>
      && (o.value.after.state.Executing? ==> a.state.Executing? || begins)
      && Edge(a, o.value.after)
      && (Sound(a) ==> Sound(o.value.after))
      && (o.value.event.None? ==> o.value.after == a)
      && (o.value.event.Some? ==>
            && o.value.event.value.version == o.value.after.version == a.version + 1
            && o.value.after.lastAt == Some(o.value.event.value.occurredAt) == Some(at)
            && o.value.after.Valid())
  }

  /** The same case up to the pending action and the decision counter. */
  predicate Repended(a: Case, next: Case) {
    && next == a.(actionKey := next.actionKey, proposalId := next.proposalId, instrument := next.instrument,
                  decisionVersion := next.decisionVersion)
    && next.decisionVersion >= a.decisionVersion
  }

  lemma WorkflowLawful(a: Case, at: int, kind: string, target: RecoveryState, next: Case)
    requires Repended(a, next) && !target.Recovered? && !target.SuppressedPaid? && !target.DuplicateReview?
    ensures Lawful(a, at, Workflow(a, at, kind, target, next), target.Executing?)
  {
    hide Case.Valid;
  }

  lemma ObserveLawful(a: Case, at: int, eventId: string, extendUntil: Option<int>)
    ensures Lawful(a, at, Observe(a, at, eventId, extendUntil), false)
  {
    hide Case.Valid, IsIdentifier;
  }

  lemma ReconcileLawful(a: Case, at: int, target: PaymentState, evidence: string)
    ensures Lawful(a, at, Reconcile(a, at, target, evidence), false)
  {
    hide Case.Valid, IsIdentifier;
  }

  lemma IncidentLawful(a: Case, at: int, target: IncidentState, evidence: string)
    ensures Lawful(a, at, NoteIncident(a, at, target, evidence), false)
  {
    hide Case.Valid, IsIdentifier;
  }

  lemma DuplicateLawful(a: Case, at: int, evidence: string)
    ensures Lawful(a, at, Duplicate(a, at, evidence), false)
  {
    hide Case.Valid, IsIdentifier;
  }

  lemma PayOriginalLawful(a: Case, at: int, evidence: string)
    ensures Lawful(a, at, PayOriginal(a, at, evidence), false)
  {
    hide Case.Valid, IsIdentifier, Duplicate;
    DuplicateLawful(a, at, evidence);
  }

  lemma PayRecoveryLawful(a: Case, at: int, evidence: string)
    ensures Lawful(a, at, PayRecovery(a, at, evidence), false)
  {
    hide Case.Valid, IsIdentifier, Duplicate;
    DuplicateLawful(a, at, evidence);
  }

  lemma SameLawful(a: Case, at: int)
    ensures Lawful(a, at, Same(a), false)
  {}

  lemma ScheduleLawful(a: Case, at: int, body: Body)
    requires body.MarkReady? || body.WaitFor? || body.Wake?
    ensures Lawful(a, at, Execute(a, at, body), false)
  {
    hide IsIdentifier, Workflow, Moves, Lawful;
    WorkflowLawful(a, at, "RecoveryAssessmentStarted", Assessing, a);
    WorkflowLawful(a, at, "RecoveryWaitScheduled", Waiting, a);
    WorkflowLawful(a, at, "RecoveryWaitElapsed", Assessing, a);
    RefusalsLawful(a, at);
  }

  lemma RefusalsLawful(a: Case, at: int)
    ensures forall o: Outcome, begins: bool | o.Err? :: Lawful(a, at, o, begins)
  {}

  lemma DecisionLawful(a: Case, at: int, body: Body, p: ActionProposal, d: GateDecision)
    requires body == RequestApproval(p, d) || body == AuthorizeAction(p, d) || body == BeginExecution(p, d)
    ensures Lawful(a, at, Execute(a, at, body), body.BeginExecution?)
  {
    hide Workflow, GateBound, OnlyApprovalReasons, ActionProposal.ActionKey, Lawful, ObservationElapsed;
    RefusalsLawful(a, at);
    WorkflowLawful(a, at, "RecoveryActionExecutionStarted", Executing, a);
    if p.decisionVersion >= a.decisionVersion {
      WorkflowLawful(a, at, "RecoveryApprovalRequested", ApprovalRequired, Pending(a, p));
      WorkflowLawful(a, at, "RecoveryActionAuthorized", ActionQueued, Pending(a, p));
    }
  }

  lemma InternalLawful(a: Case, at: int, p: ActionProposal, d: GateDecision)
    ensures Lawful(a, at, Internal(a, at, p, d), false)
  {
    hide Workflow, GateBound, Lawful;
    RefusalsLawful(a, at);
    var next := a.(decisionVersion := p.decisionVersion);
    if p.decisionVersion >= a.decisionVersion {
      WorkflowLawful(a, at, "RecoveryInternalDecisionRecorded", Waiting, next);
      WorkflowLawful(a, at, "RecoveryInternalDecisionRecorded", Escalated, next);
      WorkflowLawful(a, at, "RecoveryInternalDecisionRecorded", SuppressedPolicy, next);
    }
  }

  lemma ActivateLawful(a: Case, at: int, key: string, reference: string)
    ensures Lawful(a, at, Activate(a, at, key, reference), false)
  {
    hide Workflow, IsIdentifier, Lawful;
    RefusalsLawful(a, at);
    SameLawful(a, at);
    WorkflowLawful(a, at, "RecoveryInstrumentActivated", Active, a.(instrument := Some(reference)));
  }

  lemma StepLawful(a: Case, at: int, kind: string, key: string, code: string, target: RecoveryState)
    requires target.ActionUncertain? || target.Escalated? || target.FailedSafe?
    ensures Lawful(a, at, ActionStep(a, at, kind, key, code, target), false)
  {
    hide Workflow, IsIdentifier, Lawful;
    RefusalsLawful(a, at);
    WorkflowLawful(a, at, kind, target, a);
  }

  lemma RequeueLawful(a: Case, at: int, key: string, budgetRemains: bool)
    ensures Lawful(a, at, Requeue(a, at, key), false) && Lawful(a, at, Expire(a, at, budgetRemains), false)
  {
    hide Workflow, Lawful;
    RefusalsLawful(a, at);
    WorkflowLawful(a, at, "RecoveryActionAbsenceProven", ActionQueued, a);
    WorkflowLawful(a, at, "RecoveryInstrumentExpired", if budgetRemains then Assessing else Exhausted,
                   a.(actionKey := None, proposalId := None, instrument := None));
  }

  lemma CommandLawful(a: Case, at: int, body: Body)
    ensures Lawful(a, at, Execute(a, at, body), body.BeginExecution?)
  {
    hide Observe, Reconcile, NoteIncident, Ready, Delay, AskApproval, Authorize, Internal, Begin, Activate,
         ActionStep, Requeue, Expire, PayOriginal, PayRecovery, Duplicate, Lawful;
    match body
    case ObserveFailure(eventId, extendUntil) => ObserveLawful(a, at, eventId, extendUntil);
    case ReconcileTruth(target, evidence) => ReconcileLawful(a, at, target, evidence);
    case UpdateIncident(target, evidence) => IncidentLawful(a, at, target, evidence);
    case MarkReady => ScheduleLawful(a, at, body);
    case WaitFor(_) => ScheduleLawful(a, at, body);
    case Wake => ScheduleLawful(a, at, body);
    case RequestApproval(p, d) => DecisionLawful(a, at, body, p, d);
    case AuthorizeAction(p, d) => DecisionLawful(a, at, body, p, d);
    case DecideInternally(p, d) => InternalLawful(a, at, p, d);
    case BeginExecution(p, d) => DecisionLawful(a, at, body, p, d);
    case ActionActive(key, reference) => ActivateLawful(a, at, key, reference);
    case ActionLost(key, code) => StepLawful(a, at, "RecoveryActionOutcomeUncertain", key, code, ActionUncertain);
    case RequeueAbsent(key) => RequeueLawful(a, at, key, true);
    case EscalateLost(key, reason) => StepLawful(a, at, "RecoveryActionEscalated", key, reason, Escalated);
    case FailSafe(key, code) => StepLawful(a, at, "RecoveryActionFailedSafe", key, code, FailedSafe);
    case InstrumentExpired(budgetRemains) => RequeueLawful(a, at, "", budgetRemains);
    case OriginalPaid(evidence) => PayOriginalLawful(a, at, evidence);
    case RecoveryPaid(evidence) => PayRecoveryLawful(a, at, evidence);
    case DuplicateCollection(evidence) => DuplicateLawful(a, at, evidence);
  }

  // ---- Runs ----

  /** The command changed the case. */
  predicate Accepted(a: Case, c: Command) {
    Apply(a, c).Ok? && Apply(a, c).value.event.Some?
  }

  lemma StepKeeps(a: Case, c: Command)
    requires Sound(a)
    ensures Sound(Step(a, c)) && Edge(a, Step(a, c))
    ensures Step(a, c).version == a.version + (if Accepted(a, c) then 1 else 0)
  {
    hide Execute, Sound, Edge;
    CommandLawful(a, c.at, c.body);
    EdgeReflexive(a);
  }

  lemma EdgeReflexive(a: Case)
    ensures Edge(a, a)
  {}

  /** Money received closes collection in every reachable case. */
  lemma {:induction false} RunSound(a: Case, commands: seq<Command>)
    requires a.Fresh()
    ensures Sound(Run(a, commands))
  {
    hide Step;
    if commands != [] {
      RunSound(a, commands[..|commands| - 1]);
      StepKeeps(Run(a, commands[..|commands| - 1]), commands[|commands| - 1]);
    }
  }

  lemma RunStep(a: Case, commands: seq<Command>, i: nat)
    requires i < |commands|
    ensures Before(a, commands, i + 1) == Step(Before(a, commands, i), commands[i])
  {
    hide Step;
    assert commands[..i + 1][..i] == commands[..i];
  }

  predicate Settled(truth: PaymentState) {
    truth.Paid? || truth.Overpaid? || truth.Exception?
  }

  /** Between two points of a run: version and time ascend, closed stays closed, settled truth stays settled. */
  predicate Onward(a: Case, b: Case) {
    && a.version <= b.version
    && (a.lastAt.Some? ==> b.lastAt.Some? && a.lastAt.value <= b.lastAt.value)
    && (a.Closed() ==> b.state == a.state || b.state.DuplicateReview?)
    && (Settled(a.truth) ==> Settled(b.truth))
  }

  lemma EdgeOnward(a: Case, b: Case, c: Case)
    requires Onward(a, b) && Edge(b, c)
    ensures Onward(a, c)
  {}

  /** A terminal case only ever moves to duplicate review. */
  lemma {:induction false} RunOnward(a: Case, commands: seq<Command>, i: nat, j: nat)
    requires a.Fresh() && i <= j <= |commands|
    ensures Onward(Before(a, commands, i), Before(a, commands, j))
    decreases j - i
  {
    hide Step, Sound, Edge, Onward, Run;
    if i < j {
      RunOnward(a, commands, i, j - 1);
      RunSound(a, commands[..j - 1]);
      RunStep(a, commands, j - 1);
      StepKeeps(Before(a, commands, j - 1), commands[j - 1]);
      EdgeOnward(Before(a, commands, i), Before(a, commands, j - 1), Before(a, commands, j));
    } else {
      OnwardReflexive(Before(a, commands, i));
    }
  }

  lemma OnwardReflexive(a: Case)
    ensures Onward(a, a)
  {}

  // ---- Money always lands ----

  /** The success is already recorded: nothing is left to change. */
  predicate AlreadyRecorded(a: Case) {
    (a.state.DuplicateReview? && a.truth.Overpaid?) || (a.Closed() && !a.state.Recovered? && a.truth.Paid?)
  }

  predicate InOrder(a: Case, at: int) {
    a.lastAt.Some? ==> at >= a.lastAt.value
  }

  /** An original payment is refused only when dormant, when truth is EXCEPTION, or out of time order. */
  lemma OriginalPaidLands(a: Case, commands: seq<Command>, at: int, evidence: string)
    requires a.Fresh() && IsIdentifier(evidence)
    ensures var b := Run(a, commands);
      var o := Apply(b, Command(b.version, at, OriginalPaid(evidence)));
      && (o.Ok? <==> && !b.state.Dormant? && !b.truth.Exception?
                     && (AlreadyRecorded(b) || InOrder(b, at)))
      && (o.Ok? ==> o.value.after.Closed() && (o.value.after.truth.Paid? || o.value.after.truth.Overpaid?))
  {
    RunSound(a, commands);
    OriginalPaidFromSound(Run(a, commands), at, evidence);
  }

  lemma OriginalPaidFromSound(b: Case, at: int, evidence: string)
    requires Sound(b) && IsIdentifier(evidence)
    ensures var o := PayOriginal(b, at, evidence);
      && (o.Ok? <==> && !b.state.Dormant? && !b.truth.Exception?
                     && (AlreadyRecorded(b) || InOrder(b, at)))
      && (o.Ok? ==> o.value.after.Closed() && (o.value.after.truth.Paid? || o.value.after.truth.Overpaid?))
  {
    hide IsIdentifier, Money.Valid;
  }

  // ---- Execution safety ----

  function DecisionOf(body: Body): Option<GateDecision> {
    match body
    case RequestApproval(_, d) => Some(d)
    case AuthorizeAction(_, d) => Some(d)
    case DecideInternally(_, d) => Some(d)
    case BeginExecution(_, d) => Some(d)
    case _ => None
  }

  /** A decision takes effect only at the exact version it was made for. */
  lemma DecisionIsCurrent(a: Case, c: Command, d: GateDecision)
    requires Accepted(a, c) && DecisionOf(c.body) == Some(d)
    ensures d.aggregateVersion == a.version
  {
    hide Workflow, OnlyApprovalReasons, ActionProposal.ActionKey, ActionProposal.ProposalDigest;
  }

  /** No two accepted commands of a run use the same decision. */
  lemma DecisionsUsedOnce(a: Case, commands: seq<Command>, i: nat, j: nat)
    requires a.Fresh() && i < j < |commands|
    requires Accepted(Before(a, commands, i), commands[i]) && Accepted(Before(a, commands, j), commands[j])
    requires DecisionOf(commands[i].body).Some?
    ensures DecisionOf(commands[i].body) != DecisionOf(commands[j].body)
  {
    hide Step, Sound, Edge, Accepted, Run;
    RunSound(a, commands[..i]);
    RunStep(a, commands, i);
    StepKeeps(Before(a, commands, i), commands[i]);
    RunOnward(a, commands, i + 1, j);
    DecisionIsCurrent(Before(a, commands, i), commands[i], DecisionOf(commands[i].body).value);
    if DecisionOf(commands[j].body).Some? {
      DecisionIsCurrent(Before(a, commands, j), commands[j], DecisionOf(commands[j].body).value);
    }
  }

  /** What the case itself demands before it enters EXECUTING. */
  predicate Cleared(a: Case, at: int, p: ActionProposal, d: GateDecision) {
    && GateBinds(a, p, d, Effect, true)
    && a.state.ActionQueued? && a.truth.Unpaid? && a.deadline.Some? && at >= a.deadline.value
    && a.actionKey == Some(p.ActionKey())
    && p.merchantId == a.merchantId && p.caseId == a.caseId && p.decisionVersion == a.decisionVersion
  }

  /** A valid case enters EXECUTING exactly by a cleared begin_execution against its current version, in time order. */
  lemma EntersExecuting(a: Case, c: Command)
    requires a.Valid() && !a.state.Executing?
    ensures Step(a, c).state.Executing? <==>
      && c.body.BeginExecution? && c.expectedVersion == a.version && InOrder(a, c.at)
      && Cleared(a, c.at, c.body.proposal, c.body.decision)
    ensures Step(a, c).state.Executing? ==> Accepted(a, c)
  {
    hide Execute, Case.Valid;
    CommandLawful(a, c.at, c.body);
    ValidVersion(a);
    if c.body.BeginExecution? { BeginExactly(a, c.at, c.body.proposal, c.body.decision); }
  }

  lemma ValidVersion(a: Case)
    requires a.Valid()
    ensures a.version >= 0
  {}

  lemma BeginExactly(a: Case, at: int, p: ActionProposal, d: GateDecision)
    requires a.Valid()
    ensures var o := Execute(a, at, BeginExecution(p, d));
      && (o.Ok? <==> Cleared(a, at, p, d) && InOrder(a, at))
      && (o.Ok? ==> o.value.after.state.Executing? && o.value.event.Some?)
  {
    hide ActionProposal.ActionKey, ActionProposal.ProposalDigest, IsIdentifier, Money.Valid;
  }

  // ---- Where a pending action comes from ----

  /** The collection proposal a command makes the pending one. */
  function Proposed(body: Body): Option<ActionProposal> {
    match body
    case RequestApproval(p, _) => if IsCollection(p.actionType) then Some(p) else None
    case AuthorizeAction(p, _) => if IsCollection(p.actionType) then Some(p) else None
    case _ => None
  }

  predicate Sets(body: Body, key: Option<string>) {
    Proposed(body).Some? && key == Some(Proposed(body).value.ActionKey())
  }

  /** A command keeps the pending key, clears it, or sets it from a collection proposal of its own. */
  predicate KeyKept(a: Case, o: Outcome, body: Body) {
    o.Ok? ==> var key := o.value.after.actionKey; key.None? || key == a.actionKey || Sets(body, key)
  }

  lemma WorkflowKey(a: Case, at: int, kind: string, target: RecoveryState, next: Case, body: Body)
    requires next.actionKey.None? || next.actionKey == a.actionKey || Sets(body, next.actionKey)
    ensures KeyKept(a, Workflow(a, at, kind, target, next), body)
  {
    hide Case.Valid, ActionProposal.ActionKey, Moves;
  }

  /** Approval requests and authorizations set their own proposal's key, and only for a collection action. */
  lemma ProposalKey(a: Case, at: int, body: Body, p: ActionProposal, d: GateDecision)
    requires body == RequestApproval(p, d) || body == AuthorizeAction(p, d)
    ensures KeyKept(a, Execute(a, at, body), body)
  {
    hide Workflow, GateBound, OnlyApprovalReasons, ActionProposal.ActionKey, ObservationElapsed, ProposalBound, KeyKept,
         Sets;
    RefusalsKeep(a, body);
    if IsCollection(p.actionType) {
      SetsOwn(body, p);
      WorkflowKey(a, at, "RecoveryApprovalRequested", ApprovalRequired, Pending(a, p), body);
      WorkflowKey(a, at, "RecoveryActionAuthorized", ActionQueued, Pending(a, p), body);
    }
  }

  lemma SetsOwn(body: Body, p: ActionProposal)
    requires Proposed(body) == Some(p)
    ensures Sets(body, Some(p.ActionKey()))
  {}

  lemma RefusalsKeep(a: Case, body: Body)
    ensures forall o: Outcome | o.Err? :: KeyKept(a, o, body)
  {}

  /** Payments and what is observed only ever clear the pending key. */
  lemma OtherKey(a: Case, at: int, body: Body)
    requires body.ObserveFailure? || body.ReconcileTruth? || body.UpdateIncident? || body.OriginalPaid?
             || body.RecoveryPaid? || body.DuplicateCollection?
    ensures KeyKept(a, Execute(a, at, body), body)
  {
    hide Case.Valid, IsIdentifier, Moves, TruthMoves, IncidentMoves, Sets;
  }

  lemma WorkflowsKeepKey(a: Case, at: int, body: Body)
    ensures forall kind, target, next: Case | next.actionKey.None? || next.actionKey == a.actionKey ::
              KeyKept(a, Workflow(a, at, kind, target, next), body)
  {
    hide Workflow, KeyKept;
    forall kind, target, next: Case | next.actionKey.None? || next.actionKey == a.actionKey
      ensures KeyKept(a, Workflow(a, at, kind, target, next), body)
    {
      WorkflowKey(a, at, kind, target, next, body);
    }
  }

  /** Every other workflow step leaves the pending key as it is or clears it. */
  lemma ScheduleKey(a: Case, at: int, body: Body)
    requires body.MarkReady? || body.WaitFor? || body.Wake? || body.DecideInternally? || body.BeginExecution?
    ensures KeyKept(a, Execute(a, at, body), body)
  {
    hide IsIdentifier, Moves, Workflow, GateBound, ProposalBound, ObservationElapsed, ActionProposal.ActionKey, KeyKept;
    WorkflowsKeepKey(a, at, body);
    RefusalsKeep(a, body);
    SameKey(a, body);
  }

  lemma ActionStepKey(a: Case, at: int, body: Body)
    requires body.ActionActive? || body.ActionLost? || body.RequeueAbsent? || body.EscalateLost? || body.FailSafe?
             || body.InstrumentExpired?
    ensures KeyKept(a, Execute(a, at, body), body)
  {
    hide IsIdentifier, Moves, Workflow, GateBound, ProposalBound, ObservationElapsed, ActionProposal.ActionKey, KeyKept;
    WorkflowsKeepKey(a, at, body);
    RefusalsKeep(a, body);
    SameKey(a, body);
  }

  lemma SameKey(a: Case, body: Body)
    ensures KeyKept(a, Same(a), body)
  {}

  lemma ExecuteKey(a: Case, at: int, body: Body)
    ensures KeyKept(a, Execute(a, at, body), body)
  {
    hide Execute, KeyKept;
    match body
    case RequestApproval(p, d) => ProposalKey(a, at, body, p, d);
    case AuthorizeAction(p, d) => ProposalKey(a, at, body, p, d);
    case ObserveFailure(_, _) => OtherKey(a, at, body);
    case ReconcileTruth(_, _) => OtherKey(a, at, body);
    case UpdateIncident(_, _) => OtherKey(a, at, body);
    case OriginalPaid(_) => OtherKey(a, at, body);
    case RecoveryPaid(_) => OtherKey(a, at, body);
    case DuplicateCollection(_) => OtherKey(a, at, body);
    case MarkReady => ScheduleKey(a, at, body);
    case WaitFor(_) => ScheduleKey(a, at, body);
    case Wake => ScheduleKey(a, at, body);
    case DecideInternally(_, _) => ScheduleKey(a, at, body);
    case BeginExecution(_, _) => ScheduleKey(a, at, body);
    case _ => ActionStepKey(a, at, body);
  }

  /** In every run the pending key was set by an earlier command for a collection action. */
  lemma {:induction false} PendingKeyWasProposed(a: Case, commands: seq<Command>)
    requires a.Fresh() && Run(a, commands).actionKey.Some?
    ensures exists j :: 0 <= j < |commands| && Sets(commands[j].body, Run(a, commands).actionKey)
  {
    hide Execute, Sets, Case.Valid;
    if commands != [] {
      var last := |commands| - 1;
      var before := Run(a, commands[..last]);
      ExecuteKey(before, commands[last].at, commands[last].body);
      if !Sets(commands[last].body, Run(a, commands).actionKey) {
        PendingKeyWasProposed(a, commands[..last]);
        var j :| 0 <= j < last && Sets(commands[..last][j].body, before.actionKey);
        assert Sets(commands[j].body, Run(a, commands).actionKey);
      }
    }
  }

  /** The gate run behind a decision: which proposal it judged, on which facts. */
  datatype Evaluation = Evaluation(policy: GatePolicy, proposal: ActionProposal, context: GateContext,
                                   plan: Option<GateDecision>)
  {
    function Verdict(): GateDecision { Decision(Effect, policy, proposal, context, plan) }
  }

  /** Two different texts behind one of the digests that bind a proposal to a case were seen in this run. */
  predicate Forged(commands: seq<Command>, i: nat, p: ActionProposal)
    requires i < |commands|
  {
    || (commands[i].body.BeginExecution?
        && Collides(Print(p.ToJson()), Print(commands[i].body.proposal.ToJson())))
    || exists j :: 0 <= j < i && Proposed(commands[j].body).Some?
                   && Collides(p.KeyText(), Proposed(commands[j].body).value.KeyText())
  }

  /**
   Every entry to EXECUTING, in every run, is cleared by the case and uses a
   decision no earlier accepted command used. Whatever evaluation produced that
   decision judged this very proposal and rests on full effect evidence, unless two
   different texts share a digest.
   */
  lemma ExecutionSafety(a: Case, commands: seq<Command>, i: nat, e: Evaluation)
    requires a.Fresh() && i < |commands|
    requires !Before(a, commands, i).state.Executing? && Before(a, commands, i + 1).state.Executing?
    requires e.proposal.Valid() && DecisionOf(commands[i].body) == Some(e.Verdict())
    requires commands[i].body.BeginExecution? ==> commands[i].body.proposal.Valid()
    ensures commands[i].body.BeginExecution?
    ensures Cleared(Before(a, commands, i), commands[i].at, commands[i].body.proposal, e.Verdict())
    ensures forall j | 0 <= j < i && Accepted(Before(a, commands, j), commands[j]) ::
              DecisionOf(commands[j].body) != Some(e.Verdict())
    ensures e.context.aggregateVersion == Before(a, commands, i).version
    ensures Forged(commands, i, e.proposal)
         || (e.proposal == commands[i].body.proposal && EffectEvidence(e.policy, e.proposal, e.context, e.plan))
  {
    hide Step, Accepted, Run, Reasons, EffectEvidence, ActionProposal.ToJson, ActionProposal.ActionKey,
         ActionProposal.KeyText, PlanMatches, ActionProposal.Valid, Sets;
    var b := Before(a, commands, i);
    RunStep(a, commands, i);
    RunSound(a, commands[..i]);
    EntersExecuting(b, commands[i]);
    forall j | 0 <= j < i && Accepted(Before(a, commands, j), commands[j])
      ensures DecisionOf(commands[j].body) != Some(e.Verdict())
    {
      if DecisionOf(commands[j].body).Some? { DecisionsUsedOnce(a, commands, j, i); }
    }
    SameDigestSameProposal(e.proposal, commands[i].body.proposal);
    QueuedIsCollection(a, commands, i, e.proposal);
    if IsCollection(e.proposal.actionType) { AllowedIffEvidence(e.policy, e.proposal, e.context, e.plan); }
  }

  /** A proposal with the pending key is a collection proposal, like the one that was queued. */
  lemma QueuedIsCollection(a: Case, commands: seq<Command>, i: nat, p: ActionProposal)
    requires a.Fresh() && i < |commands| && Before(a, commands, i).actionKey == Some(p.ActionKey())
    ensures IsCollection(p.actionType) || Forged(commands, i, p)
  {
    hide Run, ActionProposal.ActionKey, ActionProposal.KeyText, ActionProposal.ToJson, Case.Valid;
    PendingKeyWasProposed(a, commands[..i]);
    var j :| 0 <= j < i && Sets(commands[..i][j].body, Before(a, commands, i).actionKey);
    var q := Proposed(commands[j].body).value;
    ProposalCodec.SameKeySameAction(p, q);
  }

  lemma SameDigestSameProposal(p: ActionProposal, q: ActionProposal)
    requires p.Valid() && q.Valid() && p.ProposalDigest() == q.ProposalDigest()
    ensures p == q || Collides(Print(p.ToJson()), Print(q.ToJson()))
  {
    hide ActionProposal.Valid, ActionProposal.ToJson, Print;
    if Print(p.ToJson()) == Print(q.ToJson()) { ProposalCodec.ProposalTextInjective(p, q); }
  }

  // ---- The intended life ----

  /** A decision of the given stage that allows this proposal at this version of its case. */
  predicate Permits(d: GateDecision, p: ActionProposal, stage: Stage, version: int) {
    && d.stage == stage && d.Allowed() && d.proposalId == p.proposalId && d.actionKey == p.ActionKey()
    && d.proposalDigest == p.ProposalDigest() && d.caseId == p.caseId && d.decisionVersion == p.decisionVersion
    && d.aggregateVersion == version
  }

  /** The commands of an undisturbed recovery, all but the first two after the observation window. */
  function Life(p: ActionProposal, plan: GateDecision, effect: GateDecision, seen: int, later: int, name: string)
    : seq<Command>
  {
    [Command(0, seen, ObserveFailure(name, None)), Command(1, seen, ReconcileTruth(Unpaid, name)),
     Command(2, later, MarkReady), Command(3, later, AuthorizeAction(p, plan)),
     Command(4, later, BeginExecution(p, effect)), Command(5, later, ActionActive(p.ActionKey(), name)),
     Command(6, later, RecoveryPaid(name))]
  }

  lemma ActionKeyNames(p: ActionProposal)
    ensures IsIdentifier(p.ActionKey()) && "act_" <= p.ActionKey()
  {
    var digest: Digest := p.ActionKey()[4..];
    assert p.ActionKey() == "act_" + digest;
    forall i | 0 <= i < |p.ActionKey()| ensures IsIdentifierChar(p.ActionKey()[i]) {
      if i >= 4 { assert p.ActionKey()[i] == digest[i - 4]; }
    }
  }

  /** The case once it is observed and known to be unpaid, and ready to be judged. */
  function Assessed(a: Case, seen: int, later: int): Case {
    a.(state := Assessing, truth := Unpaid, version := 3, lastAt := Some(later), startedAt := Some(seen),
       deadline := Some(seen + a.window))
  }

  lemma LifeStarts(a: Case, seen: int, later: int, name: string)
    requires a.Fresh() && IsIdentifier(name) && later >= seen + a.window
    ensures var b := Step(Step(a, Command(0, seen, ObserveFailure(name, None))), Command(1, seen, ReconcileTruth(Unpaid, name)));
      Step(b, Command(2, later, MarkReady)) == Assessed(a, seen, later) && Ripe(Assessed(a, seen, later), later)
  {
    hide IsIdentifier, Money.Valid;
  }

  /** The case with its collection action pending, then executing. */
  function Queued(a: Case, p: ActionProposal, later: int): Case {
    Pending(a, p).(state := ActionQueued, version := a.version + 1, lastAt := Some(later))
  }

  function Running(a: Case, p: ActionProposal, later: int): Case {
    Queued(a, p, later).(state := Executing, version := a.version + 2)
  }

  /** Past its observation window, unpaid, and not ahead of the clock. */
  predicate Ripe(a: Case, later: int) {
    && a.Valid() && a.truth.Unpaid? && a.deadline.Some? && later >= a.deadline.value
    && a.lastAt.Some? && later >= a.lastAt.value
  }

  predicate Concerns(p: ActionProposal, a: Case) {
    p.Valid() && IsCollection(p.actionType) && p.merchantId == a.merchantId && p.caseId == a.caseId
  }

  lemma LifeQueues(a: Case, p: ActionProposal, plan: GateDecision, later: int)
    requires Ripe(a, later) && a.state.Assessing? && Concerns(p, a) && p.decisionVersion == a.decisionVersion + 1
    requires a.decisionVersion < a.version && Permits(plan, p, Policy, a.version)
    ensures Step(a, Command(a.version, later, AuthorizeAction(p, plan))) == Queued(a, p, later)
    ensures Ripe(Queued(a, p, later), later)
  {
    hide IsIdentifier, Money.Valid, ActionProposal.ActionKey, ActionProposal.ProposalDigest;
    ActionKeyNames(p);
  }

  lemma LifeRuns(a: Case, p: ActionProposal, effect: GateDecision, later: int)
    requires Ripe(a, later) && a.state.ActionQueued? && Concerns(p, a) && p.decisionVersion == a.decisionVersion
    requires a.actionKey == Some(p.ActionKey()) && Permits(effect, p, Effect, a.version)
    ensures Step(a, Command(a.version, later, BeginExecution(p, effect)))
         == a.(state := Executing, version := a.version + 1, lastAt := Some(later))
    ensures Ripe(a.(state := Executing, version := a.version + 1, lastAt := Some(later)), later)
  {
    hide IsIdentifier, Money.Valid, ActionProposal.ActionKey, ActionProposal.ProposalDigest, ActionProposal.Valid;
  }

  lemma LifeActivates(a: Case, key: string, name: string, later: int)
    requires Ripe(a, later) && a.state.Executing? && a.actionKey == Some(key) && IsIdentifier(name)
    ensures var b := a.(state := Active, instrument := Some(name), version := a.version + 1, lastAt := Some(later));
      Step(a, Command(a.version, later, ActionActive(key, name))) == b && Ripe(b, later)
  {
    hide IsIdentifier, Money.Valid;
  }

  lemma LifePays(a: Case, name: string, later: int)
    requires Ripe(a, later) && a.state.Active? && IsIdentifier(name)
    ensures Step(a, Command(a.version, later, RecoveryPaid(name)))
         == a.(state := Recovered, truth := Paid, version := a.version + 1, lastAt := Some(later))
  {
    hide IsIdentifier, Money.Valid;
  }

  lemma {:induction false} SevenSteps(a: Case, c: seq<Command>)
    requires |c| == 7
    ensures Run(a, c) == Step(Step(Step(Step(Step(Step(Step(a, c[0]), c[1]), c[2]), c[3]), c[4]), c[5]), c[6])
  {
    hide Step;
    assert c[..7] == c;
    RunStep(a, c, 6);
    RunStep(a, c, 5);
    RunStep(a, c, 4);
    RunStep(a, c, 3);
    RunStep(a, c, 2);
    RunStep(a, c, 1);
    RunStep(a, c, 0);
  }

  /** Nothing refuses an undisturbed recovery: its seven commands all land, and the case is recovered and paid. */
  lemma RecoveryIsReachable(a: Case, p: ActionProposal, plan: GateDecision, effect: GateDecision, seen: int, later: int,
                            name: string)
    requires a.Fresh() && IsIdentifier(name) && later >= seen + a.window
    requires p.Valid() && IsCollection(p.actionType) && p.merchantId == a.merchantId && p.caseId == a.caseId
    requires p.decisionVersion == 1 && Permits(plan, p, Policy, 3) && Permits(effect, p, Effect, 4)
    ensures var b := Run(a, Life(p, plan, effect, seen, later, name));
      && b.state.Recovered? && b.truth.Paid? && b.version == 7 && b.decisionVersion == 1
      && b.actionKey == Some(p.ActionKey()) && b.instrument == Some(name)
  {
    hide Step, Case.Valid, ActionProposal.Valid, Permits, ActionProposal.ActionKey, Run;
    var ready := Assessed(a, seen, later);
    LifeStarts(a, seen, later, name);
    LifeQueues(ready, p, plan, later);
    LifeRuns(Queued(ready, p, later), p, effect, later);
    LifeActivates(Running(ready, p, later), p.ActionKey(), name, later);
    LifePays(Running(ready, p, later).(state := Active, instrument := Some(name), version := 6), name, later);
    SevenSteps(a, Life(p, plan, effect, seen, later, name));
  }
}
