/**
 What each reason of the gate means, read off the fields of proposal, context, policy
 and plan: every decision lists exactly the reasons that hold, in one fixed order.
 */
module GateReasons {
  import opened Outcomes
  import opened States
  import opened Actions
  import opened Gate

  /** Everything one evaluation looks at. */
  datatype Question = Question(stage: Stage, policy: GatePolicy, p: ActionProposal, c: GateContext,
                               plan: Option<GateDecision>)
  {
    function Reasons(): seq<Reason> { Decision(stage, policy, p, c, plan).reasons }

    /** Creating or notifying about a link collects money; cancelling one is the other external action. */
    predicate Collects() { p.actionType == CreateLink || p.actionType == NotifyLink }

    predicate External() { Collects() || p.actionType == CancelLink }
  }

  // ---- The conditions ----

  /** Proposal against context and clock. */
  predicate ProposalFault(q: Question, r: Reason) {
    || (r == PROPOSAL_MERCHANT_MISMATCH && q.p.merchantId != q.c.merchantId)
    || (r == PROPOSAL_CASE_MISMATCH && q.p.caseId != q.c.caseId)
    || (r == ACTION_NOT_YET_VALID && q.p.createdAt - q.c.evaluatedAt > q.policy.clockSkew)
    || (r == ACTION_EXPIRED && q.p.expiresAt <= q.c.evaluatedAt)
  }

  /** The states a stage may act from, action by action. */
  function ActionableStates(stage: Stage, a: ActionType): set<RecoveryState> {
    match a
    case CreateLink =>
      if stage.Policy? then {Assessing, ApprovalRequired} else {ActionQueued, Executing, ActionUncertain}
    case NotifyLink =>
      if stage.Policy? then {Assessing, ApprovalRequired, Active} else {ActionQueued, Executing, Active}
    case CancelLink => {Executing, ActionUncertain, Active, SuppressedPaid, DuplicateReview}
    case Wait => if stage.Policy? then {Assessing} else {}
    case Escalate => if stage.Policy? then {Assessing, Waiting, ActionUncertain} else {}
    case Stop => if stage.Policy? then {Assessing, Waiting, ApprovalRequired, ActionQueued} else {}
  }

  predicate ControlFault(q: Question, r: Reason) {
    || (r == ACTION_NOT_ALLOWED && q.p.actionType !in q.policy.allowedActions)
    || (r == ENVIRONMENT_EFFECTS_DISABLED && q.External() && !q.c.effectsEnabled)
    || (r == GLOBAL_KILL_SWITCH_ACTIVE && q.Collects() && q.c.globalKillSwitch)
    || (r == MERCHANT_KILL_SWITCH_ACTIVE && q.Collects() && q.c.merchantKillSwitch)
    || (r == AGGREGATE_VERSION_MISMATCH && q.c.aggregateVersion != q.c.expectedAggregateVersion)
    || (r == RECOVERY_STATE_NOT_ACTIONABLE && q.c.recoveryState !in ActionableStates(q.stage, q.p.actionType))
  }

  predicate TruthFault(q: Question, r: Reason) {
    var s := q.c.snapshot;
    || (r == OBSERVATION_DEADLINE_MISSING && q.Collects() && q.c.observationDeadline == None)
    || (r == OBSERVATION_WINDOW_ACTIVE && q.Collects() && q.c.observationDeadline.Some?
        && q.c.observationDeadline.value > q.c.evaluatedAt)
    || (r == PAYMENT_TRUTH_NOT_UNPAID && q.Collects() && s.paymentState != Unpaid)
    || (r == PROVIDER_SNAPSHOT_FROM_FUTURE && q.Collects() && s.observedAt - q.c.evaluatedAt > q.policy.clockSkew)
    || (r == PROVIDER_SNAPSHOT_STALE && q.Collects() && s.observedAt - q.c.evaluatedAt <= q.policy.clockSkew
        && s.observedAt + q.policy.snapshotMaxAge < q.c.evaluatedAt)
  }

  predicate InstrumentFault(q: Question, r: Reason) {
    var s := q.c.snapshot;
    var priced := q.Collects() && q.p.amount.Some?;
    || (r == ACTIVE_INSTRUMENT_EXISTS && q.p.actionType == CreateLink && s.activeInstruments != 0)
    || (r == ACTIVE_INSTRUMENT_REQUIRED && (q.p.actionType == NotifyLink || q.p.actionType == CancelLink)
        && s.activeInstruments == 0)
    || (r == CURRENCY_MISMATCH && priced && q.p.amount.value.currency != s.amountDue.currency)
    || (r == AMOUNT_MISMATCH && priced && q.p.amount.value.currency == s.amountDue.currency
        && q.p.amount.value.minorUnits != s.amountDue.minorUnits)
    || (r == PAYMENT_METHOD_MISMATCH && priced && q.p.paymentMethod != Some(s.paymentMethod))
  }

  predicate ContactFault(q: Question, r: Reason) {
    q.p.actionType == NotifyLink &&
    (|| (r == CONSENT_MISSING && !q.c.consentGranted)
     || (r == CUSTOMER_OPTED_OUT && q.c.optedOut)
     || (r == COOLDOWN_ACTIVE && q.c.cooldownUntil.Some? && q.c.cooldownUntil.value > q.c.evaluatedAt)
     || (r == CONTACT_CAP_REACHED && q.policy.maxContacts <= q.c.contactsInWindow)
     || (r == QUIET_HOURS_ACTIVE && q.c.quietHours))
  }

  predicate HealthFault(q: Question, r: Reason) {
    var s := q.c.snapshot;
    q.Collects() &&
    (|| (r == INCIDENT_HEALTH_FROM_FUTURE && s.healthObservedAt - q.c.evaluatedAt > q.policy.clockSkew)
     || (r == INCIDENT_HEALTH_STALE && s.healthObservedAt - q.c.evaluatedAt <= q.policy.clockSkew
         && s.healthObservedAt + q.policy.healthMaxAge < q.c.evaluatedAt)
     || (r == PAYMENT_METHOD_UNHEALTHY && s.incidentState == Confirmed)
     || (r == ATTEMPT_BUDGET_EXHAUSTED && q.policy.maxAttempts <= q.c.attemptsUsed)
     || (r == POLICY_CURRENCY_MISMATCH && q.p.amount.Some?
         && q.p.amount.value.currency != q.policy.approvalThreshold.currency))
  }

  /** What makes a collection proposal need an operator, cause by cause. */
  predicate Cause(q: Question, r: Reason) {
    || (r == HIGH_VALUE_REQUIRES_APPROVAL && q.p.amount.Some?
        && q.p.amount.value.currency == q.policy.approvalThreshold.currency
        && q.policy.approvalThreshold.minorUnits <= q.p.amount.value.minorUnits)
    || (r == CONFIDENCE_UNAVAILABLE && q.p.modelConfidence == None)
    || (r == CONFIDENCE_BELOW_THRESHOLD && q.p.modelConfidence.Some?
        && q.p.modelConfidence.value.Worth() < q.policy.minConfidence.Worth())
    || (r == ABSTENTION_REQUIRES_APPROVAL && q.c.abstentionRequired)
    || (r == EXTERNAL_DIAGNOSIS_REQUIRES_APPROVAL && q.c.externalReviewRequired)
  }

  /** An operator must be asked: the proposal says so, or one of the five causes holds. */
  predicate Asks(q: Question) {
    q.Collects() &&
    (|| q.p.requiresApproval || Cause(q, HIGH_VALUE_REQUIRES_APPROVAL) || Cause(q, CONFIDENCE_UNAVAILABLE)
     || Cause(q, CONFIDENCE_BELOW_THRESHOLD) || Cause(q, ABSTENTION_REQUIRES_APPROVAL)
     || Cause(q, EXTERNAL_DIAGNOSIS_REQUIRES_APPROVAL))
  }

  /** What is wrong with the approval at hand; the first of these that holds. */
  predicate ApprovalFault(q: Question, r: Reason) {
    var now := q.c.evaluatedAt;
    match q.c.approval
    case None => r == APPROVAL_REQUIRED
    case Some(a) =>
      || (r == APPROVAL_REJECTED && !a.granted)
      || (r == APPROVAL_NOT_YET_VALID && a.granted && now < a.approvedAt)
      || (r == APPROVAL_EXPIRED && a.granted && a.approvedAt <= now && a.expiresAt <= now)
      || (r == APPROVAL_BINDING_MISMATCH && a.granted && a.approvedAt <= now < a.expiresAt
          && !(&& a.merchantId == q.p.merchantId && a.caseId == q.p.caseId && a.actionKey == q.p.ActionKey()
               && a.proposalDigest == q.p.ProposalDigest() && a.decisionVersion == q.p.decisionVersion))
  }

  /** An approval that is granted, in its window, and about this very proposal. */
  predicate Approved(q: Question) {
    q.c.approval.Some? && Unlocks(q.c.approval.value, q.p, q.c.evaluatedAt)
  }

  predicate ApprovalBlock(q: Question, r: Reason) {
    Asks(q) && !Approved(q) && (Cause(q, r) || ApprovalFault(q, r))
  }

  /** An earlier allowed policy decision about this very proposal. */
  predicate Planned(q: Question, d: GateDecision) {
    Earlier(d, q.policy, q.p, q.c)
  }

  predicate EffectFault(q: Question, r: Reason) {
    q.stage == Effect && q.External() &&
    (|| (r == PLAN_AUTHORIZATION_MISSING && q.plan == None)
     || (r == PLAN_BINDING_MISMATCH && q.plan.Some? && !Planned(q, q.plan.value))
     || (r == DURABLE_INTENT_MISSING && !q.c.durableIntent))
  }

  /** The reason holds of this evaluation. */
  predicate Holds(q: Question, r: Reason) {
    || ProposalFault(q, r) || ControlFault(q, r) || TruthFault(q, r) || InstrumentFault(q, r) || ContactFault(q, r)
    || HealthFault(q, r) || ApprovalBlock(q, r) || EffectFault(q, r)
  }

  // ---- Group by group ----

  /** A check adds its own reason exactly when it fails. */
  lemma OneCheck(s: seq<Reason>, f: bool, x: Reason, r: Reason)
    ensures r in Add(s, f, x) <==> r in s || (f && r == x)
  {
    hide Firm;
  }

  lemma TwoChecks(s: seq<Reason>, f: bool, x: Reason, g: bool, y: Reason, r: Reason)
    ensures r in Add(Add(s, f, x), g, y) <==> r in s || (f && r == x) || (g && r == y)
  {
    hide Firm, Add, IsApprovalReason;
    OneCheck(s, f, x, r);
    OneCheck(Add(s, f, x), g, y, r);
  }

  lemma ThreeChecks(s: seq<Reason>, f: bool, x: Reason, g: bool, y: Reason, h: bool, z: Reason, r: Reason)
    ensures r in Add(Add(Add(s, f, x), g, y), h, z)
       <==> r in s || (f && r == x) || (g && r == y) || (h && r == z)
  {
    hide Firm, Add, IsApprovalReason;
    TwoChecks(s, f, x, g, y, r);
    OneCheck(Add(Add(s, f, x), g, y), h, z, r);
  }

  lemma ProposalGroup(q: Question, r: Reason)
    ensures r in BindingReasons(q.policy, q.p, q.c) <==> ProposalFault(q, r)
  {
    hide Firm, Add, IsApprovalReason;
    var s := Add(Add(Add([], q.p.merchantId != q.c.merchantId, PROPOSAL_MERCHANT_MISMATCH),
                     q.p.caseId != q.c.caseId, PROPOSAL_CASE_MISMATCH),
                 q.p.createdAt > q.c.evaluatedAt + q.policy.clockSkew, ACTION_NOT_YET_VALID);
    ThreeChecks([], q.p.merchantId != q.c.merchantId, PROPOSAL_MERCHANT_MISMATCH,
                q.p.caseId != q.c.caseId, PROPOSAL_CASE_MISMATCH,
                q.p.createdAt > q.c.evaluatedAt + q.policy.clockSkew, ACTION_NOT_YET_VALID, r);
    OneCheck(s, q.c.evaluatedAt >= q.p.expiresAt, ACTION_EXPIRED, r);
  }

  lemma ControlGroup(q: Question, r: Reason)
    ensures r in ControlReasons(q.stage, q.policy, q.p, q.c) <==> ControlFault(q, r)
  {
    hide Firm, Add, IsApprovalReason, Actionable, ActionableStates;
    var s := Add(Add(Add([], q.p.actionType !in q.policy.allowedActions, ACTION_NOT_ALLOWED),
                     q.External() && !q.c.effectsEnabled, ENVIRONMENT_EFFECTS_DISABLED),
                 q.Collects() && q.c.globalKillSwitch, GLOBAL_KILL_SWITCH_ACTIVE);
    ThreeChecks([], q.p.actionType !in q.policy.allowedActions, ACTION_NOT_ALLOWED,
                q.External() && !q.c.effectsEnabled, ENVIRONMENT_EFFECTS_DISABLED,
                q.Collects() && q.c.globalKillSwitch, GLOBAL_KILL_SWITCH_ACTIVE, r);
    ThreeChecks(s, q.Collects() && q.c.merchantKillSwitch, MERCHANT_KILL_SWITCH_ACTIVE,
                q.c.aggregateVersion != q.c.expectedAggregateVersion, AGGREGATE_VERSION_MISMATCH,
                !Actionable(q.stage, q.p.actionType, q.c.recoveryState), RECOVERY_STATE_NOT_ACTIONABLE, r);
    StatesAgree(q.stage, q.p.actionType, q.c.recoveryState);
  }

  lemma StatesAgree(stage: Stage, a: ActionType, s: RecoveryState)
    ensures Actionable(stage, a, s) <==> s in ActionableStates(stage, a)
  {}

  lemma TruthGroup(q: Question, r: Reason)
    ensures r in TruthReasons(q.policy, q.p, q.c) <==> TruthFault(q, r)
  {
    hide Firm, Add, IsApprovalReason, FromFuture, Stale, TruthFault;
    var n, s := q.c, q.c.snapshot;
    var future, stale := FromFuture(s.observedAt, n.evaluatedAt, q.policy.clockSkew),
                         Stale(s.observedAt, n.evaluatedAt, q.policy.snapshotMaxAge);
    var f, g, h := n.observationDeadline.None?,
                   n.observationDeadline.Some? && n.evaluatedAt < n.observationDeadline.value,
                   s.paymentState != Unpaid;
    var first := Add(Add(Add([], f, OBSERVATION_DEADLINE_MISSING), g, OBSERVATION_WINDOW_ACTIVE), h,
                     PAYMENT_TRUTH_NOT_UNPAID);
    ThreeChecks([], f, OBSERVATION_DEADLINE_MISSING, g, OBSERVATION_WINDOW_ACTIVE, h, PAYMENT_TRUTH_NOT_UNPAID, r);
    TwoChecks(first, future, PROVIDER_SNAPSHOT_FROM_FUTURE, !future && stale, PROVIDER_SNAPSHOT_STALE, r);
    assert TruthReasons(q.policy, q.p, q.c) == if q.Collects()
      then Add(Add(first, future, PROVIDER_SNAPSHOT_FROM_FUTURE), !future && stale, PROVIDER_SNAPSHOT_STALE) else [];
    TruthFlags(q, r, f, g, h, future, stale);
  }

  lemma TruthFlags(q: Question, r: Reason, f: bool, g: bool, h: bool, future: bool, stale: bool)
    requires var n, s := q.c, q.c.snapshot;
      && f == n.observationDeadline.None?
      && g == (n.observationDeadline.Some? && n.evaluatedAt < n.observationDeadline.value)
      && h == (s.paymentState != Unpaid)
      && future == FromFuture(s.observedAt, n.evaluatedAt, q.policy.clockSkew)
      && stale == Stale(s.observedAt, n.evaluatedAt, q.policy.snapshotMaxAge)
    ensures TruthFault(q, r)
       <==> (q.Collects()
             && (|| (f && r == OBSERVATION_DEADLINE_MISSING) || (g && r == OBSERVATION_WINDOW_ACTIVE)
                 || (h && r == PAYMENT_TRUTH_NOT_UNPAID) || (future && r == PROVIDER_SNAPSHOT_FROM_FUTURE)
                 || (!future && stale && r == PROVIDER_SNAPSHOT_STALE)))
  {}

  lemma InstrumentGroup(q: Question, r: Reason)
    ensures r in InstrumentReasons(q.p, q.c) <==> InstrumentFault(q, r)
  {
    hide Firm, Add, IsApprovalReason, InstrumentFault, InstrumentReasons;
    var s := q.c.snapshot;
    var priced := q.Collects() && q.p.amount.Some?;
    var foreign := priced && q.p.amount.value.currency != s.amountDue.currency;
    var f, g := q.p.actionType == CreateLink && s.activeInstruments > 0,
                (q.p.actionType.NotifyLink? || q.p.actionType.CancelLink?) && s.activeInstruments == 0;
    var h, k := priced && !foreign && q.p.amount.value.minorUnits != s.amountDue.minorUnits,
                priced && q.p.paymentMethod != Some(s.paymentMethod);
    var first := Add(Add(Add([], f, ACTIVE_INSTRUMENT_EXISTS), g, ACTIVE_INSTRUMENT_REQUIRED), foreign,
                     CURRENCY_MISMATCH);
    ThreeChecks([], f, ACTIVE_INSTRUMENT_EXISTS, g, ACTIVE_INSTRUMENT_REQUIRED, foreign, CURRENCY_MISMATCH, r);
    TwoChecks(first, h, AMOUNT_MISMATCH, k, PAYMENT_METHOD_MISMATCH, r);
    InstrumentChain(q, f, g, foreign, h, k);
    InstrumentFlags(q, r, f, g, foreign, h, k);
  }

  lemma InstrumentChain(q: Question, f: bool, g: bool, foreign: bool, h: bool, k: bool)
    requires var s := q.c.snapshot;
      var priced := q.Collects() && q.p.amount.Some?;
      && f == (q.p.actionType == CreateLink && s.activeInstruments > 0)
      && g == ((q.p.actionType.NotifyLink? || q.p.actionType.CancelLink?) && s.activeInstruments == 0)
      && foreign == (priced && q.p.amount.value.currency != s.amountDue.currency)
      && h == (priced && !foreign && q.p.amount.value.minorUnits != s.amountDue.minorUnits)
      && k == (priced && q.p.paymentMethod != Some(s.paymentMethod))
    ensures InstrumentReasons(q.p, q.c)
         == Add(Add(Add(Add(Add([], f, ACTIVE_INSTRUMENT_EXISTS), g, ACTIVE_INSTRUMENT_REQUIRED), foreign,
                        CURRENCY_MISMATCH), h, AMOUNT_MISMATCH), k, PAYMENT_METHOD_MISMATCH)
  {
    hide Firm, Add, IsApprovalReason;
  }

  lemma InstrumentFlags(q: Question, r: Reason, f: bool, g: bool, foreign: bool, h: bool, k: bool)
    requires var s := q.c.snapshot;
      var priced := q.Collects() && q.p.amount.Some?;
      && f == (q.p.actionType == CreateLink && s.activeInstruments > 0)
      && g == ((q.p.actionType.NotifyLink? || q.p.actionType.CancelLink?) && s.activeInstruments == 0)
      && foreign == (priced && q.p.amount.value.currency != s.amountDue.currency)
      && h == (priced && !foreign && q.p.amount.value.minorUnits != s.amountDue.minorUnits)
      && k == (priced && q.p.paymentMethod != Some(s.paymentMethod))
    ensures InstrumentFault(q, r) <==>
      || (f && r == ACTIVE_INSTRUMENT_EXISTS) || (g && r == ACTIVE_INSTRUMENT_REQUIRED)
      || (foreign && r == CURRENCY_MISMATCH) || (h && r == AMOUNT_MISMATCH) || (k && r == PAYMENT_METHOD_MISMATCH)
  {}

  lemma ContactGroup(q: Question, r: Reason)
    ensures r in ContactReasons(q.policy, q.p, q.c) <==> ContactFault(q, r)
  {
    hide Firm, Add, IsApprovalReason;
    var s := Add(Add(Add([], !q.c.consentGranted, CONSENT_MISSING), q.c.optedOut, CUSTOMER_OPTED_OUT),
                 q.c.cooldownUntil.Some? && q.c.evaluatedAt < q.c.cooldownUntil.value, COOLDOWN_ACTIVE);
    ThreeChecks([], !q.c.consentGranted, CONSENT_MISSING,
                q.c.optedOut, CUSTOMER_OPTED_OUT,
                q.c.cooldownUntil.Some? && q.c.evaluatedAt < q.c.cooldownUntil.value, COOLDOWN_ACTIVE, r);
    TwoChecks(s, q.c.contactsInWindow >= q.policy.maxContacts, CONTACT_CAP_REACHED,
                q.c.quietHours, QUIET_HOURS_ACTIVE, r);
  }

  lemma HealthGroup(q: Question, r: Reason)
    ensures r in HealthReasons(q.policy, q.p, q.c) + PolicyCurrencyReasons(q.policy, q.p) <==> HealthFault(q, r)
  {
    hide Firm, Add, IsApprovalReason, FromFuture, Stale, HealthFault, PolicyCurrencyDiffers;
    var n, s := q.c, q.c.snapshot;
    var future, stale := FromFuture(s.healthObservedAt, n.evaluatedAt, q.policy.clockSkew),
                         Stale(s.healthObservedAt, n.evaluatedAt, q.policy.healthMaxAge);
    var h, k, m := s.incidentState == Confirmed, n.attemptsUsed >= q.policy.maxAttempts,
                   PolicyCurrencyDiffers(q.policy, q.p);
    var first := Add(Add(Add([], future, INCIDENT_HEALTH_FROM_FUTURE), !future && stale, INCIDENT_HEALTH_STALE), h,
                     PAYMENT_METHOD_UNHEALTHY);
    ThreeChecks([], future, INCIDENT_HEALTH_FROM_FUTURE, !future && stale, INCIDENT_HEALTH_STALE, h,
                PAYMENT_METHOD_UNHEALTHY, r);
    OneCheck(first, k, ATTEMPT_BUDGET_EXHAUSTED, r);
    OneCheck([], m, POLICY_CURRENCY_MISMATCH, r);
    assert HealthReasons(q.policy, q.p, q.c) == if q.Collects() then Add(first, k, ATTEMPT_BUDGET_EXHAUSTED) else [];
    HealthFlags(q, r, future, stale, h, k, m);
  }

  lemma HealthFlags(q: Question, r: Reason, future: bool, stale: bool, h: bool, k: bool, m: bool)
    requires var n, s := q.c, q.c.snapshot;
      && future == FromFuture(s.healthObservedAt, n.evaluatedAt, q.policy.clockSkew)
      && stale == Stale(s.healthObservedAt, n.evaluatedAt, q.policy.healthMaxAge)
      && h == (s.incidentState == Confirmed) && k == (n.attemptsUsed >= q.policy.maxAttempts)
      && m == PolicyCurrencyDiffers(q.policy, q.p)
    ensures HealthFault(q, r)
       <==> (|| (m && r == POLICY_CURRENCY_MISMATCH)
             || (q.Collects()
                 && (|| (future && r == INCIDENT_HEALTH_FROM_FUTURE) || (!future && stale && r == INCIDENT_HEALTH_STALE)
                     || (h && r == PAYMENT_METHOD_UNHEALTHY) || (k && r == ATTEMPT_BUDGET_EXHAUSTED))))
  {}

  lemma CauseGroup(q: Question, r: Reason)
    ensures r in ApprovalCauses(q.policy, q.p, q.c) <==> Cause(q, r)
  {
    hide Firm, Add, IsApprovalReason, OnlyApprovalReasons, Probability.Below, Cause, ApprovalCauses;
    var high := q.p.amount.Some? && q.p.amount.value.currency == q.policy.approvalThreshold.currency
                && q.p.amount.value.minorUnits >= q.policy.approvalThreshold.minorUnits;
    var low := q.p.modelConfidence.Some? && q.p.modelConfidence.value.Below(q.policy.minConfidence);
    var first := Add(Add(Add([], high, HIGH_VALUE_REQUIRES_APPROVAL),
                         q.p.modelConfidence.None?, CONFIDENCE_UNAVAILABLE), low, CONFIDENCE_BELOW_THRESHOLD);
    ThreeChecks([], high, HIGH_VALUE_REQUIRES_APPROVAL, q.p.modelConfidence.None?, CONFIDENCE_UNAVAILABLE, low,
                CONFIDENCE_BELOW_THRESHOLD, r);
    TwoChecks(first, q.c.abstentionRequired, ABSTENTION_REQUIRES_APPROVAL, q.c.externalReviewRequired,
              EXTERNAL_DIAGNOSIS_REQUIRES_APPROVAL, r);
    CauseChain(q, high, low);
    CauseFlags(q, r, high, low);
  }

  lemma CauseChain(q: Question, high: bool, low: bool)
    requires high == (q.p.amount.Some? && q.p.amount.value.currency == q.policy.approvalThreshold.currency
                      && q.p.amount.value.minorUnits >= q.policy.approvalThreshold.minorUnits)
    requires low == (q.p.modelConfidence.Some? && q.p.modelConfidence.value.Below(q.policy.minConfidence))
    ensures ApprovalCauses(q.policy, q.p, q.c)
         == Add(Add(Add(Add(Add([], high, HIGH_VALUE_REQUIRES_APPROVAL), q.p.modelConfidence.None?,
                            CONFIDENCE_UNAVAILABLE), low, CONFIDENCE_BELOW_THRESHOLD),
                    q.c.abstentionRequired, ABSTENTION_REQUIRES_APPROVAL),
                q.c.externalReviewRequired, EXTERNAL_DIAGNOSIS_REQUIRES_APPROVAL)
  {
    hide Firm, Add, IsApprovalReason, OnlyApprovalReasons, Probability.Below;
  }

  lemma CauseFlags(q: Question, r: Reason, high: bool, low: bool)
    requires high == (q.p.amount.Some? && q.p.amount.value.currency == q.policy.approvalThreshold.currency
                      && q.p.amount.value.minorUnits >= q.policy.approvalThreshold.minorUnits)
    requires low == (q.p.modelConfidence.Some? && q.p.modelConfidence.value.Below(q.policy.minConfidence))
    ensures Cause(q, r) <==>
      || (high && r == HIGH_VALUE_REQUIRES_APPROVAL) || (q.p.modelConfidence.None? && r == CONFIDENCE_UNAVAILABLE)
      || (low && r == CONFIDENCE_BELOW_THRESHOLD) || (q.c.abstentionRequired && r == ABSTENTION_REQUIRES_APPROVAL)
      || (q.c.externalReviewRequired && r == EXTERNAL_DIAGNOSIS_REQUIRES_APPROVAL)
  {
    hide Probability.Below, Probability.Worth;
    if q.p.modelConfidence.Some? { BelowIsWorthLess(q.p.modelConfidence.value, q.policy.minConfidence); }
  }

  lemma AsksExactly(q: Question)
    ensures ApprovalNeeded(q.policy, q.p, q.c) <==> Asks(q)
  {
    hide Cause, ApprovalCauses;
    CauseGroup(q, HIGH_VALUE_REQUIRES_APPROVAL);
    CauseGroup(q, CONFIDENCE_UNAVAILABLE);
    CauseGroup(q, CONFIDENCE_BELOW_THRESHOLD);
    CauseGroup(q, ABSTENTION_REQUIRES_APPROVAL);
    CauseGroup(q, EXTERNAL_DIAGNOSIS_REQUIRES_APPROVAL);
    var causes := ApprovalCauses(q.policy, q.p, q.c);
    if causes != [] {
      assert causes[0] in causes;
      CauseGroup(q, causes[0]);
      FiveCauses(q, causes[0]);
    }
  }

  lemma FiveCauses(q: Question, r: Reason)
    ensures Cause(q, r) ==>
      || r == HIGH_VALUE_REQUIRES_APPROVAL || r == CONFIDENCE_UNAVAILABLE || r == CONFIDENCE_BELOW_THRESHOLD
      || r == ABSTENTION_REQUIRES_APPROVAL || r == EXTERNAL_DIAGNOSIS_REQUIRES_APPROVAL
  {}

  lemma FailureExactly(q: Question, r: Reason)
    ensures ApprovalFailure(q.p, q.c) == Some(r) <==> ApprovalFault(q, r)
    ensures ApprovalFailure(q.p, q.c).None? <==> Approved(q)
  {
    hide ActionProposal.ActionKey, ActionProposal.ProposalDigest, IsApprovalReason;
  }

  lemma ApprovalGroup(q: Question, r: Reason)
    ensures r in ApprovalReasons(q.policy, q.p, q.c) <==> ApprovalBlock(q, r)
  {
    hide Cause, ApprovalCauses, ApprovalFault, ApprovalFailure, ApprovalNeeded, Asks, Approved;
    CauseGroup(q, r);
    AsksExactly(q);
    FailureExactly(q, r);
  }

  lemma PlannedExactly(q: Question, d: GateDecision)
    ensures PlanMatches(q.policy, d, q.p, q.c) <==> Planned(q, d)
  {
    hide ActionProposal.ActionKey, ActionProposal.ProposalDigest;
  }

  lemma EffectGroup(q: Question, r: Reason)
    ensures r in EffectReasons(q.stage, q.policy, q.p, q.c, q.plan) <==> EffectFault(q, r)
  {
    hide Firm, Add, IsApprovalReason, PlanMatches, Planned;
    ThreeChecks([], q.plan.None?, PLAN_AUTHORIZATION_MISSING,
                q.plan.Some? && !PlanMatches(q.policy, q.plan.value, q.p, q.c), PLAN_BINDING_MISMATCH,
                !q.c.durableIntent, DURABLE_INTENT_MISSING, r);
    if q.plan.Some? { PlannedExactly(q, q.plan.value); }
  }

  /** Every decision lists exactly the reasons that hold. */
  lemma ReasonsExactly(q: Question, r: Reason)
    ensures r in q.Reasons() <==> Holds(q, r)
  {
    hide BindingReasons, ControlReasons, TruthReasons, InstrumentReasons, ContactReasons, HealthReasons,
         PolicyCurrencyReasons, ApprovalReasons, EffectReasons, ProposalFault, ControlFault, TruthFault,
         InstrumentFault, ContactFault, HealthFault, ApprovalBlock, EffectFault, ActionProposal.ActionKey, ActionProposal.ProposalDigest;
    ProposalGroup(q, r);
    ControlGroup(q, r);
    TruthGroup(q, r);
    InstrumentGroup(q, r);
    ContactGroup(q, r);
    HealthGroup(q, r);
    ApprovalGroup(q, r);
    EffectGroup(q, r);
  }

  lemma EffectOnlyEarly(q: Question, r: Reason)
    requires r == PLAN_AUTHORIZATION_MISSING || r == PLAN_BINDING_MISMATCH || r == DURABLE_INTENT_MISSING
    ensures !ProposalFault(q, r) && !ControlFault(q, r) && !TruthFault(q, r)
  {
    hide ActionableStates;
  }

  lemma EffectOnlyLate(q: Question, r: Reason)
    requires r == PLAN_AUTHORIZATION_MISSING || r == PLAN_BINDING_MISMATCH || r == DURABLE_INTENT_MISSING
    ensures !InstrumentFault(q, r) && !ContactFault(q, r) && !HealthFault(q, r)
  {}

  lemma EffectOnlyApproval(q: Question, r: Reason)
    requires r == PLAN_AUTHORIZATION_MISSING || r == PLAN_BINDING_MISMATCH || r == DURABLE_INTENT_MISSING
    ensures !ApprovalBlock(q, r)
  {
    hide Asks, Approved, ActionProposal.ActionKey, ActionProposal.ProposalDigest;
  }

  /** Plan and intent are faulted by the effect stage alone. */
  lemma EffectOnly(q: Question, r: Reason)
    requires r == PLAN_AUTHORIZATION_MISSING || r == PLAN_BINDING_MISMATCH || r == DURABLE_INTENT_MISSING
    ensures r in q.Reasons() <==> EffectFault(q, r)
  {
    hide Question.Reasons, ProposalFault, ControlFault, TruthFault, InstrumentFault, ContactFault, HealthFault,
         ApprovalBlock, EffectFault;
    ReasonsExactly(q, r);
    EffectOnlyEarly(q, r);
    EffectOnlyLate(q, r);
    EffectOnlyApproval(q, r);
  }

  // ---- One fixed order ----

  /** The place of each reason in every decision that gives it. */
  function Rank(r: Reason): nat {
    match r
    case PROPOSAL_MERCHANT_MISMATCH => 1
    case PROPOSAL_CASE_MISMATCH => 2
    case ACTION_NOT_YET_VALID => 3
    case ACTION_EXPIRED => 4
    case ACTION_NOT_ALLOWED => 5
    case ENVIRONMENT_EFFECTS_DISABLED => 6
    case GLOBAL_KILL_SWITCH_ACTIVE => 7
    case MERCHANT_KILL_SWITCH_ACTIVE => 8
    case AGGREGATE_VERSION_MISMATCH => 9
    case RECOVERY_STATE_NOT_ACTIONABLE => 10
    case OBSERVATION_DEADLINE_MISSING => 11
    case OBSERVATION_WINDOW_ACTIVE => 12
    case PAYMENT_TRUTH_NOT_UNPAID => 13
    case PROVIDER_SNAPSHOT_FROM_FUTURE => 14
    case PROVIDER_SNAPSHOT_STALE => 15
    case ACTIVE_INSTRUMENT_EXISTS => 16
    case ACTIVE_INSTRUMENT_REQUIRED => 17
    case CURRENCY_MISMATCH => 18
    case AMOUNT_MISMATCH => 19
    case PAYMENT_METHOD_MISMATCH => 20
    case CONSENT_MISSING => 21
    case CUSTOMER_OPTED_OUT => 22
    case COOLDOWN_ACTIVE => 23
    case CONTACT_CAP_REACHED => 24
    case QUIET_HOURS_ACTIVE => 25
    case INCIDENT_HEALTH_FROM_FUTURE => 26
    case INCIDENT_HEALTH_STALE => 27
    case PAYMENT_METHOD_UNHEALTHY => 28
    case ATTEMPT_BUDGET_EXHAUSTED => 29
    case POLICY_CURRENCY_MISMATCH => 30
    case HIGH_VALUE_REQUIRES_APPROVAL => 31
    case CONFIDENCE_UNAVAILABLE => 32
    case CONFIDENCE_BELOW_THRESHOLD => 33
    case ABSTENTION_REQUIRES_APPROVAL => 34
    case EXTERNAL_DIAGNOSIS_REQUIRES_APPROVAL => 35
    case APPROVAL_REQUIRED => 36
    case APPROVAL_REJECTED => 37
    case APPROVAL_NOT_YET_VALID => 38
    case APPROVAL_EXPIRED => 39
    case APPROVAL_BINDING_MISMATCH => 40
    case PLAN_AUTHORIZATION_MISSING => 41
    case PLAN_BINDING_MISMATCH => 42
    case DURABLE_INTENT_MISSING => 43
  }

  /** Strictly ascending, all ranks above `low` and at most `high`. */
  predicate Ranked(reasons: seq<Reason>, low: nat, high: nat) {
    && (forall i | 0 <= i < |reasons| :: low < Rank(reasons[i]) <= high)
    && forall i | 0 < i < |reasons| :: Rank(reasons[i - 1]) < Rank(reasons[i])
  }

  lemma RankedJoin(a: seq<Reason>, b: seq<Reason>, low: nat, middle: nat, high: nat)
    requires low <= middle <= high && Ranked(a, low, middle) && Ranked(b, middle, high)
    ensures Ranked(a + b, low, high)
  {
    hide Rank;
    var s := a + b;
    forall i | 0 < i < |s| ensures Rank(s[i - 1]) < Rank(s[i]) {
      if i < |a| { assert s[i - 1] == a[i - 1] && s[i] == a[i]; }
      if i > |a| { assert s[i - 1] == b[i - 1 - |a|] && s[i] == b[i - |a|]; }
    }
  }

  /** A check whose reason comes after all the others keeps the order. */
  lemma OneRanked(s: seq<Reason>, low: nat, middle: nat, f: bool, x: Reason)
    requires Ranked(s, low, middle) && low <= middle < Rank(x)
    ensures Ranked(Add(s, f, x), low, Rank(x))
  {
    hide Firm, Rank;
  }

  lemma TwoRanked(s: seq<Reason>, low: nat, middle: nat, f: bool, x: Reason, g: bool, y: Reason)
    requires Ranked(s, low, middle) && low <= middle < Rank(x) < Rank(y)
    ensures Ranked(Add(Add(s, f, x), g, y), low, Rank(y))
  {
    hide Firm, Add, Rank, Ranked, IsApprovalReason;
    OneRanked(s, low, middle, f, x);
    OneRanked(Add(s, f, x), low, Rank(x), g, y);
  }

  lemma ThreeRanked(s: seq<Reason>, low: nat, middle: nat, f: bool, x: Reason, g: bool, y: Reason, h: bool, z: Reason)
    requires Ranked(s, low, middle) && low <= middle < Rank(x) < Rank(y) < Rank(z)
    ensures Ranked(Add(Add(Add(s, f, x), g, y), h, z), low, Rank(z))
  {
    hide Firm, Add, Rank, Ranked, IsApprovalReason;
    TwoRanked(s, low, middle, f, x, g, y);
    OneRanked(Add(Add(s, f, x), g, y), low, Rank(y), h, z);
  }

  lemma NothingRanked()
    ensures forall low, high :: Ranked([], low, high)
  {}

  lemma ProposalRanked(q: Question)
    ensures Ranked(BindingReasons(q.policy, q.p, q.c), 0, 4)
  {
    hide Firm, Add, Ranked, IsApprovalReason;
    NothingRanked();
    var s := Add(Add(Add([], q.p.merchantId != q.c.merchantId, PROPOSAL_MERCHANT_MISMATCH),
                     q.p.caseId != q.c.caseId, PROPOSAL_CASE_MISMATCH),
                 q.p.createdAt > q.c.evaluatedAt + q.policy.clockSkew, ACTION_NOT_YET_VALID);
    ThreeRanked([], 0, 0, q.p.merchantId != q.c.merchantId, PROPOSAL_MERCHANT_MISMATCH,
                q.p.caseId != q.c.caseId, PROPOSAL_CASE_MISMATCH,
                q.p.createdAt > q.c.evaluatedAt + q.policy.clockSkew, ACTION_NOT_YET_VALID);
    OneRanked(s, 0, 3, q.c.evaluatedAt >= q.p.expiresAt, ACTION_EXPIRED);
  }

  lemma ControlRanked(q: Question)
    ensures Ranked(ControlReasons(q.stage, q.policy, q.p, q.c), 4, 10)
  {
    hide Firm, Add, Ranked, IsApprovalReason, Actionable;
    NothingRanked();
    var s := Add(Add(Add([], q.p.actionType !in q.policy.allowedActions, ACTION_NOT_ALLOWED),
                     q.External() && !q.c.effectsEnabled, ENVIRONMENT_EFFECTS_DISABLED),
                 q.Collects() && q.c.globalKillSwitch, GLOBAL_KILL_SWITCH_ACTIVE);
    ThreeRanked([], 4, 4, q.p.actionType !in q.policy.allowedActions, ACTION_NOT_ALLOWED,
                q.External() && !q.c.effectsEnabled, ENVIRONMENT_EFFECTS_DISABLED,
                q.Collects() && q.c.globalKillSwitch, GLOBAL_KILL_SWITCH_ACTIVE);
    ThreeRanked(s, 4, 7, q.Collects() && q.c.merchantKillSwitch, MERCHANT_KILL_SWITCH_ACTIVE,
                q.c.aggregateVersion != q.c.expectedAggregateVersion, AGGREGATE_VERSION_MISMATCH,
                !Actionable(q.stage, q.p.actionType, q.c.recoveryState), RECOVERY_STATE_NOT_ACTIONABLE);
  }

  lemma TruthRanked(q: Question)
    ensures Ranked(TruthReasons(q.policy, q.p, q.c), 10, 15)
  {
    hide Firm, Add, Ranked, IsApprovalReason, FromFuture, Stale;
    NothingRanked();
    var future := FromFuture(q.c.snapshot.observedAt, q.c.evaluatedAt, q.policy.clockSkew);
    var f, g, h := q.c.observationDeadline.None?,
                   q.c.observationDeadline.Some? && q.c.evaluatedAt < q.c.observationDeadline.value,
                   q.c.snapshot.paymentState != Unpaid;
    var s := Add(Add(Add([], f, OBSERVATION_DEADLINE_MISSING), g, OBSERVATION_WINDOW_ACTIVE), h,
                 PAYMENT_TRUTH_NOT_UNPAID);
    ThreeRanked([], 10, 10, f, OBSERVATION_DEADLINE_MISSING, g, OBSERVATION_WINDOW_ACTIVE, h,
                PAYMENT_TRUTH_NOT_UNPAID);
    TwoRanked(s, 10, 13, future, PROVIDER_SNAPSHOT_FROM_FUTURE,
              !future && Stale(q.c.snapshot.observedAt, q.c.evaluatedAt, q.policy.snapshotMaxAge),
              PROVIDER_SNAPSHOT_STALE);
  }

  lemma InstrumentRanked(q: Question)
    ensures Ranked(InstrumentReasons(q.p, q.c), 15, 20)
  {
    hide Firm, Add, Ranked, IsApprovalReason, InstrumentReasons;
    NothingRanked();
    var s := q.c.snapshot;
    var priced := q.Collects() && q.p.amount.Some?;
    var foreign := priced && q.p.amount.value.currency != s.amountDue.currency;
    var f, g := q.p.actionType == CreateLink && s.activeInstruments > 0,
                (q.p.actionType.NotifyLink? || q.p.actionType.CancelLink?) && s.activeInstruments == 0;
    var h, k := priced && !foreign && q.p.amount.value.minorUnits != s.amountDue.minorUnits,
                priced && q.p.paymentMethod != Some(s.paymentMethod);
    var first := Add(Add(Add([], f, ACTIVE_INSTRUMENT_EXISTS), g, ACTIVE_INSTRUMENT_REQUIRED), foreign,
                     CURRENCY_MISMATCH);
    ThreeRanked([], 15, 15, f, ACTIVE_INSTRUMENT_EXISTS, g, ACTIVE_INSTRUMENT_REQUIRED, foreign, CURRENCY_MISMATCH);
    TwoRanked(first, 15, 18, h, AMOUNT_MISMATCH, k, PAYMENT_METHOD_MISMATCH);
    InstrumentChain(q, f, g, foreign, h, k);
  }

  lemma ContactRanked(q: Question)
    ensures Ranked(ContactReasons(q.policy, q.p, q.c), 20, 25)
  {
    hide Firm, Add, Ranked, IsApprovalReason;
    NothingRanked();
    var s := Add(Add(Add([], !q.c.consentGranted, CONSENT_MISSING), q.c.optedOut, CUSTOMER_OPTED_OUT),
                 q.c.cooldownUntil.Some? && q.c.evaluatedAt < q.c.cooldownUntil.value, COOLDOWN_ACTIVE);
    ThreeRanked([], 20, 20, !q.c.consentGranted, CONSENT_MISSING,
                q.c.optedOut, CUSTOMER_OPTED_OUT,
                q.c.cooldownUntil.Some? && q.c.evaluatedAt < q.c.cooldownUntil.value, COOLDOWN_ACTIVE);
    TwoRanked(s, 20, 23, q.c.contactsInWindow >= q.policy.maxContacts, CONTACT_CAP_REACHED,
                q.c.quietHours, QUIET_HOURS_ACTIVE);
  }

  lemma HealthRanked(q: Question)
    ensures Ranked(HealthReasons(q.policy, q.p, q.c), 25, 29) && Ranked(PolicyCurrencyReasons(q.policy, q.p), 29, 30)
  {
    hide Firm, Add, Ranked, IsApprovalReason, FromFuture, Stale, PolicyCurrencyDiffers;
    NothingRanked();
    var future := FromFuture(q.c.snapshot.healthObservedAt, q.c.evaluatedAt, q.policy.clockSkew);
    var stale := !future && Stale(q.c.snapshot.healthObservedAt, q.c.evaluatedAt, q.policy.healthMaxAge);
    var s := Add(Add(Add([], future, INCIDENT_HEALTH_FROM_FUTURE), stale, INCIDENT_HEALTH_STALE),
                 q.c.snapshot.incidentState == Confirmed, PAYMENT_METHOD_UNHEALTHY);
    ThreeRanked([], 25, 25, future, INCIDENT_HEALTH_FROM_FUTURE, stale, INCIDENT_HEALTH_STALE,
                q.c.snapshot.incidentState == Confirmed, PAYMENT_METHOD_UNHEALTHY);
    OneRanked(s, 25, 28, q.c.attemptsUsed >= q.policy.maxAttempts, ATTEMPT_BUDGET_EXHAUSTED);
    OneRanked([], 29, 29, PolicyCurrencyDiffers(q.policy, q.p), POLICY_CURRENCY_MISMATCH);
  }

  lemma CauseRanks()
    ensures Rank(HIGH_VALUE_REQUIRES_APPROVAL) == 31 && Rank(CONFIDENCE_UNAVAILABLE) == 32
    ensures Rank(CONFIDENCE_BELOW_THRESHOLD) == 33 && Rank(ABSTENTION_REQUIRES_APPROVAL) == 34
    ensures Rank(EXTERNAL_DIAGNOSIS_REQUIRES_APPROVAL) == 35
  {}

  lemma CausesRanked(q: Question)
    ensures Ranked(ApprovalCauses(q.policy, q.p, q.c), 30, 35)
  {
    hide Rank, Firm, Add, Ranked, IsApprovalReason, OnlyApprovalReasons, Probability.Below, ApprovalCauses;
    NothingRanked();
    CauseRanks();
    var high := q.p.amount.Some? && q.p.amount.value.currency == q.policy.approvalThreshold.currency
                && q.p.amount.value.minorUnits >= q.policy.approvalThreshold.minorUnits;
    var low := q.p.modelConfidence.Some? && q.p.modelConfidence.value.Below(q.policy.minConfidence);
    var first := Add(Add(Add([], high, HIGH_VALUE_REQUIRES_APPROVAL),
                         q.p.modelConfidence.None?, CONFIDENCE_UNAVAILABLE), low, CONFIDENCE_BELOW_THRESHOLD);
    ThreeRanked([], 30, 30, high, HIGH_VALUE_REQUIRES_APPROVAL, q.p.modelConfidence.None?, CONFIDENCE_UNAVAILABLE, low,
                CONFIDENCE_BELOW_THRESHOLD);
    TwoRanked(first, 30, 33, q.c.abstentionRequired, ABSTENTION_REQUIRES_APPROVAL, q.c.externalReviewRequired,
              EXTERNAL_DIAGNOSIS_REQUIRES_APPROVAL);
    CauseChain(q, high, low);
  }

  lemma EffectRanked(q: Question)
    ensures Ranked(EffectReasons(q.stage, q.policy, q.p, q.c, q.plan), 40, 43)
  {
    hide Firm, Add, Ranked, IsApprovalReason, PlanMatches;
    NothingRanked();
    ThreeRanked([], 40, 40, q.plan.None?, PLAN_AUTHORIZATION_MISSING,
                q.plan.Some? && !PlanMatches(q.policy, q.plan.value, q.p, q.c), PLAN_BINDING_MISMATCH,
                !q.c.durableIntent, DURABLE_INTENT_MISSING);
  }

  lemma ApprovalRanked(q: Question)
    ensures Ranked(ApprovalReasons(q.policy, q.p, q.c), 30, 40)
  {
    hide ApprovalCauses, ApprovalNeeded, ActionProposal.ActionKey, ActionProposal.ProposalDigest, IsApprovalReason;
    CausesRanked(q);
    var f := ApprovalFailure(q.p, q.c);
    if f.Some? { RankedJoin(ApprovalCauses(q.policy, q.p, q.c), [f.value], 30, 35, 40); }
  }

  /** And it lists them in one fixed order, each at most once. */
  lemma ReasonsInOrder(q: Question)
    ensures forall i, j | 0 <= i < j < |q.Reasons()| :: Rank(q.Reasons()[i]) < Rank(q.Reasons()[j])
  {
    hide BindingReasons, ControlReasons, TruthReasons, InstrumentReasons, ContactReasons, HealthReasons,
         PolicyCurrencyReasons, ApprovalReasons, EffectReasons, Rank, Ranked, ActionProposal.ActionKey,
         ActionProposal.ProposalDigest;
    var a, b, c := BindingReasons(q.policy, q.p, q.c), ControlReasons(q.stage, q.policy, q.p, q.c),
                   TruthReasons(q.policy, q.p, q.c);
    var d, e, f := InstrumentReasons(q.p, q.c), ContactReasons(q.policy, q.p, q.c), HealthReasons(q.policy, q.p, q.c);
    var g, h, k := PolicyCurrencyReasons(q.policy, q.p), ApprovalReasons(q.policy, q.p, q.c),
                   EffectReasons(q.stage, q.policy, q.p, q.c, q.plan);
    ProposalRanked(q);
    ControlRanked(q);
    TruthRanked(q);
    InstrumentRanked(q);
    ContactRanked(q);
    HealthRanked(q);
    ApprovalRanked(q);
    EffectRanked(q);
    RankedJoin(a, b, 0, 4, 10);
    RankedJoin(a + b, c, 0, 10, 15);
    RankedJoin(a + b + c, d, 0, 15, 20);
    RankedJoin(a + b + c + d, e, 0, 20, 25);
    RankedJoin(a + b + c + d + e, f, 0, 25, 29);
    RankedJoin(a + b + c + d + e + f, g, 0, 29, 30);
    RankedJoin(a + b + c + d + e + f + g, h, 0, 30, 40);
    RankedJoin(a + b + c + d + e + f + g + h, k, 0, 40, 43);
    Ascending(q.Reasons());
  }

  lemma {:induction false} Ascending(s: seq<Reason>)
    requires Ranked(s, 0, 43)
    ensures forall i, j | 0 <= i < j < |s| :: Rank(s[i]) < Rank(s[j])
  {
    hide Rank;
    forall i, j | 0 <= i < j < |s| ensures Rank(s[i]) < Rank(s[j]) {
      AscendingPair(s, i, j);
    }
  }

  lemma {:induction false} AscendingPair(s: seq<Reason>, i: nat, j: nat)
    requires Ranked(s, 0, 43) && i < j < |s|
    ensures Rank(s[i]) < Rank(s[j])
    decreases j
  {
    hide Rank;
    if i < j - 1 { AscendingPair(s, i, j - 1); }
  }

  /** An approval may clear the five causes and the five faults of an approval, and nothing else. */
  lemma ClearableReasons(r: Reason)
    ensures IsApprovalReason(r) <==> 31 <= Rank(r) <= 40
  {}

  /**
   The two stages meet: what the policy stage decided about this proposal is a plan for the effect
   stage exactly when it was allowed, under this policy version, and not made later or on a later case.
   */
  lemma PolicyDecisionIsPlan(q: Question, policy: GatePolicy, c: GateContext, plan: Option<GateDecision>)
    ensures var d := Decision(Policy, policy, q.p, c, plan);
      Planned(q, d) <==> && d.Allowed() && policy.version == q.policy.version
                         && c.aggregateVersion <= q.c.aggregateVersion && c.evaluatedAt <= q.c.evaluatedAt
  {
    hide Reasons, ActionProposal.ActionKey, ActionProposal.ProposalDigest;
  }
}
