/**
 The two-stage authorization gate. Every fact is an argument; reason codes come
 out in a fixed order.
 */
module Gate {
  import opened Outcomes
  import opened Text
  import opened Calendar
  import opened Json
  import opened Hashing
  import opened States
  import opened Actions

  datatype Stage = Policy | Effect

  datatype Reason =
    | PROPOSAL_MERCHANT_MISMATCH | PROPOSAL_CASE_MISMATCH | ACTION_NOT_YET_VALID | ACTION_EXPIRED
    | ACTION_NOT_ALLOWED | ENVIRONMENT_EFFECTS_DISABLED | GLOBAL_KILL_SWITCH_ACTIVE
    | MERCHANT_KILL_SWITCH_ACTIVE | AGGREGATE_VERSION_MISMATCH | RECOVERY_STATE_NOT_ACTIONABLE
    | OBSERVATION_DEADLINE_MISSING | OBSERVATION_WINDOW_ACTIVE | PAYMENT_TRUTH_NOT_UNPAID
    | PROVIDER_SNAPSHOT_FROM_FUTURE | PROVIDER_SNAPSHOT_STALE | ACTIVE_INSTRUMENT_EXISTS
    | ACTIVE_INSTRUMENT_REQUIRED | POLICY_CURRENCY_MISMATCH | CURRENCY_MISMATCH | AMOUNT_MISMATCH
    | PAYMENT_METHOD_MISMATCH | CONSENT_MISSING | CUSTOMER_OPTED_OUT | COOLDOWN_ACTIVE
    | CONTACT_CAP_REACHED | QUIET_HOURS_ACTIVE | INCIDENT_HEALTH_FROM_FUTURE | INCIDENT_HEALTH_STALE
    | PAYMENT_METHOD_UNHEALTHY | ATTEMPT_BUDGET_EXHAUSTED | CONFIDENCE_UNAVAILABLE
    | CONFIDENCE_BELOW_THRESHOLD | ABSTENTION_REQUIRES_APPROVAL | EXTERNAL_DIAGNOSIS_REQUIRES_APPROVAL
    | HIGH_VALUE_REQUIRES_APPROVAL | APPROVAL_REQUIRED | APPROVAL_REJECTED | APPROVAL_EXPIRED
    | APPROVAL_NOT_YET_VALID | APPROVAL_BINDING_MISMATCH | PLAN_AUTHORIZATION_MISSING
    | PLAN_BINDING_MISMATCH | DURABLE_INTENT_MISSING

  function ReasonName(r: Reason): string {
    match r
    case PROPOSAL_MERCHANT_MISMATCH => "PROPOSAL_MERCHANT_MISMATCH"
    case PROPOSAL_CASE_MISMATCH => "PROPOSAL_CASE_MISMATCH"
    case ACTION_NOT_YET_VALID => "ACTION_NOT_YET_VALID"
    case ACTION_EXPIRED => "ACTION_EXPIRED"
    case ACTION_NOT_ALLOWED => "ACTION_NOT_ALLOWED"
    case ENVIRONMENT_EFFECTS_DISABLED => "ENVIRONMENT_EFFECTS_DISABLED"
    case GLOBAL_KILL_SWITCH_ACTIVE => "GLOBAL_KILL_SWITCH_ACTIVE"
    case MERCHANT_KILL_SWITCH_ACTIVE => "MERCHANT_KILL_SWITCH_ACTIVE"
    case AGGREGATE_VERSION_MISMATCH => "AGGREGATE_VERSION_MISMATCH"
    case RECOVERY_STATE_NOT_ACTIONABLE => "RECOVERY_STATE_NOT_ACTIONABLE"
    case OBSERVATION_DEADLINE_MISSING => "OBSERVATION_DEADLINE_MISSING"
    case OBSERVATION_WINDOW_ACTIVE => "OBSERVATION_WINDOW_ACTIVE"
    case PAYMENT_TRUTH_NOT_UNPAID => "PAYMENT_TRUTH_NOT_UNPAID"
    case PROVIDER_SNAPSHOT_FROM_FUTURE => "PROVIDER_SNAPSHOT_FROM_FUTURE"
    case PROVIDER_SNAPSHOT_STALE => "PROVIDER_SNAPSHOT_STALE"
    case ACTIVE_INSTRUMENT_EXISTS => "ACTIVE_INSTRUMENT_EXISTS"
    case ACTIVE_INSTRUMENT_REQUIRED => "ACTIVE_INSTRUMENT_REQUIRED"
    case POLICY_CURRENCY_MISMATCH => "POLICY_CURRENCY_MISMATCH"
    case CURRENCY_MISMATCH => "CURRENCY_MISMATCH"
    case AMOUNT_MISMATCH => "AMOUNT_MISMATCH"
    case PAYMENT_METHOD_MISMATCH => "PAYMENT_METHOD_MISMATCH"
    case CONSENT_MISSING => "CONSENT_MISSING"
    case CUSTOMER_OPTED_OUT => "CUSTOMER_OPTED_OUT"
    case COOLDOWN_ACTIVE => "COOLDOWN_ACTIVE"
    case CONTACT_CAP_REACHED => "CONTACT_CAP_REACHED"
    case QUIET_HOURS_ACTIVE => "QUIET_HOURS_ACTIVE"
    case INCIDENT_HEALTH_FROM_FUTURE => "INCIDENT_HEALTH_FROM_FUTURE"
    case INCIDENT_HEALTH_STALE => "INCIDENT_HEALTH_STALE"
    case PAYMENT_METHOD_UNHEALTHY => "PAYMENT_METHOD_UNHEALTHY"
    case ATTEMPT_BUDGET_EXHAUSTED => "ATTEMPT_BUDGET_EXHAUSTED"
    case CONFIDENCE_UNAVAILABLE => "CONFIDENCE_UNAVAILABLE"
    case CONFIDENCE_BELOW_THRESHOLD => "CONFIDENCE_BELOW_THRESHOLD"
    case ABSTENTION_REQUIRES_APPROVAL => "ABSTENTION_REQUIRES_APPROVAL"
    case EXTERNAL_DIAGNOSIS_REQUIRES_APPROVAL => "EXTERNAL_DIAGNOSIS_REQUIRES_APPROVAL"
    case HIGH_VALUE_REQUIRES_APPROVAL => "HIGH_VALUE_REQUIRES_APPROVAL"
    case APPROVAL_REQUIRED => "APPROVAL_REQUIRED"
    case APPROVAL_REJECTED => "APPROVAL_REJECTED"
    case APPROVAL_EXPIRED => "APPROVAL_EXPIRED"
    case APPROVAL_NOT_YET_VALID => "APPROVAL_NOT_YET_VALID"
    case APPROVAL_BINDING_MISMATCH => "APPROVAL_BINDING_MISMATCH"
    case PLAN_AUTHORIZATION_MISSING => "PLAN_AUTHORIZATION_MISSING"
    case PLAN_BINDING_MISMATCH => "PLAN_BINDING_MISMATCH"
    case DURABLE_INTENT_MISSING => "DURABLE_INTENT_MISSING"
  }

  /** The reasons an approval may clear. */
  predicate IsApprovalReason(r: Reason) {
    || r.CONFIDENCE_UNAVAILABLE? || r.CONFIDENCE_BELOW_THRESHOLD? || r.ABSTENTION_REQUIRES_APPROVAL?
    || r.EXTERNAL_DIAGNOSIS_REQUIRES_APPROVAL? || r.HIGH_VALUE_REQUIRES_APPROVAL? || r.APPROVAL_REQUIRED?
    || r.APPROVAL_REJECTED? || r.APPROVAL_EXPIRED? || r.APPROVAL_NOT_YET_VALID? || r.APPROVAL_BINDING_MISMATCH?
  }

  datatype GatePolicy = GatePolicy(
    version: string,
    allowedActions: set<ActionType>,
    snapshotMaxAge: nat,
    healthMaxAge: nat,
    maxAttempts: nat,
    maxContacts: nat,
    approvalThreshold: Money,
    minConfidence: Probability,
    clockSkew: nat)
  {
    /** What construction enforces beyond the types. */
    predicate Valid() {
      IsIdentifier(version) && allowedActions != {} && approvalThreshold.Valid() && minConfidence.Valid()
    }
  }

  datatype ProviderSnapshot = ProviderSnapshot(
    paymentState: PaymentState,
    amountDue: Money,
    paymentMethod: string,
    observedAt: UtcTime,
    activeInstruments: nat,
    incidentState: IncidentState,
    healthObservedAt: UtcTime)

  datatype GateContext = GateContext(
    merchantId: string,
    caseId: string,
    evaluatedAt: UtcTime,
    aggregateVersion: nat,
    expectedAggregateVersion: nat,
    recoveryState: RecoveryState,
    snapshot: ProviderSnapshot,
    effectsEnabled: bool,
    observationDeadline: Option<UtcTime>,
    globalKillSwitch: bool,
    merchantKillSwitch: bool,
    consentGranted: bool,
    optedOut: bool,
    cooldownUntil: Option<UtcTime>,
    contactsInWindow: nat,
    quietHours: bool,
    attemptsUsed: nat,
    abstentionRequired: bool,
    externalReviewRequired: bool,
    approval: Option<Approval>,
    durableIntent: bool)

  datatype GateDecision = GateDecision(
    stage: Stage,
    policyVersion: string,
    proposalId: string,
    actionKey: string,
    proposalDigest: string,
    caseId: string,
    decisionVersion: int,
    aggregateVersion: int,
    evaluatedAt: UtcTime,
    reasons: seq<Reason>)
  {
    predicate Allowed() { reasons == [] }

    /** The field values, in the order of PlanKeys. */
    function Fields(): (v: seq<Json>)
      ensures |v| == 11
    {
      [Str(actionKey), Int(aggregateVersion), Bool(Allowed()), Str(caseId), Int(decisionVersion),
       Str(FormatTimestamp(evaluatedAt)), Str(policyVersion), Str(proposalDigest), Str(proposalId),
       Arr(seq(|reasons|, i requires 0 <= i < |reasons| => Str(ReasonName(reasons[i])))), Str(StageName(stage))]
    }

    function ToJson(): Json {
      Record(PlanKeys(), Fields())
    }

    function DecisionDigest(): Digest {
      Sha256Hex(Print(ToJson()))
    }
  }

  function StageName(s: Stage): string {
    if s.Policy? then "policy" else "effect"
  }

  function PlanKeys(): (keys: seq<string>)
    ensures |keys| == 11
  {
    EarlyPlanKeys() + LatePlanKeys()
  }

  function EarlyPlanKeys(): seq<string> {
    ["action_key", "aggregate_version", "allowed", "case_id", "decision_version", "evaluated_at"]
  }

  function LatePlanKeys(): seq<string> {
    ["policy_version", "proposal_digest", "proposal_id", "reasons", "stage"]
  }

  /** The workflow states in which a stage may act. */
  predicate Actionable(stage: Stage, a: ActionType, s: RecoveryState) {
    match (stage, a)
    case (Policy, CreateLink) => s.Assessing? || s.ApprovalRequired?
    case (Policy, NotifyLink) => s.Assessing? || s.ApprovalRequired? || s.Active?
    case (Policy, Wait) => s.Assessing?
    case (Policy, Escalate) => s.Assessing? || s.Waiting? || s.ActionUncertain?
    case (Policy, Stop) => s.Assessing? || s.Waiting? || s.ApprovalRequired? || s.ActionQueued?
    case (Effect, CreateLink) => s.ActionQueued? || s.Executing? || s.ActionUncertain?
    case (Effect, NotifyLink) => s.ActionQueued? || s.Executing? || s.Active?
    case (_, CancelLink) => s.Executing? || s.ActionUncertain? || s.Active? || s.SuppressedPaid? || s.DuplicateReview?
    case (Effect, _) => false
  }

  // ---- Reasons, group by group ----

  /** No reason here is one an approval may clear. */
  predicate Firm(reasons: seq<Reason>) {
    forall i | 0 <= i < |reasons| :: !IsApprovalReason(reasons[i])
  }

  /** One check: its reason is appended when the check fails. */
  function Add(reasons: seq<Reason>, failed: bool, r: Reason): (out: seq<Reason>)
    ensures out == [] <==> reasons == [] && !failed
    ensures Firm(reasons) && !IsApprovalReason(r) ==> Firm(out)
  {
    if failed then reasons + [r] else reasons
  }

  function BindingReasons(policy: GatePolicy, p: ActionProposal, c: GateContext): (out: seq<Reason>)
    ensures Firm(out)
  {
    var r := Add([], p.merchantId != c.merchantId, PROPOSAL_MERCHANT_MISMATCH);
    var r := Add(r, p.caseId != c.caseId, PROPOSAL_CASE_MISMATCH);
    var r := Add(r, p.createdAt > c.evaluatedAt + policy.clockSkew, ACTION_NOT_YET_VALID);
    Add(r, c.evaluatedAt >= p.expiresAt, ACTION_EXPIRED)
  }

  function ControlReasons(stage: Stage, policy: GatePolicy, p: ActionProposal, c: GateContext): (out: seq<Reason>)
    ensures Firm(out)
  {
    var r := Add([], p.actionType !in policy.allowedActions, ACTION_NOT_ALLOWED);
    var r := Add(r, IsExternal(p.actionType) && !c.effectsEnabled, ENVIRONMENT_EFFECTS_DISABLED);
    var r := Add(r, IsCollection(p.actionType) && c.globalKillSwitch, GLOBAL_KILL_SWITCH_ACTIVE);
    var r := Add(r, IsCollection(p.actionType) && c.merchantKillSwitch, MERCHANT_KILL_SWITCH_ACTIVE);
    var r := Add(r, c.aggregateVersion != c.expectedAggregateVersion, AGGREGATE_VERSION_MISMATCH);
    Add(r, !Actionable(stage, p.actionType, c.recoveryState), RECOVERY_STATE_NOT_ACTIONABLE)
  }

  /** A fact claimed to be observed later than the skew allows. */
  predicate FromFuture(observedAt: int, now: int, skew: nat) { observedAt > now + skew }

  predicate Stale(observedAt: int, now: int, maxAge: nat) { now - observedAt > maxAge }

  function TruthReasons(policy: GatePolicy, p: ActionProposal, c: GateContext): (out: seq<Reason>)
    ensures Firm(out)
  {
    if !IsCollection(p.actionType) then []
    else
      var s := c.snapshot;
      var future := FromFuture(s.observedAt, c.evaluatedAt, policy.clockSkew);
      var r := Add([], c.observationDeadline.None?, OBSERVATION_DEADLINE_MISSING);
      var r := Add(r, c.observationDeadline.Some? && c.evaluatedAt < c.observationDeadline.value,
                   OBSERVATION_WINDOW_ACTIVE);
      var r := Add(r, s.paymentState != Unpaid, PAYMENT_TRUTH_NOT_UNPAID);
      var r := Add(r, future, PROVIDER_SNAPSHOT_FROM_FUTURE);
      Add(r, !future && Stale(s.observedAt, c.evaluatedAt, policy.snapshotMaxAge), PROVIDER_SNAPSHOT_STALE)
  }

  function InstrumentReasons(p: ActionProposal, c: GateContext): (out: seq<Reason>)
    ensures Firm(out)
  {
    var s := c.snapshot;
    var priced := IsCollection(p.actionType) && p.amount.Some?;
    var foreign := priced && p.amount.value.currency != s.amountDue.currency;
    var r := Add([], p.actionType == CreateLink && s.activeInstruments > 0, ACTIVE_INSTRUMENT_EXISTS);
    var r := Add(r, (p.actionType.NotifyLink? || p.actionType.CancelLink?) && s.activeInstruments == 0,
                 ACTIVE_INSTRUMENT_REQUIRED);
    var r := Add(r, foreign, CURRENCY_MISMATCH);
    var r := Add(r, priced && !foreign && p.amount.value.minorUnits != s.amountDue.minorUnits, AMOUNT_MISMATCH);
    Add(r, priced && p.paymentMethod != Some(s.paymentMethod), PAYMENT_METHOD_MISMATCH)
  }

  function ContactReasons(policy: GatePolicy, p: ActionProposal, c: GateContext): (out: seq<Reason>)
    ensures Firm(out)
  {
    if !IsContact(p.actionType) then []
    else
      var r := Add([], !c.consentGranted, CONSENT_MISSING);
      var r := Add(r, c.optedOut, CUSTOMER_OPTED_OUT);
      var r := Add(r, c.cooldownUntil.Some? && c.evaluatedAt < c.cooldownUntil.value, COOLDOWN_ACTIVE);
      var r := Add(r, c.contactsInWindow >= policy.maxContacts, CONTACT_CAP_REACHED);
      Add(r, c.quietHours, QUIET_HOURS_ACTIVE)
  }

  function HealthReasons(policy: GatePolicy, p: ActionProposal, c: GateContext): (out: seq<Reason>)
    ensures Firm(out)
  {
    if !IsCollection(p.actionType) then []
    else
      var s := c.snapshot;
      var future := FromFuture(s.healthObservedAt, c.evaluatedAt, policy.clockSkew);
      var r := Add([], future, INCIDENT_HEALTH_FROM_FUTURE);
      var r := Add(r, !future && Stale(s.healthObservedAt, c.evaluatedAt, policy.healthMaxAge),
                   INCIDENT_HEALTH_STALE);
      var r := Add(r, s.incidentState == Confirmed, PAYMENT_METHOD_UNHEALTHY);
      Add(r, c.attemptsUsed >= policy.maxAttempts, ATTEMPT_BUDGET_EXHAUSTED)
  }

  predicate PolicyCurrencyDiffers(policy: GatePolicy, p: ActionProposal) {
    IsCollection(p.actionType) && p.amount.Some? && p.amount.value.currency != policy.approvalThreshold.currency
  }

  function PolicyCurrencyReasons(policy: GatePolicy, p: ActionProposal): (out: seq<Reason>)
    ensures Firm(out)
  {
    Add([], PolicyCurrencyDiffers(policy, p), POLICY_CURRENCY_MISMATCH)
  }

  /** What makes a collection proposal need an operator. */
  function ApprovalCauses(policy: GatePolicy, p: ActionProposal, c: GateContext): (out: seq<Reason>)
    ensures OnlyApprovalReasons(out)
  {
    var r := Add([], p.amount.Some? && p.amount.value.currency == policy.approvalThreshold.currency
                     && p.amount.value.minorUnits >= policy.approvalThreshold.minorUnits,
                 HIGH_VALUE_REQUIRES_APPROVAL);
    var r := Add(r, p.modelConfidence.None?, CONFIDENCE_UNAVAILABLE);
    var r := Add(r, p.modelConfidence.Some? && p.modelConfidence.value.Below(policy.minConfidence),
                 CONFIDENCE_BELOW_THRESHOLD);
    var r := Add(r, c.abstentionRequired, ABSTENTION_REQUIRES_APPROVAL);
    Add(r, c.externalReviewRequired, EXTERNAL_DIAGNOSIS_REQUIRES_APPROVAL)
  }

  predicate ApprovalNeeded(policy: GatePolicy, p: ActionProposal, c: GateContext) {
    IsCollection(p.actionType) && (p.requiresApproval || ApprovalCauses(policy, p, c) != [])
  }

  function ApprovalFailure(p: ActionProposal, c: GateContext): (f: Option<Reason>)
    ensures f.Some? ==> IsApprovalReason(f.value)
  {
    match c.approval
    case None => Some(APPROVAL_REQUIRED)
    case Some(a) =>
      if !a.granted then Some(APPROVAL_REJECTED)
      else if c.evaluatedAt < a.approvedAt then Some(APPROVAL_NOT_YET_VALID)
      else if c.evaluatedAt >= a.expiresAt then Some(APPROVAL_EXPIRED)
      else if || a.merchantId != p.merchantId || a.caseId != p.caseId || a.actionKey != p.ActionKey()
              || a.proposalDigest != p.ProposalDigest() || a.decisionVersion != p.decisionVersion
      then Some(APPROVAL_BINDING_MISMATCH)
      else None
  }

  function ApprovalReasons(policy: GatePolicy, p: ActionProposal, c: GateContext): (out: seq<Reason>)
    ensures OnlyApprovalReasons(out)
  {
    if !ApprovalNeeded(policy, p, c) then []
    else match ApprovalFailure(p, c)
      case None => []
      case Some(r) => ApprovalCauses(policy, p, c) + [r]
  }

  predicate PlanMatches(policy: GatePolicy, plan: GateDecision, p: ActionProposal, c: GateContext) {
    && plan.stage == Policy && plan.Allowed() && plan.policyVersion == policy.version
    && plan.proposalId == p.proposalId && plan.actionKey == p.ActionKey()
    && plan.proposalDigest == p.ProposalDigest() && plan.caseId == p.caseId
    && plan.decisionVersion == p.decisionVersion
    && plan.aggregateVersion <= c.aggregateVersion && plan.evaluatedAt <= c.evaluatedAt
  }

  function EffectReasons(stage: Stage, policy: GatePolicy, p: ActionProposal, c: GateContext,
                         plan: Option<GateDecision>): (out: seq<Reason>)
    ensures Firm(out)
  {
    if !(stage.Effect? && IsExternal(p.actionType)) then []
    else
      var r := Add([], plan.None?, PLAN_AUTHORIZATION_MISSING);
      var r := Add(r, plan.Some? && !PlanMatches(policy, plan.value, p, c), PLAN_BINDING_MISMATCH);
      Add(r, !c.durableIntent, DURABLE_INTENT_MISSING)
  }

  /** Every check before the approval checks. */
  function EarlyReasons(stage: Stage, policy: GatePolicy, p: ActionProposal, c: GateContext): (out: seq<Reason>)
    ensures Firm(out)
  {
    BindingReasons(policy, p, c) + ControlReasons(stage, policy, p, c) + TruthReasons(policy, p, c)
    + InstrumentReasons(p, c) + ContactReasons(policy, p, c) + HealthReasons(policy, p, c)
    + PolicyCurrencyReasons(policy, p)
  }

  function Reasons(stage: Stage, policy: GatePolicy, p: ActionProposal, c: GateContext,
                   plan: Option<GateDecision>): seq<Reason> {
    EarlyReasons(stage, policy, p, c) + ApprovalReasons(policy, p, c) + EffectReasons(stage, policy, p, c, plan)
  }

  function Decision(stage: Stage, policy: GatePolicy, p: ActionProposal, c: GateContext,
                    plan: Option<GateDecision>): GateDecision {
    GateDecision(stage, policy.version, p.proposalId, p.ActionKey(), p.ProposalDigest(), p.caseId,
                 p.decisionVersion, c.aggregateVersion, c.evaluatedAt, Reasons(stage, policy, p, c, plan))
  }

  /** The gate as it runs: reasons are appended one check after another. */
  class DeterministicGate {
    const policy: GatePolicy

    constructor (policy: GatePolicy)
      ensures this.policy == policy
    {
      this.policy := policy;
    }

    method Evaluate(stage: Stage, p: ActionProposal, c: GateContext, plan: Option<GateDecision>)
      returns (d: GateDecision)
      ensures d == Decision(stage, policy, p, c, plan)
    {
      var binding := BindingChecks(p, c);
      var control := ControlChecks(stage, p, c);
      var truth := TruthChecks(p, c);
      var instrument := InstrumentChecks(p, c);
      var contact := ContactChecks(p, c);
      var health := HealthChecks(p, c);
      var currency, approval := ApprovalChecks(p, c);
      var effect := EffectChecks(stage, p, c, plan);
      var reasons := binding + control + truth + instrument + contact + health + currency;
      reasons := reasons + approval;
      reasons := reasons + effect;
      d := GateDecision(stage, policy.version, p.proposalId, p.ActionKey(), p.ProposalDigest(), p.caseId,
                        p.decisionVersion, c.aggregateVersion, c.evaluatedAt, reasons);
    }

    method BindingChecks(p: ActionProposal, c: GateContext) returns (reasons: seq<Reason>)
      ensures reasons == BindingReasons(policy, p, c)
    {
      reasons := [];
      if p.merchantId != c.merchantId { reasons := reasons + [PROPOSAL_MERCHANT_MISMATCH]; }
      if p.caseId != c.caseId { reasons := reasons + [PROPOSAL_CASE_MISMATCH]; }
      if p.createdAt > c.evaluatedAt + policy.clockSkew { reasons := reasons + [ACTION_NOT_YET_VALID]; }
      if c.evaluatedAt >= p.expiresAt { reasons := reasons + [ACTION_EXPIRED]; }
    }

    method ControlChecks(stage: Stage, p: ActionProposal, c: GateContext) returns (reasons: seq<Reason>)
      ensures reasons == ControlReasons(stage, policy, p, c)
    {
      reasons := [];
      if p.actionType !in policy.allowedActions { reasons := reasons + [ACTION_NOT_ALLOWED]; }
      if IsExternal(p.actionType) && !c.effectsEnabled { reasons := reasons + [ENVIRONMENT_EFFECTS_DISABLED]; }
      if IsCollection(p.actionType) && c.globalKillSwitch { reasons := reasons + [GLOBAL_KILL_SWITCH_ACTIVE]; }
      if IsCollection(p.actionType) && c.merchantKillSwitch { reasons := reasons + [MERCHANT_KILL_SWITCH_ACTIVE]; }
      if c.aggregateVersion != c.expectedAggregateVersion { reasons := reasons + [AGGREGATE_VERSION_MISMATCH]; }
      if !Actionable(stage, p.actionType, c.recoveryState) { reasons := reasons + [RECOVERY_STATE_NOT_ACTIONABLE]; }
    }

    method TruthChecks(p: ActionProposal, c: GateContext) returns (reasons: seq<Reason>)
      ensures reasons == TruthReasons(policy, p, c)
    {
      reasons := [];
      if !IsCollection(p.actionType) { return; }
      var s := c.snapshot;
      if c.observationDeadline.None? {
        reasons := reasons + [OBSERVATION_DEADLINE_MISSING];
      } else if c.evaluatedAt < c.observationDeadline.value {
        reasons := reasons + [OBSERVATION_WINDOW_ACTIVE];
      }
      if s.paymentState != Unpaid { reasons := reasons + [PAYMENT_TRUTH_NOT_UNPAID]; }
      if s.observedAt > c.evaluatedAt + policy.clockSkew {
        reasons := reasons + [PROVIDER_SNAPSHOT_FROM_FUTURE];
      } else if c.evaluatedAt - s.observedAt > policy.snapshotMaxAge {
        reasons := reasons + [PROVIDER_SNAPSHOT_STALE];
      }
    }

    method InstrumentChecks(p: ActionProposal, c: GateContext) returns (reasons: seq<Reason>)
      ensures reasons == InstrumentReasons(p, c)
    {
      reasons := [];
      var s := c.snapshot;
      if p.actionType == CreateLink {
        if s.activeInstruments > 0 { reasons := reasons + [ACTIVE_INSTRUMENT_EXISTS]; }
      } else if (p.actionType.NotifyLink? || p.actionType.CancelLink?) && s.activeInstruments == 0 {
        reasons := reasons + [ACTIVE_INSTRUMENT_REQUIRED];
      }
      if IsCollection(p.actionType) && p.amount.Some? {
        if p.amount.value.currency != s.amountDue.currency {
          reasons := reasons + [CURRENCY_MISMATCH];
        } else if p.amount.value.minorUnits != s.amountDue.minorUnits {
          reasons := reasons + [AMOUNT_MISMATCH];
        }
        if p.paymentMethod != Some(s.paymentMethod) { reasons := reasons + [PAYMENT_METHOD_MISMATCH]; }
      }
    }

    method ContactChecks(p: ActionProposal, c: GateContext) returns (reasons: seq<Reason>)
      ensures reasons == ContactReasons(policy, p, c)
    {
      reasons := [];
      if !IsContact(p.actionType) { return; }
      if !c.consentGranted { reasons := reasons + [CONSENT_MISSING]; }
      if c.optedOut { reasons := reasons + [CUSTOMER_OPTED_OUT]; }
      if c.cooldownUntil.Some? && c.evaluatedAt < c.cooldownUntil.value { reasons := reasons + [COOLDOWN_ACTIVE]; }
      if c.contactsInWindow >= policy.maxContacts { reasons := reasons + [CONTACT_CAP_REACHED]; }
      if c.quietHours { reasons := reasons + [QUIET_HOURS_ACTIVE]; }
    }

    method HealthChecks(p: ActionProposal, c: GateContext) returns (reasons: seq<Reason>)
      ensures reasons == HealthReasons(policy, p, c)
    {
      reasons := [];
      if !IsCollection(p.actionType) { return; }
      var s := c.snapshot;
      if s.healthObservedAt > c.evaluatedAt + policy.clockSkew {
        reasons := reasons + [INCIDENT_HEALTH_FROM_FUTURE];
      } else if c.evaluatedAt - s.healthObservedAt > policy.healthMaxAge {
        reasons := reasons + [INCIDENT_HEALTH_STALE];
      }
      if s.incidentState == Confirmed { reasons := reasons + [PAYMENT_METHOD_UNHEALTHY]; }
      if c.attemptsUsed >= policy.maxAttempts { reasons := reasons + [ATTEMPT_BUDGET_EXHAUSTED]; }
    }

    method ApprovalChecks(p: ActionProposal, c: GateContext) returns (currency: seq<Reason>, reasons: seq<Reason>)
      ensures currency == PolicyCurrencyReasons(policy, p)
      ensures reasons == ApprovalReasons(policy, p, c)
    {
      currency, reasons := [], [];
      if !IsCollection(p.actionType) { return; }
      var causes := [];
      if p.amount.Some? {
        if p.amount.value.currency != policy.approvalThreshold.currency {
          currency := currency + [POLICY_CURRENCY_MISMATCH];
        } else if p.amount.value.minorUnits >= policy.approvalThreshold.minorUnits {
          causes := causes + [HIGH_VALUE_REQUIRES_APPROVAL];
        }
      }
      if p.modelConfidence.None? {
        causes := causes + [CONFIDENCE_UNAVAILABLE];
      } else if p.modelConfidence.value.Below(policy.minConfidence) {
        causes := causes + [CONFIDENCE_BELOW_THRESHOLD];
      }
      if c.abstentionRequired { causes := causes + [ABSTENTION_REQUIRES_APPROVAL]; }
      if c.externalReviewRequired { causes := causes + [EXTERNAL_DIAGNOSIS_REQUIRES_APPROVAL]; }
      assert causes == ApprovalCauses(policy, p, c);
      if p.requiresApproval || causes != [] {
        var failure := ApprovalFailure(p, c);
        if failure.Some? {
          reasons := causes;
          reasons := reasons + [failure.value];
        }
      }
    }

    method EffectChecks(stage: Stage, p: ActionProposal, c: GateContext, plan: Option<GateDecision>)
      returns (reasons: seq<Reason>)
      ensures reasons == EffectReasons(stage, policy, p, c, plan)
    {
      reasons := [];
      if stage.Effect? && IsExternal(p.actionType) {
        if plan.None? {
          reasons := reasons + [PLAN_AUTHORIZATION_MISSING];
        } else if !PlanMatches(policy, plan.value, p, c) {
          reasons := reasons + [PLAN_BINDING_MISMATCH];
        }
        if !c.durableIntent { reasons := reasons + [DURABLE_INTENT_MISSING]; }
      }
    }
  }

  // ---- What an allowed decision means ----

  /** Everything an allowed effect decision on a collection proposal has seen. */
  ghost predicate EffectEvidence(policy: GatePolicy, p: ActionProposal, c: GateContext, plan: Option<GateDecision>) {
    && p.merchantId == c.merchantId && p.caseId == c.caseId
    && p.createdAt <= c.evaluatedAt + policy.clockSkew && c.evaluatedAt < p.expiresAt
    && p.actionType in policy.allowedActions
    && c.effectsEnabled && !c.globalKillSwitch && !c.merchantKillSwitch
    && c.aggregateVersion == c.expectedAggregateVersion
    && (|| c.recoveryState == ActionQueued || c.recoveryState == Executing
        || c.recoveryState == (if p.actionType == CreateLink then ActionUncertain else Active))
    && c.observationDeadline.Some? && c.observationDeadline.value <= c.evaluatedAt
    && c.snapshot.paymentState == Unpaid
    && Fresh(c.snapshot.observedAt, c.evaluatedAt, policy.clockSkew, policy.snapshotMaxAge)
    && (if p.actionType == CreateLink then c.snapshot.activeInstruments == 0 else c.snapshot.activeInstruments > 0)
    && p.amount == Some(c.snapshot.amountDue)
    && p.amount.value.currency == policy.approvalThreshold.currency
    && p.paymentMethod == Some(c.snapshot.paymentMethod)
    && Fresh(c.snapshot.healthObservedAt, c.evaluatedAt, policy.clockSkew, policy.healthMaxAge)
    && c.snapshot.incidentState != Confirmed
    && c.attemptsUsed < policy.maxAttempts
    && (Modest(policy, p, c) || (c.approval.Some? && Unlocks(c.approval.value, p, c.evaluatedAt)))
    && c.durableIntent && plan.Some? && Earlier(plan.value, policy, p, c)
    && ContactEvidence(policy, p, c)
  }

  /** A collection proposal nobody has to be asked about. */
  predicate Modest(policy: GatePolicy, p: ActionProposal, c: GateContext) {
    && !p.requiresApproval && p.amount.Some? && p.amount.value.minorUnits < policy.approvalThreshold.minorUnits
    && p.modelConfidence.Some? && p.modelConfidence.value.Worth() >= policy.minConfidence.Worth()
    && !c.abstentionRequired && !c.externalReviewRequired
  }

  /** Granted, in its window, and bound to exactly this proposal. */
  predicate Unlocks(a: Approval, p: ActionProposal, now: int) {
    && a.granted && a.approvedAt <= now < a.expiresAt
    && a.merchantId == p.merchantId && a.caseId == p.caseId && a.actionKey == p.ActionKey()
    && a.proposalDigest == p.ProposalDigest() && a.decisionVersion == p.decisionVersion
  }

  /** An allowed policy decision on exactly this proposal under this policy, no later than now. */
  predicate Earlier(d: GateDecision, policy: GatePolicy, p: ActionProposal, c: GateContext) {
    && d.stage == Policy && d.reasons == [] && d.policyVersion == policy.version
    && d.proposalId == p.proposalId && d.actionKey == p.ActionKey() && d.proposalDigest == p.ProposalDigest()
    && d.caseId == p.caseId && d.decisionVersion == p.decisionVersion
    && d.aggregateVersion <= c.aggregateVersion && d.evaluatedAt <= c.evaluatedAt
  }

  lemma ModestIsUnasked(policy: GatePolicy, p: ActionProposal, c: GateContext)
    requires IsCollection(p.actionType) && p.amount.Some? && p.amount.value.currency == policy.approvalThreshold.currency
    ensures ApprovalNeeded(policy, p, c) <==> !Modest(policy, p, c)
  {
    hide Probability.Below, Probability.Worth, IsApprovalReason, OnlyApprovalReasons, Firm;
    if p.modelConfidence.Some? { BelowIsWorthLess(p.modelConfidence.value, policy.minConfidence); }
  }

  /** Observed no later than the skew allows and no longer ago than `maxAge`. */
  predicate Fresh(observedAt: int, now: int, skew: nat, maxAge: nat) {
    now - maxAge <= observedAt <= now + skew
  }

  ghost predicate ContactEvidence(policy: GatePolicy, p: ActionProposal, c: GateContext) {
    p.actionType == NotifyLink ==>
      && c.consentGranted && !c.optedOut && !c.quietHours && c.contactsInWindow < policy.maxContacts
      && (c.cooldownUntil.Some? ==> c.cooldownUntil.value <= c.evaluatedAt)
  }

  lemma ControlEvidence(policy: GatePolicy, p: ActionProposal, c: GateContext)
    requires IsCollection(p.actionType)
    ensures BindingReasons(policy, p, c) == [] && ControlReasons(Effect, policy, p, c) == []
       <==> && p.merchantId == c.merchantId && p.caseId == c.caseId
            && p.createdAt <= c.evaluatedAt + policy.clockSkew && c.evaluatedAt < p.expiresAt
            && p.actionType in policy.allowedActions
            && c.effectsEnabled && !c.globalKillSwitch && !c.merchantKillSwitch
            && c.aggregateVersion == c.expectedAggregateVersion
            && (|| c.recoveryState == ActionQueued || c.recoveryState == Executing
                || c.recoveryState == (if p.actionType == CreateLink then ActionUncertain else Active))
  {
    hide Firm, IsApprovalReason;
  }

  lemma MoneyEvidence(policy: GatePolicy, p: ActionProposal, c: GateContext)
    requires IsCollection(p.actionType) && p.amount.Some? && p.paymentMethod.Some?
    ensures InstrumentReasons(p, c) == [] && PolicyCurrencyReasons(policy, p) == []
       <==> && (if p.actionType == CreateLink then c.snapshot.activeInstruments == 0
                else c.snapshot.activeInstruments > 0)
            && p.amount == Some(c.snapshot.amountDue)
            && p.amount.value.currency == policy.approvalThreshold.currency
            && p.paymentMethod == Some(c.snapshot.paymentMethod)
  {
    hide Firm, IsApprovalReason;
    assert InstrumentReasons(p, c) == [] ==> p.amount.value == c.snapshot.amountDue;
  }

  lemma FreshEvidence(policy: GatePolicy, p: ActionProposal, c: GateContext)
    requires IsCollection(p.actionType)
    ensures TruthReasons(policy, p, c) == [] && HealthReasons(policy, p, c) == []
       <==> && c.observationDeadline.Some? && c.observationDeadline.value <= c.evaluatedAt
            && c.snapshot.paymentState == Unpaid
            && Fresh(c.snapshot.observedAt, c.evaluatedAt, policy.clockSkew, policy.snapshotMaxAge)
            && Fresh(c.snapshot.healthObservedAt, c.evaluatedAt, policy.clockSkew, policy.healthMaxAge)
            && c.snapshot.incidentState != Confirmed
            && c.attemptsUsed < policy.maxAttempts
  {
    hide Firm, IsApprovalReason;
  }

  lemma PermissionEvidence(policy: GatePolicy, p: ActionProposal, c: GateContext, plan: Option<GateDecision>)
    requires IsCollection(p.actionType) && p.amount.Some? && p.amount.value.currency == policy.approvalThreshold.currency
    ensures ApprovalReasons(policy, p, c) == []
       <==> Modest(policy, p, c) || (c.approval.Some? && Unlocks(c.approval.value, p, c.evaluatedAt))
    ensures EffectReasons(Effect, policy, p, c, plan) == []
       <==> c.durableIntent && plan.Some? && Earlier(plan.value, policy, p, c)
  {
    hide Firm, IsApprovalReason, ActionProposal.ActionKey, ActionProposal.ProposalDigest, ApprovalCauses, ApprovalNeeded,
         Modest;
    ModestIsUnasked(policy, p, c);
  }

  lemma ContactReasonsNone(policy: GatePolicy, p: ActionProposal, c: GateContext)
    ensures ContactReasons(policy, p, c) == [] <==> ContactEvidence(policy, p, c)
  {
    hide Firm, IsApprovalReason;
  }

  lemma NoReasons(stage: Stage, policy: GatePolicy, p: ActionProposal, c: GateContext, plan: Option<GateDecision>)
    ensures Reasons(stage, policy, p, c, plan) == []
       <==> && BindingReasons(policy, p, c) == [] && ControlReasons(stage, policy, p, c) == []
            && TruthReasons(policy, p, c) == [] && InstrumentReasons(p, c) == [] && ContactReasons(policy, p, c) == []
            && HealthReasons(policy, p, c) == [] && PolicyCurrencyReasons(policy, p) == []
            && ApprovalReasons(policy, p, c) == [] && EffectReasons(stage, policy, p, c, plan) == []
  {
    hide BindingReasons, ControlReasons, TruthReasons, InstrumentReasons, ContactReasons, HealthReasons,
         PolicyCurrencyReasons, ApprovalReasons, EffectReasons, Firm, OnlyApprovalReasons, IsApprovalReason;
  }

  /** The effect gate allows a collection proposal exactly on full evidence. */
  lemma AllowedIffEvidence(policy: GatePolicy, p: ActionProposal, c: GateContext, plan: Option<GateDecision>)
    requires IsCollection(p.actionType) && p.Valid()
    ensures Decision(Effect, policy, p, c, plan).Allowed() <==> EffectEvidence(policy, p, c, plan)
  {
    hide ActionProposal.ActionKey, ActionProposal.ProposalDigest, Modest, Unlocks, Earlier, ContactEvidence, Fresh, Reasons,
         BindingReasons, ControlReasons, TruthReasons, InstrumentReasons, ContactReasons, HealthReasons,
         PolicyCurrencyReasons, ApprovalReasons, EffectReasons, Firm, OnlyApprovalReasons, IsApprovalReason;
    NoReasons(Effect, policy, p, c, plan);
    ControlEvidence(policy, p, c);
    FreshEvidence(policy, p, c);
    MoneyEvidence(policy, p, c);
    ContactReasonsNone(policy, p, c);
    if p.amount.value.currency == policy.approvalThreshold.currency { PermissionEvidence(policy, p, c, plan); }
  }

  /** Whatever the action, an allowed decision falls inside the proposal's life, up to the clock skew. */
  lemma AllowedIsTimely(stage: Stage, policy: GatePolicy, p: ActionProposal, c: GateContext, plan: Option<GateDecision>)
    requires Decision(stage, policy, p, c, plan).Allowed()
    ensures p.createdAt <= c.evaluatedAt + policy.clockSkew && c.evaluatedAt < p.expiresAt
  {
    hide ControlReasons, TruthReasons, InstrumentReasons, ContactReasons, HealthReasons, PolicyCurrencyReasons,
         ApprovalReasons, EffectReasons, ActionProposal.ActionKey, ActionProposal.ProposalDigest;
  }

  // ---- What an approval can and cannot change ----

  /** The reasons no approval can clear, in the order the gate gave them. */
  function FirmReasons(reasons: seq<Reason>): (out: seq<Reason>) {
    if reasons == [] then []
    else
      var rest := FirmReasons(reasons[1..]);
      if IsApprovalReason(reasons[0]) then rest else [reasons[0]] + rest
  }

  lemma {:induction false} FirmReasonsConcat(a: seq<Reason>, b: seq<Reason>)
    ensures FirmReasons(a + b) == FirmReasons(a) + FirmReasons(b)
  {
    hide IsApprovalReason;
    if a == [] {
      assert a + b == b;
    } else {
      var rest := a[1..];
      assert (a + b)[0] == a[0] && (a + b)[1..] == rest + b;
      FirmReasonsConcat(rest, b);
      Regroup([a[0]], FirmReasons(rest), FirmReasons(b));
    }
  }

  lemma Regroup(a: seq<Reason>, b: seq<Reason>, c: seq<Reason>)
    ensures a + b + c == a + (b + c)
  {}

  lemma {:induction false} FirmReasonsOf(s: seq<Reason>)
    ensures Firm(s) ==> FirmReasons(s) == s
    ensures OnlyApprovalReasons(s) ==> FirmReasons(s) == []
  {
    if s != [] { FirmReasonsOf(s[1..]); }
  }

  /** The reasons split into those no approval touches and the approval block between them. */
  lemma FirmReasonsOfGate(stage: Stage, policy: GatePolicy, p: ActionProposal, c: GateContext,
                          plan: Option<GateDecision>)
    ensures FirmReasons(Reasons(stage, policy, p, c, plan))
         == EarlyReasons(stage, policy, p, c) + EffectReasons(stage, policy, p, c, plan)
  {
    var early, approval, effect :=
      EarlyReasons(stage, policy, p, c), ApprovalReasons(policy, p, c), EffectReasons(stage, policy, p, c, plan);
    FirmReasonsConcat(early + approval, effect);
    FirmReasonsConcat(early, approval);
    FirmReasonsOf(early);
    FirmReasonsOf(approval);
    FirmReasonsOf(effect);
  }

  /** No check outside the approval block reads the approval. */
  lemma EarlyIgnoresApproval(stage: Stage, policy: GatePolicy, p: ActionProposal, c: GateContext,
                             approval: Option<Approval>)
    ensures EarlyReasons(stage, policy, p, c.(approval := approval)) == EarlyReasons(stage, policy, p, c)
  {
    hide Add, Firm, IsCollection, IsExternal, IsContact, FromFuture, Stale;
    var c' := c.(approval := approval);
    assert ControlReasons(stage, policy, p, c') == ControlReasons(stage, policy, p, c);
    assert TruthReasons(policy, p, c') == TruthReasons(policy, p, c);
    assert InstrumentReasons(p, c') == InstrumentReasons(p, c);
    assert ContactReasons(policy, p, c') == ContactReasons(policy, p, c);
    assert HealthReasons(policy, p, c') == HealthReasons(policy, p, c);
  }

  lemma EffectIgnoresApproval(stage: Stage, policy: GatePolicy, p: ActionProposal, c: GateContext,
                              plan: Option<GateDecision>, approval: Option<Approval>)
    ensures EffectReasons(stage, policy, p, c.(approval := approval), plan) == EffectReasons(stage, policy, p, c, plan)
  {
    assert plan.Some? ==>
      PlanMatches(policy, plan.value, p, c.(approval := approval)) == PlanMatches(policy, plan.value, p, c);
  }

  /** Replacing the approval leaves every other reason, and their order, as it was. */
  lemma ApprovalChangesOnlyApprovalReasons(stage: Stage, policy: GatePolicy, p: ActionProposal, c: GateContext,
                                           plan: Option<GateDecision>, approval: Option<Approval>)
    ensures FirmReasons(Reasons(stage, policy, p, c.(approval := approval), plan))
         == FirmReasons(Reasons(stage, policy, p, c, plan))
  {
    FirmReasonsOfGate(stage, policy, p, c, plan);
    FirmReasonsOfGate(stage, policy, p, c.(approval := approval), plan);
    EarlyIgnoresApproval(stage, policy, p, c, approval);
    EffectIgnoresApproval(stage, policy, p, c, plan, approval);
  }

  lemma UnlocksIffNoFailure(policy: GatePolicy, p: ActionProposal, c: GateContext, a: Approval)
    ensures ApprovalReasons(policy, p, c.(approval := Some(a))) == []
       <==> (ApprovalNeeded(policy, p, c) ==> Unlocks(a, p, c.evaluatedAt))
  {
    hide Add, IsApprovalReason, ActionProposal.ActionKey, ActionProposal.ProposalDigest;
    var c' := c.(approval := Some(a));
    assert ApprovalCauses(policy, p, c') == ApprovalCauses(policy, p, c);
    assert ApprovalFailure(p, c').None? <==> Unlocks(a, p, c.evaluatedAt);
  }

  /** An approval makes a decision allowed exactly when it had only approval reasons to clear. */
  lemma ApprovalUnlocks(stage: Stage, policy: GatePolicy, p: ActionProposal, c: GateContext,
                        plan: Option<GateDecision>, a: Approval)
    requires c.approval.None?
    ensures Decision(stage, policy, p, c.(approval := Some(a)), plan).Allowed()
       <==> && OnlyApprovalReasons(Decision(stage, policy, p, c, plan).reasons)
            && (ApprovalNeeded(policy, p, c) ==> Unlocks(a, p, c.evaluatedAt))
  {
    FirmReasonsOfGate(stage, policy, p, c, plan);
    EarlyIgnoresApproval(stage, policy, p, c, Some(a));
    EffectIgnoresApproval(stage, policy, p, c, plan, Some(a));
    UnlocksIffNoFailure(policy, p, c, a);
    OnlyApprovalIff(Reasons(stage, policy, p, c, plan));
  }

  predicate OnlyApprovalReasons(reasons: seq<Reason>) {
    forall i | 0 <= i < |reasons| :: IsApprovalReason(reasons[i])
  }

  lemma {:induction false} OnlyApprovalIff(s: seq<Reason>)
    ensures OnlyApprovalReasons(s) <==> FirmReasons(s) == []
  {
    if s != [] {
      OnlyApprovalIff(s[1..]);
      assert OnlyApprovalReasons(s) <==> IsApprovalReason(s[0]) && OnlyApprovalReasons(s[1..]) by {
        forall i | 1 <= i < |s| ensures s[i] == s[1..][i - 1] {}
      }
    }
  }
}
