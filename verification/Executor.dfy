/**
 One leased delivery of a create command: bind, read fresh truth, authorize,
 then at most one create, with every unknown outcome settled by a lookup.
 */
module Executor {
  import opened Outcomes
  import opened Text
  import opened Calendar
  import opened Json
  import opened Hashing
  import opened Actions
  import opened Gate
  import PL = PaymentLinks
  import Backoff
  import Outbox

  /** The immutable effect envelope stored behind an outbox row. */
  datatype Command = Command(proposal: ActionProposal, plan: GateDecision, request: PL.Request, accountId: string) {
    function RequestDigest(): Digest {
      Sha256Hex(Print(request.ToJson()))
    }

    function PayloadDigest(): Digest {
      Sha256Hex(Print(Record(PayloadKeys(), [
        Str(proposal.ActionKey()), Str(proposal.merchantId), Str(plan.DecisionDigest()),
        Str(proposal.ProposalDigest()), Str(accountId), Str(request.referenceId), Str(RequestDigest()),
        Str("retrywise-create-payment-link-command-v1")])))
    }
  }

  function PayloadKeys(): seq<string> {
    ["action_key", "merchant_id", "prior_plan_digest", "proposal_digest", "provider_account_id", "reference_id",
     "request_digest", "schema"]
  }

  /** Authorization material recorded before any external effect. */
  datatype Intent = Intent(actionKey: string, merchantId: string, accountId: string, proposalDigest: string,
                           planDigest: string, requestDigest: string, payloadDigest: string, referenceId: string,
                           recordedAt: UtcTime)
  {
    predicate Matches(c: Command) {
      && actionKey == c.proposal.ActionKey() && merchantId == c.proposal.merchantId && accountId == c.accountId
      && proposalDigest == c.proposal.ProposalDigest() && planDigest == c.plan.DecisionDigest()
      && requestDigest == c.RequestDigest() && payloadDigest == c.PayloadDigest()
      && referenceId == c.request.referenceId
    }
  }

  function RecordIntent(c: Command, at: UtcTime): (i: Intent)
    ensures i.Matches(c)
  {
    Intent(c.proposal.ActionKey(), c.proposal.merchantId, c.accountId, c.proposal.ProposalDigest(),
           c.plan.DecisionDigest(), c.RequestDigest(), c.PayloadDigest(), c.request.referenceId, at)
  }

  /** An adapter's verdict on a create; whatever is unknown is ambiguous. */
  datatype CreateOutcome = Succeeded(linkId: string) | FailedSafely(code: string) | Ambiguous(code: string)

  datatype Disposition = CREATED | ADOPTED | SUPPRESSED | REQUEUED | REQUERY_REQUIRED | ESCALATED | DEAD_LETTER

  datatype ExecutionResult = ExecutionResult(disposition: Disposition, job: Outbox.Job, effect: GateDecision,
                                             reason: string, referenceId: string, linkId: Option<string>)

  /** A port answers or raises. */
  datatype Port<T> = Answer(value: T) | Raises

  /** What every port would answer during one delivery. */
  datatype Ports = Ports(firstNow: UtcTime, intent: Port<Option<Intent>>, context: Port<GateContext>,
                         secondNow: UtcTime, record: Port<()>, create: Port<CreateOutcome>, lookup: Port<PL.Lookup>)

  datatype Call = LoadIntent | LoadContext | RecordAuthorization(reconcileOnly: bool) | CallCreate | CallLookup

  datatype Failure = LeaseFault | PortFault | JobFault

  /** The outcome of a delivery and the port calls it made, in order. */
  datatype Run = Run(result: Result<ExecutionResult, Failure>, calls: seq<Call>)

  function BindingFailure(job: Outbox.Job, c: Command, intent: Option<Intent>): Option<string> {
    var p := c.proposal;
    if job.actionKey != p.ActionKey() then Some("job_action_key_mismatch")
    else if job.payloadDigest != c.PayloadDigest() then Some("job_payload_digest_mismatch")
    else if p.actionType != ActionType.CreateLink then Some("proposal_action_type_mismatch")
    else if p.amount.None? then Some("proposal_amount_missing")
    else if p.amount.value.minorUnits != c.request.amountMinor then Some("proposal_request_amount_mismatch")
    else if p.amount.value.currency != c.request.currency then Some("proposal_request_currency_mismatch")
    else if intent.None? then Some("durable_intent_missing")
    else if !intent.value.Matches(c) then Some("durable_intent_command_mismatch")
    else None
  }

  function ReasonList(reasons: seq<Reason>): string {
    if reasons == [] then ""
    else if |reasons| == 1 then ReasonName(reasons[0])
    else ReasonName(reasons[0]) + "," + ReasonList(reasons[1..])
  }

  predicate AuthorizationFault(reasons: seq<Reason>) {
    PLAN_AUTHORIZATION_MISSING in reasons || PLAN_BINDING_MISMATCH in reasons || DURABLE_INTENT_MISSING in reasons
  }

  /** What the delivery holds while it decides: its lease, its clock reading, and the gate's verdict. */
  datatype Delivery = Delivery(job: Outbox.Job, command: Command, worker: string, now: UtcTime, effect: GateDecision,
                               backoff: Backoff.Policy)
  {
    function Token(): string {
      if job.token.Some? && job.token.value != "" then job.token.value else "missing-lease-token"
    }

    function Done(d: Disposition, r: Outbox.JobResult, reason: string, linkId: Option<string>)
      : Result<ExecutionResult, Failure>
    {
      match r
      case Err(_) => Err(JobFault)
      case Ok(j) => Ok(ExecutionResult(d, j, effect, reason, command.request.referenceId, linkId))
    }

    function Escalate(reason: string): Result<ExecutionResult, Failure> {
      Done(ESCALATED, Outbox.Bury(job, worker, Token(), now, job.version, reason), reason, None)
    }

    function Suppress(reason: string): Result<ExecutionResult, Failure> {
      Done(SUPPRESSED, Outbox.Complete(job, worker, Token(), now, job.version, "suppressed_" + effect.DecisionDigest()),
           reason, None)
    }

    function Finish(d: Disposition, linkId: string, reason: string): Result<ExecutionResult, Failure> {
      Done(d, Outbox.Complete(job, worker, Token(), now, job.version, linkId), reason, Some(linkId))
    }

    /** The last attempt turns a retry into a dead letter. */
    function Requeue(reason: string, mode: Outbox.RetryMode, d: Disposition): Result<ExecutionResult, Failure> {
      var r := Outbox.Requeue(job, worker, Token(), now, job.version, reason, backoff, mode);
      Done(if r.Ok? && r.value.state.DeadLetter? then DEAD_LETTER else d, r, reason, None)
    }

    function AfterLookup(lookup: PL.Lookup): Result<ExecutionResult, Failure> {
      match PL.DecideAmbiguousCreate(command.request, lookup)
      case Adopt(linkId) => Finish(ADOPTED, linkId, "matching_link_proves_create_succeeded")
      case RetrySameReference => Requeue("completed_lookup_found_no_link", Outbox.RetrySameEffect, REQUEUED)
      case Requery => Requeue("lookup_not_completed", Outbox.ReconcileOnly, REQUERY_REQUIRED)
      case Escalate(why) => Escalate("ambiguous_create_conflict:" + why)
    }

    function Reconcile(lookup: Port<PL.Lookup>): Run {
      match lookup
      case Raises => Run(Err(PortFault), [CallLookup])
      case Answer(l) => Run(AfterLookup(l), [CallLookup])
    }

    function AfterCreate(create: Port<CreateOutcome>, lookup: Port<PL.Lookup>): Run {
      match create
      case Raises => Run(Err(PortFault), [CallCreate])
      case Answer(Succeeded(linkId)) => Run(Finish(CREATED, linkId, "provider_confirmed_create"), [CallCreate])
      case Answer(FailedSafely(code)) =>
        Run(Requeue("certain_failure:" + code, Outbox.RetrySameEffect, REQUEUED), [CallCreate])
      case Answer(Ambiguous(_)) => Reconcile(lookup).(calls := [CallCreate, CallLookup])
    }

    /** The effect itself, once authorized and recorded. */
    function Perform(create: Port<CreateOutcome>, lookup: Port<PL.Lookup>): Run {
      if job.mode.ReconcileOnly? then Reconcile(lookup)
      else
        match PL.ValidateExpiry(command.request.expireBy, PL.EpochSeconds(now))
        case Ok(_) => AfterCreate(create, lookup)
        case Err(OutOfRange) => Run(Err(PortFault), [])
        case Err(e) => Run(Escalate("request_not_effect_safe:" + ExpiryMessage(e)), [])
    }

    function Denied(): Result<ExecutionResult, Failure>
    {
      if AuthorizationFault(effect.reasons) then Escalate("effect_authorization_fault:" + ReasonList(effect.reasons))
      else if PAYMENT_TRUTH_NOT_UNPAID in effect.reasons then Suppress("fresh_payment_truth_blocks_collection")
      else Suppress("effect_gate_denied:" + ReasonList(effect.reasons))
    }
  }

  function ExpiryMessage(e: PL.LinkError): string {
    match e
    case TooSoon => "expire_by_epoch must be at least 15 minutes in the future"
    case TooLate => "expire_by_epoch cannot be more than six calendar months ahead"
    case NegativeClock => "now_epoch must be a non-negative integer epoch"
    case OutOfRange => "year 10000 is out of range"
  }

  function Judge(policy: GatePolicy, backoff: Backoff.Policy, job: Outbox.Job, c: Command, worker: string,
                 intent: Option<Intent>, context: GateContext, now: UtcTime): Delivery {
    var proved := intent.Some? && BindingFailure(job, c, intent).None?;
    var effect := Decision(Effect, policy, c.proposal, context.(evaluatedAt := now, durableIntent := proved),
                           Some(c.plan));
    Delivery(job, c, worker, now, effect, backoff)
  }

  predicate Live(job: Outbox.Job, worker: string, now: int) {
    var token := if job.token.Some? && job.token.value != "" then job.token.value else "missing-lease-token";
    Outbox.ActiveLease(job, worker, token, now).Ok?
  }

  /** A whole delivery as a function of what its ports answer. */
  function Outcome(policy: GatePolicy, backoff: Backoff.Policy, job: Outbox.Job, c: Command, worker: string,
                   ports: Ports): Run {
    if !Live(job, worker, ports.firstNow) then Run(Err(LeaseFault), [])
    else if ports.intent.Raises? then Run(Err(PortFault), [LoadIntent])
    else if ports.context.Raises? then Run(Err(PortFault), [LoadIntent, LoadContext])
    else if !Live(job, worker, ports.secondNow) then Run(Err(LeaseFault), [LoadIntent, LoadContext])
    else
      var intent := ports.intent.value;
      var d := Judge(policy, backoff, job, c, worker, intent, ports.context.value, ports.secondNow);
      match BindingFailure(job, c, intent)
      case Some(why) => Run(d.Escalate("binding_failure:" + why), [LoadIntent, LoadContext])
      case None =>
        if !d.effect.Allowed() then Run(d.Denied(), [LoadIntent, LoadContext])
        else
          var before := [LoadIntent, LoadContext, RecordAuthorization(job.mode.ReconcileOnly?)];
          if ports.record.Raises? then Run(Err(PortFault), before)
          else
            var run := d.Perform(ports.create, ports.lookup);
            Run(run.result, before + run.calls)
  }

  /** The executor as it runs: ports are called in order and each call is recorded. */
  class CreateExecutor {
    const gate: DeterministicGate
    const backoff: Backoff.Policy
    var calls: seq<Call>

    constructor (gate: DeterministicGate, backoff: Backoff.Policy)
      ensures this.gate == gate && this.backoff == backoff && calls == []
    {
      this.gate := gate;
      this.backoff := backoff;
      calls := [];
    }

    method Execute(job: Outbox.Job, c: Command, worker: string, ports: Ports)
      returns (r: Result<ExecutionResult, Failure>)
      modifies this`calls
      ensures r == Outcome(gate.policy, backoff, job, c, worker, ports).result
      ensures calls == old(calls) + Outcome(gate.policy, backoff, job, c, worker, ports).calls
    {
      hide Outbox.ActiveLease, BindingFailure, Decision, Delivery.Perform, Delivery.Escalate, Delivery.Denied;
      var now := ports.firstNow;
      if !Live(job, worker, now) { return Err(LeaseFault); }
      calls := calls + [LoadIntent];
      if ports.intent.Raises? { return Err(PortFault); }
      var intent := ports.intent.value;
      var failure := BindingFailure(job, c, intent);
      calls := calls + [LoadContext];
      if ports.context.Raises? { return Err(PortFault); }
      now := ports.secondNow;
      if !Live(job, worker, now) { return Err(LeaseFault); }
      var context := ports.context.value.(evaluatedAt := now, durableIntent := intent.Some? && failure.None?);
      var effect := gate.Evaluate(Effect, c.proposal, context, Some(c.plan));
      var d := Delivery(job, c, worker, now, effect, backoff);
      if failure.Some? { return d.Escalate("binding_failure:" + failure.value); }
      if !effect.Allowed() { return d.Denied(); }
      calls := calls + [RecordAuthorization(job.mode.ReconcileOnly?)];
      if ports.record.Raises? { return Err(PortFault); }
      r := PerformEffect(d, ports);
    }

    method PerformEffect(d: Delivery, ports: Ports) returns (r: Result<ExecutionResult, Failure>)
      modifies this`calls
      ensures r == d.Perform(ports.create, ports.lookup).result
      ensures calls == old(calls) + d.Perform(ports.create, ports.lookup).calls
    {
      hide Delivery.AfterLookup, Delivery.Finish, Delivery.Requeue, Delivery.Escalate, PL.ValidateExpiry;
      if !d.job.mode.ReconcileOnly? {
        var valid := PL.ValidateExpiry(d.command.request.expireBy, PL.EpochSeconds(d.now));
        if valid == Err(PL.OutOfRange) { return Err(PortFault); }
        if valid.Err? { return d.Escalate("request_not_effect_safe:" + ExpiryMessage(valid.error)); }
        calls := calls + [CallCreate];
        if ports.create.Raises? { return Err(PortFault); }
        match ports.create.value {
          case Succeeded(linkId) => return d.Finish(CREATED, linkId, "provider_confirmed_create");
          case FailedSafely(code) => return d.Requeue("certain_failure:" + code, Outbox.RetrySameEffect, REQUEUED);
          case Ambiguous(_) =>
        }
      }
      calls := calls + [CallLookup];
      if ports.lookup.Raises? { return Err(PortFault); }
      r := d.AfterLookup(ports.lookup.value);
    }
  }

  // ---- What every delivery guarantees ----

  /** The gate context a delivery is judged in: fresh truth, the second clock reading, the proved intent. */
  function JudgedContext(job: Outbox.Job, c: Command, ports: Ports): GateContext
    requires ports.intent.Answer? && ports.context.Answer?
  {
    ports.context.value.(evaluatedAt := ports.secondNow,
                         durableIntent := ports.intent.value.Some?
                                          && BindingFailure(job, c, ports.intent.value).None?)
  }

  lemma PerformCalls(d: Delivery, create: Port<CreateOutcome>, lookup: Port<PL.Lookup>)
    ensures var calls := d.Perform(create, lookup).calls;
      && (d.job.mode.ReconcileOnly? ==> calls == [CallLookup])
      && (CallCreate in calls ==> calls[0] == CallCreate && !d.job.mode.ReconcileOnly?)
      && (forall i | 1 <= i < |calls| :: calls[i] == CallLookup)
      && |calls| <= 2
  {
    hide Delivery.AfterLookup, Delivery.Finish, Delivery.Requeue, Delivery.Escalate, PL.ValidateExpiry;
  }

  /** A reconcile-only delivery never creates; any other creates at most once, right after its recorded authorization. */
  lemma CreatesOnlyWhenRecorded(policy: GatePolicy, backoff: Backoff.Policy, job: Outbox.Job, c: Command,
                                worker: string, ports: Ports)
    ensures var calls := Outcome(policy, backoff, job, c, worker, ports).calls;
      && (job.mode.ReconcileOnly? ==> CallCreate !in calls)
      && forall i | 0 <= i < |calls| && calls[i].CallCreate? :: i == 3 && calls[2] == RecordAuthorization(false)
  {
    hide Live, BindingFailure, Decision, Delivery.Perform, Delivery.Escalate, Delivery.Denied;
    if ports.intent.Answer? && ports.context.Answer? {
      var d := Judge(policy, backoff, job, c, worker, ports.intent.value, ports.context.value, ports.secondNow);
      PerformCalls(d, ports.create, ports.lookup);
    }
  }

  /** All that must hold before a delivery calls create. */
  ghost predicate CreateCleared(policy: GatePolicy, job: Outbox.Job, c: Command, worker: string, ports: Ports) {
    && Live(job, worker, ports.firstNow) && Live(job, worker, ports.secondNow) && !job.mode.ReconcileOnly?
    && ports.intent.Answer? && ports.context.Answer? && ports.record.Answer?
    && BindingFailure(job, c, ports.intent.value).None?
    && EffectEvidence(policy, c.proposal, JudgedContext(job, c, ports), Some(c.plan))
    && PL.ValidateExpiry(c.request.expireBy, PL.EpochSeconds(ports.secondNow)).Ok?
  }

  /** The job, the durable intent and the request all speak of this very command and its money. */
  predicate Bound(job: Outbox.Job, c: Command, intent: Option<Intent>) {
    && job.actionKey == c.proposal.ActionKey() && job.payloadDigest == c.PayloadDigest()
    && c.proposal.actionType == ActionType.CreateLink
    && c.proposal.amount == Some(Money(c.request.amountMinor, c.request.currency))
    && intent.Some? && Authorizes(intent.value, c)
  }

  /** The intent carries every name and digest of this command. */
  predicate Authorizes(i: Intent, c: Command) {
    && i.actionKey == c.proposal.ActionKey() && i.merchantId == c.proposal.merchantId && i.accountId == c.accountId
    && i.proposalDigest == c.proposal.ProposalDigest() && i.planDigest == c.plan.DecisionDigest()
    && i.requestDigest == c.RequestDigest() && i.payloadDigest == c.PayloadDigest()
    && i.referenceId == c.request.referenceId
  }

  lemma MatchesAuthorizes(i: Intent, c: Command)
    ensures i.Matches(c) <==> Authorizes(i, c)
  {
    hide ActionProposal.ActionKey, ActionProposal.ProposalDigest, GateDecision.DecisionDigest, Command.PayloadDigest,
         Command.RequestDigest;
  }

  lemma BoundMeansNoFailure(job: Outbox.Job, c: Command, intent: Option<Intent>)
    ensures BindingFailure(job, c, intent).None? <==> Bound(job, c, intent)
  {
    hide Intent.Matches, Authorizes, ActionProposal.ActionKey, Command.PayloadDigest;
    if intent.Some? { MatchesAuthorizes(intent.value, c); }
  }

  /** Create is called exactly when the lease, the binding, the full effect evidence, the record and the expiry allow it. */
  lemma CreateRestsOnEvidence(policy: GatePolicy, backoff: Backoff.Policy, job: Outbox.Job, c: Command,
                              worker: string, ports: Ports)
    requires c.proposal.Valid()
    ensures CallCreate in Outcome(policy, backoff, job, c, worker, ports).calls
       <==> CreateCleared(policy, job, c, worker, ports)
    ensures CreateCleared(policy, job, c, worker, ports) ==> Bound(job, c, ports.intent.value)
  {
    hide Live, Decision, EffectEvidence, Intent.Matches, BindingFailure, Bound, Delivery.Escalate, Delivery.Denied,
         Delivery.Perform, PL.ValidateExpiry, ActionProposal.Valid;
    if ports.intent.Answer? && ports.context.Answer? && BindingFailure(job, c, ports.intent.value).None? {
      BoundMeansNoFailure(job, c, ports.intent.value);
      BoundCollects(job, c, ports.intent.value);
      AllowedIffEvidence(policy, c.proposal, JudgedContext(job, c, ports), Some(c.plan));
      var d := Judge(policy, backoff, job, c, worker, ports.intent.value, ports.context.value, ports.secondNow);
      CreateSent(d, ports.create, ports.lookup);
    }
  }

  lemma BoundCollects(job: Outbox.Job, c: Command, intent: Option<Intent>)
    requires Bound(job, c, intent)
    ensures IsCollection(c.proposal.actionType)
  {}

  lemma CreateSent(d: Delivery, create: Port<CreateOutcome>, lookup: Port<PL.Lookup>)
    ensures CallCreate in d.Perform(create, lookup).calls
       <==> !d.job.mode.ReconcileOnly? && PL.ValidateExpiry(d.command.request.expireBy, PL.EpochSeconds(d.now)).Ok?
  {
    hide Delivery.AfterLookup, Delivery.Finish, Delivery.Requeue, Delivery.Escalate, PL.ValidateExpiry;
  }

  lemma RequeueFacts(d: Delivery, reason: string, mode: Outbox.RetryMode, disposition: Disposition)
    ensures var r := d.Requeue(reason, mode, disposition);
      r.Ok? ==> && r.value.linkId.None? && r.value.job.mode == mode
                && (r.value.job.state.Pending? || r.value.job.state.DeadLetter?)
                && r.value.disposition == (if r.value.job.state.DeadLetter? then DEAD_LETTER else disposition)
  {
    hide Outbox.Job.Valid, Outbox.Settling, Backoff.DelayAfter, IsCleanText;
  }

  lemma FinishFacts(d: Delivery, disposition: Disposition, linkId: string, reason: string)
    requires d.job.state.Leased?
    ensures var r := d.Finish(disposition, linkId, reason);
      r.Ok? ==> && r.value.disposition == disposition && r.value.linkId == Some(linkId)
                && r.value.job.state.Completed? && r.value.job.completion == Some(linkId)
  {
    hide Outbox.Job.Valid, Outbox.Settling, IsCleanText;
  }

  lemma EscalateFacts(d: Delivery, reason: string)
    requires d.job.state.Leased?
    ensures d.Escalate(reason).Ok? ==>
      && d.Escalate(reason).value.disposition == ESCALATED && d.Escalate(reason).value.job.state.DeadLetter?
      && d.Escalate(reason).value.linkId.None?
  {
    hide Outbox.Job.Valid, Outbox.Settling, IsCleanText;
  }

  /** What each disposition of an effect proves about the calls behind it. */
  ghost predicate Explained(d: Delivery, create: Port<CreateOutcome>, lookup: Port<PL.Lookup>, run: Run) {
    run.result.Ok? ==>
      var r := run.result.value;
      match r.disposition
      case CREATED =>
        create.Answer? && create.value.Succeeded? && Names(r, create.value.linkId) && run.calls == [CallCreate]
      case ADOPTED =>
        && lookup.Answer? && run.calls != [] && run.calls[|run.calls| - 1] == CallLookup
        && PL.DecideAmbiguousCreate(d.command.request, lookup.value).Adopt?
        && Names(r, PL.DecideAmbiguousCreate(d.command.request, lookup.value).linkId)
      case REQUEUED =>
        && r.job.mode == Outbox.RetrySameEffect && r.job.state.Pending?
        && ((create.Answer? && create.value.FailedSafely? && run.calls == [CallCreate])
            || (run.calls != [] && run.calls[|run.calls| - 1] == CallLookup && lookup == Answer(PL.Lookup(true, []))))
      case REQUERY_REQUIRED => r.job.mode == Outbox.ReconcileOnly && r.job.state.Pending?
      case ESCALATED => r.job.state.DeadLetter?
      case DEAD_LETTER => r.job.state.DeadLetter?
      case SUPPRESSED => false
  }

  /** The result completes the job under the link it reports. */
  predicate Names(r: ExecutionResult, linkId: string) {
    r.linkId == Some(linkId) && r.job.state.Completed? && r.job.completion == Some(linkId)
  }

  lemma LookupExplained(d: Delivery, create: Port<CreateOutcome>, lookup: Port<PL.Lookup>, calls: seq<Call>)
    requires d.job.state.Leased? && (lookup.Answer? ==> lookup.value.Valid())
    requires calls != [] && calls[|calls| - 1] == CallLookup
    ensures Explained(d, create, lookup, Run(d.Reconcile(lookup).result, calls))
  {
    hide Delivery.Finish, Delivery.Requeue, Delivery.Escalate, PL.ReadCandidate, PL.Snapshot.Matches;
    if lookup.Answer? {
      match PL.DecideAmbiguousCreate(d.command.request, lookup.value)
      case Adopt(linkId) => FinishFacts(d, ADOPTED, linkId, "matching_link_proves_create_succeeded");
      case RetrySameReference =>
        RequeueFacts(d, "completed_lookup_found_no_link", Outbox.RetrySameEffect, REQUEUED);
      case Requery => RequeueFacts(d, "lookup_not_completed", Outbox.ReconcileOnly, REQUERY_REQUIRED);
      case Escalate(why) => EscalateFacts(d, "ambiguous_create_conflict:" + why);
    }
  }

  lemma CreateExplained(d: Delivery, create: Port<CreateOutcome>, lookup: Port<PL.Lookup>)
    requires d.job.state.Leased? && (lookup.Answer? ==> lookup.value.Valid())
    ensures Explained(d, create, lookup, d.AfterCreate(create, lookup))
  {
    hide Delivery.Finish, Delivery.Requeue, Delivery.Reconcile, PL.DecideAmbiguousCreate;
    match create
    case Raises =>
    case Answer(Succeeded(linkId)) => FinishFacts(d, CREATED, linkId, "provider_confirmed_create");
    case Answer(FailedSafely(code)) => RequeueFacts(d, "certain_failure:" + code, Outbox.RetrySameEffect, REQUEUED);
    case Answer(Ambiguous(_)) => LookupExplained(d, create, lookup, [CallCreate, CallLookup]);
  }

  /**
   A retry of the same effect is granted only by certain failure or by a completed
   lookup that found nothing; a created or adopted result names that very link.
   */
  lemma EffectExplained(d: Delivery, create: Port<CreateOutcome>, lookup: Port<PL.Lookup>)
    requires d.job.state.Leased? && (lookup.Answer? ==> lookup.value.Valid())
    ensures Explained(d, create, lookup, d.Perform(create, lookup))
  {
    hide Explained, Delivery.AfterCreate, Delivery.Escalate, PL.ValidateExpiry, Delivery.AfterLookup;
    if d.job.mode.ReconcileOnly? {
      LookupExplained(d, create, lookup, [CallLookup]);
      assert d.Perform(create, lookup) == Run(d.Reconcile(lookup).result, [CallLookup]);
    } else {
      CreateExplained(d, create, lookup);
      var valid := PL.ValidateExpiry(d.command.request.expireBy, PL.EpochSeconds(d.now));
      if valid.Err? {
        RefusalExplained(d, create, lookup, "request_not_effect_safe:" + ExpiryMessage(valid.error));
      }
    }
  }

  lemma RefusalExplained(d: Delivery, create: Port<CreateOutcome>, lookup: Port<PL.Lookup>, reason: string)
    requires d.job.state.Leased?
    ensures Explained(d, create, lookup, Run(d.Escalate(reason), []))
    ensures Explained(d, create, lookup, Run(Err(PortFault), []))
  {
    hide Delivery.Escalate;
    EscalateFacts(d, reason);
  }

  /** A command as the planner builds it at `created`. */
  predicate Planned(c: Command, created: UtcTime, proposalTtl: int, linkTtl: int) {
    && PL.PlannerTtls(proposalTtl, linkTtl)
    && c.proposal.createdAt == created && c.proposal.expiresAt == created + proposalTtl
    && c.request.expireBy == PL.EpochSeconds(created + linkTtl)
  }

  /**
   The expiry check never blocks a planned command the gate still allows: with a
   skew of at most a day, whenever the calendar six months on still exists.
   */
  lemma PlannedLinkIsNeverTooSoonOrLate(policy: GatePolicy, c: Command, context: GateContext, plan: Option<GateDecision>,
                                        created: UtcTime, proposalTtl: int, linkTtl: int)
    requires Planned(c, created, proposalTtl, linkTtl) && policy.clockSkew <= DAY
    requires Decision(Effect, policy, c.proposal, context, plan).Allowed()
    requires 0 <= context.evaluatedAt < PL.LAST_CHECKED
    ensures PL.ValidateExpiry(c.request.expireBy, PL.EpochSeconds(context.evaluatedAt)).Ok?
  {
    hide Decision, PL.ValidateExpiry, PL.EpochSeconds, PL.SixMonthsOn, PL.DateAt;
    AllowedIsTimely(Effect, policy, c.proposal, context, plan);
    PL.BeforeLastChecked(context.evaluatedAt);
    PL.ExpiryNeverBlocks(created, proposalTtl, linkTtl, policy.clockSkew, context.evaluatedAt);
  }
}
