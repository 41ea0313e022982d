/**
 One leased delivery of a protective cancellation: nothing is cancelled without
 fresh matching truth, two binding reads and two allowed decisions, and nothing
 is settled without looking again.
 */
module Cancellation {
  import opened Outcomes
  import opened Text
  import opened Calendar
  import opened Json
  import opened Hashing
  import opened Actions
  import opened Gate
  import Backoff
  import Outbox
  import E = Executor

  datatype InstrumentStatus =
    | CREATING | UNCERTAIN | ISSUED | ACTIVE | CANCEL_PENDING | PAID | PARTIALLY_PAID | CANCELLED | EXPIRED | FAILED

  datatype LinkStatus = Created | PartiallyPaid | Expired | Cancelled | Paid

  /** The stored identity of the link to cancel. */
  datatype Target = Target(merchantId: string, caseId: string, actionId: string, actionKey: string,
                           instrumentId: string, accountId: string, linkId: string, referenceId: string,
                           amountMinor: int, currency: string)
  {
    function ToJson(): Json {
      Record(TargetKeys(), [Str(actionId), Str(actionKey), Int(amountMinor), Str(caseId), Str(currency),
                            Str(instrumentId), Str(merchantId), Str(linkId), Str(accountId), Str(referenceId)])
    }

    function TargetDigest(): Digest {
      Sha256Hex(Print(Record(["schema", "target"], [Str("retrywise-cancellation-target-v1"), ToJson()])))
    }
  }

  function TargetKeys(): seq<string> {
    ["action_id", "action_key", "amount_minor", "case_id", "currency", "instrument_id", "merchant_id",
     "payment_link_id", "provider_account_id", "reference_id"]
  }

  datatype Command = Command(proposal: ActionProposal, plan: GateDecision, target: Target) {
    function PayloadDigest(): Digest {
      Sha256Hex(Print(Record(PayloadKeys(), [
        Str(proposal.ActionKey()), Str(plan.DecisionDigest()), Str(proposal.ProposalDigest()),
        Str("retrywise-cancel-payment-link-command-v1"), Str(target.TargetDigest())])))
    }
  }

  function PayloadKeys(): seq<string> {
    ["action_key", "prior_plan_digest", "proposal_digest", "schema", "target_digest"]
  }

  /** The joined action and instrument rows. */
  datatype Binding = Binding(target: Target, persistedDigest: string, status: InstrumentStatus, recordedAt: UtcTime) {
    predicate Matches(c: Command) {
      target == c.target && persistedDigest == c.target.TargetDigest()
    }

    predicate HasProviderTarget() { !status.CREATING? && !status.FAILED? }

    predicate Cancellable() { status.UNCERTAIN? || status.ISSUED? || status.ACTIVE? || status.CANCEL_PENDING? }

    predicate PaidRow() { status.PAID? || status.PARTIALLY_PAID? }
  }

  /** The provider's view of the link. */
  datatype Truth = Truth(linkId: string, referenceId: string, amountMinor: int, paidMinor: int, currency: string,
                         acceptPartial: bool, upiLink: bool, status: LinkStatus)
  {
    /** What construction enforces: the paid amount agrees with the status. */
    predicate Valid() {
      && amountMinor > 0 && 0 <= paidMinor <= amountMinor
      && (match status
          case Paid => paidMinor == amountMinor
          case PartiallyPaid => 0 < paidMinor < amountMinor
          case _ => paidMinor == 0)
    }

    predicate Matches(t: Target) {
      && linkId == t.linkId && referenceId == t.referenceId && amountMinor == t.amountMinor && currency == t.currency
      && !acceptPartial && !upiLink
    }

    predicate Received() { status.Paid? || status.PartiallyPaid? }
  }

  datatype CancelStatus = CertainSuccess | CertainFailure | Ambiguous

  datatype Disposition =
    | CANCELLED_NOW | ALREADY_CANCELLED | LINK_EXPIRED | BLOCKED | RECONCILE_REQUIRED | REVIEW_REQUIRED | ESCALATED
    | DEAD_LETTER

  datatype CancelResult = CancelResult(disposition: Disposition, job: Outbox.Job, effect: GateDecision, reason: string,
                                       status: Option<LinkStatus>, attempted: bool)

  /** A fetched truth, or why none could be had. */
  datatype Fetch = Fresh(truth: Truth) | Unavailable(why: string)

  /** What the ports answer and the clock reads, in the order a delivery asks. */
  datatype Ports = Ports(
    firstAt: UtcTime,
    firstBinding: E.Port<Option<Binding>>,
    firstContext: E.Port<GateContext>,
    firstFetch: Fetch,
    secondBinding: E.Port<Option<Binding>>,
    recheckedAt: UtcTime,
    effectAt: UtcTime,
    finalContext: E.Port<GateContext>,
    record: E.Port<()>,
    cancelReason: string,
    lastFetch: Fetch,
    lastBinding: E.Port<Option<Binding>>,
    afterAt: UtcTime,
    settledAt: UtcTime)

  /** What a delivery did, in order. */
  datatype Event =
    | ReadBinding(binding: Option<Binding>)
    | Decided(decision: GateDecision)
    | Fetched(truth: Option<Truth>)
    | RecordedAuthorization
    | CalledCancel

  datatype Run = Run(result: Result<CancelResult, E.Failure>, events: seq<Event>)

  function BindingFailure(job: Outbox.Job, c: Command, b: Option<Binding>, now: int): (f: Option<string>)
    ensures f.None? ==> b.Some? && b.value.Matches(c) && b.value.HasProviderTarget()
  {
    if job.actionKey != c.proposal.ActionKey() then Some("job_action_key_mismatch")
    else if job.payloadDigest != c.PayloadDigest() then Some("job_payload_digest_mismatch")
    else if b.None? then Some("durable_instrument_binding_missing")
    else if !b.value.Matches(c) then Some("durable_instrument_binding_mismatch")
    else if b.value.recordedAt > now then Some("durable_instrument_binding_from_future")
    else if !b.value.HasProviderTarget() then Some("instrument_status_has_no_cancellable_provider_target")
    else None
  }

  function StatusName(s: InstrumentStatus): string {
    match s
    case CREATING => "creating"
    case UNCERTAIN => "uncertain"
    case ISSUED => "issued"
    case ACTIVE => "active"
    case CANCEL_PENDING => "cancel_pending"
    case PAID => "paid"
    case PARTIALLY_PAID => "partially_paid"
    case CANCELLED => "cancelled"
    case EXPIRED => "expired"
    case FAILED => "failed"
  }

  function LinkStatusName(s: LinkStatus): string {
    match s
    case Created => "created"
    case PartiallyPaid => "partially_paid"
    case Expired => "expired"
    case Cancelled => "cancelled"
    case Paid => "paid"
  }

  function FetchedEvent(f: Fetch): Event {
    Fetched(if f.Fresh? then Some(f.truth) else None)
  }

  /** The delivery: its lease, command, and the moment it settles. */
  datatype Delivery = Delivery(job: Outbox.Job, command: Command, worker: string, backoff: Backoff.Policy,
                               settledAt: UtcTime)
  {
    function Token(): string {
      if job.token.Some? && job.token.value != "" then job.token.value else "missing-lease-token"
    }

    function Done(d: Disposition, r: Outbox.JobResult, effect: GateDecision, reason: string,
                  status: Option<LinkStatus>, attempted: bool): Result<CancelResult, E.Failure> {
      match r
      case Err(_) => Err(E.JobFault)
      case Ok(j) => Ok(CancelResult(d, j, effect, reason, status, attempted))
    }

    function Complete(d: Disposition, effect: GateDecision, reason: string, status: LinkStatus, attempted: bool)
      : Result<CancelResult, E.Failure>
    {
      var reference := (if d.ALREADY_CANCELLED? then "already_cancelled:" else if d.LINK_EXPIRED? then "expired:"
                        else "cancelled:") + command.target.TargetDigest();
      Done(d, Outbox.Complete(job, worker, Token(), settledAt, job.version, reference), effect, reason, Some(status),
           attempted)
    }

    function Bury(d: Disposition, effect: GateDecision, reason: string, status: Option<LinkStatus>, attempted: bool)
      : Result<CancelResult, E.Failure>
    {
      Done(d, Outbox.Bury(job, worker, Token(), settledAt, job.version, reason), effect, reason, status, attempted)
    }

    function Review(effect: GateDecision, reason: string, status: LinkStatus, attempted: bool)
      : Result<CancelResult, E.Failure>
    {
      Bury(REVIEW_REQUIRED, effect, reason, Some(status), attempted)
    }

    function Requeue(effect: GateDecision, reason: string, mode: Outbox.RetryMode, status: Option<LinkStatus>,
                     attempted: bool): Result<CancelResult, E.Failure> {
      var r := Outbox.Requeue(job, worker, Token(), settledAt, job.version, reason, backoff, mode);
      Done(if r.Ok? && r.value.state.DeadLetter? then DEAD_LETTER else RECONCILE_REQUIRED, r, effect, reason, status,
           attempted)
    }

    /** Settles whatever needs no cancel; nothing when the link is created, unpaid and cancellable. */
    function ResolveWithoutCancel(effect: GateDecision, b: Binding, t: Truth, phase: string, attempted: bool)
      : Option<Result<CancelResult, E.Failure>>
    {
      if b.PaidRow() then
        Some(Review(effect, phase + "_durable_" + StatusName(b.status) + "_requires_review", t.status, attempted))
      else if t.Received() then
        Some(Review(effect, phase + "_provider_" + LinkStatusName(t.status) + "_requires_review", t.status, attempted))
      else if t.status.Cancelled? then
        Some(Complete(ALREADY_CANCELLED, effect, phase + "_provider_already_cancelled", t.status, attempted))
      else if t.status.Expired? then
        Some(Complete(LINK_EXPIRED, effect, phase + "_provider_expired", t.status, attempted))
      else if b.status.CANCELLED? || b.status.EXPIRED? then
        Some(Requeue(effect, phase + "_durable_" + StatusName(b.status) + "_conflicts_with_created_provider_truth",
                     Outbox.ReconcileOnly, Some(t.status), attempted))
      else if !b.Cancellable() then
        Some(Bury(ESCALATED, effect, phase + "_instrument_status_not_cancellable", Some(t.status), attempted))
      else None
    }

    function Decide(policy: GatePolicy, context: GateContext, now: UtcTime, proved: bool): GateDecision {
      Decision(Effect, policy, command.proposal, context.(evaluatedAt := now, durableIntent := proved),
               Some(command.plan))
    }

    /** After a cancel call, whatever it answered: fetch, re-read the rows, and settle on what they say. */
    function AfterCancel(effect: GateDecision, reason: string, ports: Ports): Run {
      var fetched := [FetchedEvent(ports.lastFetch)];
      if ports.lastBinding.Raises? then Run(Err(E.PortFault), fetched)
      else
        var b := ports.lastBinding.value;
        Run(SettleAfterCancel(effect, reason, b, ports), fetched + [ReadBinding(b)])
    }

    function SettleAfterCancel(effect: GateDecision, reason: string, b: Option<Binding>, ports: Ports)
      : Result<CancelResult, E.Failure>
    {
      var failure := BindingFailure(job, command, b, ports.afterAt);
      if failure.Some? then
        Bury(ESCALATED, effect, "post_cancel_binding_failure:" + failure.value,
             if ports.lastFetch.Fresh? then Some(ports.lastFetch.truth.status) else None, true)
      else
        match ports.lastFetch
        case Unavailable(why) =>
          Requeue(effect, "post_cancel_truth_unavailable:" + reason + ":" + why, Outbox.ReconcileOnly, None, true)
        case Fresh(t) =>
          if !t.Matches(command.target) then
            Bury(ESCALATED, effect, "post_cancel_provider_target_mismatch", Some(t.status), true)
          else if !b.value.PaidRow() && t.status.Cancelled? then
            Complete(CANCELLED_NOW, effect, "post_cancel_provider_cancelled:" + reason, t.status, true)
          else
            match ResolveWithoutCancel(effect, b.value, t, "post_cancel", true)
            case Some(r) => r
            case None =>
              Requeue(effect, "post_cancel_fresh_unpaid_link_grants_effect_retry:" + reason, Outbox.RetrySameEffect,
                      Some(t.status), true)
    }

    /** The last checks before the provider is asked to cancel. */
    function BeforeCancel(policy: GatePolicy, first: GateDecision, t: Truth, ports: Ports): Run {
      if job.mode.ReconcileOnly? then
        Run(Requeue(first, "reconcile_only_fresh_unpaid_link_grants_effect_retry", Outbox.RetrySameEffect,
                    Some(t.status), false), [])
      else if !E.Live(job, worker, ports.effectAt) then Run(Err(E.LeaseFault), [])
      else if ports.finalContext.Raises? then Run(Err(E.PortFault), [])
      else
        var final := Decide(policy, ports.finalContext.value, ports.effectAt, true);
        if !final.Allowed() then
          Run(Bury(BLOCKED, final, "final_effect_gate_denied:" + E.ReasonList(final.reasons), Some(t.status), false),
              [Decided(final)])
        else if t.paidMinor != 0 then
          Run(Review(final, "final_provider_amount_paid_requires_review", t.status, false), [Decided(final)])
        else if ports.record.Raises? then Run(Err(E.PortFault), [Decided(final), RecordedAuthorization])
        else
          var after := AfterCancel(final, ports.cancelReason, ports);
          Run(after.result, [Decided(final), RecordedAuthorization, CalledCancel] + after.events)
    }

    /** With matching truth in hand: settle, or read the rows once more and go on. */
    function AfterFetch(policy: GatePolicy, effect: GateDecision, b: Binding, t: Truth, ports: Ports): Run {
      match ResolveWithoutCancel(effect, b, t, "pre_cancel", false)
      case Some(r) => Run(r, [])
      case None =>
        if ports.secondBinding.Raises? then Run(Err(E.PortFault), [])
        else
          var again := ports.secondBinding.value;
          var read := [ReadBinding(again)];
          match BindingFailure(job, command, again, ports.recheckedAt)
          case Some(why) =>
            Run(Bury(ESCALATED, effect, "pre_effect_binding_failure:" + why, Some(t.status), false), read)
          case None =>
            match ResolveWithoutCancel(effect, again.value, t, "pre_effect", false)
            case Some(r) => Run(r, read)
            case None =>
              var rest := BeforeCancel(policy, effect, t, ports);
              Run(rest.result, read + rest.events)
    }

    /** With an allowed decision: fetch, and go on only if the truth is this very link's. */
    function AfterDecision(policy: GatePolicy, effect: GateDecision, b: Binding, ports: Ports): Run {
      var fetched := [FetchedEvent(ports.firstFetch)];
      match ports.firstFetch
      case Unavailable(why) =>
        Run(Requeue(effect, "pre_cancel_truth_unavailable:" + why,
                    if job.mode.ReconcileOnly? then Outbox.ReconcileOnly else Outbox.FirstTry, None, false), fetched)
      case Fresh(t) =>
        if !t.Matches(command.target) then
          Run(Bury(ESCALATED, effect, "pre_cancel_provider_target_mismatch", Some(t.status), false), fetched)
        else
          var rest := AfterFetch(policy, effect, b, t, ports);
          Run(rest.result, fetched + rest.events)
    }

    function Denied(effect: GateDecision): Result<CancelResult, E.Failure> {
      var prefix := if E.AuthorizationFault(effect.reasons) then "effect_authorization_fault:" else "effect_gate_denied:";
      Bury(BLOCKED, effect, prefix + E.ReasonList(effect.reasons), None, false)
    }

    /** The whole delivery as a function of what its ports answer. */
    function Outcome(policy: GatePolicy, ports: Ports): Run {
      if !E.Live(job, worker, ports.firstAt) then Run(Err(E.LeaseFault), [])
      else if ports.firstBinding.Raises? then Run(Err(E.PortFault), [])
      else
        var b := ports.firstBinding.value;
        var failure := BindingFailure(job, command, b, ports.firstAt);
        var read := [ReadBinding(b)];
        if ports.firstContext.Raises? then Run(Err(E.PortFault), read)
        else
          var effect := Decide(policy, ports.firstContext.value, ports.firstAt, failure.None?);
          var decided := read + [Decided(effect)];
          if failure.Some? then
            Run(Bury(ESCALATED, effect, "binding_failure:" + failure.value, None, false), decided)
          else if !effect.Allowed() then Run(Denied(effect), decided)
          else
            var rest := AfterDecision(policy, effect, b.value, ports);
            Run(rest.result, decided + rest.events)
    }
  }

  /** The executor as it runs; every read, decision and call is recorded in order. */
  class CancelExecutor {
    const gate: DeterministicGate
    const backoff: Backoff.Policy
    var events: seq<Event>

    constructor (gate: DeterministicGate, backoff: Backoff.Policy)
      ensures this.gate == gate && this.backoff == backoff && events == []
    {
      this.gate := gate;
      this.backoff := backoff;
      events := [];
    }

    method Execute(job: Outbox.Job, c: Command, worker: string, ports: Ports)
      returns (r: Result<CancelResult, E.Failure>)
      modifies this`events
      ensures var run := Delivery(job, c, worker, backoff, ports.settledAt).Outcome(gate.policy, ports);
        r == run.result && events == old(events) + run.events
    {
      hide E.Live, BindingFailure, Decision, Delivery.AfterDecision, Delivery.Bury, Delivery.Denied;
      var d := Delivery(job, c, worker, backoff, ports.settledAt);
      var now := ports.firstAt;
      if !E.Live(job, worker, now) { return Err(E.LeaseFault); }
      if ports.firstBinding.Raises? { return Err(E.PortFault); }
      var b := ports.firstBinding.value;
      events := events + [ReadBinding(b)];
      var failure := BindingFailure(job, c, b, now);
      if ports.firstContext.Raises? { return Err(E.PortFault); }
      var context := ports.firstContext.value.(evaluatedAt := now, durableIntent := failure.None?);
      var effect := gate.Evaluate(Effect, c.proposal, context, Some(c.plan));
      events := events + [Decided(effect)];
      if failure.Some? { return d.Bury(ESCALATED, effect, "binding_failure:" + failure.value, None, false); }
      if !effect.Allowed() { return d.Denied(effect); }
      r := FetchAndCancel(d, effect, b.value, ports);
    }

    method FetchAndCancel(d: Delivery, effect: GateDecision, b: Binding, ports: Ports)
      returns (r: Result<CancelResult, E.Failure>)
      modifies this`events
      ensures var run := d.AfterDecision(gate.policy, effect, b, ports);
        r == run.result && events == old(events) + run.events
    {
      hide BindingFailure, Delivery.ResolveWithoutCancel, Delivery.BeforeCancel, Delivery.Bury, Delivery.Requeue,
           Truth.Matches;
      events := events + [FetchedEvent(ports.firstFetch)];
      if ports.firstFetch.Unavailable? {
        return d.Requeue(effect, "pre_cancel_truth_unavailable:" + ports.firstFetch.why,
                         if d.job.mode.ReconcileOnly? then Outbox.ReconcileOnly else Outbox.FirstTry, None, false);
      }
      var t := ports.firstFetch.truth;
      if !t.Matches(d.command.target) {
        return d.Bury(ESCALATED, effect, "pre_cancel_provider_target_mismatch", Some(t.status), false);
      }
      var terminal := d.ResolveWithoutCancel(effect, b, t, "pre_cancel", false);
      if terminal.Some? { return terminal.value; }
      if ports.secondBinding.Raises? { return Err(E.PortFault); }
      var again := ports.secondBinding.value;
      events := events + [ReadBinding(again)];
      var failure := BindingFailure(d.job, d.command, again, ports.recheckedAt);
      if failure.Some? {
        return d.Bury(ESCALATED, effect, "pre_effect_binding_failure:" + failure.value, Some(t.status), false);
      }
      terminal := d.ResolveWithoutCancel(effect, again.value, t, "pre_effect", false);
      if terminal.Some? { return terminal.value; }
      r := ConfirmAndCancel(d, effect, t, ports);
    }

    method ConfirmAndCancel(d: Delivery, first: GateDecision, t: Truth, ports: Ports)
      returns (r: Result<CancelResult, E.Failure>)
      modifies this`events
      ensures var run := d.BeforeCancel(gate.policy, first, t, ports);
        r == run.result && events == old(events) + run.events
    {
      hide E.Live, Decision, Delivery.SettleAfterCancel, Delivery.Bury, Delivery.Review, Delivery.Requeue;
      if d.job.mode.ReconcileOnly? {
        return d.Requeue(first, "reconcile_only_fresh_unpaid_link_grants_effect_retry", Outbox.RetrySameEffect,
                         Some(t.status), false);
      }
      if !E.Live(d.job, d.worker, ports.effectAt) { return Err(E.LeaseFault); }
      if ports.finalContext.Raises? { return Err(E.PortFault); }
      var context := ports.finalContext.value.(evaluatedAt := ports.effectAt, durableIntent := true);
      var final := gate.Evaluate(Effect, d.command.proposal, context, Some(d.command.plan));
      events := events + [Decided(final)];
      if !final.Allowed() {
        return d.Bury(BLOCKED, final, "final_effect_gate_denied:" + E.ReasonList(final.reasons), Some(t.status), false);
      }
      if t.paidMinor != 0 {
        return d.Review(final, "final_provider_amount_paid_requires_review", t.status, false);
      }
      events := events + [RecordedAuthorization];
      if ports.record.Raises? { return Err(E.PortFault); }
      events := events + [CalledCancel];
      events := events + [FetchedEvent(ports.lastFetch)];
      if ports.lastBinding.Raises? { return Err(E.PortFault); }
      events := events + [ReadBinding(ports.lastBinding.value)];
      r := d.SettleAfterCancel(final, ports.cancelReason, ports.lastBinding.value, ports);
    }
  }

  // ---- What every delivery guarantees ----

  /** Rows bound to exactly this command, in a status that may still be cancelled. */
  predicate Ready(e: Event, c: Command) {
    e.ReadBinding? && e.binding.Some? && e.binding.value.Matches(c) && e.binding.value.Cancellable()
  }

  predicate Allowing(e: Event) {
    e.Decided? && e.decision.Allowed()
  }

  /** A fetch that shows this very link, created and with nothing paid. */
  predicate OpenAndUnpaid(e: Event, c: Command) {
    e.Fetched? && e.truth.Some? && e.truth.value.Matches(c.target) && e.truth.value.status.Created?
    && e.truth.value.paidMinor == 0
  }

  /** The events that lead to a cancel call, in the one order they happen. */
  predicate Cleared(events: seq<Event>, c: Command) {
    && |events| >= 7
    && Ready(events[0], c) && Allowing(events[1]) && OpenAndUnpaid(events[2], c) && Ready(events[3], c)
    && Allowing(events[4]) && events[5].RecordedAuthorization? && events[6].CalledCancel?
  }

  lemma UnresolvedMeansCancellable(d: Delivery, effect: GateDecision, b: Binding, t: Truth, phase: string, attempted: bool)
    ensures d.ResolveWithoutCancel(effect, b, t, phase, attempted).None? <==> b.Cancellable() && t.status.Created?
  {
    hide Delivery.Bury, Delivery.Complete, Delivery.Requeue, Delivery.Review;
  }

  lemma BeforeCancelEvents(d: Delivery, policy: GatePolicy, first: GateDecision, t: Truth, ports: Ports)
    ensures var events := d.BeforeCancel(policy, first, t, ports).events;
      CalledCancel in events ==>
        && !d.job.mode.ReconcileOnly? && t.paidMinor == 0
        && |events| >= 3 && Allowing(events[0]) && events[1].RecordedAuthorization? && events[2].CalledCancel?
        && CalledCancel !in events[3..]
  {
    hide E.Live, Decision, Delivery.SettleAfterCancel, Delivery.Bury, Delivery.Review, Delivery.Requeue;
  }

  lemma AfterFetchEvents(d: Delivery, policy: GatePolicy, effect: GateDecision, b: Binding, t: Truth, ports: Ports)
    ensures var events := d.AfterFetch(policy, effect, b, t, ports).events;
      CalledCancel in events ==>
        && !d.job.mode.ReconcileOnly? && t.paidMinor == 0 && t.status.Created? && b.Cancellable()
        && |events| >= 4 && Ready(events[0], d.command) && Allowing(events[1]) && events[2].RecordedAuthorization?
        && events[3].CalledCancel? && CalledCancel !in events[4..]
  {
    hide Delivery.BeforeCancel, Delivery.ResolveWithoutCancel, Delivery.Bury, BindingFailure, Binding.Matches;
    UnresolvedMeansCancellable(d, effect, b, t, "pre_cancel", false);
    if ports.secondBinding.Answer? && ports.secondBinding.value.Some? {
      UnresolvedMeansCancellable(d, effect, ports.secondBinding.value.value, t, "pre_effect", false);
    }
    BeforeCancelEvents(d, policy, effect, t, ports);
    ReadDropped(d.BeforeCancel(policy, effect, t, ports).events, ports);
  }

  lemma ReadDropped(rest: seq<Event>, ports: Ports)
    ensures ports.secondBinding.Answer? ==>
      && ([ReadBinding(ports.secondBinding.value)] + rest)[1..] == rest
      && (|rest| >= 3 ==> ([ReadBinding(ports.secondBinding.value)] + rest)[4..] == rest[3..])
  {}

  lemma AfterDecisionEvents(d: Delivery, policy: GatePolicy, effect: GateDecision, b: Binding, ports: Ports)
    ensures var events := d.AfterDecision(policy, effect, b, ports).events;
      CalledCancel in events ==>
        && !d.job.mode.ReconcileOnly? && b.Cancellable()
        && |events| >= 5 && OpenAndUnpaid(events[0], d.command) && Ready(events[1], d.command) && Allowing(events[2])
        && events[3].RecordedAuthorization? && events[4].CalledCancel? && CalledCancel !in events[5..]
  {
    hide Delivery.AfterFetch, Delivery.Bury, Delivery.Requeue, Truth.Matches, Ready;
    if ports.firstFetch.Fresh? && ports.firstFetch.truth.Matches(d.command.target) {
      var rest := d.AfterFetch(policy, effect, b, ports.firstFetch.truth, ports).events;
      AfterFetchEvents(d, policy, effect, b, ports.firstFetch.truth, ports);
      assert |rest| >= 4 ==> ([FetchedEvent(ports.firstFetch)] + rest)[5..] == rest[4..];
    }
  }

  /** The events from the first fetch on, when they reach a cancel call. */
  predicate ClearedFromFetch(rest: seq<Event>, c: Command) {
    && |rest| >= 5 && OpenAndUnpaid(rest[0], c) && Ready(rest[1], c) && Allowing(rest[2])
    && rest[3].RecordedAuthorization? && rest[4].CalledCancel? && CalledCancel !in rest[5..]
  }

  lemma PrefixCleared(b: Binding, effect: GateDecision, rest: seq<Event>, c: Command)
    requires b.Matches(c) && b.Cancellable() && effect.Allowed() && ClearedFromFetch(rest, c)
    ensures var events := [ReadBinding(Some(b)), Decided(effect)] + rest;
      Cleared(events, c) && CalledCancel !in events[7..]
  {
    hide Binding.Matches, Binding.Cancellable, OpenAndUnpaid;
    assert ([ReadBinding(Some(b)), Decided(effect)] + rest)[7..] == rest[5..];
  }

  /**
   Every cancel call follows, in its own delivery, two matching cancellable reads
   of the rows, two allowed effect decisions and a matching fetch that was created
   and unpaid; there is at most one, and none at all in a reconcile-only delivery.
   */
  lemma CancelIsCleared(d: Delivery, policy: GatePolicy, ports: Ports)
    ensures var events := d.Outcome(policy, ports).events;
      CalledCancel in events ==>
        !d.job.mode.ReconcileOnly? && Cleared(events, d.command) && CalledCancel !in events[7..]
  {
    hide E.Live, Decision, Delivery.AfterDecision, Delivery.Bury, Delivery.Denied, Binding.Matches, OpenAndUnpaid, Ready,
         Cleared, BindingFailure, Binding.Cancellable, Binding.HasProviderTarget;
    if ports.firstBinding.Answer? && ports.firstContext.Answer?
       && BindingFailure(d.job, d.command, ports.firstBinding.value, ports.firstAt).None? {
      var b := ports.firstBinding.value.value;
      var effect := d.Decide(policy, ports.firstContext.value, ports.firstAt, true);
      AfterDecisionEvents(d, policy, effect, b, ports);
      var rest := d.AfterDecision(policy, effect, b, ports).events;
      var before := [ReadBinding(Some(b)), Decided(effect)];
      assert [ReadBinding(Some(b))] + [Decided(effect)] == before && CalledCancel !in before;
      assert effect.Allowed() && E.Live(d.job, d.worker, ports.firstAt) ==> d.Outcome(policy, ports).events == before + rest;
      if CalledCancel in rest && effect.Allowed() { PrefixCleared(b, effect, rest, d.command); }
    }
  }

  /** All that must hold, in rows, provider truth, decisions and lease, before a delivery calls cancel. */
  predicate CancelCleared(d: Delivery, policy: GatePolicy, ports: Ports) {
    && d.job.mode != Outbox.ReconcileOnly
    && E.Live(d.job, d.worker, ports.firstAt) && E.Live(d.job, d.worker, ports.effectAt)
    && ports.firstContext.Answer? && ports.finalContext.Answer? && ports.record.Answer?
    && CancellableRead(d, ports.firstBinding, ports.firstAt) && CancellableRead(d, ports.secondBinding, ports.recheckedAt)
    && OpenFetch(d, ports.firstFetch)
    && d.Decide(policy, ports.firstContext.value, ports.firstAt, true).Allowed()
    && d.Decide(policy, ports.finalContext.value, ports.effectAt, true).Allowed()
  }

  predicate CancellableRead(d: Delivery, read: E.Port<Option<Binding>>, now: int) {
    read.Answer? && BindingFailure(d.job, d.command, read.value, now).None? && read.value.value.Cancellable()
  }

  predicate OpenFetch(d: Delivery, f: Fetch) {
    f.Fresh? && f.truth.Matches(d.command.target) && f.truth.status.Created? && f.truth.paidMinor == 0
  }

  lemma BeforeCancelSends(d: Delivery, policy: GatePolicy, first: GateDecision, t: Truth, ports: Ports)
    ensures CalledCancel in d.BeforeCancel(policy, first, t, ports).events <==>
      && !d.job.mode.ReconcileOnly? && E.Live(d.job, d.worker, ports.effectAt) && ports.finalContext.Answer?
      && d.Decide(policy, ports.finalContext.value, ports.effectAt, true).Allowed()
      && t.paidMinor == 0 && ports.record.Answer?
  {
    hide E.Live, Decision, Delivery.SettleAfterCancel, Delivery.Bury, Delivery.Review, Delivery.Requeue;
    if ports.record.Answer? && ports.finalContext.Answer? {
      var final := d.Decide(policy, ports.finalContext.value, ports.effectAt, true);
      var after := d.AfterCancel(final, ports.cancelReason, ports).events;
      assert ([Decided(final), RecordedAuthorization, CalledCancel] + after)[2] == CalledCancel;
    }
  }

  lemma AfterFetchSends(d: Delivery, policy: GatePolicy, effect: GateDecision, b: Binding, t: Truth, ports: Ports)
    ensures CalledCancel in d.AfterFetch(policy, effect, b, t, ports).events <==>
      && b.Cancellable() && t.status.Created? && CancellableRead(d, ports.secondBinding, ports.recheckedAt)
      && CalledCancel in d.BeforeCancel(policy, effect, t, ports).events
  {
    hide Delivery.BeforeCancel, Delivery.ResolveWithoutCancel, Delivery.Bury, BindingFailure, Binding.Matches,
         Binding.Cancellable;
    UnresolvedMeansCancellable(d, effect, b, t, "pre_cancel", false);
    if ports.secondBinding.Answer? && ports.secondBinding.value.Some? {
      UnresolvedMeansCancellable(d, effect, ports.secondBinding.value.value, t, "pre_effect", false);
    }
  }

  /** A delivery calls cancel exactly when everything is cleared. */
  lemma CancelsExactly(d: Delivery, policy: GatePolicy, ports: Ports)
    ensures CalledCancel in d.Outcome(policy, ports).events <==> CancelCleared(d, policy, ports)
  {
    hide E.Live, Decision, Delivery.AfterFetch, Delivery.BeforeCancel, Delivery.Bury, Delivery.Denied, Delivery.Requeue,
         Binding.Matches, Binding.Cancellable, BindingFailure, Truth.Matches;
    if ports.firstBinding.Answer? && ports.firstContext.Answer? && ports.firstFetch.Fresh?
       && BindingFailure(d.job, d.command, ports.firstBinding.value, ports.firstAt).None? {
      var b := ports.firstBinding.value.value;
      var effect := d.Decide(policy, ports.firstContext.value, ports.firstAt, true);
      AfterFetchSends(d, policy, effect, b, ports.firstFetch.truth, ports);
      BeforeCancelSends(d, policy, effect, ports.firstFetch.truth, ports);
    }
  }

  /** What the last fetch among the events showed, or `start` if there was none. */
  function LastFetched(start: Option<Truth>, events: seq<Event>): Option<Truth> {
    if events == [] then start
    else if events[|events| - 1].Fetched? then events[|events| - 1].truth
    else LastFetched(start, events[..|events| - 1])
  }

  /** Some fetch of the delivery showed money received. */
  predicate SawMoney(events: seq<Event>) {
    exists i :: 0 <= i < |events| && ShowsMoney(events[i])
  }

  predicate ShowsMoney(e: Event) {
    e.Fetched? && e.truth.Some? && e.truth.value.Received()
  }

  /** The disposition and the job it comes with agree. */
  predicate Agrees(r: CancelResult) {
    match r.disposition
    case CANCELLED_NOW => r.job.state.Completed?
    case ALREADY_CANCELLED => r.job.state.Completed?
    case LINK_EXPIRED => r.job.state.Completed?
    case RECONCILE_REQUIRED => r.job.state.Pending?
    case _ => r.job.state.DeadLetter?
  }

  predicate Burying(x: Disposition) {
    x.BLOCKED? || x.REVIEW_REQUIRED? || x.ESCALATED?
  }

  predicate Completing(x: Disposition) {
    x.CANCELLED_NOW? || x.ALREADY_CANCELLED? || x.LINK_EXPIRED?
  }

  /** Settled safely: completed only on a matching dead link, never completed or pending after money. */
  predicate Settled(r: Result<CancelResult, E.Failure>, last: Option<Truth>, money: bool, c: Command) {
    r.Ok? ==>
      && Agrees(r.value)
      && (r.value.job.state.Completed? ==>
            last.Some? && last.value.Matches(c.target) && (last.value.status.Cancelled? || last.value.status.Expired?))
      && (money ==> r.value.job.state.DeadLetter?)
  }

  lemma BuriedIsSettled(d: Delivery, x: Disposition, effect: GateDecision, reason: string, status: Option<LinkStatus>,
                        attempted: bool, last: Option<Truth>, money: bool)
    requires d.job.state.Leased? && Burying(x)
    ensures Settled(d.Bury(x, effect, reason, status, attempted), last, money, d.command)
  {
    hide Outbox.Job.Valid, Outbox.Settling, IsCleanText;
  }

  lemma RequeuedIsSettled(d: Delivery, effect: GateDecision, reason: string, mode: Outbox.RetryMode,
                          status: Option<LinkStatus>, attempted: bool, last: Option<Truth>)
    requires d.job.state.Leased?
    ensures Settled(d.Requeue(effect, reason, mode, status, attempted), last, false, d.command)
  {
    hide Outbox.Job.Valid, Outbox.Settling, Backoff.DelayAfter, IsCleanText;
  }

  lemma CompletedIsSettled(d: Delivery, x: Disposition, effect: GateDecision, reason: string, status: LinkStatus,
                           attempted: bool, t: Truth)
    requires t.Matches(d.command.target) && (t.status.Cancelled? || t.status.Expired?)
    requires d.job.state.Leased? && Completing(x)
    ensures Settled(d.Complete(x, effect, reason, status, attempted), Some(t), false, d.command)
  {
    hide Outbox.Job.Valid, Outbox.Settling, IsCleanText, Target.TargetDigest, Truth.Matches;
  }

  lemma ResolvedIsSettled(d: Delivery, effect: GateDecision, b: Binding, t: Truth, phase: string, attempted: bool)
    requires d.job.state.Leased? && t.Matches(d.command.target)
    ensures var r := d.ResolveWithoutCancel(effect, b, t, phase, attempted);
      (r.Some? ==> Settled(r.value, Some(t), t.Received(), d.command)) && (r.None? ==> !t.Received())
  {
    hide Delivery.Bury, Delivery.Complete, Delivery.Requeue, Settled, Truth.Matches;
    if b.PaidRow() {
      BuriedIsSettled(d, REVIEW_REQUIRED, effect, phase + "_durable_" + StatusName(b.status) + "_requires_review",
                      Some(t.status), attempted, Some(t), t.Received());
    } else if t.Received() {
      BuriedIsSettled(d, REVIEW_REQUIRED, effect, phase + "_provider_" + LinkStatusName(t.status) + "_requires_review",
                      Some(t.status), attempted, Some(t), true);
    } else if t.status.Cancelled? {
      CompletedIsSettled(d, ALREADY_CANCELLED, effect, phase + "_provider_already_cancelled", t.status, attempted, t);
    } else if t.status.Expired? {
      CompletedIsSettled(d, LINK_EXPIRED, effect, phase + "_provider_expired", t.status, attempted, t);
    } else if b.status.CANCELLED? || b.status.EXPIRED? {
      RequeuedIsSettled(d, effect, phase + "_durable_" + StatusName(b.status) + "_conflicts_with_created_provider_truth",
                        Outbox.ReconcileOnly, Some(t.status), attempted, Some(t));
    } else {
      BuriedIsSettled(d, ESCALATED, effect, phase + "_instrument_status_not_cancellable", Some(t.status), attempted,
                      Some(t), false);
    }
  }

  lemma AfterCancelIsSettled(d: Delivery, effect: GateDecision, reason: string, b: Option<Binding>, ports: Ports)
    requires d.job.state.Leased?
    ensures var f := ports.lastFetch;
      var last := if f.Fresh? then Some(f.truth) else None;
      Settled(d.SettleAfterCancel(effect, reason, b, ports), last, f.Fresh? && f.truth.Received(), d.command)
  {
    hide Delivery.Bury, Delivery.Complete, Delivery.Requeue, Delivery.ResolveWithoutCancel, Settled, Truth.Matches,
         BindingFailure, Binding.Matches;
    var f := ports.lastFetch;
    var failure := BindingFailure(d.job, d.command, b, ports.afterAt);
    if failure.Some? {
      BuriedIsSettled(d, ESCALATED, effect, "post_cancel_binding_failure:" + failure.value,
                      if f.Fresh? then Some(f.truth.status) else None, true, if f.Fresh? then Some(f.truth) else None,
                      f.Fresh? && f.truth.Received());
    } else if f.Unavailable? {
      RequeuedIsSettled(d, effect, "post_cancel_truth_unavailable:" + reason + ":" + f.why, Outbox.ReconcileOnly, None,
                        true, None);
    } else if !f.truth.Matches(d.command.target) {
      BuriedIsSettled(d, ESCALATED, effect, "post_cancel_provider_target_mismatch", Some(f.truth.status), true,
                      Some(f.truth), f.truth.Received());
    } else {
      ResolvedIsSettled(d, effect, b.value, f.truth, "post_cancel", true);
      RequeuedIsSettled(d, effect, "post_cancel_fresh_unpaid_link_grants_effect_retry:" + reason,
                        Outbox.RetrySameEffect, Some(f.truth.status), true, Some(f.truth));
      if f.truth.status.Cancelled? {
        CompletedIsSettled(d, CANCELLED_NOW, effect, "post_cancel_provider_cancelled:" + reason, f.truth.status, true,
                           f.truth);
      }
    }
  }

  lemma {:induction false} LastFetchedJoin(start: Option<Truth>, a: seq<Event>, b: seq<Event>)
    ensures LastFetched(start, a + b) == LastFetched(LastFetched(start, a), b)
  {
    if b == [] {
      assert a + b == a;
    } else {
      LastFetchedJoin(start, a, b[..|b| - 1]);
      assert (a + b)[..|a + b| - 1] == a + b[..|b| - 1];
    }
  }

  lemma SawMoneyJoin(a: seq<Event>, b: seq<Event>)
    ensures SawMoney(a + b) <==> SawMoney(a) || SawMoney(b)
  {
    hide ShowsMoney;
    if SawMoney(a) {
      var i :| 0 <= i < |a| && ShowsMoney(a[i]);
      assert ShowsMoney((a + b)[i]);
    }
    if SawMoney(b) {
      var i :| 0 <= i < |b| && ShowsMoney(b[i]);
      assert ShowsMoney((a + b)[|a| + i]);
    }
  }

  /** No fetch among these events. */
  predicate Unfetched(events: seq<Event>) {
    forall i | 0 <= i < |events| :: !events[i].Fetched?
  }

  lemma {:induction false} UnfetchedKeeps(start: Option<Truth>, events: seq<Event>)
    requires Unfetched(events)
    ensures LastFetched(start, events) == start && !SawMoney(events)
  {
    if events != [] { UnfetchedKeeps(start, events[..|events| - 1]); }
  }

  /** A run's result, judged against what its events, after `start`, last showed. */
  predicate RunSettled(run: Run, start: Option<Truth>, c: Command) {
    Settled(run.result, LastFetched(start, run.events), SawMoney(run.events), c)
  }

  lemma QuietRun(run: Run, start: Option<Truth>, c: Command)
    requires Unfetched(run.events) && Settled(run.result, start, false, c)
    ensures RunSettled(run, start, c)
  {
    hide Settled;
    UnfetchedKeeps(start, run.events);
  }

  lemma FailedRun(run: Run, start: Option<Truth>, c: Command)
    requires run.result.Err?
    ensures RunSettled(run, start, c)
  {}

  /** Events put in front of a run that showed no money themselves. */
  lemma PrefixedRun(before: seq<Event>, run: Run, start: Option<Truth>, c: Command)
    requires RunSettled(run, LastFetched(start, before), c) && !SawMoney(before)
    ensures RunSettled(Run(run.result, before + run.events), start, c)
  {
    hide Settled, LastFetched, SawMoney;
    LastFetchedJoin(start, before, run.events);
    SawMoneyJoin(before, run.events);
  }

  lemma AfterCancelRun(d: Delivery, effect: GateDecision, reason: string, ports: Ports, start: Option<Truth>)
    requires d.job.state.Leased?
    ensures RunSettled(d.AfterCancel(effect, reason, ports), start, d.command)
  {
    hide Settled, Delivery.SettleAfterCancel;
    var run := d.AfterCancel(effect, reason, ports);
    var f := ports.lastFetch;
    if run.result.Err? {
      FailedRun(run, start, d.command);
    } else {
      var b := ports.lastBinding.value;
      AfterCancelIsSettled(d, effect, reason, b, ports);
      assert run.events == [FetchedEvent(f)] + [ReadBinding(b)];
      OneFetch(f, start);
      UnfetchedKeeps(LastFetched(start, [FetchedEvent(f)]), [ReadBinding(b)]);
      LastFetchedJoin(start, [FetchedEvent(f)], [ReadBinding(b)]);
      SawMoneyJoin([FetchedEvent(f)], [ReadBinding(b)]);
    }
  }

  lemma OneFetch(f: Fetch, start: Option<Truth>)
    ensures LastFetched(start, [FetchedEvent(f)]) == if f.Fresh? then Some(f.truth) else None
    ensures SawMoney([FetchedEvent(f)]) <==> f.Fresh? && f.truth.Received()
  {
    assert ShowsMoney([FetchedEvent(f)][0]) <==> f.Fresh? && f.truth.Received();
  }

  lemma BeforeCancelRun(d: Delivery, policy: GatePolicy, first: GateDecision, t: Truth, ports: Ports)
    requires d.job.state.Leased? && t.Matches(d.command.target) && !t.Received()
    ensures RunSettled(d.BeforeCancel(policy, first, t, ports), Some(t), d.command)
  {
    hide Settled, E.Live, Decision, Delivery.AfterCancel, Delivery.Bury, Delivery.Requeue, Truth.Matches, LastFetched,
         SawMoney, RunSettled;
    var run := d.BeforeCancel(policy, first, t, ports);
    if run.result.Err? {
      FailedRun(run, Some(t), d.command);
    } else if d.job.mode.ReconcileOnly? {
      RequeuedIsSettled(d, first, "reconcile_only_fresh_unpaid_link_grants_effect_retry", Outbox.RetrySameEffect,
                        Some(t.status), false, Some(t));
      QuietRun(run, Some(t), d.command);
    } else {
      var final := d.Decide(policy, ports.finalContext.value, ports.effectAt, true);
      if !final.Allowed() {
        BuriedIsSettled(d, BLOCKED, final, "final_effect_gate_denied:" + E.ReasonList(final.reasons), Some(t.status),
                        false, Some(t), false);
        QuietRun(run, Some(t), d.command);
      } else if t.paidMinor != 0 {
        BuriedIsSettled(d, REVIEW_REQUIRED, final, "final_provider_amount_paid_requires_review", Some(t.status), false,
                        Some(t), false);
        QuietRun(run, Some(t), d.command);
      } else {
        var before := [Decided(final), RecordedAuthorization, CalledCancel];
        UnfetchedKeeps(Some(t), before);
        AfterCancelRun(d, final, ports.cancelReason, ports, Some(t));
        PrefixedRun(before, d.AfterCancel(final, ports.cancelReason, ports), Some(t), d.command);
      }
    }
  }

  lemma AfterFetchRun(d: Delivery, policy: GatePolicy, effect: GateDecision, b: Binding, t: Truth, ports: Ports)
    requires d.job.state.Leased? && t.Matches(d.command.target)
    ensures var run := d.AfterFetch(policy, effect, b, t, ports);
      if t.Received() then Settled(run.result, Some(t), true, d.command) && Unfetched(run.events)
      else RunSettled(run, Some(t), d.command)
  {
    hide Settled, Delivery.BeforeCancel, Delivery.ResolveWithoutCancel, Delivery.Bury, BindingFailure, Truth.Matches,
         LastFetched, SawMoney, RunSettled;
    var run := d.AfterFetch(policy, effect, b, t, ports);
    ResolvedIsSettled(d, effect, b, t, "pre_cancel", false);
    if d.ResolveWithoutCancel(effect, b, t, "pre_cancel", false).Some? {
      if !t.Received() { QuietRun(run, Some(t), d.command); }
    } else if run.result.Err? {
      FailedRun(run, Some(t), d.command);
    } else {
      var again := ports.secondBinding.value;
      var failure := BindingFailure(d.job, d.command, again, ports.recheckedAt);
      if failure.Some? {
        BuriedIsSettled(d, ESCALATED, effect, "pre_effect_binding_failure:" + failure.value, Some(t.status), false,
                        Some(t), false);
        QuietRun(run, Some(t), d.command);
      } else {
        ResolvedIsSettled(d, effect, again.value, t, "pre_effect", false);
        if d.ResolveWithoutCancel(effect, again.value, t, "pre_effect", false).Some? {
          QuietRun(run, Some(t), d.command);
        } else {
          BeforeCancelRun(d, policy, effect, t, ports);
          UnfetchedKeeps(Some(t), [ReadBinding(again)]);
          PrefixedRun([ReadBinding(again)], d.BeforeCancel(policy, effect, t, ports), Some(t), d.command);
        }
      }
    }
  }

  lemma AfterDecisionRun(d: Delivery, policy: GatePolicy, effect: GateDecision, b: Binding, ports: Ports)
    requires d.job.state.Leased?
    ensures RunSettled(d.AfterDecision(policy, effect, b, ports), None, d.command)
  {
    hide Settled, Delivery.AfterFetch, Delivery.Bury, Delivery.Requeue, Truth.Matches, LastFetched, SawMoney;
    var f := ports.firstFetch;
    OneFetch(f, None);
    if f.Unavailable? {
      RequeuedIsSettled(d, effect, "pre_cancel_truth_unavailable:" + f.why,
                        if d.job.mode.ReconcileOnly? then Outbox.ReconcileOnly else Outbox.FirstTry, None, false, None);
    } else if !f.truth.Matches(d.command.target) {
      BuriedIsSettled(d, ESCALATED, effect, "pre_cancel_provider_target_mismatch", Some(f.truth.status), false,
                      Some(f.truth), f.truth.Received());
    } else {
      var rest := d.AfterFetch(policy, effect, b, f.truth, ports);
      AfterFetchRun(d, policy, effect, b, f.truth, ports);
      LastFetchedJoin(None, [FetchedEvent(f)], rest.events);
      SawMoneyJoin([FetchedEvent(f)], rest.events);
      if f.truth.Received() { UnfetchedKeeps(Some(f.truth), rest.events); }
    }
  }

  /**
   A cancellation job completes only when its delivery's last fetch is this very
   link, cancelled or expired; a delivery that ever saw the link paid or partially
   paid leaves the job neither completed nor pending.
   */
  lemma DeliverySettlesSafely(d: Delivery, policy: GatePolicy, ports: Ports)
    requires d.job.state.Leased?
    ensures RunSettled(d.Outcome(policy, ports), None, d.command)
  {
    hide Settled, E.Live, Decision, Delivery.AfterDecision, Delivery.Bury, E.AuthorizationFault, E.ReasonList,
         LastFetched, SawMoney, BindingFailure, RunSettled;
    var run := d.Outcome(policy, ports);
    if run.result.Err? {
      FailedRun(run, None, d.command);
    } else {
      var b := ports.firstBinding.value;
      var failure := BindingFailure(d.job, d.command, b, ports.firstAt);
      var effect := d.Decide(policy, ports.firstContext.value, ports.firstAt, failure.None?);
      if failure.Some? {
        BuriedIsSettled(d, ESCALATED, effect, "binding_failure:" + failure.value, None, false, None, false);
        QuietRun(run, None, d.command);
      } else if !effect.Allowed() {
        DeniedIsSettled(d, effect);
        QuietRun(run, None, d.command);
      } else {
        var before := [ReadBinding(b), Decided(effect)];
        UnfetchedKeeps(None, before);
        AfterDecisionRun(d, policy, effect, b.value, ports);
        PrefixedRun(before, d.AfterDecision(policy, effect, b.value, ports), None, d.command);
        assert [ReadBinding(b)] + [Decided(effect)] == before;
      }
    }
  }

  lemma DeniedIsSettled(d: Delivery, effect: GateDecision)
    requires d.job.state.Leased?
    ensures Settled(d.Denied(effect), None, false, d.command)
  {
    hide Delivery.Bury, Settled;
    BuriedIsSettled(d, BLOCKED, effect, "effect_authorization_fault:" + E.ReasonList(effect.reasons), None, false, None,
                    false);
    BuriedIsSettled(d, BLOCKED, effect, "effect_gate_denied:" + E.ReasonList(effect.reasons), None, false, None, false);
  }

  // ---- Money and deliveries that raise ----

  /** Lower-case words joined by underscores and colons: what every fixed reason is made of. */
  predicate Wordy(s: string) {
    forall i | 0 <= i < |s| :: IsLower(s[i]) || s[i] == '_' || s[i] == ':'
  }

  lemma WordyJoin(a: string, b: string)
    requires Wordy(a) && Wordy(b)
    ensures Wordy(a + b)
  {}

  lemma WordyIsClean(s: string)
    requires Wordy(s) && 1 <= |s| <= 512
    ensures IsCleanText(s, 512)
  {}

  lemma PhaseWords()
    ensures Wordy("pre_cancel") && Wordy("post_cancel") && Wordy("_durable_") && Wordy("_provider_")
    ensures Wordy("_requires_review")
  {}

  lemma PreMismatchWords()
    ensures Wordy("pre_cancel_provider_target_mismatch")
  {}

  lemma PostMismatchWords()
    ensures Wordy("post_cancel_provider_target_mismatch")
  {}

  lemma PostFailureWords()
    ensures Wordy("post_cancel_binding_failure:")
  {}

  lemma JobFailureWords()
    ensures Wordy("job_action_key_mismatch") && Wordy("job_payload_digest_mismatch")
  {}

  lemma MissingWords()
    ensures Wordy("durable_instrument_binding_missing")
  {}

  lemma UnequalWords()
    ensures Wordy("durable_instrument_binding_mismatch")
  {}

  lemma FutureWords()
    ensures Wordy("durable_instrument_binding_from_future")
  {}

  lemma TargetlessWords()
    ensures Wordy("instrument_status_has_no_cancellable_provider_target")
  {
    hide Wordy;
    HalfTargetlessWords();
    WordyJoin("instrument_status_has_no_", "cancellable_provider_target");
    assert "instrument_status_has_no_" + "cancellable_provider_target"
        == "instrument_status_has_no_cancellable_provider_target";
  }

  lemma HalfTargetlessWords()
    ensures Wordy("instrument_status_has_no_") && Wordy("cancellable_provider_target")
  {}

  lemma StatusWords(s: InstrumentStatus, l: LinkStatus)
    ensures Wordy(StatusName(s)) && 1 <= |StatusName(s)| <= 20 && Wordy(LinkStatusName(l)) && 1 <= |LinkStatusName(l)| <= 20
  {
    hide LinkStatusName;
    LinkStatusWords(l);
  }

  lemma LinkStatusWords(l: LinkStatus)
    ensures Wordy(LinkStatusName(l)) && 1 <= |LinkStatusName(l)| <= 20
  {}

  lemma FailureWords(job: Outbox.Job, c: Command, b: Option<Binding>, now: int)
    ensures var f := BindingFailure(job, c, b, now); f.Some? ==> Wordy(f.value) && 1 <= |f.value| <= 60
  {
    hide Binding.Matches, Binding.HasProviderTarget, Command.PayloadDigest, ActionProposal.ActionKey, Wordy;
    JobFailureWords();
    MissingWords();
    UnequalWords();
    FutureWords();
    TargetlessWords();
  }

  /** The delivery can still settle its lease when it comes to it. */
  predicate Settleable(d: Delivery) {
    Outbox.Settling(d.job, d.worker, d.Token(), d.settledAt, d.job.version).Ok?
  }

  lemma WordsBury(d: Delivery, x: Disposition, effect: GateDecision, reason: string, status: Option<LinkStatus>,
                  attempted: bool)
    requires d.job.Valid() && d.job.state.Leased? && Wordy(reason) && 1 <= |reason| <= 512
    ensures d.Bury(x, effect, reason, status, attempted).Ok? <==> Settleable(d)
  {
    hide IsCleanText, Wordy, Delivery.Token, Outbox.ActiveLease;
    WordyIsClean(reason);
  }

  /** Money shown, on the rows or by the provider, goes to review, and only a lost lease stops that. */
  lemma MoneyResolves(d: Delivery, effect: GateDecision, b: Binding, t: Truth, phase: string, attempted: bool)
    requires d.job.Valid() && d.job.state.Leased? && t.Received() && (phase == "pre_cancel" || phase == "post_cancel")
    ensures var r := d.ResolveWithoutCancel(effect, b, t, phase, attempted);
      r.Some? && (r.value.Ok? <==> Settleable(d))
  {
    hide Delivery.Bury, Settleable, Wordy, Delivery.Complete, Delivery.Requeue, StatusName, LinkStatusName;
    PhaseWords();
    StatusWords(b.status, t.status);
    WordyJoin(phase, "_durable_");
    WordyJoin(phase + "_durable_", StatusName(b.status));
    WordyJoin(phase + "_durable_" + StatusName(b.status), "_requires_review");
    WordyJoin(phase, "_provider_");
    WordyJoin(phase + "_provider_", LinkStatusName(t.status));
    WordyJoin(phase + "_provider_" + LinkStatusName(t.status), "_requires_review");
    if b.PaidRow() {
      WordsBury(d, REVIEW_REQUIRED, effect, phase + "_durable_" + StatusName(b.status) + "_requires_review",
                Some(t.status), attempted);
    } else {
      WordsBury(d, REVIEW_REQUIRED, effect, phase + "_provider_" + LinkStatusName(t.status) + "_requires_review",
                Some(t.status), attempted);
    }
  }

  lemma MoneyAfterCancel(d: Delivery, effect: GateDecision, reason: string, ports: Ports)
    requires d.job.Valid() && d.job.state.Leased? && ports.lastFetch.Fresh? && ports.lastFetch.truth.Received()
    ensures d.AfterCancel(effect, reason, ports).result.Ok? <==> ports.lastBinding.Answer? && Settleable(d)
  {
    hide Delivery.Bury, Delivery.Complete, Delivery.Requeue, Delivery.ResolveWithoutCancel, Settleable, Wordy,
         Truth.Matches, BindingFailure;
    if ports.lastBinding.Answer? {
      var t := ports.lastFetch.truth;
      var failure := BindingFailure(d.job, d.command, ports.lastBinding.value, ports.afterAt);
      PostMismatchWords();
      PostFailureWords();
      if failure.Some? {
        FailureWords(d.job, d.command, ports.lastBinding.value, ports.afterAt);
        WordyJoin("post_cancel_binding_failure:", failure.value);
        WordsBury(d, ESCALATED, effect, "post_cancel_binding_failure:" + failure.value, Some(t.status), true);
      } else if !t.Matches(d.command.target) {
        WordsBury(d, ESCALATED, effect, "post_cancel_provider_target_mismatch", Some(t.status), true);
      } else {
        MoneyResolves(d, effect, ports.lastBinding.value.value, t, "post_cancel", true);
      }
    }
  }

  /** A run that showed money returns exactly when its lease lasts and, after a cancel, its last read answers. */
  predicate MoneyReturns(d: Delivery, run: Run, ports: Ports) {
    SawMoney(run.events) ==>
      (run.result.Ok? <==> Settleable(d) && (CalledCancel in run.events ==> ports.lastBinding.Answer?))
  }

  lemma AfterCancelMoney(d: Delivery, effect: GateDecision, reason: string, ports: Ports)
    ensures SawMoney(d.AfterCancel(effect, reason, ports).events) <==>
              ports.lastFetch.Fresh? && ports.lastFetch.truth.Received()
  {
    hide Delivery.SettleAfterCancel, SawMoney;
    OneFetch(ports.lastFetch, None);
    if ports.lastBinding.Answer? {
      UnfetchedKeeps(None, [ReadBinding(ports.lastBinding.value)]);
      SawMoneyJoin([FetchedEvent(ports.lastFetch)], [ReadBinding(ports.lastBinding.value)]);
    }
  }

  lemma BeforeCancelMoney(d: Delivery, policy: GatePolicy, first: GateDecision, t: Truth, ports: Ports)
    requires d.job.Valid() && d.job.state.Leased?
    ensures MoneyReturns(d, d.BeforeCancel(policy, first, t, ports), ports)
  {
    hide E.Live, Decision, Delivery.AfterCancel, Delivery.Bury, Delivery.Requeue, Settleable, SawMoney, Outbox.Job.Valid;
    var run := d.BeforeCancel(policy, first, t, ports);
    BeforeCancelSends(d, policy, first, t, ports);
    if CalledCancel in run.events {
      var final := d.Decide(policy, ports.finalContext.value, ports.effectAt, true);
      var before := [Decided(final), RecordedAuthorization, CalledCancel];
      var after := d.AfterCancel(final, ports.cancelReason, ports);
      UnfetchedKeeps(None, before);
      SawMoneyJoin(before, after.events);
      AfterCancelMoney(d, final, ports.cancelReason, ports);
      if ports.lastFetch.Fresh? && ports.lastFetch.truth.Received() {
        MoneyAfterCancel(d, final, ports.cancelReason, ports);
      }
    } else {
      UnfetchedKeeps(None, run.events);
    }
  }

  /** A read in front changes nothing about money or the cancel call. */
  lemma ReadInFront(d: Delivery, read: Event, run: Run, ports: Ports)
    requires MoneyReturns(d, run, ports) && !read.Fetched? && !read.CalledCancel?
    ensures MoneyReturns(d, Run(run.result, [read] + run.events), ports)
  {
    hide Settleable, SawMoney;
    UnfetchedKeeps(None, [read]);
    SawMoneyJoin([read], run.events);
  }

  lemma AfterFetchMoney(d: Delivery, policy: GatePolicy, effect: GateDecision, b: Binding, t: Truth, ports: Ports)
    requires d.job.Valid() && d.job.state.Leased?
    ensures var run := d.AfterFetch(policy, effect, b, t, ports);
      if t.Received() then run.events == [] && (run.result.Ok? <==> Settleable(d)) else MoneyReturns(d, run, ports)
  {
    hide Delivery.BeforeCancel, Delivery.ResolveWithoutCancel, Delivery.Bury, BindingFailure, Settleable, SawMoney,
         MoneyReturns, Outbox.Job.Valid;
    var run := d.AfterFetch(policy, effect, b, t, ports);
    if t.Received() {
      MoneyResolves(d, effect, b, t, "pre_cancel", false);
    } else if run.events == [] {
      QuietReturns(d, run, ports);
    } else {
      var rest := d.BeforeCancel(policy, effect, t, ports);
      BeforeCancelMoney(d, policy, effect, t, ports);
      ReadInFront(d, ReadBinding(ports.secondBinding.value), rest, ports);
      if run.events == [ReadBinding(ports.secondBinding.value)] { QuietReturns(d, run, ports); }
    }
  }

  lemma QuietReturns(d: Delivery, run: Run, ports: Ports)
    requires Unfetched(run.events)
    ensures MoneyReturns(d, run, ports)
  {
    hide Settleable, SawMoney;
    UnfetchedKeeps(None, run.events);
  }

  lemma AfterDecisionMoney(d: Delivery, policy: GatePolicy, effect: GateDecision, b: Binding, ports: Ports)
    requires d.job.Valid() && d.job.state.Leased?
    ensures MoneyReturns(d, d.AfterDecision(policy, effect, b, ports), ports)
  {
    hide Delivery.AfterFetch, Delivery.Bury, Delivery.Requeue, Truth.Matches, Settleable, SawMoney, Wordy, Outbox.Job.Valid;
    var f := ports.firstFetch;
    OneFetch(f, None);
    if f.Fresh? && !f.truth.Matches(d.command.target) {
      PreMismatchWords();
      WordsBury(d, ESCALATED, effect, "pre_cancel_provider_target_mismatch", Some(f.truth.status), false);
    } else if f.Fresh? {
      var rest := d.AfterFetch(policy, effect, b, f.truth, ports);
      AfterFetchMoney(d, policy, effect, b, f.truth, ports);
      SawMoneyJoin([FetchedEvent(f)], rest.events);
    }
  }

  /**
   A delivery that showed money returns, and so buries its job for review, exactly when
   its lease still lasts at settling and, if it called cancel, its last read of the rows
   answered. Otherwise it raises.
   */
  lemma MoneyReturnsExactly(d: Delivery, policy: GatePolicy, ports: Ports)
    requires d.job.Valid() && d.job.state.Leased?
    ensures MoneyReturns(d, d.Outcome(policy, ports), ports)
  {
    hide E.Live, Decision, Delivery.AfterDecision, Delivery.Bury, Delivery.Denied, Settleable, SawMoney, BindingFailure,
         MoneyReturns, Outbox.Job.Valid;
    var run := d.Outcome(policy, ports);
    if Unfetched(run.events) {
      QuietReturns(d, run, ports);
    } else {
      var b := ports.firstBinding.value;
      var effect := d.Decide(policy, ports.firstContext.value, ports.firstAt, true);
      var rest := d.AfterDecision(policy, effect, b.value, ports);
      AfterDecisionMoney(d, policy, effect, b.value, ports);
      ReadInFront(d, Decided(effect), rest, ports);
      ReadInFront(d, ReadBinding(b), Run(rest.result, [Decided(effect)] + rest.events), ports);
      assert [ReadBinding(b)] + ([Decided(effect)] + rest.events) == [ReadBinding(b)] + [Decided(effect)] + rest.events;
    }
  }

  // ---- What the handler makes of a delivery ----

  datatype Settlement = Succeeded | Retried(mode: Outbox.RetryMode) | Buried

  /** The handler's answer: any exception, the persisting one included, asks for reconciliation. */
  function Handled(run: Run, persisted: bool): Settlement {
    if run.result.Err? || !persisted then Retried(Outbox.ReconcileOnly)
    else
      match run.result.value.disposition
      case CANCELLED_NOW => Succeeded
      case ALREADY_CANCELLED => Succeeded
      case LINK_EXPIRED => Succeeded
      case RECONCILE_REQUIRED => Retried(run.result.value.job.mode)
      case _ => Buried
  }

  /**
   What the handler makes of every delivery, returned or raised: success only on a last
   fetch of this very link, cancelled or expired; after money, a dead letter for review
   exactly when the delivery could return and its result was persisted, and otherwise a
   retry that may only reconcile, and so never cancels.
   */
  lemma HandledSafely(d: Delivery, policy: GatePolicy, ports: Ports, persisted: bool)
    requires d.job.Valid() && d.job.state.Leased?
    ensures var run := d.Outcome(policy, ports);
      var handled := Handled(run, persisted);
      var last := LastFetched(None, run.events);
      && (handled.Succeeded? ==>
            && last.Some? && last.value.Matches(d.command.target)
            && (last.value.status.Cancelled? || last.value.status.Expired?))
      && (SawMoney(run.events) ==>
            && (handled.Buried? <==>
                  persisted && Settleable(d) && (CalledCancel in run.events ==> ports.lastBinding.Answer?))
            && (!handled.Buried? ==> handled == Retried(Outbox.ReconcileOnly)))
  {
    hide Delivery.Outcome, LastFetched, SawMoney, Settleable, Outbox.Job.Valid, Truth.Matches;
    DeliverySettlesSafely(d, policy, ports);
    MoneyReturnsExactly(d, policy, ports);
  }

  /** A delivery can raise after money: its lease ran out between fetching the paid link and settling. */
  lemma MoneyCanStayPending(d: Delivery, policy: GatePolicy, ports: Ports, persisted: bool)
    requires d.job.Valid() && d.job.state.Leased? && d.settledAt >= d.job.expiresAt.value
    requires E.Live(d.job, d.worker, ports.firstAt) && ports.firstContext.Answer?
    requires ports.firstBinding.Answer?
             && BindingFailure(d.job, d.command, ports.firstBinding.value, ports.firstAt).None?
    requires d.Decide(policy, ports.firstContext.value, ports.firstAt, true).Allowed()
    requires ports.firstFetch.Fresh? && ports.firstFetch.truth.Received()
    ensures SawMoney(d.Outcome(policy, ports).events)
    ensures Handled(d.Outcome(policy, ports), persisted) == Retried(Outbox.ReconcileOnly)
  {
    hide E.Live, Decision, Delivery.AfterFetch, Delivery.Bury, Delivery.Requeue, BindingFailure, SawMoney, Truth.Matches,
         Handled, Outbox.Job.Valid;
    var b := ports.firstBinding.value;
    var effect := d.Decide(policy, ports.firstContext.value, ports.firstAt, true);
    var before := [ReadBinding(b)] + [Decided(effect)];
    var rest := d.AfterDecision(policy, effect, b.value, ports).events;
    OneFetch(ports.firstFetch, None);
    if ports.firstFetch.truth.Matches(d.command.target) {
      SawMoneyJoin([FetchedEvent(ports.firstFetch)],
                   d.AfterFetch(policy, effect, b.value, ports.firstFetch.truth, ports).events);
    }
    assert d.Outcome(policy, ports).events == before + rest;
    SawMoneyJoin(before, rest);
    HandledSafely(d, policy, ports, persisted);
    NotSettleable(d);
  }

  lemma NotSettleable(d: Delivery)
    requires d.job.Valid() && d.job.state.Leased? && d.settledAt >= d.job.expiresAt.value
    ensures !Settleable(d)
  {}
}
