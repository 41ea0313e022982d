/**
 One cancellation delivery as a table: for every answer of its ports, the exact result, the
 whole job it leaves and what it did on the way.
 */
module CancelOutcomes {
  import opened Outcomes
  import opened Text
  import opened Calendar
  import opened Actions
  import opened Gate
  import Backoff
  import Outbox
  import opened JobTransitions
  import E = Executor
  import T = DeliveryOutcomes
  import opened Cancellation

  type Report = Result<CancelResult, E.Failure>

  // ---- The three ways to settle, as values ----

  /** The lease still stands when the delivery comes to settle. */
  predicate Standing(d: Delivery) {
    d.job.token.Some? && HeldBy(d.job, d.worker, d.job.token.value, d.settledAt, d.job.version)
  }

  function Settled(d: Delivery, state: Outbox.JobState, availableAt: Option<int>, mode: Outbox.RetryMode,
                   lastError: Option<string>, completion: Option<string>, deadReason: Option<string>): Outbox.Job {
    var j := d.job;
    Outbox.Job(j.jobId, j.actionKey, j.payloadDigest, state, j.version + 1, j.attempts, j.maxAttempts, j.createdAt,
               d.settledAt, availableAt, mode, None, None, None, lastError, completion, deadReason)
  }

  function Stored(d: Delivery, storable: bool, r: CancelResult): Report {
    if storable && Standing(d) then Ok(r) else Err(E.JobFault)
  }

  /** The job dead-lettered with the reason. */
  function Buries(d: Delivery, x: Disposition, effect: GateDecision, reason: string, status: Option<LinkStatus>,
                  attempted: bool): Report {
    Stored(d, IsCleanText(reason, 512),
           CancelResult(x, Settled(d, Outbox.DeadLetter, None, d.job.mode, Some(reason), None, Some(reason)), effect,
                        reason, status, attempted))
  }

  /** The job completed: `how` and the digest of the target are its completion. */
  function Completes(d: Delivery, x: Disposition, how: string, effect: GateDecision, reason: string, status: LinkStatus,
                     attempted: bool): Report {
    Stored(d, true,
           CancelResult(x, Settled(d, Outbox.Completed, None, d.job.mode, None,
                                   Some(how + d.command.target.TargetDigest()), None),
                        effect, reason, Some(status), attempted))
  }

  /** A pending job after the backoff; the last attempt is a dead letter instead. */
  function Retries(d: Delivery, effect: GateDecision, reason: string, mode: Outbox.RetryMode,
                   status: Option<LinkStatus>, attempted: bool): Report {
    if d.job.attempts < 1 then Err(E.JobFault)
    else
      var next := d.settledAt + WaitAfter(d.backoff, d.job.attempts);
      if d.job.attempts < d.job.maxAttempts then
        Stored(d, IsCleanText(reason, 512) && Representable(next),
               CancelResult(RECONCILE_REQUIRED,
                            Settled(d, Outbox.Pending, Some(next), mode, Some(reason), None, None), effect, reason,
                            status, attempted))
      else
        Stored(d, IsCleanText(reason, 512) && |reason| <= 489,
               CancelResult(DEAD_LETTER,
                            Settled(d, Outbox.DeadLetter, None, mode, Some(reason), None,
                                    Some("max_attempts_exhausted:" + reason)),
                            effect, reason, status, attempted))
  }

  // ---- The delivery's own settlements are these ----

  /** A delivery under a lease: what every claim hands out. */
  predicate Leased(d: Delivery) {
    && d.job.Valid() && d.backoff.Valid() && d.job.state == Outbox.Leased && d.job.token.Some?
    && d.job.token.value != ""
  }

  lemma LeasedFacts(d: Delivery)
    requires Leased(d)
    ensures d.job.Valid() && d.backoff.Valid() && d.job.state == Outbox.Leased
    ensures d.job.token == Some(d.Token())
    ensures 1 <= d.job.attempts <= d.job.maxAttempts
  {
    hide Outbox.Job.Named;
  }

  lemma BuryIsTabled(d: Delivery, x: Disposition, effect: GateDecision, reason: string, status: Option<LinkStatus>,
                     attempted: bool)
    requires Leased(d)
    ensures d.Bury(x, effect, reason, status, attempted) == Buries(d, x, effect, reason, status, attempted)
  {
    hide Leased, Outbox.Bury, IsCleanText, Delivery.Token, Outbox.Job.Valid, HeldBy;
    LeasedFacts(d);
    BuryTable(d.job, d.worker, d.Token(), d.settledAt, d.job.version, reason);
  }

  lemma RetryIsTabled(d: Delivery, effect: GateDecision, reason: string, mode: Outbox.RetryMode,
                      status: Option<LinkStatus>, attempted: bool)
    requires Leased(d)
    ensures d.Requeue(effect, reason, mode, status, attempted) == Retries(d, effect, reason, mode, status, attempted)
  {
    hide Leased, Outbox.Requeue, IsCleanText, Delivery.Token, Outbox.Job.Valid, HeldBy, WaitAfter;
    LeasedFacts(d);
    RequeueTable(d.job, d.worker, d.Token(), d.settledAt, d.job.version, reason, d.backoff, mode);
  }

  lemma TagsAreClean()
    ensures IsCleanText("already_cancelled:", 512) && IsCleanText("expired:", 512) && IsCleanText("cancelled:", 512)
  {}

  /** Each completion is told apart by how the link died. */
  function How(x: Disposition): string {
    if x == ALREADY_CANCELLED then "already_cancelled:" else if x == LINK_EXPIRED then "expired:" else "cancelled:"
  }

  lemma CompleteIsTabled(d: Delivery, x: Disposition, effect: GateDecision, reason: string, status: LinkStatus,
                         attempted: bool)
    requires Leased(d)
    ensures d.Complete(x, effect, reason, status, attempted)
         == Completes(d, x, How(x), effect, reason, status, attempted)
  {
    hide Leased, Outbox.Complete, IsCleanText, Delivery.Token, Outbox.Job.Valid, HeldBy, Target.TargetDigest;
    LeasedFacts(d);
    TagsAreClean();
    TaggedIsClean(How(x), d.command.target.TargetDigest(), 512);
    CompleteTable(d.job, d.worker, d.Token(), d.settledAt, d.job.version, How(x) + d.command.target.TargetDigest());
  }

  // ---- Binding ----

  /** The bindings in the order they are proved, each with the failure it is reported under. */
  function Bindings(job: Outbox.Job, c: Command, b: Option<Binding>, now: int): seq<(string, bool)> {
    [("job_action_key_mismatch", job.actionKey == c.proposal.ActionKey()),
     ("job_payload_digest_mismatch", job.payloadDigest == c.PayloadDigest()),
     ("durable_instrument_binding_missing", b.Some?),
     ("durable_instrument_binding_mismatch",
      b.Some? && b.value.target == c.target && b.value.persistedDigest == c.target.TargetDigest()),
     ("durable_instrument_binding_from_future", b.Some? && b.value.recordedAt <= now),
     ("instrument_status_has_no_cancellable_provider_target",
      b.Some? && b.value.status != CREATING && b.value.status != FAILED)]
  }

  /** The rows are this very command's, already recorded, and know a provider's link. */
  predicate Bound(job: Outbox.Job, c: Command, b: Option<Binding>, now: int) {
    && job.actionKey == c.proposal.ActionKey() && job.payloadDigest == c.PayloadDigest()
    && b.Some? && b.value.target == c.target && b.value.persistedDigest == c.target.TargetDigest()
    && b.value.recordedAt <= now && b.value.status != CREATING && b.value.status != FAILED
  }

  lemma FirstBrokenIsReported(job: Outbox.Job, c: Command, b: Option<Binding>, now: int, i: nat)
    requires T.FirstBroken(Bindings(job, c, b, now), i)
    ensures BindingFailure(job, c, b, now) == Some(Bindings(job, c, b, now)[i].0) && !Bound(job, c, b, now)
  {
    hide ActionProposal.ActionKey, Command.PayloadDigest, Target.TargetDigest;
    var t := Bindings(job, c, b, now);
    assert i > 0 ==> t[0].1;
    assert i > 1 ==> t[1].1;
    assert i > 2 ==> t[2].1;
    assert i > 3 ==> t[3].1;
    assert i > 4 ==> t[4].1;
  }

  lemma BoundMeansNoFailure(job: Outbox.Job, c: Command, b: Option<Binding>, now: int)
    ensures BindingFailure(job, c, b, now).None? <==> Bound(job, c, b, now)
  {
    hide ActionProposal.ActionKey, Command.PayloadDigest, Target.TargetDigest;
  }

  /** What an unbound read is reported under: the name of the first binding that does not hold. */
  ghost predicate Unbound(job: Outbox.Job, c: Command, b: Option<Binding>, now: int, failure: string) {
    exists i: nat :: T.FirstBroken(Bindings(job, c, b, now), i) && failure == Bindings(job, c, b, now)[i].0
  }

  /** Unbound rows always have a name for it. */
  lemma UnboundHasName(job: Outbox.Job, c: Command, b: Option<Binding>, now: int) returns (failure: string)
    requires !Bound(job, c, b, now)
    ensures Unbound(job, c, b, now, failure)
  {
    hide ActionProposal.ActionKey, Command.PayloadDigest, Target.TargetDigest;
    var t := Bindings(job, c, b, now);
    var k := if !t[0].1 then 0 else if !t[1].1 then 1 else if !t[2].1 then 2 else if !t[3].1 then 3
             else if !t[4].1 then 4 else 5;
    var i := T.SomethingFirst(t, k);
    failure := t[i].0;
  }

  lemma UnboundIsReported(job: Outbox.Job, c: Command, b: Option<Binding>, now: int, failure: string)
    requires Unbound(job, c, b, now, failure)
    ensures BindingFailure(job, c, b, now) == Some(failure)
  {
    hide Bindings, BindingFailure;
    var i: nat :| T.FirstBroken(Bindings(job, c, b, now), i) && failure == Bindings(job, c, b, now)[i].0;
    FirstBrokenIsReported(job, c, b, now, i);
  }

  // ---- Rows against provider truth ----

  /** The fetched link is the command's: same identifiers, same money, no other mode. */
  predicate SameLink(t: Truth, g: Target) {
    && t.linkId == g.linkId && t.referenceId == g.referenceId && t.amountMinor == g.amountMinor
    && t.currency == g.currency && !t.acceptPartial && !t.upiLink
  }

  lemma MatchesSameLink(t: Truth, g: Target)
    ensures t.Matches(g) <==> SameLink(t, g)
  {}

  /** A row that may still be cancelled. */
  predicate MayCancel(s: InstrumentStatus) { s == UNCERTAIN || s == ISSUED || s == ACTIVE || s == CANCEL_PENDING }

  /** A created link under a row that may be cancelled: the only pair that goes on to a cancel. */
  predicate GoesOn(s: InstrumentStatus, l: LinkStatus) { MayCancel(s) && l == Created }

  /** The report of every other pair: money first, then what the provider says, then what the row says. */
  function Resolution(d: Delivery, effect: GateDecision, s: InstrumentStatus, l: LinkStatus, phase: string,
                      attempted: bool): Report {
    if s == InstrumentStatus.PAID || s == PARTIALLY_PAID then
      Buries(d, REVIEW_REQUIRED, effect, phase + "_durable_" + StatusName(s) + "_requires_review", Some(l), attempted)
    else
      match l
      case Paid =>
        Buries(d, REVIEW_REQUIRED, effect, phase + "_provider_" + "paid" + "_requires_review", Some(l), attempted)
      case PartiallyPaid =>
        Buries(d, REVIEW_REQUIRED, effect, phase + "_provider_" + "partially_paid" + "_requires_review", Some(l),
               attempted)
      case Cancelled =>
        Completes(d, ALREADY_CANCELLED, "already_cancelled:", effect, phase + "_provider_already_cancelled", l,
                  attempted)
      case Expired => Completes(d, LINK_EXPIRED, "expired:", effect, phase + "_provider_expired", l, attempted)
      case Created =>
        if s == CANCELLED || s == EXPIRED then
          Retries(d, effect, phase + "_durable_" + StatusName(s) + "_conflicts_with_created_provider_truth",
                  Outbox.ReconcileOnly, Some(l), attempted)
        else Buries(d, ESCALATED, effect, phase + "_instrument_status_not_cancellable", Some(l), attempted)
  }

  lemma ResolutionTable(d: Delivery, effect: GateDecision, b: Binding, t: Truth, phase: string, attempted: bool)
    requires Leased(d)
    ensures d.ResolveWithoutCancel(effect, b, t, phase, attempted)
         == if GoesOn(b.status, t.status) then None
            else Some(Resolution(d, effect, b.status, t.status, phase, attempted))
  {
    hide Leased, Delivery.Bury, Delivery.Complete, Delivery.Requeue, Buries, Completes, Retries, StatusName;
    BuryIsTabled(d, REVIEW_REQUIRED, effect, phase + "_durable_" + StatusName(b.status) + "_requires_review",
                 Some(t.status), attempted);
    BuryIsTabled(d, REVIEW_REQUIRED, effect, phase + "_provider_" + LinkStatusName(t.status) + "_requires_review",
                 Some(t.status), attempted);
    CompleteIsTabled(d, ALREADY_CANCELLED, effect, phase + "_provider_already_cancelled", t.status, attempted);
    CompleteIsTabled(d, LINK_EXPIRED, effect, phase + "_provider_expired", t.status, attempted);
    RetryIsTabled(d, effect, phase + "_durable_" + StatusName(b.status) + "_conflicts_with_created_provider_truth",
                  Outbox.ReconcileOnly, Some(t.status), attempted);
    BuryIsTabled(d, ESCALATED, effect, phase + "_instrument_status_not_cancellable", Some(t.status), attempted);
  }

  // ---- Stage by stage ----

  /** What is left of a run after its first events. */
  function Later(run: Run, n: nat): Run
    requires n <= |run.events|
  {
    Run(run.result, run.events[n..])
  }

  /** What a cancel call, whatever it answered, ends in: a fetch, a last read, and what they say together. */
  ghost predicate EndsAfterCancel(d: Delivery, final: GateDecision, ports: Ports, r: Report)
    requires ports.lastBinding.Answer?
  {
    var b, f := ports.lastBinding.value, ports.lastFetch;
    if !Bound(d.job, d.command, b, ports.afterAt) then
      forall failure | Unbound(d.job, d.command, b, ports.afterAt, failure) ::
        r == Buries(d, ESCALATED, final, "post_cancel_binding_failure:" + failure,
                    if f.Fresh? then Some(f.truth.status) else None, true)
    else
      match f
      case Unavailable(why) =>
        r == Retries(d, final, "post_cancel_truth_unavailable:" + ports.cancelReason + ":" + why, Outbox.ReconcileOnly,
                     None, true)
      case Fresh(t) =>
        if !SameLink(t, d.command.target) then
          r == Buries(d, ESCALATED, final, "post_cancel_provider_target_mismatch", Some(t.status), true)
        else if t.status == Cancelled && b.value.status != InstrumentStatus.PAID && b.value.status != PARTIALLY_PAID
        then
          r == Completes(d, CANCELLED_NOW, "cancelled:", final,
                         "post_cancel_provider_cancelled:" + ports.cancelReason, t.status, true)
        else if GoesOn(b.value.status, t.status) then
          r == Retries(d, final, "post_cancel_fresh_unpaid_link_grants_effect_retry:" + ports.cancelReason,
                       Outbox.RetrySameEffect, Some(t.status), true)
        else r == Resolution(d, final, b.value.status, t.status, "post_cancel", true)
  }

  lemma AfterCancelTable(d: Delivery, final: GateDecision, ports: Ports)
    requires Leased(d) && ports.lastBinding.Answer?
    ensures EndsAfterCancel(d, final, ports,
                            d.SettleAfterCancel(final, ports.cancelReason, ports.lastBinding.value, ports))
  {
    hide Leased, Delivery.Bury, Delivery.Complete, Delivery.Requeue, Delivery.ResolveWithoutCancel, Buries, Completes,
         Retries, Bound, BindingFailure, Unbound, SameLink, Truth.Matches, Resolution;
    var b, f := ports.lastBinding.value, ports.lastFetch;
    BoundMeansNoFailure(d.job, d.command, b, ports.afterAt);
    forall failure | Unbound(d.job, d.command, b, ports.afterAt, failure)
      ensures BindingFailure(d.job, d.command, b, ports.afterAt) == Some(failure)
    {
      UnboundIsReported(d.job, d.command, b, ports.afterAt, failure);
    }
    var failure := BindingFailure(d.job, d.command, b, ports.afterAt);
    if failure.Some? {
      BuryIsTabled(d, ESCALATED, final, "post_cancel_binding_failure:" + failure.value,
                   if f.Fresh? then Some(f.truth.status) else None, true);
    } else if f.Unavailable? {
      RetryIsTabled(d, final, "post_cancel_truth_unavailable:" + ports.cancelReason + ":" + f.why, Outbox.ReconcileOnly,
                    None, true);
    } else {
      var t := f.truth;
      MatchesSameLink(t, d.command.target);
      BuryIsTabled(d, ESCALATED, final, "post_cancel_provider_target_mismatch", Some(t.status), true);
      CompleteIsTabled(d, CANCELLED_NOW, final, "post_cancel_provider_cancelled:" + ports.cancelReason, t.status, true);
      ResolutionTable(d, final, b.value, t, "post_cancel", true);
      RetryIsTabled(d, final, "post_cancel_fresh_unpaid_link_grants_effect_retry:" + ports.cancelReason,
                    Outbox.RetrySameEffect, Some(t.status), true);
    }
  }

  /** With an open link and rows read twice: a reconcile-only delivery hands the effect back, any other cancels. */
  ghost predicate EndsAtCancel(d: Delivery, policy: GatePolicy, first: GateDecision, t: Truth, ports: Ports, run: Run) {
    if d.job.mode == Outbox.ReconcileOnly then
      run == Run(Retries(d, first, "reconcile_only_fresh_unpaid_link_grants_effect_retry", Outbox.RetrySameEffect,
                         Some(t.status), false), [])
    else if !T.LeaseLasts(d.job, d.worker, ports.effectAt) then run == Run(Err(E.LeaseFault), [])
    else if ports.finalContext.Raises? then run == Run(Err(E.PortFault), [])
    else
      var final := Decision(Effect, policy, d.command.proposal,
                            ports.finalContext.value.(evaluatedAt := ports.effectAt, durableIntent := true),
                            Some(d.command.plan));
      if final.reasons != [] then
        run == Run(Buries(d, BLOCKED, final, "final_effect_gate_denied:" + E.ReasonList(final.reasons), Some(t.status),
                          false), [Decided(final)])
      else if t.paidMinor != 0 then
        run == Run(Buries(d, REVIEW_REQUIRED, final, "final_provider_amount_paid_requires_review", Some(t.status),
                          false), [Decided(final)])
      else if ports.record.Raises? then run == Run(Err(E.PortFault), [Decided(final), RecordedAuthorization])
      else
        var fetched := Fetched(if ports.lastFetch.Fresh? then Some(ports.lastFetch.truth) else None);
        var called := [Decided(final), RecordedAuthorization, CalledCancel, fetched];
        if ports.lastBinding.Raises? then run == Run(Err(E.PortFault), called)
        else
          run.events == called + [ReadBinding(ports.lastBinding.value)]
          && EndsAfterCancel(d, final, ports, run.result)
  }

  lemma CancelTable(d: Delivery, policy: GatePolicy, first: GateDecision, t: Truth, ports: Ports)
    requires Leased(d)
    ensures EndsAtCancel(d, policy, first, t, ports, d.BeforeCancel(policy, first, t, ports))
  {
    hide Leased, Delivery.Bury, Delivery.Requeue, Delivery.SettleAfterCancel, Buries, Retries, E.Live, T.LeaseLasts,
         Reasons, EndsAfterCancel, ActionProposal.ActionKey, ActionProposal.ProposalDigest, E.ReasonList,
         Outbox.Job.Valid;
    LeasedFacts(d);
    RetryIsTabled(d, first, "reconcile_only_fresh_unpaid_link_grants_effect_retry", Outbox.RetrySameEffect,
                  Some(t.status), false);
    T.LastsIsLive(d.job, d.worker, ports.effectAt);
    if ports.finalContext.Answer? {
      var final := d.Decide(policy, ports.finalContext.value, ports.effectAt, true);
      BuryIsTabled(d, BLOCKED, final, "final_effect_gate_denied:" + E.ReasonList(final.reasons), Some(t.status), false);
      BuryIsTabled(d, REVIEW_REQUIRED, final, "final_provider_amount_paid_requires_review", Some(t.status), false);
      if ports.lastBinding.Answer? { AfterCancelTable(d, final, ports); }
    }
  }

  /** With this link's truth in hand: settled at once, or after a second read of the rows, or on to the cancel. */
  ghost predicate EndsAfterFetch(d: Delivery, policy: GatePolicy, effect: GateDecision, s: InstrumentStatus, t: Truth,
                                 ports: Ports, run: Run) {
    if !GoesOn(s, t.status) then run == Run(Resolution(d, effect, s, t.status, "pre_cancel", false), [])
    else if ports.secondBinding.Raises? then run == Run(Err(E.PortFault), [])
    else
      var again := ports.secondBinding.value;
      && run.events != [] && run.events[0] == ReadBinding(again)
      && if !Bound(d.job, d.command, again, ports.recheckedAt) then
           && run.events == [ReadBinding(again)]
           && forall failure | Unbound(d.job, d.command, again, ports.recheckedAt, failure) ::
                run.result
                == Buries(d, ESCALATED, effect, "pre_effect_binding_failure:" + failure, Some(t.status), false)
         else if !GoesOn(again.value.status, t.status) then
           run == Run(Resolution(d, effect, again.value.status, t.status, "pre_effect", false), [ReadBinding(again)])
         else EndsAtCancel(d, policy, effect, t, ports, Later(run, 1))
  }

  lemma FetchTable(d: Delivery, policy: GatePolicy, effect: GateDecision, b: Binding, t: Truth, ports: Ports)
    requires Leased(d)
    ensures EndsAfterFetch(d, policy, effect, b.status, t, ports, d.AfterFetch(policy, effect, b, t, ports))
  {
    hide Leased, Delivery.Bury, Delivery.ResolveWithoutCancel, Delivery.BeforeCancel, Buries, Bound, BindingFailure,
         Unbound, Resolution, EndsAtCancel, GoesOn;
    ResolutionTable(d, effect, b, t, "pre_cancel", false);
    if ports.secondBinding.Answer? {
      var again := ports.secondBinding.value;
      BoundMeansNoFailure(d.job, d.command, again, ports.recheckedAt);
      forall failure | Unbound(d.job, d.command, again, ports.recheckedAt, failure)
        ensures BindingFailure(d.job, d.command, again, ports.recheckedAt) == Some(failure)
      {
        UnboundIsReported(d.job, d.command, again, ports.recheckedAt, failure);
      }
      var failure := BindingFailure(d.job, d.command, again, ports.recheckedAt);
      if failure.Some? {
        BuryIsTabled(d, ESCALATED, effect, "pre_effect_binding_failure:" + failure.value, Some(t.status), false);
      } else {
        ResolutionTable(d, effect, again.value, t, "pre_effect", false);
        CancelTable(d, policy, effect, t, ports);
        var rest := d.BeforeCancel(policy, effect, t, ports);
        assert ([ReadBinding(again)] + rest.events)[1..] == rest.events;
      }
    }
  }

  /** With an allowed decision: the provider is asked, and only this link's truth is acted on. */
  ghost predicate EndsAfterDecision(d: Delivery, policy: GatePolicy, effect: GateDecision, s: InstrumentStatus,
                                    ports: Ports, run: Run) {
    && run.events != []
    && match ports.firstFetch
       case Unavailable(why) =>
         run == Run(Retries(d, effect, "pre_cancel_truth_unavailable:" + why,
                            if d.job.mode == Outbox.ReconcileOnly then Outbox.ReconcileOnly else Outbox.FirstTry, None,
                            false), [Fetched(None)])
       case Fresh(t) =>
         && run.events[0] == Fetched(Some(t))
         && if !SameLink(t, d.command.target) then
              run == Run(Buries(d, ESCALATED, effect, "pre_cancel_provider_target_mismatch", Some(t.status), false),
                         [Fetched(Some(t))])
            else EndsAfterFetch(d, policy, effect, s, t, ports, Later(run, 1))
  }

  lemma DecisionTable(d: Delivery, policy: GatePolicy, effect: GateDecision, b: Binding, ports: Ports)
    requires Leased(d)
    ensures EndsAfterDecision(d, policy, effect, b.status, ports, d.AfterDecision(policy, effect, b, ports))
  {
    hide Leased, Delivery.Bury, Delivery.Requeue, Delivery.AfterFetch, Buries, Retries, SameLink, Truth.Matches,
         EndsAfterFetch;
    match ports.firstFetch
    case Unavailable(why) =>
      RetryIsTabled(d, effect, "pre_cancel_truth_unavailable:" + why,
                    if d.job.mode == Outbox.ReconcileOnly then Outbox.ReconcileOnly else Outbox.FirstTry, None, false);
    case Fresh(t) =>
      MatchesSameLink(t, d.command.target);
      BuryIsTabled(d, ESCALATED, effect, "pre_cancel_provider_target_mismatch", Some(t.status), false);
      FetchTable(d, policy, effect, b, t, ports);
      var rest := d.AfterFetch(policy, effect, b, t, ports);
      assert ([Fetched(Some(t))] + rest.events)[1..] == rest.events;
  }

  // ---- Whole deliveries ----

  /** The first verdict: fresh truth at the first clock reading, the rows counted only when they are bound. */
  function Verdict(d: Delivery, policy: GatePolicy, ports: Ports): GateDecision
    requires ports.firstBinding.Answer? && ports.firstContext.Answer?
  {
    Decision(Effect, policy, d.command.proposal,
             ports.firstContext.value.(
               evaluatedAt := ports.firstAt,
               durableIntent := Bound(d.job, d.command, ports.firstBinding.value, ports.firstAt)),
             Some(d.command.plan))
  }

  /** A delivery without a lease, or whose reads raise, settles nothing and does nothing. */
  lemma UnheardFails(d: Delivery, policy: GatePolicy, ports: Ports)
    requires d.job.Valid()
    ensures !T.LeaseLasts(d.job, d.worker, ports.firstAt) ==>
              d.Outcome(policy, ports) == Run(Err(E.LeaseFault), [])
    ensures T.LeaseLasts(d.job, d.worker, ports.firstAt) && ports.firstBinding.Raises? ==>
              d.Outcome(policy, ports) == Run(Err(E.PortFault), [])
    ensures T.LeaseLasts(d.job, d.worker, ports.firstAt) && ports.firstBinding.Answer? && ports.firstContext.Raises? ==>
              d.Outcome(policy, ports) == Run(Err(E.PortFault), [ReadBinding(ports.firstBinding.value)])
  {
    hide E.Live, T.LeaseLasts, BindingFailure, Decision, Delivery.AfterDecision, Delivery.Bury, Delivery.Denied,
         Outbox.Job.Valid;
    T.LastsIsLive(d.job, d.worker, ports.firstAt);
  }

  /** A delivery that holds its lease and reads rows and context. */
  predicate Heard(d: Delivery, ports: Ports) {
    && Leased(d) && T.LeaseLasts(d.job, d.worker, ports.firstAt)
    && ports.firstBinding.Answer? && ports.firstContext.Answer?
  }

  lemma HeardDecides(d: Delivery, policy: GatePolicy, ports: Ports)
    requires Heard(d, ports)
    ensures var failure := BindingFailure(d.job, d.command, ports.firstBinding.value, ports.firstAt);
      var effect := d.Decide(policy, ports.firstContext.value, ports.firstAt, failure.None?);
      var decided := [ReadBinding(ports.firstBinding.value), Decided(effect)];
      var rest := if failure.Some?
                  then Run(d.Bury(ESCALATED, effect, "binding_failure:" + failure.value, None, false), [])
                  else if effect.reasons != [] then Run(d.Denied(effect), [])
                  else d.AfterDecision(policy, effect, ports.firstBinding.value.value, ports);
      d.Outcome(policy, ports) == Run(rest.result, decided + rest.events)
  {
    hide E.Live, T.LeaseLasts, BindingFailure, Decision, Delivery.AfterDecision, Delivery.Bury, Delivery.Denied, Leased;
    LeasedFacts(d);
    T.LastsIsLive(d.job, d.worker, ports.firstAt);
  }

  /** Rows that are not this command's escalate under the first binding that does not hold. */
  lemma UnboundEscalates(d: Delivery, policy: GatePolicy, ports: Ports, failure: string)
    requires Heard(d, ports) && Unbound(d.job, d.command, ports.firstBinding.value, ports.firstAt, failure)
    ensures var effect := Verdict(d, policy, ports);
      d.Outcome(policy, ports) == Run(Buries(d, ESCALATED, effect, "binding_failure:" + failure, None, false),
                                      [ReadBinding(ports.firstBinding.value), Decided(effect)])
  {
    hide T.LeaseLasts, BindingFailure, Bound, Unbound, Decision, Delivery.AfterDecision, Delivery.Bury, Delivery.Denied,
         Delivery.Outcome, Leased, Buries;
    HeardDecides(d, policy, ports);
    UnboundIsReported(d.job, d.command, ports.firstBinding.value, ports.firstAt, failure);
    BoundMeansNoFailure(d.job, d.command, ports.firstBinding.value, ports.firstAt);
    BuryIsTabled(d, ESCALATED, Verdict(d, policy, ports), "binding_failure:" + failure, None, false);
  }

  /** A denial blocks the delivery for good, and says whether the authorization itself was at fault. */
  lemma DenialBlocks(d: Delivery, policy: GatePolicy, ports: Ports)
    requires Heard(d, ports) && Bound(d.job, d.command, ports.firstBinding.value, ports.firstAt)
    requires Verdict(d, policy, ports).reasons != []
    ensures var effect := Verdict(d, policy, ports);
      var prefix := if T.FaultsAuthorization(effect.reasons) then "effect_authorization_fault:"
                    else "effect_gate_denied:";
      d.Outcome(policy, ports) == Run(Buries(d, BLOCKED, effect, prefix + E.ReasonList(effect.reasons), None, false),
                                      [ReadBinding(ports.firstBinding.value), Decided(effect)])
  {
    hide T.LeaseLasts, BindingFailure, Bound, Decision, Delivery.AfterDecision, Delivery.Bury, Delivery.Outcome, Leased,
         Buries, E.ReasonList;
    HeardDecides(d, policy, ports);
    BoundMeansNoFailure(d.job, d.command, ports.firstBinding.value, ports.firstAt);
    var effect := Verdict(d, policy, ports);
    BuryIsTabled(d, BLOCKED, effect, "effect_authorization_fault:" + E.ReasonList(effect.reasons), None, false);
    BuryIsTabled(d, BLOCKED, effect, "effect_gate_denied:" + E.ReasonList(effect.reasons), None, false);
  }

  /** An allowed delivery fetches, resolves, or cancels, exactly as the stages say. */
  lemma AllowedDeliveryTable(d: Delivery, policy: GatePolicy, ports: Ports, effect: GateDecision) returns (rest: Run)
    requires Heard(d, ports) && Bound(d.job, d.command, ports.firstBinding.value, ports.firstAt)
    requires effect == Verdict(d, policy, ports) && effect.reasons == []
    ensures d.Outcome(policy, ports)
         == Run(rest.result, [ReadBinding(ports.firstBinding.value), Decided(effect)] + rest.events)
    ensures EndsAfterDecision(d, policy, effect, ports.firstBinding.value.value.status, ports, rest)
  {
    hide T.LeaseLasts, BindingFailure, Bound, Decision, Delivery.AfterDecision, Delivery.Bury, Delivery.Outcome, Leased,
         Delivery.Denied, EndsAfterDecision;
    HeardDecides(d, policy, ports);
    BoundMeansNoFailure(d.job, d.command, ports.firstBinding.value, ports.firstAt);
    var b := ports.firstBinding.value.value;
    DecisionTable(d, policy, effect, b, ports);
    rest := d.AfterDecision(policy, effect, b, ports);
  }
}
