/**
 One create delivery as a table: for every answer of its ports, the exact result, the whole
 job it leaves and the calls it made.
 */
module DeliveryOutcomes {
  import opened Outcomes
  import opened Text
  import opened Calendar
  import opened States
  import opened Actions
  import opened Gate
  import GateReasons
  import PL = PaymentLinks
  import Backoff
  import Outbox
  import opened JobTransitions
  import opened Executor

  /** What a settled delivery reports: a result, or no job to report on. */
  type Report = Result<ExecutionResult, Failure>

  // ---- The four ways to settle, as values ----

  /** The delivery's job, its lease given up at the delivery's time. */
  function Settled(d: Delivery, state: Outbox.JobState, availableAt: Option<int>, mode: Outbox.RetryMode,
                   lastError: Option<string>, completion: Option<string>, deadReason: Option<string>): Outbox.Job {
    var j := d.job;
    Outbox.Job(j.jobId, j.actionKey, j.payloadDigest, state, j.version + 1, j.attempts, j.maxAttempts, j.createdAt,
               d.now, availableAt, mode, None, None, None, lastError, completion, deadReason)
  }

  /** The report when the settled job may be stored: its text is clean and time did not run back. */
  function Stored(d: Delivery, storable: bool, disposition: Disposition, j: Outbox.Job, reason: string,
                  linkId: Option<string>): Report {
    if storable && d.job.updatedAt <= d.now
    then Ok(ExecutionResult(disposition, j, d.effect, reason, d.command.request.referenceId, linkId))
    else Err(JobFault)
  }

  /** ESCALATED, the job dead-lettered with the reason. */
  function Escalated(d: Delivery, reason: string): Report {
    Stored(d, IsCleanText(reason, 512), ESCALATED,
           Settled(d, Outbox.DeadLetter, None, d.job.mode, Some(reason), None, Some(reason)), reason, None)
  }

  /** SUPPRESSED, the job completed under the digest of the decision that denied it. */
  function SuppressedBy(d: Delivery, reason: string): Report {
    Stored(d, true, SUPPRESSED,
           Settled(d, Outbox.Completed, None, d.job.mode, None, Some("suppressed_" + d.effect.DecisionDigest()), None),
           reason, None)
  }

  /** CREATED or ADOPTED, the job completed under the link. */
  function Linked(d: Delivery, disposition: Disposition, linkId: string, reason: string): Report {
    Stored(d, IsCleanText(linkId, 512), disposition,
           Settled(d, Outbox.Completed, None, d.job.mode, None, Some(linkId), None), reason, Some(linkId))
  }

  /** A pending job after the backoff; the last attempt is a dead letter instead. */
  function Retried(d: Delivery, disposition: Disposition, mode: Outbox.RetryMode, reason: string): Report
    requires d.job.attempts >= 1
  {
    var next := d.now + WaitAfter(d.backoff, d.job.attempts);
    if d.job.attempts < d.job.maxAttempts then
      Stored(d, IsCleanText(reason, 512) && Representable(next), disposition,
             Settled(d, Outbox.Pending, Some(next), mode, Some(reason), None, None), reason, None)
    else
      Stored(d, IsCleanText(reason, 512) && |reason| <= 489, DEAD_LETTER,
             Settled(d, Outbox.DeadLetter, None, mode, Some(reason), None, Some("max_attempts_exhausted:" + reason)),
             reason, None)
  }

  // ---- The delivery's own settlements are these ----

  /** The lease is this worker's and has not run out. */
  predicate LeaseLasts(job: Outbox.Job, worker: string, now: int) {
    && IsCleanText(worker, 128) && job.token.Some? && IsCleanText(job.token.value, 128)
    && job.state == Outbox.Leased && job.owner == Some(worker) && job.expiresAt.Some? && now < job.expiresAt.value
  }

  /** A delivery under a lease that lasts. */
  predicate Standing(d: Delivery) {
    d.job.Valid() && d.backoff.Valid() && LeaseLasts(d.job, d.worker, d.now)
  }

  lemma StandingFacts(d: Delivery)
    requires Standing(d)
    ensures d.job.state == Outbox.Leased && 1 <= d.job.attempts <= d.job.maxAttempts
    ensures HeldBy(d.job, d.worker, d.Token(), d.now, d.job.version) <==> d.job.updatedAt <= d.now
  {
    hide IsCleanText, Outbox.Job.Named;
    CleanIsSomething(d.job.token.value);
  }

  lemma CleanIsSomething(t: string)
    ensures IsCleanText(t, 128) ==> t != ""
  {}

  lemma EscalateTable(d: Delivery, reason: string)
    requires Standing(d)
    ensures d.Escalate(reason) == Escalated(d, reason)
  {
    hide Standing, Outbox.Bury, IsCleanText, Delivery.Token, Outbox.Job.Valid, HeldBy;
    StandingFacts(d);
    StandingIsValid(d);
    BuryTable(d.job, d.worker, d.Token(), d.now, d.job.version, reason);
  }

  lemma StandingIsValid(d: Delivery)
    requires Standing(d)
    ensures d.job.Valid() && d.backoff.Valid()
  {}

  lemma SuppressTable(d: Delivery, reason: string)
    requires Standing(d)
    ensures d.Suppress(reason) == SuppressedBy(d, reason)
  {
    hide Standing, Outbox.Complete, IsCleanText, Delivery.Token, Outbox.Job.Valid, HeldBy, GateDecision.DecisionDigest;
    StandingFacts(d);
    StandingIsValid(d);
    SuppressedTagIsClean();
    TaggedIsClean("suppressed_", d.effect.DecisionDigest(), 512);
    CompleteTable(d.job, d.worker, d.Token(), d.now, d.job.version, "suppressed_" + d.effect.DecisionDigest());
  }

  lemma SuppressedTagIsClean()
    ensures IsCleanText("suppressed_", 512)
  {}

  lemma FinishTable(d: Delivery, disposition: Disposition, linkId: string, reason: string)
    requires Standing(d)
    ensures d.Finish(disposition, linkId, reason) == Linked(d, disposition, linkId, reason)
  {
    hide Standing, Outbox.Complete, IsCleanText, Delivery.Token, Outbox.Job.Valid, HeldBy;
    StandingFacts(d);
    StandingIsValid(d);
    CompleteTable(d.job, d.worker, d.Token(), d.now, d.job.version, linkId);
  }

  lemma RetryTable(d: Delivery, reason: string, mode: Outbox.RetryMode, disposition: Disposition)
    requires Standing(d)
    ensures d.job.attempts >= 1 && d.Requeue(reason, mode, disposition) == Retried(d, disposition, mode, reason)
  {
    hide Standing, Outbox.Requeue, IsCleanText, Delivery.Token, Outbox.Job.Valid, HeldBy, WaitAfter;
    StandingFacts(d);
    StandingIsValid(d);
    RequeueTable(d.job, d.worker, d.Token(), d.now, d.job.version, reason, d.backoff, mode);
  }

  // ---- Whole deliveries ----

  /** Everything one delivery depends on. */
  datatype Setting = Setting(policy: GatePolicy, backoff: Backoff.Policy, job: Outbox.Job, command: Command,
                             worker: string, ports: Ports)
  {
    function Whole(): Run { Outcome(policy, backoff, job, command, worker, ports) }

    predicate Answered() { ports.intent.Answer? && ports.context.Answer? }

    /** The delivery once intent and context are read: judged on fresh truth at the second clock reading. */
    function Here(): (d: Delivery)
      requires Answered()
    {
      Delivery(job, command, worker, ports.secondNow,
               Decision(Effect, policy, command.proposal, JudgedContext(job, command, ports), Some(command.plan)),
               backoff)
    }

    /** Lease, intent and context let the delivery come to a verdict. */
    predicate Heard() {
      && job.Valid() && backoff.Valid() && LeaseLasts(job, worker, ports.firstNow) && Answered()
      && LeaseLasts(job, worker, ports.secondNow)
    }
  }

  lemma LastsIsLive(job: Outbox.Job, worker: string, now: int)
    requires job.Valid()
    ensures Live(job, worker, now) <==> LeaseLasts(job, worker, now)
  {
    hide IsCleanText, IsHexDigest;
    if job.token.Some? { CleanIsSomething(job.token.value); }
    if job.token == Some("") { NothingIsUnclean(); }
  }

  lemma NothingIsUnclean()
    ensures !IsCleanText("", 128) && !IsCleanText("", 512)
  {}

  /** A lease that is not held, or a port that raises, ends the delivery before anything is settled. */
  lemma UnheardFails(s: Setting)
    requires s.job.Valid()
    ensures !LeaseLasts(s.job, s.worker, s.ports.firstNow) ==> s.Whole() == Run(Err(LeaseFault), [])
    ensures LeaseLasts(s.job, s.worker, s.ports.firstNow) && s.ports.intent.Raises? ==>
              s.Whole() == Run(Err(PortFault), [LoadIntent])
    ensures LeaseLasts(s.job, s.worker, s.ports.firstNow) && s.ports.intent.Answer? && s.ports.context.Raises? ==>
              s.Whole() == Run(Err(PortFault), [LoadIntent, LoadContext])
    ensures LeaseLasts(s.job, s.worker, s.ports.firstNow) && s.Answered()
            && !LeaseLasts(s.job, s.worker, s.ports.secondNow) ==>
              s.Whole() == Run(Err(LeaseFault), [LoadIntent, LoadContext])
  {
    hide Live, LeaseLasts, BindingFailure, Decision, Delivery.Perform, Delivery.Escalate, Delivery.Denied, Judge,
         Outbox.Job.Valid;
    LastsIsLive(s.job, s.worker, s.ports.firstNow);
    LastsIsLive(s.job, s.worker, s.ports.secondNow);
  }

  lemma HeardIsHere(s: Setting)
    requires s.Heard()
    ensures Judge(s.policy, s.backoff, s.job, s.command, s.worker, s.ports.intent.value, s.ports.context.value,
                  s.ports.secondNow) == s.Here()
  {
    hide BindingFailure, Decision, IsCleanText, LeaseLasts, Outbox.Job.Valid;
  }

  /** The run from the verdict on. */
  function Onward(d: Delivery, failure: Option<string>, ports: Ports): Run {
    match failure
    case Some(why) => Run(d.Escalate("binding_failure:" + why), [LoadIntent, LoadContext])
    case None =>
      if d.effect.reasons != [] then Run(d.Denied(), [LoadIntent, LoadContext])
      else
        var before := [LoadIntent, LoadContext, RecordAuthorization(d.job.mode.ReconcileOnly?)];
        if ports.record.Raises? then Run(Err(PortFault), before)
        else Run(d.Perform(ports.create, ports.lookup).result, before + d.Perform(ports.create, ports.lookup).calls)
  }

  lemma HeardGoesOnward(s: Setting)
    requires s.Heard()
    ensures s.Whole() == Onward(s.Here(), BindingFailure(s.job, s.command, s.ports.intent.value), s.ports)
    ensures Standing(s.Here())
  {
    hide Live, LeaseLasts, BindingFailure, Decision, Delivery.Perform, Delivery.Escalate, Delivery.Denied, Judge,
         Outbox.Job.Valid;
    HeardIsHere(s);
    LastsIsLive(s.job, s.worker, s.ports.firstNow);
    LastsIsLive(s.job, s.worker, s.ports.secondNow);
  }

  // ---- Binding ----

  /** The bindings in the order they are proved, each with the failure it is reported under. */
  function Bindings(job: Outbox.Job, c: Command, intent: Option<Intent>): seq<(string, bool)> {
    var p := c.proposal;
    [("job_action_key_mismatch", job.actionKey == p.ActionKey()),
     ("job_payload_digest_mismatch", job.payloadDigest == c.PayloadDigest()),
     ("proposal_action_type_mismatch", p.actionType == CreateLink),
     ("proposal_amount_missing", p.amount.Some?),
     ("proposal_request_amount_mismatch", p.amount.Some? && p.amount.value.minorUnits == c.request.amountMinor),
     ("proposal_request_currency_mismatch", p.amount.Some? && p.amount.value.currency == c.request.currency),
     ("durable_intent_missing", intent.Some?),
     ("durable_intent_command_mismatch", intent.Some? && Authorizes(intent.value, c))]
  }

  /** Entry `i` is the first that does not hold. */
  predicate FirstBroken(bindings: seq<(string, bool)>, i: nat) {
    i < |bindings| && !bindings[i].1 && forall k | 0 <= k < i :: bindings[k].1
  }

  lemma SomethingFirst(bindings: seq<(string, bool)>, k: nat) returns (i: nat)
    requires k < |bindings| && !bindings[k].1
    ensures FirstBroken(bindings, i)
  {
    i := 0;
    while bindings[i].1
      invariant i <= k && forall j | 0 <= j < i :: bindings[j].1
      decreases k - i
    {
      i := i + 1;
    }
  }

  /** An unbound delivery always has a first binding that does not hold. */
  lemma UnboundIsBroken(job: Outbox.Job, c: Command, intent: Option<Intent>) returns (i: nat)
    requires !Bound(job, c, intent)
    ensures FirstBroken(Bindings(job, c, intent), i)
  {
    hide Authorizes, ActionProposal.ActionKey, Command.PayloadDigest;
    var b := Bindings(job, c, intent);
    var k := if !b[0].1 then 0 else if !b[1].1 then 1 else if !b[2].1 then 2 else if !b[3].1 then 3
             else if !b[4].1 then 4 else if !b[5].1 then 5 else if !b[6].1 then 6 else 7;
    i := SomethingFirst(b, k);
  }

  lemma FirstBrokenIsReported(job: Outbox.Job, c: Command, intent: Option<Intent>, i: nat)
    requires FirstBroken(Bindings(job, c, intent), i)
    ensures BindingFailure(job, c, intent) == Some(Bindings(job, c, intent)[i].0)
  {
    hide Intent.Matches, Authorizes, ActionProposal.ActionKey, Command.PayloadDigest;
    if intent.Some? { MatchesAuthorizes(intent.value, c); }
    var b := Bindings(job, c, intent);
    assert i > 0 ==> b[0].1;
    assert i > 1 ==> b[1].1;
    assert i > 2 ==> b[2].1;
    assert i > 3 ==> b[3].1;
    assert i > 4 ==> b[4].1;
    assert i > 5 ==> b[5].1;
    assert i > 6 ==> b[6].1;
  }

  /** The first binding that does not hold escalates the delivery under its name, before the gate is looked at. */
  lemma UnboundEscalates(s: Setting, i: nat)
    requires s.Heard() && FirstBroken(Bindings(s.job, s.command, s.ports.intent.value), i)
    ensures var failure := Bindings(s.job, s.command, s.ports.intent.value)[i].0;
      s.Whole() == Run(Escalated(s.Here(), "binding_failure:" + failure), [LoadIntent, LoadContext])
  {
    hide BindingFailure, Bindings, Decision, Delivery.Perform, Delivery.Escalate, Delivery.Denied, Standing, LeaseLasts,
         Setting.Whole, Setting.Here, Escalated, Outbox.Job.Valid;
    HeardGoesOnward(s);
    FirstBrokenIsReported(s.job, s.command, s.ports.intent.value, i);
    EscalateTable(s.Here(), "binding_failure:" + Bindings(s.job, s.command, s.ports.intent.value)[i].0);
  }

  // ---- Denial ----

  /** The decision faults the authorization itself: its plan or its recorded intent. */
  predicate FaultsAuthorization(reasons: seq<Reason>) {
    PLAN_AUTHORIZATION_MISSING in reasons || PLAN_BINDING_MISMATCH in reasons || DURABLE_INTENT_MISSING in reasons
  }

  lemma DenialTable(d: Delivery)
    requires Standing(d)
    ensures FaultsAuthorization(d.effect.reasons) ==>
              d.Denied() == Escalated(d, "effect_authorization_fault:" + ReasonList(d.effect.reasons))
    ensures !FaultsAuthorization(d.effect.reasons) && PAYMENT_TRUTH_NOT_UNPAID in d.effect.reasons ==>
              d.Denied() == SuppressedBy(d, "fresh_payment_truth_blocks_collection")
    ensures !FaultsAuthorization(d.effect.reasons) && PAYMENT_TRUTH_NOT_UNPAID !in d.effect.reasons ==>
              d.Denied() == SuppressedBy(d, "effect_gate_denied:" + ReasonList(d.effect.reasons))
  {
    hide Standing, Delivery.Escalate, Delivery.Suppress, Escalated, SuppressedBy;
    EscalateTable(d, "effect_authorization_fault:" + ReasonList(d.effect.reasons));
    SuppressTable(d, "fresh_payment_truth_blocks_collection");
    SuppressTable(d, "effect_gate_denied:" + ReasonList(d.effect.reasons));
  }

  /**
   A bound delivery the gate denies escalates when the decision faults the authorization and is
   suppressed otherwise, under the fresh truth when that is among the reasons.
   */
  lemma DenialsAreSorted(s: Setting)
    requires s.Heard() && Bound(s.job, s.command, s.ports.intent.value) && s.Here().effect.reasons != []
    ensures var d, reasons := s.Here(), s.Here().effect.reasons;
      s.Whole() == Run(if FaultsAuthorization(reasons)
                       then Escalated(d, "effect_authorization_fault:" + ReasonList(reasons))
                       else SuppressedBy(d, if PAYMENT_TRUTH_NOT_UNPAID in reasons
                                            then "fresh_payment_truth_blocks_collection"
                                            else "effect_gate_denied:" + ReasonList(reasons)),
                       [LoadIntent, LoadContext])
  {
    hide BindingFailure, Bound, Decision, Delivery.Perform, Delivery.Denied, Standing, LeaseLasts, Setting.Whole,
         Setting.Here, Escalated, SuppressedBy, ReasonList, Outbox.Job.Valid;
    HeardGoesOnward(s);
    BoundMeansNoFailure(s.job, s.command, s.ports.intent.value);
    DenialTable(s.Here());
  }

  /** The gate's question behind the verdict of a heard delivery. */
  function Asked(s: Setting): GateReasons.Question
    requires s.Answered()
  {
    GateReasons.Question(Effect, s.policy, s.command.proposal, JudgedContext(s.job, s.command, s.ports),
                         Some(s.command.plan))
  }

  lemma BoundVerdict(s: Setting)
    requires s.Answered() && Bound(s.job, s.command, s.ports.intent.value)
    ensures FaultsAuthorization(s.Here().effect.reasons)
       <==> !Earlier(s.command.plan, s.policy, s.command.proposal, JudgedContext(s.job, s.command, s.ports))
    ensures PAYMENT_TRUTH_NOT_UNPAID in s.Here().effect.reasons
       <==> s.ports.context.value.snapshot.paymentState != Unpaid
  {
    hide Reasons, BindingFailure, Authorizes, Earlier, ActionProposal.ActionKey, ActionProposal.ProposalDigest,
         Command.PayloadDigest, GateReasons.ProposalFault, GateReasons.ControlFault, GateReasons.InstrumentFault,
         GateReasons.ContactFault, GateReasons.HealthFault, GateReasons.ApprovalBlock;
    BoundMeansNoFailure(s.job, s.command, s.ports.intent.value);
    GateReasons.EffectOnly(Asked(s), PLAN_AUTHORIZATION_MISSING);
    GateReasons.EffectOnly(Asked(s), PLAN_BINDING_MISMATCH);
    GateReasons.EffectOnly(Asked(s), DURABLE_INTENT_MISSING);
    TruthHolds(Asked(s));
  }

  lemma TruthHolds(q: GateReasons.Question)
    ensures PAYMENT_TRUTH_NOT_UNPAID in q.Reasons() <==> q.Collects() && q.c.snapshot.paymentState != Unpaid
  {
    hide GateReasons.Question.Reasons, GateReasons.Question.Collects, GateReasons.Asks, GateReasons.Approved,
         GateReasons.ActionableStates, ActionProposal.ActionKey, ActionProposal.ProposalDigest;
    GateReasons.ReasonsExactly(q, PAYMENT_TRUTH_NOT_UNPAID);
  }

  /**
   A bound delivery never collects for an order that is not unpaid: it escalates when its plan is
   not an earlier allowed decision on this proposal, and otherwise the fresh truth suppresses it.
   */
  lemma PaidOrderIsSuppressed(s: Setting)
    requires s.Heard() && Bound(s.job, s.command, s.ports.intent.value)
    requires s.ports.context.value.snapshot.paymentState != Unpaid
    ensures var d, context := s.Here(), JudgedContext(s.job, s.command, s.ports);
      s.Whole() == Run(if Earlier(s.command.plan, s.policy, s.command.proposal, context)
                       then SuppressedBy(d, "fresh_payment_truth_blocks_collection")
                       else Escalated(d, "effect_authorization_fault:" + ReasonList(d.effect.reasons)),
                       [LoadIntent, LoadContext])
  {
    hide Bound, Earlier, LeaseLasts, Setting.Whole, Setting.Here, Escalated, SuppressedBy, ReasonList, Outbox.Job.Valid,
         FaultsAuthorization;
    BoundVerdict(s);
    DenialsAreSorted(s);
  }

  // ---- The effect ----

  /** What a lookup settles, answer by answer. */
  ghost predicate SettledByLookup(d: Delivery, lookup: Port<PL.Lookup>, r: Report)
    requires d.job.attempts >= 1
  {
    match lookup
    case Raises => r == Err(PortFault)
    case Answer(l) =>
      && (!l.completed ==> r == Retried(d, REQUERY_REQUIRED, Outbox.ReconcileOnly, "lookup_not_completed"))
      && (l.completed && l.candidates == [] ==>
            r == Retried(d, REQUEUED, Outbox.RetrySameEffect, "completed_lookup_found_no_link"))
      && (l.completed && |l.candidates| >= 2 ==>
            r == Escalated(d, "ambiguous_create_conflict:" + "multiple_links_found_for_unique_reference"))
      && (l.completed && |l.candidates| == 1 ==>
            var c := l.candidates[0];
            && (!PL.WellFormed(c) ==> r == Escalated(d, "ambiguous_create_conflict:" + "malformed_provider_candidate"))
            && (forall id :: PL.IsLinkFor(c, d.command.request, id) ==>
                  r == Linked(d, ADOPTED, id, "matching_link_proves_create_succeeded"))
            && (PL.WellFormed(c) && !PL.IsLinkFor(c, d.command.request, PL.Get(c, "id").s) ==>
                  r == Escalated(d, "ambiguous_create_conflict:" + "provider_candidate_conflicts_with_command")))
  }

  lemma LookupTable(d: Delivery, lookup: Port<PL.Lookup>)
    requires Standing(d)
    ensures d.job.attempts >= 1 && SettledByLookup(d, lookup, d.Reconcile(lookup).result)
    ensures d.Reconcile(lookup).calls == [CallLookup]
  {
    hide Standing, Delivery.Finish, Delivery.Requeue, Delivery.Escalate, Escalated, Retried, Linked, PL.IsLinkFor,
         PL.WellFormed, PL.Get, PL.DecideAmbiguousCreate;
    StandingFacts(d);
    if lookup.Answer? {
      PL.DecisionIsSafe(d.command.request, lookup.value);
      match PL.DecideAmbiguousCreate(d.command.request, lookup.value)
      case Adopt(id) => FinishTable(d, ADOPTED, id, "matching_link_proves_create_succeeded");
      case RetrySameReference =>
        RetryTable(d, "completed_lookup_found_no_link", Outbox.RetrySameEffect, REQUEUED);
      case Requery => RetryTable(d, "lookup_not_completed", Outbox.ReconcileOnly, REQUERY_REQUIRED);
      case Escalate(why) => EscalateTable(d, "ambiguous_create_conflict:" + why);
    }
  }

  /** What a create settles; whatever is unknown is left to the lookup. */
  ghost predicate SettledByCreate(d: Delivery, create: Port<CreateOutcome>, lookup: Port<PL.Lookup>, run: Run)
    requires d.job.attempts >= 1
  {
    match create
    case Raises => run == Run(Err(PortFault), [CallCreate])
    case Answer(Succeeded(linkId)) => run == Run(Linked(d, CREATED, linkId, "provider_confirmed_create"), [CallCreate])
    case Answer(FailedSafely(code)) =>
      run == Run(Retried(d, REQUEUED, Outbox.RetrySameEffect, "certain_failure:" + code), [CallCreate])
    case Answer(Ambiguous(_)) => run.calls == [CallCreate, CallLookup] && SettledByLookup(d, lookup, run.result)
  }

  lemma CreateTable(d: Delivery, create: Port<CreateOutcome>, lookup: Port<PL.Lookup>)
    requires Standing(d)
    ensures d.job.attempts >= 1 && SettledByCreate(d, create, lookup, d.AfterCreate(create, lookup))
  {
    hide Standing, Delivery.Finish, Delivery.Requeue, Delivery.Reconcile, SettledByLookup, Retried, Linked;
    StandingFacts(d);
    match create
    case Raises =>
    case Answer(Succeeded(linkId)) => FinishTable(d, CREATED, linkId, "provider_confirmed_create");
    case Answer(FailedSafely(code)) => RetryTable(d, "certain_failure:" + code, Outbox.RetrySameEffect, REQUEUED);
    case Answer(Ambiguous(_)) => LookupTable(d, lookup);
  }

  /** What a link that may not be created any more, or not yet, is reported under. */
  function Unsafe(e: PL.LinkError): string {
    "request_not_effect_safe:" + ExpiryMessage(e)
  }

  /** The effect of an authorized delivery: a lookup alone, or a create unless the link's expiry forbids it. */
  ghost predicate Performed(d: Delivery, create: Port<CreateOutcome>, lookup: Port<PL.Lookup>, run: Run)
    requires d.job.attempts >= 1
  {
    var epoch, expiry := PL.EpochSeconds(d.now), d.command.request.expireBy;
    if d.job.mode == Outbox.ReconcileOnly then run.calls == [CallLookup] && SettledByLookup(d, lookup, run.result)
    else if epoch < 0 then run == Run(Escalated(d, Unsafe(PL.NegativeClock)), [])
    else if expiry < epoch + 900 then run == Run(Escalated(d, Unsafe(PL.TooSoon)), [])
    else if PL.SixMonthsOn(PL.DateAt(epoch)).year >= 10_000 then run == Run(Err(PortFault), [])
    else if PL.SixMonthsAfter(epoch) < expiry then run == Run(Escalated(d, Unsafe(PL.TooLate)), [])
    else SettledByCreate(d, create, lookup, run)
  }

  lemma ExpiryTable(expiry: int, epoch: int)
    ensures PL.ValidateExpiry(expiry, epoch)
         == if epoch < 0 then Err(PL.NegativeClock)
            else if expiry < epoch + 900 then Err(PL.TooSoon)
            else if PL.SixMonthsOn(PL.DateAt(epoch)).year >= 10_000 then Err(PL.OutOfRange)
            else if PL.SixMonthsAfter(epoch) < expiry then Err(PL.TooLate)
            else Ok(())
  {
    hide PL.SixMonthsOn, PL.DateAt, PL.SixMonthsAfter;
  }

  lemma RefusedByExpiry(d: Delivery, create: Port<CreateOutcome>, lookup: Port<PL.Lookup>)
    requires Standing(d) && d.job.mode != Outbox.ReconcileOnly
    ensures match PL.ValidateExpiry(d.command.request.expireBy, PL.EpochSeconds(d.now))
      case Ok(_) => d.Perform(create, lookup) == d.AfterCreate(create, lookup)
      case Err(OutOfRange) => d.Perform(create, lookup) == Run(Err(PortFault), [])
      case Err(e) => d.Perform(create, lookup) == Run(Escalated(d, Unsafe(e)), [])
  {
    hide Standing, Delivery.Escalate, Delivery.AfterCreate, Delivery.Reconcile, Escalated, PL.EpochSeconds,
         PL.ValidateExpiry, ExpiryMessage;
    var valid := PL.ValidateExpiry(d.command.request.expireBy, PL.EpochSeconds(d.now));
    if valid.Err? { EscalateTable(d, Unsafe(valid.error)); }
  }

  lemma PerformTable(d: Delivery, create: Port<CreateOutcome>, lookup: Port<PL.Lookup>)
    requires Standing(d)
    ensures d.job.attempts >= 1 && Performed(d, create, lookup, d.Perform(create, lookup))
  {
    hide Standing, Delivery.AfterCreate, Delivery.Reconcile, SettledByLookup, SettledByCreate, Escalated,
         PL.SixMonthsOn, PL.DateAt, PL.SixMonthsAfter, PL.EpochSeconds, PL.ValidateExpiry, Unsafe;
    StandingFacts(d);
    if d.job.mode == Outbox.ReconcileOnly {
      LookupTable(d, lookup);
    } else {
      hide Delivery.Perform;
      CreateTable(d, create, lookup);
      RefusedByExpiry(d, create, lookup);
      ExpiryTable(d.command.request.expireBy, PL.EpochSeconds(d.now));
    }
  }

  /** A bound delivery the gate allows records its authorization and performs the effect. */
  lemma AllowedIsPerformed(s: Setting, d: Delivery) returns (run: Run)
    requires s.Heard() && Bound(s.job, s.command, s.ports.intent.value)
    requires d == s.Here() && d.effect.reasons == []
    ensures var before := [LoadIntent, LoadContext, RecordAuthorization(d.job.mode == Outbox.ReconcileOnly)];
      && d.job.attempts >= 1
      && (s.ports.record.Raises? ==> s.Whole() == Run(Err(PortFault), before))
      && (s.ports.record.Answer? ==>
            && s.Whole() == Run(run.result, before + run.calls)
            && Performed(d, s.ports.create, s.ports.lookup, run))
  {
    hide BindingFailure, Bound, Delivery.Perform, Delivery.Denied, Standing, LeaseLasts, Setting.Whole, Decision,
         Performed, Outbox.Job.Valid;
    HeardGoesOnward(s);
    BoundMeansNoFailure(s.job, s.command, s.ports.intent.value);
    PerformTable(d, s.ports.create, s.ports.lookup);
    run := d.Perform(s.ports.create, s.ports.lookup);
  }
}
