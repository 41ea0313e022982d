/**
 The executor's own deliveries are runs of the protocol: what its port calls and
 its result say is exactly what the protocol's steps do.
 */
module DeliverySteps {
  import opened Outcomes
  import Calendar
  import Gate
  import PL = PaymentLinks
  import Backoff
  import Outbox
  import Text
  import E = Executor
  import R = EffectRows
  import opened CreateProtocol

  function When<T>(b: bool, x: T): seq<T> {
    if b then [x] else []
  }

  // ---- From calls to steps ----

  /** The protocol steps behind an effect's port calls. */
  function EffectSteps(v: int, calls: seq<E.Call>, create: E.Port<E.CreateOutcome>, lookup: E.Port<PL.Lookup>,
                       made: Option<string>): seq<Step> {
    When(E.CallCreate in calls, CallCreate(v, create, made)) + When(E.CallLookup in calls, CallLookup(v, lookup))
  }

  /** How a delivery ends: an exception, a refusal before any effect, or the effect's own result. */
  function Ending(v: int, run: E.Run): seq<Step> {
    if run.result.Err? then [Fault(v)]
    else if E.CallCreate in run.calls || E.CallLookup in run.calls then []
    else [Decline(v, run.result.value.disposition)]
  }

  /** The events the calls leave in the protocol's trace. */
  function EffectEvents(v: int, calls: seq<E.Call>, create: E.Port<E.CreateOutcome>, lookup: E.Port<PL.Lookup>)
    : seq<Event>
  {
    When(E.CallCreate in calls, Create(v, create.Answer? && create.value.FailedSafely?))
    + When(E.CallLookup in calls, Look(v, lookup.Answer? && lookup.value.completed && lookup.value.candidates == []))
  }

  /** The links a run's create call may have made. */
  function Made(calls: seq<E.Call>, made: Option<string>): set<string> {
    if E.CallCreate in calls && made.Some? then {made.value} else {}
  }

  /** Where the protocol stands once the executor has answered: ready with its result, or to be reconciled. */
  function Standing(run: E.Run): Phase {
    if run.result.Err? then FAULT else Ready(run.result.value.disposition, run.result.value.linkId)
  }

  predicate Records(calls: seq<E.Call>) {
    E.RecordAuthorization(true) in calls || E.RecordAuthorization(false) in calls
  }

  /** Whether an authorization was committed: the recorder answered, or it raised after its commit had `landed`. */
  predicate Committed(run: E.Run, ports: E.Ports, landed: bool) {
    Records(run.calls) && (ports.record.Answer? || landed)
  }

  /** All steps of one delivery, given how its run went and the case version its authorization named. */
  function DeliveryScript(v: int, version: int, run: E.Run, ports: E.Ports, landed: bool, made: Option<string>)
    : seq<Step>
  {
    When(Committed(run, ports, landed), Record(v, true, version, true, ports.record.Answer?))
    + EffectSteps(v, run.calls, ports.create, ports.lookup, made) + Ending(v, run)
  }

  // ---- Steps of the latest delivery ----

  /** The world after the latest delivery moved to `phase`, with the links and events it added. */
  function Moving(w: World, phase: Phase, links: set<string>, events: seq<Event>): World {
    w.(processes := w.processes[w.job.version := Process(w.job, phase)], links := w.links + links,
       trace := w.trace + events)
  }

  lemma MovingTwice(w: World, p: Phase, q: Phase, l: set<string>, m: set<string>, e: seq<Event>, f: seq<Event>)
    ensures Moving(Moving(w, p, l, e), q, m, f) == Moving(w, q, l + m, e + f)
  {
    var v := w.job.version;
    assert w.processes[v := Process(w.job, p)][v := Process(w.job, q)] == w.processes[v := Process(w.job, q)];
    assert w.links + l + m == w.links + (l + m);
    assert w.trace + e + f == w.trace + (e + f);
  }

  lemma MovingNowhere(w: World, phase: Phase)
    requires Delivering(w, phase)
    ensures Moving(w, phase, {}, []) == w
  {
    assert w.processes[w.job.version := Process(w.job, phase)] == w.processes;
  }

  lemma {:induction false} AfterJoin(w: World, a: seq<Step>, b: seq<Step>)
    ensures After(w, a + b) == After(After(w, a), b)
  {
    hide Next;
    if b == [] {
      assert a + b == a;
    } else {
      AfterJoin(w, a, b[..|b| - 1]);
      assert (a + b)[..|a + b| - 1] == a + b[..|b| - 1];
    }
  }

  lemma AfterWhen(w: World, b: bool, s: Step)
    ensures After(w, When(b, s)) == if b then Next(w, s) else w
  {
    hide Next;
    if b { assert [s][..0] == []; }
  }

  lemma CreateStep(w: World, create: E.Port<E.CreateOutcome>, made: Option<string>)
    requires Delivering(w, Recorded) && !w.job.mode.ReconcileOnly?
    ensures var v := w.job.version;
      Next(w, CallCreate(v, create, made))
      == Moving(w, AfterCreate(w.job, create), if made.Some? then {made.value} else {},
                [Create(v, create.Answer? && create.value.FailedSafely?)])
  {
    hide AfterCreate;
  }

  lemma LookStep(w: World, lookup: E.Port<PL.Lookup>)
    requires Delivering(w, MustLookUp) || (Delivering(w, Recorded) && w.job.mode.ReconcileOnly?)
    ensures var v := w.job.version;
      Next(w, CallLookup(v, lookup))
      == Moving(w, AfterLookup(w.job, w.request, lookup), {},
                [Look(v, lookup.Answer? && lookup.value.completed && lookup.value.candidates == [])])
  {
    hide AfterLookup;
  }

  lemma FaultStep(w: World, phase: Phase)
    requires Delivering(w, phase) && !phase.Done?
    ensures Next(w, Fault(w.job.version)) == Moving(w, FAULT, {}, [])
  {}

  lemma DeclineStep(w: World, phase: Phase, d: E.Disposition)
    requires Delivering(w, phase)
    requires (phase.Started? && (d.ESCALATED? || d.SUPPRESSED?))
             || (phase.Recorded? && d.ESCALATED? && !w.job.mode.ReconcileOnly?)
    ensures Next(w, Decline(w.job.version, d)) == Moving(w, Ready(d, None), {}, [])
  {}

  lemma RecordStep(w: World, version: int, acked: bool)
    requires Delivering(w, Started) && R.Authorize(w.rows, true, version, w.job.mode.ReconcileOnly?).Some?
    ensures Next(w, Record(w.job.version, true, version, true, acked))
         == Moving(w, if acked then Recorded else FAULT, {}, []).(rows := R.Authorize(w.rows, true, version, w.job.mode.ReconcileOnly?).value)
  {
    hide R.Authorize;
  }

  // ---- The effect ----

  /** The phase an effect's calls lead to. */
  function Reached(job: Outbox.Job, request: PL.Request, calls: seq<E.Call>, create: E.Port<E.CreateOutcome>,
                   lookup: E.Port<PL.Lookup>): Phase {
    if E.CallLookup in calls then AfterLookup(job, request, lookup)
    else if E.CallCreate in calls then AfterCreate(job, create)
    else Recorded
  }

  /** An effect's calls: a lookup alone, nothing, or a create followed by a lookup exactly when it must look up. */
  predicate InOrder(job: Outbox.Job, calls: seq<E.Call>, create: E.Port<E.CreateOutcome>) {
    if job.mode.ReconcileOnly? then calls == [E.CallLookup]
    else calls == [] || (calls == [E.CallCreate] && !AfterCreate(job, create).MustLookUp?)
         || (calls == [E.CallCreate, E.CallLookup] && AfterCreate(job, create).MustLookUp?)
  }

  lemma CallsInOrder(d: E.Delivery, create: E.Port<E.CreateOutcome>, lookup: E.Port<PL.Lookup>)
    ensures InOrder(d.job, d.Perform(create, lookup).calls, create)
  {
    hide E.Delivery.Finish, E.Delivery.Requeue, E.Delivery.Escalate, E.Delivery.AfterLookup, PL.ValidateExpiry;
  }

  /** The protocol's calls move the delivery to the phase they reach, and leave their links and events. */
  lemma EffectMoves(w: World, calls: seq<E.Call>, create: E.Port<E.CreateOutcome>, lookup: E.Port<PL.Lookup>,
                    made: Option<string>)
    requires Delivering(w, Recorded) && InOrder(w.job, calls, create)
    ensures var v := w.job.version;
      After(w, EffectSteps(v, calls, create, lookup, made))
      == Moving(w, Reached(w.job, w.request, calls, create, lookup), Made(calls, made),
                EffectEvents(v, calls, create, lookup))
  {
    hide Next, After, AfterCreate, AfterLookup;
    var v := w.job.version;
    var first := When(E.CallCreate in calls, CallCreate(v, create, made));
    var second := When(E.CallLookup in calls, CallLookup(v, lookup));
    AfterJoin(w, first, second);
    AfterWhen(w, E.CallCreate in calls, CallCreate(v, create, made));
    AfterWhen(After(w, first), E.CallLookup in calls, CallLookup(v, lookup));
    if E.CallCreate in calls { CreateStep(w, create, made); }
    if E.CallLookup in calls {
      LookStep(After(w, first), lookup);
      if E.CallCreate in calls {
        MovingTwice(w, AfterCreate(w.job, create), AfterLookup(w.job, w.request, lookup), Made(calls, made), {},
                    [Create(v, create.Answer? && create.value.FailedSafely?)],
                    [Look(v, lookup.Answer? && lookup.value.completed && lookup.value.candidates == [])]);
      }
    } else if calls == [] {
      MovingNowhere(w, Recorded);
    }
  }

  /** The phase reached is the executor's own result, wherever it has one; with no call it is an escalation. */
  lemma ResultReached(d: E.Delivery, create: E.Port<E.CreateOutcome>, lookup: E.Port<PL.Lookup>)
    requires d.job.state.Leased?
    ensures var run := d.Perform(create, lookup);
      && !Reached(d.job, d.command.request, run.calls, create, lookup).Done?
      && (run.result.Ok? ==>
            if run.calls == [] then Standing(run) == Ready(E.ESCALATED, None)
            else Reached(d.job, d.command.request, run.calls, create, lookup) == Standing(run))
  {
    hide E.Delivery.Finish, E.Delivery.Requeue, E.Delivery.Escalate, E.Delivery.AfterCreate, AfterCreate, AfterLookup,
         E.Delivery.AfterLookup, PL.ValidateExpiry, InOrder;
    CallsInOrder(d, create, lookup);
    PhasesGoOn(d.job, d.command.request, create, lookup);
    var valid := PL.ValidateExpiry(d.command.request.expireBy, PL.EpochSeconds(d.now));
    if d.job.mode.ReconcileOnly? {
      LookupFollows(d, lookup);
    } else if valid.Ok? {
      CreateFollows(d, create, lookup);
    } else {
      E.EscalateFacts(d, "request_not_effect_safe:" + E.ExpiryMessage(valid.error));
    }
  }

  lemma PhasesGoOn(job: Outbox.Job, request: PL.Request, create: E.Port<E.CreateOutcome>, lookup: E.Port<PL.Lookup>)
    ensures !AfterCreate(job, create).Done? && !AfterLookup(job, request, lookup).Done?
  {
    hide PL.DecideAmbiguousCreate;
  }

  lemma CreateFollows(d: E.Delivery, create: E.Port<E.CreateOutcome>, lookup: E.Port<PL.Lookup>)
    requires d.job.state.Leased?
    ensures var run := d.AfterCreate(create, lookup);
      && run.calls != []
      && (run.result.Ok? ==> Reached(d.job, d.command.request, run.calls, create, lookup) == Standing(run))
  {
    hide E.Delivery.Finish, E.Delivery.Requeue, E.Delivery.Escalate, E.Delivery.AfterLookup, AfterLookup;
    match create
    case Raises =>
    case Answer(Succeeded(linkId)) => E.FinishFacts(d, E.CREATED, linkId, "provider_confirmed_create");
    case Answer(FailedSafely(code)) => LastAttempt(d, "certain_failure:" + code, Outbox.RetrySameEffect, E.REQUEUED);
    case Answer(Ambiguous(_)) => LookupFollows(d, lookup);
  }

  /** A recorded delivery's effect, call by call and with its ending, stands exactly where the executor's result says. */
  lemma PerformFollows(w: World, d: E.Delivery, create: E.Port<E.CreateOutcome>, lookup: E.Port<PL.Lookup>,
                       made: Option<string>)
    requires Delivering(w, Recorded) && d.job == w.job && w.job.state.Leased? && d.command.request == w.request
    ensures var v := w.job.version;
      var run := d.Perform(create, lookup);
      After(w, EffectSteps(v, run.calls, create, lookup, made) + Ending(v, run))
      == Moving(w, Standing(run), Made(run.calls, made), EffectEvents(v, run.calls, create, lookup))
  {
    hide Next, After, AfterCreate, AfterLookup, E.Delivery.Perform, Reached, InOrder;
    var v := w.job.version;
    var run := d.Perform(create, lookup);
    var steps := EffectSteps(v, run.calls, create, lookup, made);
    CallsInOrder(d, create, lookup);
    WithoutCalls(d, create, lookup);
    EffectMoves(w, run.calls, create, lookup, made);
    ResultReached(d, create, lookup);
    AfterJoin(w, steps, Ending(v, run));
    EndingMoves(After(w, steps), Reached(w.job, w.request, run.calls, create, lookup), run);
    MovingTwice(w, Reached(w.job, w.request, run.calls, create, lookup), Standing(run), Made(run.calls, made), {},
                EffectEvents(v, run.calls, create, lookup), []);
  }

  /** Without a call the delivery is not reconcile-only and still stands where it was recorded. */
  lemma WithoutCalls(d: E.Delivery, create: E.Port<E.CreateOutcome>, lookup: E.Port<PL.Lookup>)
    ensures var calls := d.Perform(create, lookup).calls;
      E.CallCreate !in calls && E.CallLookup !in calls ==>
        && calls == [] && !d.job.mode.ReconcileOnly?
        && Reached(d.job, d.command.request, calls, create, lookup).Recorded?
  {
    hide E.Delivery.Perform;
    CallsInOrder(d, create, lookup);
  }

  /** A refusal without an effect: an escalation before the create, or a suppression before the record. */
  predicate Refusable(job: Outbox.Job, phase: Phase, standing: Phase) {
    || (standing == Ready(E.ESCALATED, None) && (phase.Started? || (phase.Recorded? && !job.mode.ReconcileOnly?)))
    || (standing == Ready(E.SUPPRESSED, None) && phase.Started?)
  }

  /** The ending turns an exception into a fault and a refusal into its disposition, and adds nothing to a result. */
  lemma EndingMoves(w: World, phase: Phase, run: E.Run)
    requires Delivering(w, phase) && !phase.Done?
    requires run.result.Ok? ==>
      if E.CallCreate in run.calls || E.CallLookup in run.calls then phase == Standing(run)
      else Refusable(w.job, phase, Standing(run))
    ensures After(w, Ending(w.job.version, run)) == Moving(w, Standing(run), {}, [])
  {
    hide Next, After;
    var v := w.job.version;
    if run.result.Err? {
      AfterWhen(w, true, Fault(v));
      FaultStep(w, phase);
    } else if E.CallCreate in run.calls || E.CallLookup in run.calls {
      AfterWhen(w, false, Fault(v));
      MovingNowhere(w, phase);
    } else {
      AfterWhen(w, true, Decline(v, run.result.value.disposition));
      DeclineStep(w, phase, run.result.value.disposition);
    }
  }

  lemma LookupFollows(d: E.Delivery, lookup: E.Port<PL.Lookup>)
    requires d.job.state.Leased?
    ensures var r := d.Reconcile(lookup).result;
      r.Ok? ==> AfterLookup(d.job, d.command.request, lookup) == Ready(r.value.disposition, r.value.linkId)
  {
    hide E.Delivery.Finish, E.Delivery.Requeue, E.Delivery.Escalate, PL.ReadCandidate;
    if lookup.Answer? {
      match PL.DecideAmbiguousCreate(d.command.request, lookup.value)
      case Adopt(linkId) => E.FinishFacts(d, E.ADOPTED, linkId, "matching_link_proves_create_succeeded");
      case RetrySameReference => LastAttempt(d, "completed_lookup_found_no_link", Outbox.RetrySameEffect, E.REQUEUED);
      case Requery => LastAttempt(d, "lookup_not_completed", Outbox.ReconcileOnly, E.REQUERY_REQUIRED);
      case Escalate(why) => E.EscalateFacts(d, "ambiguous_create_conflict:" + why);
    }
  }

  lemma LastAttempt(d: E.Delivery, reason: string, mode: Outbox.RetryMode, disposition: E.Disposition)
    requires d.job.state.Leased?
    ensures var r := d.Requeue(reason, mode, disposition);
      r.Ok? ==> Retrying(d.job, disposition) == Ready(r.value.disposition, r.value.linkId)
  {
    hide Outbox.Job.Valid, Outbox.Settling, Backoff.DelayAfter, Text.IsCleanText;
  }

  // ---- The whole delivery ----

  lemma SuppressFacts(d: E.Delivery, reason: string)
    ensures d.Suppress(reason).Ok? ==>
      d.Suppress(reason).value.disposition == E.SUPPRESSED && d.Suppress(reason).value.linkId.None?
  {
    hide Outbox.Complete;
  }

  lemma DeniedFacts(d: E.Delivery)
    requires d.job.state.Leased?
    ensures d.Denied().Ok? ==>
      (d.Denied().value.disposition.ESCALATED? || d.Denied().value.disposition.SUPPRESSED?)
      && d.Denied().value.linkId.None?
  {
    hide E.Delivery.Escalate, E.Delivery.Suppress, E.ReasonList, E.AuthorizationFault;
    E.EscalateFacts(d, "effect_authorization_fault:" + E.ReasonList(d.effect.reasons));
    SuppressFacts(d, "fresh_payment_truth_blocks_collection");
    SuppressFacts(d, "effect_gate_denied:" + E.ReasonList(d.effect.reasons));
  }

  /** Up to the record: an exception, or a refusal that the protocol lets a started delivery give. */
  predicate Unrecorded(job: Outbox.Job, run: E.Run, ports: E.Ports) {
    && E.CallCreate !in run.calls && E.CallLookup !in run.calls
    && (Records(run.calls) ==> ports.record.Raises? && run.result.Err?)
    && (run.result.Ok? ==> Refusable(job, Started, Standing(run)))
  }

  /** From the record on, the run is the effect's own. */
  predicate RecordedThen(run: E.Run, effect: E.Run) {
    && Records(run.calls) && run.result == effect.result
    && (E.CallCreate in run.calls <==> E.CallCreate in effect.calls)
    && (E.CallLookup in run.calls <==> E.CallLookup in effect.calls)
  }

  function Judged(policy: Gate.GatePolicy, backoff: Backoff.Policy, job: Outbox.Job, c: E.Command, worker: string,
                  ports: E.Ports): E.Delivery
    requires ports.intent.Answer? && ports.context.Answer?
  {
    E.Judge(policy, backoff, job, c, worker, ports.intent.value, ports.context.value, ports.secondNow)
  }

  lemma OutcomeSplits(policy: Gate.GatePolicy, backoff: Backoff.Policy, job: Outbox.Job, c: E.Command, worker: string,
                      ports: E.Ports)
    requires job.state.Leased?
    ensures var run := E.Outcome(policy, backoff, job, c, worker, ports);
      || Unrecorded(job, run, ports)
      || (ports.intent.Answer? && ports.context.Answer? && ports.record.Answer?
          && RecordedThen(run, Judged(policy, backoff, job, c, worker, ports).Perform(ports.create, ports.lookup)))
  {
    hide E.Live, E.BindingFailure, Gate.Decision, E.Delivery.Perform, E.Delivery.Escalate, E.Delivery.Denied;
    if ports.intent.Answer? && ports.context.Answer? {
      var d := Judged(policy, backoff, job, c, worker, ports);
      DeniedFacts(d);
      var failure := E.BindingFailure(job, c, ports.intent.value);
      if failure.Some? { E.EscalateFacts(d, "binding_failure:" + failure.value); }
      var before := [E.LoadIntent, E.LoadContext, E.RecordAuthorization(job.mode.ReconcileOnly?)];
      assert before[2] == E.RecordAuthorization(job.mode.ReconcileOnly?);
      InFront(before, d.Perform(ports.create, ports.lookup).calls);
    }
  }

  lemma InFront(before: seq<E.Call>, calls: seq<E.Call>)
    ensures forall x :: x in before + calls <==> x in before || x in calls
  {}

  /** The rows after a delivery: those its committed authorization left, or the ones before it. */
  function RowsAfter(w: World, version: int, committed: bool): R.Rows
    requires committed ==> R.Authorize(w.rows, true, version, w.job.mode.ReconcileOnly?).Some?
  {
    if committed then R.Authorize(w.rows, true, version, w.job.mode.ReconcileOnly?).value else w.rows
  }

  /**
   Every delivery of the executor, whatever its ports answer and whether or not a
   raising recorder had committed, is a run of the protocol: it ends in the phase its
   result names, or in a fault when it raised; its rows are those its committed
   authorization left; its trace and links are its calls'.
   */
  lemma ExecutorFollowsProtocol(w: World, policy: Gate.GatePolicy, backoff: Backoff.Policy, c: E.Command,
                                worker: string, ports: E.Ports, version: int, landed: bool, made: Option<string>)
    requires Delivering(w, Started) && w.job.state.Leased? && w.request == c.request
    requires ports.record.Answer? || landed ==> R.Authorize(w.rows, true, version, w.job.mode.ReconcileOnly?).Some?
    ensures var v := w.job.version;
      var run := E.Outcome(policy, backoff, w.job, c, worker, ports);
      After(w, DeliveryScript(v, version, run, ports, landed, made))
      == Moving(w, Standing(run), Made(run.calls, made), EffectEvents(v, run.calls, ports.create, ports.lookup))
         .(rows := RowsAfter(w, version, Committed(run, ports, landed)))
  {
    hide Next, After, E.Outcome, E.Delivery.Perform, Judged, R.Authorize, Refusable;
    var v := w.job.version;
    var run := E.Outcome(policy, backoff, w.job, c, worker, ports);
    OutcomeSplits(policy, backoff, w.job, c, worker, ports);
    if Unrecorded(w.job, run, ports) {
      if Committed(run, ports, landed) {
        LostAcknowledgement(w, run, ports, version, made);
      } else {
        assert DeliveryScript(v, version, run, ports, landed, made) == Ending(v, run);
        EndingMoves(w, Started, run);
      }
    } else {
      var d := Judged(policy, backoff, w.job, c, worker, ports);
      JudgedIsBound(policy, backoff, w.job, c, worker, ports);
      RecordedFollows(w, d, run, ports, version, landed, made);
    }
  }

  /** A recorder that raises after its commit leaves the authorized rows and a fault. */
  lemma LostAcknowledgement(w: World, run: E.Run, ports: E.Ports, version: int, made: Option<string>)
    requires Delivering(w, Started) && Unrecorded(w.job, run, ports) && Committed(run, ports, true)
    requires R.Authorize(w.rows, true, version, w.job.mode.ReconcileOnly?).Some?
    ensures var v := w.job.version;
      After(w, DeliveryScript(v, version, run, ports, true, made))
      == Moving(w, Standing(run), Made(run.calls, made), EffectEvents(v, run.calls, ports.create, ports.lookup))
         .(rows := RowsAfter(w, version, true))
  {
    hide Next, After, R.Authorize, Refusable;
    var v := w.job.version;
    var first, rest := [Record(v, true, version, true, false)], Ending(v, run);
    assert DeliveryScript(v, version, run, ports, true, made) == first + rest;
    AfterJoin(w, first, rest);
    AfterWhen(w, true, first[0]);
    RecordStep(w, version, false);
    EndingMoves(After(w, first), FAULT, run);
    MovingTwice(w, FAULT, Standing(run), {}, {}, [], []);
  }

  lemma JudgedIsBound(policy: Gate.GatePolicy, backoff: Backoff.Policy, job: Outbox.Job, c: E.Command, worker: string,
                      ports: E.Ports)
    requires ports.intent.Answer? && ports.context.Answer?
    ensures Judged(policy, backoff, job, c, worker, ports).job == job
    ensures Judged(policy, backoff, job, c, worker, ports).command == c
  {
    hide E.BindingFailure, Gate.Decision;
  }

  lemma RecordedFollows(w: World, d: E.Delivery, run: E.Run, ports: E.Ports, version: int, landed: bool,
                        made: Option<string>)
    requires Delivering(w, Started) && w.job.state.Leased? && d.job == w.job && d.command.request == w.request
    requires R.Authorize(w.rows, true, version, w.job.mode.ReconcileOnly?).Some? && ports.record.Answer?
    requires RecordedThen(run, d.Perform(ports.create, ports.lookup))
    ensures var v := w.job.version;
      After(w, DeliveryScript(v, version, run, ports, landed, made))
      == Moving(w, Standing(run), Made(run.calls, made), EffectEvents(v, run.calls, ports.create, ports.lookup))
         .(rows := RowsAfter(w, version, Committed(run, ports, landed)))
  {
    hide Next, After, E.Delivery.Perform, R.Authorize;
    var v := w.job.version;
    var effect := d.Perform(ports.create, ports.lookup);
    var first := [Record(v, true, version, true, true)];
    var rest := EffectSteps(v, effect.calls, ports.create, ports.lookup, made) + Ending(v, effect);
    assert DeliveryScript(v, version, run, ports, landed, made) == first + rest;
    AfterJoin(w, first, rest);
    AfterWhen(w, true, first[0]);
    RecordStep(w, version, true);
    var n := After(w, first);
    PerformFollows(n, d, ports.create, ports.lookup, made);
    MovingTwice(w, Recorded, Standing(run), {}, Made(run.calls, made), [],
                EffectEvents(v, run.calls, ports.create, ports.lookup));
    assert {} + Made(run.calls, made) == Made(run.calls, made);
    assert [] + EffectEvents(v, run.calls, ports.create, ports.lookup)
        == EffectEvents(v, run.calls, ports.create, ports.lookup);
  }

  // ---- The handler settles the stored job as the executor settled its own ----

  /** What a settled job tells the outbox. */
  function Told(j: Outbox.Job, linkId: Option<string>): Option<Instruction> {
    match j.state
    case Completed => Some(Complete(linkId))
    case Pending => Some(Retry(j.mode))
    case DeadLetter => Some(Bury)
    case Leased => None
  }

  predicate Agreed(r: Result<E.ExecutionResult, E.Failure>) {
    r.Ok? ==> Told(r.value.job, r.value.linkId) == Some(InstructionFor(r.value.disposition, r.value.linkId))
  }

  lemma RequeueAgrees(d: E.Delivery, reason: string)
    ensures Agreed(d.Requeue(reason, Outbox.RetrySameEffect, E.REQUEUED))
    ensures Agreed(d.Requeue(reason, Outbox.ReconcileOnly, E.REQUERY_REQUIRED))
  {
    hide E.Delivery.Requeue;
    E.RequeueFacts(d, reason, Outbox.RetrySameEffect, E.REQUEUED);
    E.RequeueFacts(d, reason, Outbox.ReconcileOnly, E.REQUERY_REQUIRED);
  }

  lemma LookupAgrees(d: E.Delivery, lookup: E.Port<PL.Lookup>)
    requires d.job.state.Leased?
    ensures Agreed(d.Reconcile(lookup).result)
  {
    hide E.Delivery.Finish, E.Delivery.Requeue, E.Delivery.Escalate, PL.DecideAmbiguousCreate, Agreed;
    FaultAgrees();
    if lookup.Answer? {
      match PL.DecideAmbiguousCreate(d.command.request, lookup.value)
      case Adopt(linkId) => FinishAgrees(d, E.ADOPTED, linkId, "matching_link_proves_create_succeeded");
      case RetrySameReference => RequeueAgrees(d, "completed_lookup_found_no_link");
      case Requery => RequeueAgrees(d, "lookup_not_completed");
      case Escalate(why) => EscalateAgrees(d, "ambiguous_create_conflict:" + why);
    }
  }

  lemma FaultAgrees()
    ensures Agreed(Err(E.PortFault)) && Agreed(Err(E.LeaseFault)) && Agreed(Err(E.JobFault))
  {}

  lemma FinishAgrees(d: E.Delivery, disposition: E.Disposition, linkId: string, reason: string)
    requires d.job.state.Leased? && (disposition.CREATED? || disposition.ADOPTED?)
    ensures Agreed(d.Finish(disposition, linkId, reason))
  {
    hide E.Delivery.Finish;
    E.FinishFacts(d, disposition, linkId, reason);
  }

  lemma EscalateAgrees(d: E.Delivery, reason: string)
    requires d.job.state.Leased?
    ensures Agreed(d.Escalate(reason))
  {
    hide E.Delivery.Escalate;
    E.EscalateFacts(d, reason);
  }

  lemma SuppressAgrees(d: E.Delivery, reason: string)
    requires d.job.state.Leased?
    ensures Agreed(d.Suppress(reason))
  {
    hide Outbox.Job.Valid, Outbox.Settling, Text.IsCleanText, Gate.GateDecision.DecisionDigest;
  }

  lemma PerformAgrees(d: E.Delivery, create: E.Port<E.CreateOutcome>, lookup: E.Port<PL.Lookup>)
    requires d.job.state.Leased?
    ensures Agreed(d.Perform(create, lookup).result)
  {
    hide E.Delivery.Finish, E.Delivery.Requeue, E.Delivery.Escalate, E.Delivery.Reconcile, PL.ValidateExpiry, Agreed;
    FaultAgrees();
    LookupAgrees(d, lookup);
    match create {
      case Raises =>
      case Answer(Succeeded(linkId)) => FinishAgrees(d, E.CREATED, linkId, "provider_confirmed_create");
      case Answer(FailedSafely(code)) => RequeueAgrees(d, "certain_failure:" + code);
      case Answer(Ambiguous(_)) =>
    }
    var valid := PL.ValidateExpiry(d.command.request.expireBy, PL.EpochSeconds(d.now));
    if valid.Err? { EscalateAgrees(d, "request_not_effect_safe:" + E.ExpiryMessage(valid.error)); }
  }

  lemma DeniedAgrees(d: E.Delivery)
    requires d.job.state.Leased?
    ensures Agreed(d.Denied())
  {
    hide E.Delivery.Escalate, E.Delivery.Suppress, Agreed, E.ReasonList;
    EscalateAgrees(d, "effect_authorization_fault:" + E.ReasonList(d.effect.reasons));
    SuppressAgrees(d, "fresh_payment_truth_blocks_collection");
    SuppressAgrees(d, "effect_gate_denied:" + E.ReasonList(d.effect.reasons));
  }

  /** Whatever a delivery answers, the handler's instruction for its disposition is what its own settled job says. */
  lemma HandlerAgrees(policy: Gate.GatePolicy, backoff: Backoff.Policy, job: Outbox.Job, c: E.Command, worker: string,
                      ports: E.Ports)
    requires job.state.Leased?
    ensures Agreed(E.Outcome(policy, backoff, job, c, worker, ports).result)
  {
    hide E.Live, E.BindingFailure, Gate.Decision, E.Delivery.Perform, E.Delivery.Escalate, E.Delivery.Denied, Agreed;
    FaultAgrees();
    if ports.intent.Answer? && ports.context.Answer? {
      var d := Judged(policy, backoff, job, c, worker, ports);
      var failure := E.BindingFailure(job, c, ports.intent.value);
      JudgedIsBound(policy, backoff, job, c, worker, ports);
      if failure.Some? { EscalateAgrees(d, "binding_failure:" + failure.value); }
      DeniedAgrees(d);
      PerformAgrees(d, ports.create, ports.lookup);
    }
  }
}
