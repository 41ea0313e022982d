/**
 The exactly-one-effect protocol: one outbox job, its deliveries, the provider's
 links for one reference, and the effect rows, stepped in any interleaving. A
 crash is a delivery that never steps again.
 */
module CreateProtocol {
  import opened Outcomes
  import PL = PaymentLinks
  import Backoff
  import Outbox
  import E = Executor
  import Json
  import R = EffectRows
  import Text

  // ---- State ----

  /** What a delivery tells the outbox when it is done. */
  datatype Instruction = Complete(linkId: Option<string>) | Retry(mode: Outbox.RetryMode) | Bury

  datatype Phase =
    | Started
    | Recorded
    | MustLookUp
    | Ready(disposition: E.Disposition, linkId: Option<string>)
    | Settling(instruction: Instruction)
    | Done

  /** One granted delivery: the lease it was given and how far it has come. */
  datatype Process = Process(job: Outbox.Job, phase: Phase)

  datatype Event = Create(delivery: int, failedSafely: bool) | Look(delivery: int, foundNothing: bool)

  datatype World = World(
    request: PL.Request,
    job: Outbox.Job,
    rows: R.Rows,
    links: set<string>,
    processes: map<int, Process>,
    trace: seq<Event>,
    named: Option<string>)

  predicate Initial(w: World) {
    && Outbox.Fresh(w.job) && w.processes == map[] && w.links == {} && w.trace == [] && w.named.None?
    && w.rows.state.ActionQueued? && w.rows.action.QUEUED? && w.rows.instrument.CREATING? && w.rows.link.None?
  }

  // ---- Steps ----

  datatype Step =
    | Claim(worker: string, now: int, duration: int)
    | Reject(v: int)
    | Decline(v: int, disposition: E.Disposition)
    | Record(v: int, bound: bool, expectedVersion: int, live: bool, acked: bool)
    | CallCreate(v: int, answer: E.Port<E.CreateOutcome>, made: Option<string>)
    | CallLookup(v: int, found: E.Port<PL.Lookup>)
    | Persist(v: int, paid: bool, live: bool, acked: bool)
    | Settle(v: int, now: int, text: string, backoff: Backoff.Policy)
    | Fault(v: int)

  /** Every exception inside a delivery asks for reconciliation. */
  const FAULT := Settling(Retry(Outbox.ReconcileOnly))

  /** A payload that does not decode goes straight to a dead letter; no row is touched. */
  const UNREADABLE := Settling(Bury)

  function At(w: World, v: int, phase: Phase): World
    requires v in w.processes
  {
    w.(processes := w.processes[v := w.processes[v].(phase := phase)])
  }

  /** The latest delivery holds the stored lease and stands at `phase`. */
  predicate Delivering(w: World, phase: Phase) {
    w.job.version in w.processes && w.processes[w.job.version] == Process(w.job, phase)
  }

  /** The delivery still holds the stored lease. */
  predicate Fenced(w: World, v: int) {
    v == w.job.version
  }

  /** The last attempt turns every retry into a dead letter. */
  function Retrying(job: Outbox.Job, d: E.Disposition): Phase {
    Ready(if job.attempts >= job.maxAttempts then E.DEAD_LETTER else d, None)
  }

  function AfterCreate(job: Outbox.Job, answer: E.Port<E.CreateOutcome>): Phase {
    match answer
    case Raises => FAULT
    case Answer(Succeeded(linkId)) => Ready(E.CREATED, Some(linkId))
    case Answer(FailedSafely(_)) => Retrying(job, E.REQUEUED)
    case Answer(Ambiguous(_)) => MustLookUp
  }

  function AfterLookup(job: Outbox.Job, request: PL.Request, found: E.Port<PL.Lookup>): Phase {
    match found
    case Raises => FAULT
    case Answer(lookup) =>
      match PL.DecideAmbiguousCreate(request, lookup)
      case Adopt(linkId) => Ready(E.ADOPTED, Some(linkId))
      case RetrySameReference => Retrying(job, E.REQUEUED)
      case Requery => Retrying(job, E.REQUERY_REQUIRED)
      case Escalate(_) => Ready(E.ESCALATED, None)
  }

  /** The handler's mapping from a persisted result to a settlement. */
  function InstructionFor(d: E.Disposition, linkId: Option<string>): Instruction {
    match d
    case CREATED => Complete(linkId)
    case ADOPTED => Complete(linkId)
    case SUPPRESSED => Complete(None)
    case REQUEUED => Retry(Outbox.RetrySameEffect)
    case REQUERY_REQUIRED => Retry(Outbox.ReconcileOnly)
    case ESCALATED => Bury
    case DEAD_LETTER => Bury
  }

  function RequestFor(p: Process, i: Instruction, now: int, text: string, backoff: Backoff.Policy): Outbox.Request {
    var worker := if p.job.owner.Some? then p.job.owner.value else "";
    var token := if p.job.token.Some? then p.job.token.value else "";
    match i
    case Complete(linkId) =>
      Outbox.CompleteIt(worker, token, now, if linkId.Some? then linkId.value else "suppressed:" + text)
    case Retry(mode) => Outbox.RequeueIt(worker, token, now, text, backoff, mode)
    case Bury => Outbox.BuryIt(worker, token, now, text)
  }

  function DoClaim(w: World, worker: string, now: int, duration: int): World {
    match Outbox.Claim(w.job, worker, now, duration, w.job.version)
    case Err(_) => w
    case Ok(j) =>
      if j.state.Leased? then w.(job := j, processes := w.processes[j.version := Process(j, Started)]) else w.(job := j)
  }

  /** A binding failure, a denied gate, or an unsafe expiry ends the delivery without an effect. */
  function DoDecline(w: World, v: int, d: E.Disposition): World
    requires v in w.processes
  {
    var phase := w.processes[v].phase;
    if (phase.Started? && (d.ESCALATED? || d.SUPPRESSED?))
       || (phase.Recorded? && d.ESCALATED? && !w.processes[v].job.mode.ReconcileOnly?)
    then At(w, v, Ready(d, None))
    else w
  }

  function DoRecord(w: World, v: int, bound: bool, expectedVersion: int, live: bool, acked: bool): World
    requires v in w.processes
  {
    var p := w.processes[v];
    var next := R.Authorize(w.rows, bound, expectedVersion, p.job.mode.ReconcileOnly?);
    if !p.phase.Started? then w
    else if !Fenced(w, v) || !live || next.None? then At(w, v, FAULT)
    else At(w, v, if acked then Recorded else FAULT).(rows := next.value)
  }

  /** The one assumption: a create is sent before another worker has taken the lease over. */
  function DoCreate(w: World, v: int, answer: E.Port<E.CreateOutcome>, made: Option<string>): World
    requires v in w.processes
  {
    var p := w.processes[v];
    if !p.phase.Recorded? || p.job.mode.ReconcileOnly? || !Fenced(w, v) then w
    else At(w, v, AfterCreate(p.job, answer))
           .(links := w.links + (if made.Some? then {made.value} else {}),
             trace := w.trace + [Create(v, answer.Answer? && answer.value.FailedSafely?)])
  }

  function DoLookup(w: World, v: int, found: E.Port<PL.Lookup>): World
    requires v in w.processes
  {
    var p := w.processes[v];
    if !(p.phase.MustLookUp? || (p.phase.Recorded? && p.job.mode.ReconcileOnly?)) then w
    else At(w, v, AfterLookup(p.job, w.request, found))
           .(trace := w.trace + [Look(v, found.Answer? && found.value.completed && found.value.candidates == [])])
  }

  function DoPersist(w: World, v: int, paid: bool, live: bool, acked: bool): World
    requires v in w.processes
  {
    var p := w.processes[v];
    if !p.phase.Ready? then w
    else
      var next := R.Persisted(w.rows, p.phase.disposition, p.phase.linkId, paid);
      if !Fenced(w, v) || !live || next.None? then At(w, v, FAULT)
      else At(w, v, if acked then Settling(InstructionFor(p.phase.disposition, p.phase.linkId)) else FAULT)
             .(rows := next.value)
  }

  function DoSettle(w: World, v: int, now: int, text: string, backoff: Backoff.Policy): World
    requires v in w.processes
  {
    var p := w.processes[v];
    if !p.phase.Settling? then w
    else
      var i := p.phase.instruction;
      var r := Outbox.Serve(p.job, RequestFor(p, i, now, text, backoff));
      if !Fenced(w, v) || r.Err? then At(w, v, Done)
      else At(w, v, Done).(job := r.value, named := if i.Complete? && i.linkId.Some? then i.linkId else w.named)
  }

  function Next(w: World, s: Step): World {
    match s
    case Claim(worker, now, duration) => DoClaim(w, worker, now, duration)
    case Reject(v) => if v in w.processes && w.processes[v].phase.Started? then At(w, v, UNREADABLE) else w
    case Decline(v, d) => if v in w.processes then DoDecline(w, v, d) else w
    case Record(v, bound, expectedVersion, live, acked) =>
      if v in w.processes then DoRecord(w, v, bound, expectedVersion, live, acked) else w
    case CallCreate(v, answer, made) => if v in w.processes then DoCreate(w, v, answer, made) else w
    case CallLookup(v, found) => if v in w.processes then DoLookup(w, v, found) else w
    case Persist(v, paid, live, acked) => if v in w.processes then DoPersist(w, v, paid, live, acked) else w
    case Settle(v, now, text, backoff) => if v in w.processes then DoSettle(w, v, now, text, backoff) else w
    case Fault(v) => if v in w.processes && !w.processes[v].phase.Done? then At(w, v, FAULT) else w
  }

  function After(w: World, steps: seq<Step>): World {
    if steps == [] then w else Next(After(w, steps[..|steps| - 1]), steps[|steps| - 1])
  }

  // ---- Deliveries and the stored job ----

  predicate Owned(w: World, v: int)
    requires v in w.processes
  {
    var p := w.processes[v];
    && v <= w.job.version && p.job.version == v && p.job.state.Leased? && p.job.Valid()
    && (v == w.job.version ==> p.job == w.job)
  }

  predicate Deliveries(w: World) {
    && w.job.Valid() && (w.job.state.Leased? ==> w.job.version in w.processes)
    && forall v | v in w.processes :: Owned(w, v)
  }

  /** Every step of one delivery leaves the other deliveries and the lease it was given alone. */
  lemma PhaseKeepsDeliveries(w: World, v: int, phase: Phase)
    requires Deliveries(w) && v in w.processes
    ensures Deliveries(At(w, v, phase))
  {
    hide Outbox.Job.Valid;
    var n := At(w, v, phase);
    forall u | u in n.processes ensures Owned(n, u) {
      assert Owned(w, u);
    }
  }

  lemma ClaimKeepsDeliveries(w: World, worker: string, now: int, duration: int)
    requires Deliveries(w)
    ensures Deliveries(DoClaim(w, worker, now, duration))
  {
    hide Outbox.Job.Valid, Outbox.Claim;
    var r := Outbox.Claim(w.job, worker, now, duration, w.job.version);
    if r.Ok? {
      Outbox.ClaimMoves(w.job, worker, now, duration);
      var n := DoClaim(w, worker, now, duration);
      forall u | u in n.processes ensures Owned(n, u) {
        if u != n.job.version { assert Owned(w, u); }
      }
    }
  }

  lemma SettleKeepsDeliveries(w: World, v: int, now: int, text: string, backoff: Backoff.Policy)
    requires Deliveries(w) && v in w.processes
    ensures Deliveries(DoSettle(w, v, now, text, backoff))
  {
    hide Outbox.Job.Valid, Outbox.Serve;
    var p := w.processes[v];
    PhaseKeepsDeliveries(w, v, Done);
    if p.phase.Settling? && Fenced(w, v) {
      var request := RequestFor(p, p.phase.instruction, now, text, backoff);
      SettlementFacts(p.job, request);
      var n := DoSettle(w, v, now, text, backoff);
      forall u | u in n.processes ensures Owned(n, u) {
        assert Owned(w, u);
      }
    }
  }

  /** A settled lease is no longer leased, keeps its version moving, and takes the mode it was given. */
  lemma SettlementFacts(j: Outbox.Job, r: Outbox.Request)
    requires j.Valid() && j.state.Leased? && !r.ClaimIt?
    ensures Outbox.Serve(j, r).Ok? ==>
      var k := Outbox.Serve(j, r).value;
      && k.Valid() && k.version == j.version + 1 && !k.state.Leased?
      && (r.CompleteIt? ==> k.state.Completed? && k.completion == Some(r.reference))
      && (r.RequeueIt? ==> (k.state.Pending? || k.state.DeadLetter?) && k.mode == r.mode)
      && (r.BuryIt? ==> k.state.DeadLetter?)
  {
    hide Outbox.Job.Named, Text.IsCleanText, Backoff.DelayAfter, Outbox.Settling;
  }

  lemma StepKeepsDeliveries(w: World, s: Step)
    requires Deliveries(w)
    ensures Deliveries(Next(w, s))
  {
    hide Deliveries, DoClaim, DoSettle, AfterCreate, AfterLookup, R.Authorize, R.Persisted, InstructionFor;
    match s
    case Claim(worker, now, duration) => ClaimKeepsDeliveries(w, worker, now, duration);
    case Settle(v, now, text, backoff) => if v in w.processes { SettleKeepsDeliveries(w, v, now, text, backoff); }
    case Reject(v) => if v in w.processes { PhaseKeepsDeliveries(w, v, UNREADABLE); }
    case Decline(v, d) => if v in w.processes { PhaseKeepsDeliveries(w, v, Ready(d, None)); }
    case Record(v, bound, expectedVersion, live, acked) =>
      if v in w.processes {
        SamePhases(w, DoRecord(w, v, bound, expectedVersion, live, acked), v);
      }
    case CallCreate(v, answer, made) =>
      if v in w.processes { SamePhases(w, DoCreate(w, v, answer, made), v); }
    case CallLookup(v, found) =>
      if v in w.processes { SamePhases(w, DoLookup(w, v, found), v); }
    case Persist(v, paid, live, acked) =>
      if v in w.processes { SamePhases(w, DoPersist(w, v, paid, live, acked), v); }
    case Fault(v) => if v in w.processes { PhaseKeepsDeliveries(w, v, FAULT); }
  }

  /** A step that changes only one phase, the rows, the links or the trace keeps the deliveries. */
  lemma SamePhases(w: World, n: World, v: int)
    requires Deliveries(w) && v in w.processes && n.job == w.job && v in n.processes
    requires n.processes == w.processes[v := w.processes[v].(phase := n.processes[v].phase)]
    ensures Deliveries(n)
  {
    hide Outbox.Job.Valid;
    forall u | u in n.processes ensures Owned(n, u) {
      assert Owned(w, u);
    }
  }

  // ---- Rows, action and instrument stay in step ----

  /** The delivery has a recorded authorization that no later transaction has replaced. */
  predicate Holding(phase: Phase) {
    phase.Recorded? || phase.MustLookUp? || (phase.Ready? && (phase.disposition.CREATED? || phase.disposition.ADOPTED?))
  }

  predicate InLine(w: World) {
    && R.InStep(w.rows)
    && (w.job.version in w.processes && Holding(w.processes[w.job.version].phase) ==>
          if w.job.mode.ReconcileOnly? then R.Reconciling(w.rows) else R.Running(w.rows))
  }

  lemma RecordKeepsInLine(w: World, v: int, bound: bool, expectedVersion: int, live: bool, acked: bool)
    requires Deliveries(w) && InLine(w) && v in w.processes
    ensures InLine(DoRecord(w, v, bound, expectedVersion, live, acked))
  {
    hide Outbox.Job.Valid, R.InStep, R.Running, R.Reconciling, R.Authorize;
    assert Owned(w, v);
    var reconcileOnly := w.processes[v].job.mode.ReconcileOnly?;
    if R.Authorize(w.rows, bound, expectedVersion, reconcileOnly).Some? {
      R.AuthorizationInStep(w.rows, bound, expectedVersion, reconcileOnly);
      HeldInStep(R.Authorize(w.rows, bound, expectedVersion, reconcileOnly).value);
    }
  }

  lemma HeldInStep(r: R.Rows)
    ensures R.Running(r) || R.Reconciling(r) ==> R.InStep(r)
  {}

  lemma PersistKeepsInLine(w: World, v: int, paid: bool, live: bool, acked: bool)
    requires Deliveries(w) && InLine(w) && v in w.processes
    ensures InLine(DoPersist(w, v, paid, live, acked))
  {
    hide Outbox.Job.Valid, R.InStep, R.Running, R.Reconciling, R.Persisted;
    assert Owned(w, v);
    var p := w.processes[v];
    if p.phase.Ready? && Fenced(w, v) && R.Persisted(w.rows, p.phase.disposition, p.phase.linkId, paid).Some? {
      R.ResultInStep(w.rows, p.phase.disposition, p.phase.linkId, paid);
    }
  }

  /** Calls change no row and keep a held authorization held or let it go. */
  lemma CallKeepsInLine(w: World, v: int, phase: Phase)
    requires InLine(w) && v in w.processes
    requires Holding(phase) ==> Holding(w.processes[v].phase)
    ensures InLine(At(w, v, phase))
  {
    hide R.InStep, R.Running, R.Reconciling;
  }

  lemma ClaimKeepsInLine(w: World, worker: string, now: int, duration: int)
    requires Deliveries(w) && InLine(w)
    ensures InLine(DoClaim(w, worker, now, duration))
  {
    hide Outbox.Job.Valid, Outbox.Claim, R.InStep, R.Running, R.Reconciling;
    if Outbox.Claim(w.job, worker, now, duration, w.job.version).Ok? {
      Outbox.ClaimMoves(w.job, worker, now, duration);
      var n := DoClaim(w, worker, now, duration);
      assert n.job.version == w.job.version + 1;
      assert n.job.version in w.processes ==> Owned(w, n.job.version);
    }
  }

  lemma SettleKeepsInLine(w: World, v: int, now: int, text: string, backoff: Backoff.Policy)
    requires Deliveries(w) && InLine(w) && v in w.processes
    ensures InLine(DoSettle(w, v, now, text, backoff))
  {
    hide Outbox.Job.Valid, Outbox.Serve, R.InStep, R.Running, R.Reconciling;
    var p := w.processes[v];
    assert Owned(w, v);
    CallKeepsInLine(w, v, Done);
    if p.phase.Settling? && Fenced(w, v) {
      SettlementFacts(p.job, RequestFor(p, p.phase.instruction, now, text, backoff));
      var n := DoSettle(w, v, now, text, backoff);
      assert n.job.version in w.processes ==> Owned(w, n.job.version);
    }
  }

  lemma StepKeepsInLine(w: World, s: Step)
    requires Deliveries(w) && InLine(w)
    ensures InLine(Next(w, s))
  {
    hide Deliveries, InLine, DoClaim, DoSettle, DoRecord, DoPersist, PL.DecideAmbiguousCreate;
    match s
    case Claim(worker, now, duration) => ClaimKeepsInLine(w, worker, now, duration);
    case Settle(v, now, text, backoff) => if v in w.processes { SettleKeepsInLine(w, v, now, text, backoff); }
    case Reject(v) => if v in w.processes { CallKeepsInLine(w, v, UNREADABLE); }
    case Decline(v, d) =>
      if v in w.processes && (d.ESCALATED? || d.SUPPRESSED?) { CallKeepsInLine(w, v, Ready(d, None)); }
    case Record(v, bound, expectedVersion, live, acked) =>
      if v in w.processes { RecordKeepsInLine(w, v, bound, expectedVersion, live, acked); }
    case CallCreate(v, answer, made) =>
      if v in w.processes && w.processes[v].phase.Recorded? && Next(w, s) != w {
        CallKeepsInLine(w, v, AfterCreate(w.processes[v].job, answer));
        SameRows(At(w, v, AfterCreate(w.processes[v].job, answer)), Next(w, s));
      }
    case CallLookup(v, found) =>
      if v in w.processes && Holding(w.processes[v].phase) && Next(w, s) != w {
        CallKeepsInLine(w, v, AfterLookup(w.processes[v].job, w.request, found));
        SameRows(At(w, v, AfterLookup(w.processes[v].job, w.request, found)), Next(w, s));
      }
    case Persist(v, paid, live, acked) => if v in w.processes { PersistKeepsInLine(w, v, paid, live, acked); }
    case Fault(v) => if v in w.processes { CallKeepsInLine(w, v, FAULT); }
  }

  lemma SameRows(w: World, n: World)
    requires n.job == w.job && n.rows == w.rows && n.processes == w.processes
    ensures InLine(n) <==> InLine(w)
  {
    hide R.InStep, R.Running, R.Reconciling;
  }

  // ---- No blind retry ----

  /** The last create may have made a link, and no completed lookup has found nothing since. */
  predicate Unresolved(trace: seq<Event>) {
    if trace == [] then false
    else
      var last, before := trace[|trace| - 1], trace[..|trace| - 1];
      match last
      case Create(_, failedSafely) => !failedSafely
      case Look(_, foundNothing) => !foundNothing && Unresolved(before)
  }

  lemma UnresolvedAppend(trace: seq<Event>, e: Event)
    ensures Unresolved(trace + [e])
       <==> match e case Create(_, failedSafely) => !failedSafely
                    case Look(_, foundNothing) => !foundNothing && Unresolved(trace)
  {
    assert (trace + [e])[..|trace|] == trace;
  }

  /** The delivery's result lets the next delivery create again. */
  predicate Granting(phase: Phase) {
    (phase.Ready? && phase.disposition.REQUEUED?)
    || (phase.Settling? && phase.instruction.Retry? && !phase.instruction.mode.ReconcileOnly?)
  }

  /** Some continuation may send a create without another lookup first. */
  predicate MayCreate(w: World) {
    || (w.job.state.Pending? && !w.job.mode.ReconcileOnly?)
    || (w.job.state.Leased? && w.job.version in w.processes
        && var phase := w.processes[w.job.version].phase;
           ((phase.Started? || phase.Recorded?) && !w.job.mode.ReconcileOnly?) || Granting(phase))
  }

  predicate NoDoubt(w: World) {
    MayCreate(w) ==> !Unresolved(w.trace)
  }

  /** Every create in the trace was sent with nothing unresolved before it. */
  predicate Clean(trace: seq<Event>) {
    forall j | 0 <= j < |trace| :: trace[j].Create? ==> !Unresolved(trace[..j])
  }

  lemma CleanAppend(trace: seq<Event>, e: Event)
    requires Clean(trace) && (e.Create? ==> !Unresolved(trace))
    ensures Clean(trace + [e])
  {
    hide Unresolved;
    var longer := trace + [e];
    forall j | 0 <= j < |longer| && longer[j].Create? ensures !Unresolved(longer[..j]) {
      assert longer[..j] == trace[..j];
      assert j == |trace| ==> trace[..j] == trace;
    }
  }

  predicate Proven(w: World) {
    NoDoubt(w) && Clean(w.trace)
  }

  lemma ClaimKeepsProven(w: World, worker: string, now: int, duration: int)
    requires Deliveries(w) && Proven(w)
    ensures Proven(DoClaim(w, worker, now, duration))
  {
    hide Outbox.Job.Valid, Outbox.Claim, Unresolved, Clean;
    if Outbox.Claim(w.job, worker, now, duration, w.job.version).Ok? {
      Outbox.ClaimMoves(w.job, worker, now, duration);
    }
  }

  lemma SettleKeepsProven(w: World, v: int, now: int, text: string, backoff: Backoff.Policy)
    requires Deliveries(w) && Proven(w) && v in w.processes
    ensures Proven(DoSettle(w, v, now, text, backoff))
  {
    hide Outbox.Job.Valid, Outbox.Serve, Unresolved, Clean;
    var p := w.processes[v];
    assert Owned(w, v);
    if p.phase.Settling? && Fenced(w, v) {
      SettlementFacts(p.job, RequestFor(p, p.phase.instruction, now, text, backoff));
    }
  }

  lemma CreateKeepsProven(w: World, v: int, answer: E.Port<E.CreateOutcome>, made: Option<string>)
    requires Deliveries(w) && Proven(w) && v in w.processes
    ensures Proven(DoCreate(w, v, answer, made))
  {
    hide Outbox.Job.Valid, Unresolved, Clean;
    assert Owned(w, v);
    var e := Create(v, answer.Answer? && answer.value.FailedSafely?);
    UnresolvedAppend(w.trace, e);
    if !Unresolved(w.trace) { CleanAppend(w.trace, e); }
  }

  lemma LookupKeepsProven(w: World, v: int, found: E.Port<PL.Lookup>)
    requires Deliveries(w) && Proven(w) && v in w.processes
    ensures Proven(DoLookup(w, v, found))
  {
    hide Outbox.Job.Valid, Unresolved, Clean, PL.ReadCandidate, PL.Snapshot.Matches;
    assert Owned(w, v);
    var e := Look(v, found.Answer? && found.value.completed && found.value.candidates == []);
    UnresolvedAppend(w.trace, e);
    CleanAppend(w.trace, e);
  }

  lemma OtherKeepsProven(w: World, s: Step)
    requires Deliveries(w) && Proven(w)
    requires s.Reject? || s.Decline? || s.Record? || s.Persist? || s.Fault?
    ensures Proven(Next(w, s))
  {
    hide Outbox.Job.Valid, Unresolved, Clean, R.Authorize, R.Persisted, Deliveries;
  }

  lemma StepKeepsProven(w: World, s: Step)
    requires Deliveries(w) && Proven(w)
    ensures Proven(Next(w, s))
  {
    hide Deliveries, Proven, DoClaim, DoSettle, DoCreate, DoLookup, DoRecord, DoPersist, DoDecline;
    match s
    case Claim(worker, now, duration) => ClaimKeepsProven(w, worker, now, duration);
    case Settle(v, now, text, backoff) => if v in w.processes { SettleKeepsProven(w, v, now, text, backoff); }
    case CallCreate(v, answer, made) => if v in w.processes { CreateKeepsProven(w, v, answer, made); }
    case CallLookup(v, found) => if v in w.processes { LookupKeepsProven(w, v, found); }
    case _ => OtherKeepsProven(w, s);
  }

  /** Between any two creates the earlier one failed for certain, or a completed lookup found nothing after it. */
  lemma {:induction false} CleanMeansNoBlindRetry(trace: seq<Event>, i: nat, j: nat)
    requires Clean(trace) && i < j <= |trace| && trace[i].Create?
    requires !Unresolved(trace[..j])
    ensures trace[i].failedSafely || exists k :: i < k < j && trace[k].Look? && trace[k].foundNothing
    decreases j
  {
    var prefix, last := trace[..j], trace[j - 1];
    assert prefix[..j - 1] == trace[..j - 1] && prefix[j - 1] == last;
    if j - 1 == i {
    } else if last.Look? && last.foundNothing {
    } else {
      assert !Unresolved(trace[..j - 1]);
      CleanMeansNoBlindRetry(trace, i, j - 1);
    }
  }

  // ---- Whole runs ----

  predicate Consistent(w: World) {
    Deliveries(w) && InLine(w) && Proven(w)
  }

  lemma InitialConsistent(w: World)
    requires Initial(w)
    ensures Consistent(w)
  {
    hide Outbox.Job.Valid;
  }

  lemma {:induction false} RunConsistent(w: World, steps: seq<Step>)
    requires Initial(w)
    ensures Consistent(After(w, steps))
  {
    hide Next, Deliveries, InLine, Proven;
    if steps == [] {
      InitialConsistent(w);
    } else {
      var before := After(w, steps[..|steps| - 1]);
      RunConsistent(w, steps[..|steps| - 1]);
      StepKeepsDeliveries(before, steps[|steps| - 1]);
      StepKeepsInLine(before, steps[|steps| - 1]);
      StepKeepsProven(before, steps[|steps| - 1]);
    }
  }

  /** No blind retry, in every run of claims, deliveries, faults, crashes and reclaims. */
  lemma NoBlindRetry(w: World, steps: seq<Step>, i: nat, j: nat)
    requires Initial(w)
    requires var trace := After(w, steps).trace; i < j < |trace| && trace[i].Create? && trace[j].Create?
    ensures var trace := After(w, steps).trace;
      trace[i].failedSafely || exists k :: i < k < j && trace[k].Look? && trace[k].foundNothing
  {
    hide After, Deliveries, InLine, NoDoubt, Unresolved;
    RunConsistent(w, steps);
    CleanMeansNoBlindRetry(After(w, steps).trace, i, j);
  }

  /** In every run the case, action and instrument rows tell one story. */
  lemma RowsStayInStep(w: World, steps: seq<Step>)
    requires Initial(w)
    ensures R.InStep(After(w, steps).rows)
  {
    hide After, Deliveries, Proven, R.InStep;
    RunConsistent(w, steps);
  }

  /** A reconcile-only delivery never creates: no step of it adds a create to the trace. */
  lemma ReconcileOnlyNeverCreates(w: World, s: Step, v: int)
    requires v in w.processes && w.processes[v].job.mode.ReconcileOnly?
    requires s.CallCreate? && s.v == v
    ensures Next(w, s) == w
  {}

  /** Once its lease is taken over, a delivery changes neither the job, nor the rows, nor the links. */
  lemma StaleDeliveryChangesNothing(w: World, s: Step)
    requires !s.Claim? && s.v != w.job.version
    ensures Next(w, s).job == w.job && Next(w, s).rows == w.rows && Next(w, s).links == w.links
    ensures Next(w, s).named == w.named
  {
    hide R.Authorize, R.Persisted, Outbox.Serve, AfterCreate, AfterLookup, InstructionFor, RequestFor;
  }

  // ---- At most one link, when the provider tells the truth ----

  /** Certain failure makes no link, success names the one it made, and a completed lookup lists exactly the links. */
  ghost predicate Honest(w: World, s: Step) {
    match s
    case CallCreate(_, Answer(Succeeded(linkId)), made) => made == Some(linkId)
    case CallCreate(_, Answer(FailedSafely(_)), made) => made.None?
    case CallLookup(_, Answer(lookup)) => lookup.completed ==> Lists(lookup.candidates, w.links)
    case _ => true
  }

  ghost predicate Lists(candidates: seq<Json.Json>, links: set<string>) {
    && |candidates| == |links|
    && forall i | 0 <= i < |candidates| ::
         PL.ReadCandidate(candidates[i]).Some? ==> PL.ReadCandidate(candidates[i]).value.linkId in links
  }

  ghost predicate HonestRun(w: World, steps: seq<Step>) {
    forall i | 0 <= i < |steps| :: Honest(After(w, steps[..i]), steps[i])
  }

  /** Whatever link exists is still unresolved business, so no further create can be sent. */
  predicate Single(w: World) {
    |w.links| <= 1 && (w.links != {} ==> Unresolved(w.trace))
  }

  lemma CreateKeepsSingle(w: World, v: int, answer: E.Port<E.CreateOutcome>, made: Option<string>)
    requires Deliveries(w) && Proven(w) && Single(w) && v in w.processes && Honest(w, CallCreate(v, answer, made))
    ensures Single(DoCreate(w, v, answer, made))
  {
    hide Outbox.Job.Valid, Unresolved, Clean;
    assert Owned(w, v);
    UnresolvedAppend(w.trace, Create(v, answer.Answer? && answer.value.FailedSafely?));
  }

  lemma LookupKeepsSingle(w: World, v: int, found: E.Port<PL.Lookup>)
    requires Single(w) && v in w.processes && Honest(w, CallLookup(v, found))
    ensures Single(DoLookup(w, v, found))
  {
    hide Unresolved, AfterLookup, PL.ReadCandidate;
    UnresolvedAppend(w.trace, Look(v, found.Answer? && found.value.completed && found.value.candidates == []));
  }

  lemma StepKeepsSingle(w: World, s: Step)
    requires Deliveries(w) && Proven(w) && Single(w) && Honest(w, s)
    ensures Single(Next(w, s))
  {
    hide Deliveries, Proven, Single, Honest, DoCreate, DoLookup, R.Authorize, R.Persisted, Outbox.Serve, Outbox.Claim;
    match s
    case CallCreate(v, answer, made) => if v in w.processes { CreateKeepsSingle(w, v, answer, made); }
    case CallLookup(v, found) => if v in w.processes { LookupKeepsSingle(w, v, found); }
    case _ => SameLinks(w, Next(w, s));
  }

  lemma SameLinks(w: World, n: World)
    requires n.links == w.links && n.trace == w.trace
    ensures Single(n) <==> Single(w)
  {}

  // ---- Which link a completion names ----

  /** Links that deliveries, rows and the completion speak of were really made. */
  predicate PhaseLinked(w: World, phase: Phase) {
    && (phase.Ready? && phase.linkId.Some? ==> phase.linkId.value in w.links)
    && (phase.Settling? && phase.instruction.Complete? && phase.instruction.linkId.Some? ==>
          w.rows.link == phase.instruction.linkId)
  }

  predicate Linked(w: World) {
    && (forall v | v in w.processes :: PhaseLinked(w, w.processes[v].phase))
    && (w.rows.link.Some? ==> w.rows.link.value in w.links)
    && (w.named.Some? ==> w.rows.link == w.named && w.job.state.Completed? && w.job.completion == w.named)
  }

  /** Rows that carry a link are never written again. */
  lemma LinkedRowsStay(w: World, s: Step)
    requires Deliveries(w) && InLine(w) && w.rows.link.Some?
    ensures Next(w, s).rows == w.rows
  {
    hide Outbox.Job.Valid, Outbox.Claim, Outbox.Serve, AfterCreate, AfterLookup, InstructionFor, RequestFor,
         R.Persisted, R.Authorize;
    if s.Persist? && s.v in w.processes && w.processes[s.v].phase.Ready? {
      assert Owned(w, s.v);
      R.SettledRowsRefuse(w.rows, w.processes[s.v].phase.disposition, w.processes[s.v].phase.linkId, s.paid, true, 0, true);
    }
    if s.Record? && s.v in w.processes {
      R.SettledRowsRefuse(w.rows, E.CREATED, None, true, s.bound, s.expectedVersion,
                          w.processes[s.v].job.mode.ReconcileOnly?);
    }
  }

  /** A step of one delivery keeps the links, given what its own new phase and the new rows speak of. */
  lemma PhaseKeepsLinked(w: World, n: World, v: int)
    requires Linked(w) && v in w.processes && v in n.processes
    requires n.processes == w.processes[v := w.processes[v].(phase := n.processes[v].phase)]
    requires w.links <= n.links && n.job == w.job && n.named == w.named
    requires n.rows.link == w.rows.link || (w.rows.link.None? && n.rows.link.Some? && n.rows.link.value in n.links)
    requires PhaseLinked(n, n.processes[v].phase)
    ensures Linked(n)
  {
    forall u | u in n.processes ensures PhaseLinked(n, n.processes[u].phase) {
      assert PhaseLinked(w, w.processes[u].phase);
    }
  }

  lemma CallsKeepLinked(w: World, s: Step)
    requires Linked(w) && Honest(w, s) && (s.CallCreate? || s.CallLookup?) && s.v in w.processes
    ensures Linked(Next(w, s))
  {
    hide PL.ReadCandidate, PL.Snapshot.Matches, Linked;
    if Next(w, s) != w {
      if s.CallLookup? && s.found.Answer? && PL.DecideAmbiguousCreate(w.request, s.found.value).Adopt? {
        assert PL.ReadCandidate(s.found.value.candidates[0]).Some?;
      }
      PhaseKeepsLinked(w, Next(w, s), s.v);
    }
  }

  lemma PersistKeepsLinked(w: World, s: Step)
    requires Deliveries(w) && InLine(w) && Linked(w) && s.Persist? && s.v in w.processes
    ensures Linked(Next(w, s))
  {
    hide Outbox.Job.Valid, Linked, Deliveries, R.InStep, R.Running, R.Reconciling;
    if Next(w, s) != w {
      PersistFacts(w, s.v, s.paid, s.live, s.acked);
      PhaseKeepsLinked(w, Next(w, s), s.v);
    }
  }

  lemma PersistFacts(w: World, v: int, paid: bool, live: bool, acked: bool)
    requires Deliveries(w) && InLine(w) && Linked(w) && v in w.processes
    ensures var n := DoPersist(w, v, paid, live, acked);
      && PhaseLinked(n, n.processes[v].phase)
      && (n.rows.link == w.rows.link || (w.rows.link.None? && n.rows.link.Some? && n.rows.link.value in n.links))
  {
    hide Outbox.Job.Valid;
    assert Owned(w, v) && PhaseLinked(w, w.processes[v].phase);
  }

  lemma SettleKeepsLinked(w: World, s: Step)
    requires Deliveries(w) && Linked(w) && s.Settle? && s.v in w.processes
    ensures Linked(Next(w, s))
  {
    hide Outbox.Job.Valid, Outbox.Serve;
    var p := w.processes[s.v];
    assert Owned(w, s.v) && PhaseLinked(w, p.phase);
    if p.phase.Settling? {
      SettlementFacts(p.job, RequestFor(p, p.phase.instruction, s.now, s.text, s.backoff));
    }
    var n := Next(w, s);
    forall u | u in n.processes ensures PhaseLinked(n, n.processes[u].phase) {
      assert PhaseLinked(w, w.processes[u].phase);
    }
  }

  lemma ClaimKeepsLinked(w: World, s: Step)
    requires Deliveries(w) && Linked(w) && s.Claim?
    ensures Linked(Next(w, s))
  {
    hide Outbox.Job.Valid, Outbox.Claim;
    if Outbox.Claim(w.job, s.worker, s.now, s.duration, w.job.version).Ok? {
      Outbox.ClaimMoves(w.job, s.worker, s.now, s.duration);
    }
    var n := Next(w, s);
    forall u | u in n.processes ensures PhaseLinked(n, n.processes[u].phase) {
      if u in w.processes { assert PhaseLinked(w, w.processes[u].phase); }
    }
  }

  lemma RecordKeepsLinked(w: World, s: Step)
    requires Linked(w) && (s.Reject? || s.Record? || s.Decline? || s.Fault?) && s.v in w.processes
    ensures Linked(Next(w, s))
  {
    hide Linked;
    if Next(w, s) != w { PhaseKeepsLinked(w, Next(w, s), s.v); }
  }

  lemma StepKeepsLinked(w: World, s: Step)
    requires Deliveries(w) && InLine(w) && Linked(w) && Honest(w, s)
    ensures Linked(Next(w, s))
  {
    hide Deliveries, InLine, Linked, Honest, DoClaim, DoDecline, DoRecord, DoCreate, DoLookup, DoPersist, DoSettle;
    match s
    case Claim(_, _, _) => ClaimKeepsLinked(w, s);
    case Reject(v) => if v in w.processes { RecordKeepsLinked(w, s); }
    case Decline(v, _) => if v in w.processes { RecordKeepsLinked(w, s); }
    case Record(v, _, _, _, _) => if v in w.processes { RecordKeepsLinked(w, s); }
    case CallCreate(v, _, _) => if v in w.processes { CallsKeepLinked(w, s); }
    case CallLookup(v, _) => if v in w.processes { CallsKeepLinked(w, s); }
    case Persist(v, _, _, _) => if v in w.processes { PersistKeepsLinked(w, s); }
    case Settle(v, _, _, _) => if v in w.processes { SettleKeepsLinked(w, s); }
    case Fault(v) => if v in w.processes { RecordKeepsLinked(w, s); }
  }

  lemma {:induction false} HonestRunKeeps(w: World, steps: seq<Step>)
    requires Initial(w) && HonestRun(w, steps)
    ensures Single(After(w, steps)) && Linked(After(w, steps))
  {
    hide Next, Deliveries, InLine, Proven, Honest;
    if steps != [] {
      var last := |steps| - 1;
      var prefix := steps[..last];
      assert HonestRun(w, prefix) by {
        forall i | 0 <= i < |prefix| ensures Honest(After(w, prefix[..i]), prefix[i]) {
          assert prefix[..i] == steps[..i];
        }
      }
      HonestRunKeeps(w, prefix);
      RunConsistent(w, prefix);
      StepKeepsSingle(After(w, prefix), steps[last]);
      StepKeepsLinked(After(w, prefix), steps[last]);
    }
  }

  /** With a truthful provider no run makes a second link, and a completion as created or adopted names the one link. */
  lemma AtMostOneLink(w: World, steps: seq<Step>)
    requires Initial(w) && HonestRun(w, steps)
    ensures var n := After(w, steps);
      && |n.links| <= 1
      && (n.named.Some? ==> n.job.state.Completed? && n.job.completion == n.named && n.links == {n.named.value}
                            && n.rows.link == n.named && n.rows.state.Active?)
      && (n.rows.state.Active? ==> n.rows.link.Some? && n.links == {n.rows.link.value})
  {
    hide After, HonestRun, Deliveries, Proven, PhaseLinked;
    HonestRunKeeps(w, steps);
    RunConsistent(w, steps);
    var n := After(w, steps);
    if n.rows.link.Some? { OnlyMember(n.links, n.rows.link.value); }
  }

  lemma OnlyMember(s: set<string>, x: string)
    requires |s| <= 1 && x in s
    ensures s == {x}
  {
    assert |s - {x}| == 0;
  }
}
