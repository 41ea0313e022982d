/**
 When reconciliation can settle a create: exactly when a doubt was persisted. A
 worker that dies earlier leaves rows that no reconcile-only delivery can move on.
 */
module Reconciliation {
  import opened Outcomes
  import opened Text
  import opened States
  import Calendar
  import Json
  import PL = PaymentLinks
  import Backoff
  import Outbox
  import opened JobTransitions
  import E = Executor
  import R = EffectRows
  import opened CreateProtocol
  import opened CrashRecovery

  // ---- Rows with no persisted doubt ----

  /** Rows in step, with no doubt persisted on them. */
  predicate Calm(r: R.Rows) {
    R.InStep(r) && !r.state.ActionUncertain?
  }

  /** The rows as they were left, or closed from there; left executing, they close only by failing safe. */
  predicate LeftOrClosed(left: R.Rows, r: R.Rows) {
    Calm(left) && (r == left || (R.ClosedRows(r) && (R.Running(left) ==> r.state.FailedSafe?)))
  }

  /** A phase that leads to no effect: not begun, refused, or on the way to a retry, a dead letter or a suppression. */
  predicate Idle(left: R.Rows, phase: Phase) {
    || phase.Started? || phase.Done? || phase == FAULT || phase == UNREADABLE
    || phase == Ready(E.ESCALATED, None) || phase == Ready(E.SUPPRESSED, None)
    || (phase == Settling(Complete(None)) && !R.Running(left))
  }

  /** Only deliveries older than `version` may still have lookups under way; the events added are theirs. */
  predicate OnlyOldLooks(trace: seq<Event>, longer: seq<Event>, version: int) {
    && trace <= longer
    && forall k | |trace| <= k < |longer| :: longer[k].Look? && longer[k].delivery < version
  }

  /** Where every continuation from `start` stays. */
  predicate Stuck(start: World, w: World) {
    && Deliveries(w) && start.job.version <= w.job.version
    && (w.job.mode.ReconcileOnly? || w.job.Terminal()) && (w.job.state.Completed? ==> !R.Running(start.rows))
    && LeftOrClosed(start.rows, w.rows) && w.links == start.links && w.named == start.named
    && OnlyOldLooks(start.trace, w.trace, start.job.version)
    && forall v | v in w.processes && v >= start.job.version :: Idle(start.rows, w.processes[v].phase)
  }

  /** A job to be reconciled whose latest delivery has only just started, over rows without a persisted doubt. */
  predicate Abandoned(w: World) {
    && Deliveries(w) && w.job.mode.ReconcileOnly? && !w.job.state.Completed? && Calm(w.rows)
    && (w.job.version in w.processes ==> w.processes[w.job.version].phase.Started?)
  }

  /** Without a doubt no reconcile-only authorization passes, and what a refusal persists only closes the rows. */
  lemma CalmRowsRefuse(left: R.Rows, r: R.Rows, bound: bool, version: int, paid: bool)
    requires LeftOrClosed(left, r)
    ensures R.Authorize(r, bound, version, true).None?
    ensures R.Persisted(r, E.ESCALATED, None, paid).Some?
        ==> LeftOrClosed(left, R.Persisted(r, E.ESCALATED, None, paid).value)
    ensures R.Persisted(r, E.SUPPRESSED, None, paid).Some?
        ==> LeftOrClosed(left, R.Persisted(r, E.SUPPRESSED, None, paid).value) && !R.Running(left)
  {}

  lemma IdleStays(start: World, w: World, n: World, v: int)
    requires Stuck(start, w) && v in w.processes && v in n.processes
    requires n.processes == w.processes[v := w.processes[v].(phase := n.processes[v].phase)] && n.job == w.job
    requires v >= start.job.version ==> Idle(start.rows, n.processes[v].phase)
    requires LeftOrClosed(start.rows, n.rows) && n.links == w.links && n.named == w.named
    requires OnlyOldLooks(start.trace, n.trace, start.job.version)
    ensures Stuck(start, n)
  {
    hide Outbox.Job.Valid, LeftOrClosed, OnlyOldLooks, Idle;
    SamePhases(w, n, v);
  }

  lemma LookAppended(trace: seq<Event>, longer: seq<Event>, version: int, e: Event)
    requires OnlyOldLooks(trace, longer, version) && e.Look? && e.delivery < version
    ensures OnlyOldLooks(trace, longer + [e], version)
  {}

  lemma LeasedIsLatest(w: World, v: int)
    requires Deliveries(w) && v in w.processes && Fenced(w, v)
    ensures w.processes[v].job == w.job && w.job.state.Leased?
  {
    hide Outbox.Job.Valid;
    assert Owned(w, v);
  }

  lemma StuckCalls(start: World, w: World, s: Step)
    requires Stuck(start, w) && (s.CallCreate? || s.CallLookup?) && s.v in w.processes
    ensures Stuck(start, Next(w, s))
  {
    hide Stuck, LeftOrClosed, OnlyOldLooks, AfterCreate, AfterLookup;
    StuckParts(start, w, s.v);
    if s.CallCreate? && Fenced(w, s.v) { LeasedIsLatest(w, s.v); }
    if Next(w, s) != w {
      if s.CallLookup? {
        LookAppended(start.trace, w.trace, start.job.version,
                     Look(s.v, s.found.Answer? && s.found.value.completed && s.found.value.candidates == []));
      }
      IdleStays(start, w, Next(w, s), s.v);
    }
  }

  lemma StuckParts(start: World, w: World, v: int)
    requires Stuck(start, w) && v in w.processes
    ensures Deliveries(w) && (w.job.mode.ReconcileOnly? || w.job.Terminal()) && start.job.version <= w.job.version
    ensures LeftOrClosed(start.rows, w.rows) && OnlyOldLooks(start.trace, w.trace, start.job.version)
    ensures v >= start.job.version ==> Idle(start.rows, w.processes[v].phase)
  {}

  lemma StuckRows(start: World, w: World, s: Step)
    requires Stuck(start, w) && (s.Reject? || s.Decline? || s.Record? || s.Persist? || s.Fault?) && s.v in w.processes
    ensures Stuck(start, Next(w, s))
  {
    hide Stuck, LeftOrClosed, OnlyOldLooks, R.Authorize, R.Persisted, Deliveries;
    StuckParts(start, w, s.v);
    if Fenced(w, s.v) { LeasedIsLatest(w, s.v); }
    CalmRowsRefuse(start.rows, w.rows, if s.Record? then s.bound else true, if s.Record? then s.expectedVersion else 0,
                   if s.Persist? then s.paid else false);
    if Next(w, s) != w { IdleStays(start, w, Next(w, s), s.v); }
  }

  lemma StuckSettle(start: World, w: World, s: Step)
    requires Stuck(start, w) && s.Settle? && s.v in w.processes
    ensures Stuck(start, Next(w, s))
  {
    hide Outbox.Job.Valid, Outbox.Serve, LeftOrClosed, OnlyOldLooks;
    var p := w.processes[s.v];
    SettleKeepsDeliveries(w, s.v, s.now, s.text, s.backoff);
    if Fenced(w, s.v) && p.phase.Settling? {
      LeasedIsLatest(w, s.v);
      SettlementFacts(p.job, RequestFor(p, p.phase.instruction, s.now, s.text, s.backoff));
      SettledIsTerminal(Outbox.Serve(p.job, RequestFor(p, p.phase.instruction, s.now, s.text, s.backoff)));
    }
  }

  lemma SettledIsTerminal(r: Outbox.JobResult)
    ensures r.Ok? && (r.value.state.DeadLetter? || r.value.state.Completed?) ==> r.value.Terminal()
  {}

  lemma StuckClaim(start: World, w: World, s: Step)
    requires Stuck(start, w) && s.Claim?
    ensures Stuck(start, Next(w, s))
  {
    hide Outbox.Job.Valid, Outbox.Claim, LeftOrClosed, OnlyOldLooks;
    ClaimKeepsDeliveries(w, s.worker, s.now, s.duration);
    if Outbox.Claim(w.job, s.worker, s.now, s.duration, w.job.version).Ok? {
      Outbox.ClaimMoves(w.job, s.worker, s.now, s.duration);
    }
  }

  lemma StuckStays(start: World, w: World, s: Step)
    requires Stuck(start, w)
    ensures Stuck(start, Next(w, s))
  {
    hide Stuck, DoClaim, DoDecline, DoRecord, DoCreate, DoLookup, DoPersist, DoSettle;
    match s
    case Claim(_, _, _) => StuckClaim(start, w, s);
    case Settle(v, _, _, _) => if v in w.processes { StuckSettle(start, w, s); }
    case CallCreate(v, _, _) => if v in w.processes { StuckCalls(start, w, s); }
    case CallLookup(v, _) => if v in w.processes { StuckCalls(start, w, s); }
    case Reject(v) => if v in w.processes { StuckRows(start, w, s); }
    case Decline(v, _) => if v in w.processes { StuckRows(start, w, s); }
    case Record(v, _, _, _, _) => if v in w.processes { StuckRows(start, w, s); }
    case Persist(v, _, _, _) => if v in w.processes { StuckRows(start, w, s); }
    case Fault(v) => if v in w.processes { StuckRows(start, w, s); }
  }

  lemma {:induction false} RunStaysStuck(start: World, steps: seq<Step>)
    requires Abandoned(start)
    ensures Stuck(start, After(start, steps))
  {
    hide Next, Stuck;
    if steps == [] {
      AbandonedIsStuck(start);
    } else {
      RunStaysStuck(start, steps[..|steps| - 1]);
      StuckStays(start, After(start, steps[..|steps| - 1]), steps[|steps| - 1]);
    }
  }

  lemma AbandonedIsStuck(start: World)
    requires Abandoned(start)
    ensures Stuck(start, start)
  {
    hide Outbox.Job.Valid;
    forall v | v in start.processes && v >= start.job.version ensures Idle(start.rows, start.processes[v].phase) {
      assert Owned(start, v);
    }
  }

  /**
   Without a persisted doubt reconciliation never converges: whatever happens next,
   no delivery creates or begins a lookup, no link is made, recorded or named, and the
   rows stay as they were until a refusal closes them; rows left executing only ever
   fail safe, and their job never completes.
   */
  lemma AbandonedNeverConverges(w: World, steps: seq<Step>)
    requires Abandoned(w)
    ensures var n := After(w, steps);
      && n.links == w.links && n.named == w.named && (n.rows.link.Some? ==> n.rows == w.rows)
      && (n.rows == w.rows || R.ClosedRows(n.rows))
      && OnlyOldLooks(w.trace, n.trace, w.job.version)
      && (R.Running(w.rows) ==> (n.rows == w.rows || n.rows.state.FailedSafe?) && !n.job.state.Completed?)
  {
    hide After, Deliveries, OnlyOldLooks;
    RunStaysStuck(w, steps);
  }

  /** The steps of a worker that dies between its recorded authorization and anything else, and of the next claim. */
  function Death(w: World, s: Story): seq<Step> {
    [Claim(s.first, s.firstAt, s.duration), Record(1, true, w.rows.version, true, true),
     Claim(s.second, s.secondAt, s.duration)]
  }

  /** Such a death does abandon the rows: the next delivery may only reconcile, over rows left executing. */
  lemma DeathAbandons(w: World, s: Story)
    requires Initial(w) && s.Plausible(w)
    ensures Abandoned(After(w, Death(w, s))) && R.Running(After(w, Death(w, s)).rows)
  {
    hide Next, After, PL.ReadCandidate, PL.Snapshot.Matches, IsCleanText, Deliveries, InLine, Proven;
    var steps := Death(w, s);
    AfterNothing(w, steps);
    AfterNext(w, steps, 0);
    ClaimStarts(w, s.first, s.firstAt, s.duration);
    AfterNext(w, steps, 1);
    RecordRuns(After(w, steps[..1]));
    AfterNext(w, steps, 2);
    ClaimStarts(After(w, steps[..2]), s.second, s.secondAt, s.duration);
    assert steps[..3] == steps;
    RunConsistent(w, steps);
  }

  lemma RecordRuns(w: World)
    requires Delivering(w, Started) && !w.job.mode.ReconcileOnly?
    requires w.rows.state.ActionQueued? && w.rows.action.QUEUED? && w.rows.instrument.CREATING? && w.rows.link.None?
    ensures var n := Next(w, Record(w.job.version, true, w.rows.version, true, true));
      R.Running(n.rows) && n.job == w.job
  {}

  /** The steps of a worker that dies right after its claim, and of the next claim. */
  function EarlyDeath(s: Story): seq<Step> {
    [Claim(s.first, s.firstAt, s.duration), Claim(s.second, s.secondAt, s.duration)]
  }

  /** Such a death abandons rows that are still queued: nothing was sent, and nothing ever will be. */
  lemma EarlyDeathAbandons(w: World, s: Story)
    requires Initial(w) && s.Plausible(w)
    ensures var n := After(w, EarlyDeath(s));
      Abandoned(n) && n.rows.state.ActionQueued? && n.trace == [] && Delivering(n, Started)
  {
    hide Next, After, PL.ReadCandidate, PL.Snapshot.Matches, IsCleanText, Deliveries, InLine, Proven;
    var steps := EarlyDeath(s);
    AfterNothing(w, steps);
    AfterNext(w, steps, 0);
    ClaimStarts(w, s.first, s.firstAt, s.duration);
    AfterNext(w, steps, 1);
    ClaimStarts(After(w, steps[..1]), s.second, s.secondAt, s.duration);
    assert steps[..2] == steps;
    RunConsistent(w, steps);
  }

  // ---- The exact condition ----

  /** What every run keeps of its job: a lease's owner and token are short text, and only a completed job has a name. */
  predicate Leasable(w: World) {
    && (w.job.state.Leased? ==> w.job.owner.Some? && w.job.token.Some? && IsCleanText(w.job.owner.value, 128)
                                && IsCleanText(w.job.token.value, 128))
    && (w.named.Some? ==> w.job.state.Completed?)
  }

  lemma ClaimLeasable(j: Outbox.Job, worker: string, now: int, duration: int)
    requires Outbox.Claim(j, worker, now, duration, j.version).Ok?
    ensures var k := Outbox.Claim(j, worker, now, duration, j.version).value;
      k.state.Leased? ==> k.owner.Some? && k.token.Some? && IsCleanText(k.owner.value, 128) && IsCleanText(k.token.value, 128)
    ensures !j.state.Completed?
  {
    hide IsCleanText, Outbox.LeaseToken, Outbox.Job.Valid;
    if Calendar.Representable(now + duration) { TokenIsClean(j, j.version + 1, j.attempts + 1, worker, now + duration); }
  }

  lemma StepKeepsLeasable(w: World, s: Step)
    requires Deliveries(w) && Leasable(w)
    ensures Leasable(Next(w, s))
  {
    hide Outbox.Job.Valid, IsCleanText, Outbox.Claim, Outbox.Serve, R.Authorize, R.Persisted, AfterCreate, AfterLookup;
    if s.Claim? {
      if Outbox.Claim(w.job, s.worker, s.now, s.duration, w.job.version).Ok? {
        ClaimLeasable(w.job, s.worker, s.now, s.duration);
      }
    } else if s.Settle? && s.v in w.processes && Fenced(w, s.v) && w.processes[s.v].phase.Settling? {
      LeasedIsLatest(w, s.v);
      var p := w.processes[s.v];
      SettlementFacts(p.job, RequestFor(p, p.phase.instruction, s.now, s.text, s.backoff));
    }
  }

  lemma {:induction false} RunLeasable(w: World, steps: seq<Step>)
    requires Initial(w)
    ensures Leasable(After(w, steps))
  {
    hide Next, Deliveries, InLine, Proven, IsCleanText;
    if steps != [] {
      RunLeasable(w, steps[..|steps| - 1]);
      RunConsistent(w, steps[..|steps| - 1]);
      StepKeepsLeasable(After(w, steps[..|steps| - 1]), steps[|steps| - 1]);
    }
  }

  /** The steps by which a delivery over doubtful rows adopts a candidate, at the moment its lease began. */
  function Adopting(w: World, candidate: Json.Json): seq<Step> {
    Adoption(w.job.version, w.rows.version, candidate, w.job.updatedAt, "", Backoff.Policy(1, 1))
  }

  lemma DoubtConverges(w: World, candidate: Json.Json, linkId: string)
    requires Deliveries(w) && Leasable(w) && R.InStep(w.rows) && w.rows.state.ActionUncertain?
    requires Delivering(w, Started) && w.job.mode.ReconcileOnly?
    requires PL.IsLinkFor(candidate, w.request, linkId)
    ensures var n := After(w, Adopting(w, candidate));
      n.named == Some(linkId) && n.rows.state.Active? && n.links == w.links
    ensures w.links == {linkId} ==> HonestRun(w, Adopting(w, candidate))
  {
    hide Next, After, PL.ReadCandidate, PL.Snapshot.Matches, PL.IsLinkFor, PL.WellFormed, IsCleanText, Deliveries, Fourth;
    PL.CandidateDecided(w.request, candidate, linkId);
    LeasedIsLatest(w, w.job.version);
    LeaseHasTime(w);
    var steps := Adopting(w, candidate);
    AdoptionCompletes(w, candidate, linkId, w.job.updatedAt, "", Backoff.Policy(1, 1));
    AfterFour(w, steps, 0);
    AfterNothing(w, steps);
    assert steps[..4] == steps[0..4] == steps;
    AfterNext(w, steps, 0);
    RecordKeepsLinks(w, steps[0]);
    if w.links == {linkId} { AdoptingIsHonest(w, candidate); }
  }

  lemma LeaseHasTime(w: World)
    requires Deliveries(w) && w.job.state.Leased?
    ensures w.job.Valid() && w.job.expiresAt.Some? && w.job.updatedAt < w.job.expiresAt.value
  {
    hide Outbox.Job.Named;
  }

  lemma AdoptingIsHonest(w: World, candidate: Json.Json)
    requires PL.ReadCandidate(candidate).Some?
    requires After(w, Adopting(w, candidate)[..1]).links == {PL.ReadCandidate(candidate).value.linkId}
    ensures HonestRun(w, Adopting(w, candidate))
  {
    hide Next, After, PL.ReadCandidate;
    var steps := Adopting(w, candidate);
    forall i | 0 <= i < |steps| ensures Honest(After(w, steps[..i]), steps[i]) {
      if i == 1 { assert steps[i] == CallLookup(w.job.version, E.Answer(PL.Lookup(true, [candidate]))); }
    }
  }

  /**
   A reconcile-only delivery that any run reaches can still settle its job under a
   link, the one matching link the provider lists, exactly when the rows carry a
   persisted doubt.
   */
  lemma ConvergesExactly(start: World, before: seq<Step>, candidate: Json.Json, linkId: string)
    requires Initial(start)
    requires var w := After(start, before);
      && Delivering(w, Started) && w.job.mode.ReconcileOnly?
      && PL.IsLinkFor(candidate, w.request, linkId)
    ensures var w := After(start, before);
      (exists steps :: After(w, steps).named.Some?) <==> w.rows.state.ActionUncertain?
    ensures var w := After(start, before);
      w.rows.state.ActionUncertain? && w.links == {linkId} ==>
        exists steps :: HonestRun(w, steps) && After(w, steps).named == Some(linkId)
  {
    hide Next, After, PL.IsLinkFor, IsCleanText, Deliveries, Proven, HonestRun, R.InStep;
    var w := After(start, before);
    RunConsistent(start, before);
    RunLeasable(start, before);
    LeasedIsLatest(w, w.job.version);
    if w.rows.state.ActionUncertain? {
      DoubtConverges(w, candidate, linkId);
      assert After(w, Adopting(w, candidate)).named.Some?;
    } else {
      forall steps ensures After(w, steps).named.None? {
        AbandonedNeverConverges(w, steps);
      }
    }
  }
}
