/**
 The (case, action, instrument) rows behind one create effect, updated in place
 inside transactions that either commit every guarded UPDATE or none.
 */
module EffectRows {
  import opened Outcomes
  import opened States
  import opened Executor

  datatype ActionStatus =
    | QUEUED | EXECUTING | UNCERTAIN | RECONCILING | FAILED_RETRYABLE | SUCCEEDED | RECONCILED | FAILED_SAFE
    | DEAD_LETTERED | CANCELLED

  datatype InstrumentStatus = CREATING | UNSURE | ISSUED | LIVE | FAILED

  datatype Rows = Rows(state: RecoveryState, version: int, action: ActionStatus, instrument: InstrumentStatus,
                       link: Option<string>)
  {
    predicate Open() { instrument.CREATING? || instrument.UNSURE? }
  }

  // ---- What each transaction means ----

  /**
   The effect-stage authorization. `bound` stands for the joined facts the
   transaction re-reads: keys, references, order truth, merchant and account.
   */
  function Authorize(r: Rows, bound: bool, expectedVersion: int, reconcileOnly: bool): Option<Rows> {
    if !bound || r.link.Some? || r.version != expectedVersion || !r.Open() then None
    else if reconcileOnly then
      if r.state.ActionUncertain? && (r.action.UNCERTAIN? || r.action.RECONCILING?)
      then Some(r.(action := RECONCILING)) else None
    else if r.state.ActionQueued? && r.action.QUEUED? then
      Some(r.(state := Executing, version := r.version + 1, action := EXECUTING))
    else if r.state.Executing? && r.action.EXECUTING? then Some(r)
    else None
  }

  function Activated(r: Rows, linkId: Option<string>): Option<Rows> {
    if linkId.None? || (r.link.Some? && r.link != linkId) then None
    else
      var issued := if r.Open() then r.(instrument := LIVE, link := linkId) else r;
      Some(issued.(action := if r.action.EXECUTING? then SUCCEEDED else RECONCILED,
                   state := Active, version := r.version + 1))
  }

  function Doubted(r: Rows): Option<Rows> {
    if r.action.EXECUTING? && r.instrument.CREATING? && r.state.Executing?
    then Some(r.(action := UNCERTAIN, instrument := UNSURE, state := ActionUncertain, version := r.version + 1))
    else None
  }

  function Requeued(r: Rows): Option<Rows> {
    if r.action.EXECUTING? then
      if r.state.Executing? then Some(r.(action := QUEUED, state := ActionQueued, version := r.version + 2)) else None
    else if r.action.RECONCILING? then
      if r.state.ActionUncertain? && r.instrument.UNSURE?
      then Some(r.(action := QUEUED, state := ActionQueued, version := r.version + 1, instrument := CREATING))
      else None
    else None
  }

  function Failed(r: Rows): Option<Rows> {
    if (r.action.QUEUED? || r.action.EXECUTING? || r.action.RECONCILING?)
       && (r.state.ActionQueued? || r.state.Executing? || r.state.ActionUncertain?)
    then Some(r.(action := if r.action.QUEUED? then DEAD_LETTERED else FAILED_SAFE,
                 instrument := if r.Open() then FAILED else r.instrument,
                 state := FailedSafe, version := r.version + 1))
    else None
  }

  function Suppressed(r: Rows, paid: bool): Option<Rows> {
    if !(r.action.QUEUED? || r.action.UNCERTAIN? || r.action.RECONCILING?) then None
    else Some(r.(action := if r.action.QUEUED? then CANCELLED else DEAD_LETTERED,
                 instrument := if r.Open() then FAILED else r.instrument,
                 state := if paid then SuppressedPaid else if r.action.QUEUED? then SuppressedPolicy else Escalated,
                 version := r.version + 1))
  }

  /** The rows after a result is persisted; nothing when a guard misses and the transaction rolls back. */
  function Persisted(r: Rows, d: Disposition, linkId: Option<string>, paid: bool): Option<Rows> {
    match d
    case CREATED => Activated(r, linkId)
    case ADOPTED => Activated(r, linkId)
    case REQUERY_REQUIRED => Doubted(r)
    case REQUEUED => Requeued(r)
    case ESCALATED => Failed(r)
    case DEAD_LETTER => Failed(r)
    case SUPPRESSED => Suppressed(r, paid)
  }

  // ---- The repository ----

  class EffectRepository {
    var caseState: RecoveryState
    var caseVersion: int
    var action: ActionStatus
    var instrument: InstrumentStatus
    var link: Option<string>

    ghost function Current(): Rows
      reads this
    {
      Rows(caseState, caseVersion, action, instrument, link)
    }

    constructor (rows: Rows)
      ensures Current() == rows
    {
      caseState, caseVersion, action, instrument, link :=
        rows.state, rows.version, rows.action, rows.instrument, rows.link;
    }

    /** The new rows after a transaction that returned `committed`, given what it should have produced. */
    twostate predicate Transacted(wanted: Option<Rows>, committed: bool)
      reads this
    {
      committed == wanted.Some? && Current() == (if wanted.Some? then wanted.value else old(Current()))
    }

    method Restore(rows: Rows)
      modifies this
      ensures Current() == rows
    {
      caseState, caseVersion, action, instrument, link :=
        rows.state, rows.version, rows.action, rows.instrument, rows.link;
    }

    /** UPDATE recovery_cases ... WHERE state and version match. */
    method MoveCase(from: RecoveryState, to: RecoveryState, version: int) returns (hit: bool)
      modifies this`caseState, this`caseVersion
      ensures hit == (old(caseState) == from && old(caseVersion) == version)
      ensures caseState == (if hit then to else old(caseState))
      ensures caseVersion == (if hit then old(caseVersion) + 1 else old(caseVersion))
    {
      hit := caseState == from && caseVersion == version;
      if hit { caseState, caseVersion := to, caseVersion + 1; }
    }

    /** UPDATE actions ... WHERE status matches. */
    method MoveAction(from: ActionStatus, to: ActionStatus) returns (hit: bool)
      modifies this`action
      ensures hit == (old(action) == from) && action == (if hit then to else old(action))
    {
      hit := action == from;
      if hit { action := to; }
    }

    method MoveInstrument(from: InstrumentStatus, to: InstrumentStatus) returns (hit: bool)
      modifies this`instrument
      ensures hit == (old(instrument) == from) && instrument == (if hit then to else old(instrument))
    {
      hit := instrument == from;
      if hit { instrument := to; }
    }

    method RecordEffectAuthorization(bound: bool, expectedVersion: int, reconcileOnly: bool) returns (committed: bool)
      modifies this
      ensures Transacted(Authorize(old(Current()), bound, expectedVersion, reconcileOnly), committed)
    {
      if !bound || link.Some? || caseVersion != expectedVersion || !(instrument.CREATING? || instrument.UNSURE?) {
        return false;
      }
      if reconcileOnly {
        if !caseState.ActionUncertain? || !(action.UNCERTAIN? || action.RECONCILING?) { return false; }
        action := RECONCILING;
        return true;
      }
      if caseState.ActionQueued? && action.QUEUED? {
        var started := MoveCase(ActionQueued, Executing, caseVersion);
        committed := MoveAction(QUEUED, EXECUTING);
      } else {
        committed := caseState.Executing? && action.EXECUTING?;
      }
    }

    method PersistResult(d: Disposition, linkId: Option<string>, paid: bool) returns (committed: bool)
      modifies this
      ensures Transacted(Persisted(old(Current()), d, linkId, paid), committed)
    {
      var saved := Rows(caseState, caseVersion, action, instrument, link);
      match d {
        case CREATED => committed := PersistLink(linkId);
        case ADOPTED => committed := PersistLink(linkId);
        case REQUERY_REQUIRED => committed := PersistDoubt();
        case REQUEUED => committed := PersistRequeue();
        case ESCALATED => committed := PersistFailure();
        case DEAD_LETTER => committed := PersistFailure();
        case SUPPRESSED => committed := PersistSuppression(paid);
      }
      if !committed { Restore(saved); }
    }

    /** The steps of one disposition; a false result leaves rows the caller rolls back. */
    method PersistLink(linkId: Option<string>) returns (ok: bool)
      modifies this
      ensures ok == Activated(old(Current()), linkId).Some?
      ensures ok ==> Current() == Activated(old(Current()), linkId).value
    {
      if linkId.None? || (link.Some? && link != linkId) { return false; }
      var status, state := action, caseState;
      if instrument.CREATING? || instrument.UNSURE? {
        instrument := ISSUED;
        if link.None? { link := linkId; }
        var live := MoveInstrument(ISSUED, LIVE);
      }
      var done := MoveAction(status, if status.EXECUTING? then SUCCEEDED else RECONCILED);
      ok := MoveCase(state, Active, caseVersion);
    }

    method PersistDoubt() returns (ok: bool)
      modifies this
      ensures ok == Doubted(old(Current())).Some?
      ensures ok ==> Current() == Doubted(old(Current())).value
    {
      ok := MoveAction(EXECUTING, UNCERTAIN);
      if !ok { return; }
      ok := MoveInstrument(CREATING, UNSURE);
      if !ok { return; }
      ok := MoveCase(Executing, ActionUncertain, caseVersion);
    }

    method PersistRequeue() returns (ok: bool)
      modifies this
      ensures ok == Requeued(old(Current())).Some?
      ensures ok ==> Current() == Requeued(old(Current())).value
    {
      var version := caseVersion;
      if action.EXECUTING? {
        ok := MoveAction(EXECUTING, FAILED_RETRYABLE);
        ok := MoveAction(FAILED_RETRYABLE, QUEUED);
        ok := MoveCase(Executing, ActionUncertain, version);
        if !ok { return; }
        ok := MoveCase(ActionUncertain, ActionQueued, version + 1);
      } else if action.RECONCILING? {
        ok := MoveAction(RECONCILING, QUEUED);
        ok := MoveCase(ActionUncertain, ActionQueued, version);
        if !ok { return; }
        ok := MoveInstrument(UNSURE, CREATING);
      } else {
        ok := false;
      }
    }

    method PersistFailure() returns (ok: bool)
      modifies this
      ensures ok == Failed(old(Current())).Some?
      ensures ok ==> Current() == Failed(old(Current())).value
    {
      if !(action.QUEUED? || action.EXECUTING? || action.RECONCILING?) { return false; }
      action := if action.EXECUTING? || action.RECONCILING? then FAILED_SAFE else DEAD_LETTERED;
      if instrument.CREATING? || instrument.UNSURE? { instrument := FAILED; }
      if !(caseState.ActionQueued? || caseState.Executing? || caseState.ActionUncertain?) { return false; }
      caseState, caseVersion := FailedSafe, caseVersion + 1;
      ok := true;
    }

    method PersistSuppression(paid: bool) returns (ok: bool)
      modifies this
      ensures ok == Suppressed(old(Current()), paid).Some?
      ensures ok ==> Current() == Suppressed(old(Current()), paid).value
    {
      var terminal := if paid then SuppressedPaid else SuppressedPolicy;
      if action.QUEUED? {
        ok := MoveAction(QUEUED, CANCELLED);
      } else if action.UNCERTAIN? || action.RECONCILING? {
        action := DEAD_LETTERED;
        if !paid { terminal := Escalated; }
      } else {
        return false;
      }
      if instrument.CREATING? || instrument.UNSURE? { instrument := FAILED; }
      ok := MoveCase(caseState, terminal, caseVersion);
    }
  }

  // ---- The rows stay in step ----

  predicate InStep(r: Rows) {
    || (r.state.ActionQueued? && r.action.QUEUED? && r.instrument.CREATING? && r.link.None?)
    || Running(r)
    || (r.state.ActionUncertain? && (r.action.UNCERTAIN? || r.action.RECONCILING?) && r.instrument.UNSURE?
        && r.link.None?)
    || (r.state.Active? && (r.action.SUCCEEDED? || r.action.RECONCILED?) && r.instrument.LIVE? && r.link.Some?)
    || ClosedRows(r)
  }

  predicate Running(r: Rows) {
    r.state.Executing? && r.action.EXECUTING? && r.instrument.CREATING? && r.link.None?
  }

  predicate Reconciling(r: Rows) {
    r.state.ActionUncertain? && r.action.RECONCILING? && r.instrument.UNSURE? && r.link.None?
  }

  predicate ClosedRows(r: Rows) {
    && (r.state.SuppressedPaid? || r.state.SuppressedPolicy? || r.state.Escalated? || r.state.FailedSafe?)
    && (r.action.FAILED_SAFE? || r.action.DEAD_LETTERED? || r.action.CANCELLED?)
    && r.instrument.FAILED? && r.link.None?
  }

  /** Authorization leaves exactly the triple its mode promises: executing for a first try, reconciling otherwise. */
  lemma AuthorizationInStep(r: Rows, bound: bool, expectedVersion: int, reconcileOnly: bool)
    requires InStep(r) && Authorize(r, bound, expectedVersion, reconcileOnly).Some?
    ensures var next := Authorize(r, bound, expectedVersion, reconcileOnly).value;
      if reconcileOnly then Reconciling(next) else Running(next)
  {}

  /** A persisted result keeps the rows in step, provided a link is only recorded after an authorization. */
  lemma ResultInStep(r: Rows, d: Disposition, linkId: Option<string>, paid: bool)
    requires InStep(r) && Persisted(r, d, linkId, paid).Some?
    requires d.CREATED? || d.ADOPTED? ==> Running(r) || Reconciling(r)
    ensures var next := Persisted(r, d, linkId, paid).value;
      && InStep(next) && next.version > r.version
      && (d.CREATED? || d.ADOPTED? ==> next.state.Active? && next.link == linkId)
      && (d.REQUERY_REQUIRED? ==> next.state.ActionUncertain?)
      && (d.REQUEUED? ==> next.state.ActionQueued?)
      && (d.ESCALATED? || d.DEAD_LETTER? || d.SUPPRESSED? ==> ClosedRows(next))
  {}

  /** Closed and active rows are never touched by an authorization, a requeue, a doubt, a failure or a suppression. */
  lemma SettledRowsRefuse(r: Rows, d: Disposition, linkId: Option<string>, paid: bool, bound: bool, version: int,
                          reconcileOnly: bool)
    requires InStep(r) && (r.state.Active? || ClosedRows(r))
    ensures Authorize(r, bound, version, reconcileOnly).None?
    ensures Persisted(r, d, linkId, paid).Some? ==> d.CREATED? || d.ADOPTED?
  {}

  /** A reconcile-only delivery is refused exactly when the rows are not waiting in doubt: it cannot leave EXECUTING. */
  lemma ReconcileOnlyNeedsDoubt(r: Rows)
    requires InStep(r)
    ensures Authorize(r, true, r.version, true).Some? <==> r.state.ActionUncertain?
    ensures Running(r) ==> Authorize(r, true, r.version, true).None?
  {}

  // ---- Exactly which rows each result leaves ----

  /** When the guards of a result all hit. */
  predicate Commits(r: Rows, d: Disposition, linkId: Option<string>) {
    match d
    case CREATED => linkId.Some? && (r.link == None || r.link == linkId)
    case ADOPTED => linkId.Some? && (r.link == None || r.link == linkId)
    case REQUERY_REQUIRED => r.state == Executing && r.action == EXECUTING && r.instrument == CREATING
    case REQUEUED =>
      || (r.state == Executing && r.action == EXECUTING)
      || (r.state == ActionUncertain && r.action == RECONCILING && r.instrument == UNSURE)
    case ESCALATED =>
      r.action in {QUEUED, EXECUTING, RECONCILING} && r.state in {ActionQueued, Executing, ActionUncertain}
    case DEAD_LETTER =>
      r.action in {QUEUED, EXECUTING, RECONCILING} && r.state in {ActionQueued, Executing, ActionUncertain}
    case SUPPRESSED => r.action in {QUEUED, UNCERTAIN, RECONCILING}
  }

  /** A result of either kind that names a link, and one that gives the action up. */
  predicate BringsLink(d: Disposition) { d == CREATED || d == ADOPTED }

  predicate GivesUp(d: Disposition) { d == ESCALATED || d == DEAD_LETTER }

  /**
   Each state, action status and instrument status is written by exactly the results that
   mean it: a suppression closes the case as paid exactly when the order was paid, and as
   policy or escalated by whether the action had already run.
   */
  lemma CommittedRows(r: Rows, d: Disposition, linkId: Option<string>, paid: bool)
    ensures Persisted(r, d, linkId, paid).Some? <==> Commits(r, d, linkId)
    ensures Commits(r, d, linkId) ==>
      var n := Persisted(r, d, linkId, paid).value;
      && (n.state == Active <==> BringsLink(d))
      && (n.state == ActionUncertain <==> d == REQUERY_REQUIRED)
      && (n.state == ActionQueued <==> d == REQUEUED)
      && (n.state == FailedSafe <==> GivesUp(d))
      && (n.state == SuppressedPaid <==> d == SUPPRESSED && paid)
      && (n.state == SuppressedPolicy <==> d == SUPPRESSED && !paid && r.action == QUEUED)
      && (n.state == Escalated <==> d == SUPPRESSED && !paid && r.action in {UNCERTAIN, RECONCILING})
    ensures Commits(r, d, linkId) ==>
      var n := Persisted(r, d, linkId, paid).value;
      && (n.action == SUCCEEDED <==> BringsLink(d) && r.action == EXECUTING)
      && (n.action == RECONCILED <==> BringsLink(d) && r.action != EXECUTING)
      && (n.action == UNCERTAIN <==> d == REQUERY_REQUIRED)
      && (n.action == QUEUED <==> d == REQUEUED)
      && (n.action == FAILED_SAFE <==> GivesUp(d) && r.action in {EXECUTING, RECONCILING})
      && (n.action == CANCELLED <==> d == SUPPRESSED && r.action == QUEUED)
      && (n.action == DEAD_LETTERED <==>
            (GivesUp(d) && r.action == QUEUED) || (d == SUPPRESSED && r.action in {UNCERTAIN, RECONCILING}))
    ensures Commits(r, d, linkId) ==>
      var n := Persisted(r, d, linkId, paid).value;
      var open := r.instrument in {CREATING, UNSURE};
      && n.version == r.version + (if d == REQUEUED && r.action == EXECUTING then 2 else 1)
      && n.link == (if open && BringsLink(d) then linkId else r.link)
      && (open && BringsLink(d) ==> n.instrument == LIVE)
      && (open && (GivesUp(d) || d == SUPPRESSED) ==> n.instrument == FAILED)
      && (d == REQUERY_REQUIRED ==> n.instrument == UNSURE)
      && (d == REQUEUED ==> n.instrument == (if r.action == RECONCILING then CREATING else r.instrument))
      && (!open && (BringsLink(d) || GivesUp(d) || d == SUPPRESSED) ==> n.instrument == r.instrument)
  {}

  /**
   An authorization passes exactly on bound, linkless, open rows of the expected version that
   its mode may act from; a first try moves queued rows on, once, and nothing else changes.
   */
  lemma AuthorizedRows(r: Rows, bound: bool, expectedVersion: int, reconcileOnly: bool)
    ensures Authorize(r, bound, expectedVersion, reconcileOnly).Some?
       <==> && bound && r.link == None && r.version == expectedVersion && r.instrument in {CREATING, UNSURE}
            && (if reconcileOnly then r.state == ActionUncertain && r.action in {UNCERTAIN, RECONCILING}
                else (r.state == ActionQueued && r.action == QUEUED) || (r.state == Executing && r.action == EXECUTING))
    ensures Authorize(r, bound, expectedVersion, reconcileOnly).Some? ==>
      var n := Authorize(r, bound, expectedVersion, reconcileOnly).value;
      && n.instrument == r.instrument && n.link == r.link
      && (reconcileOnly ==> n.state == ActionUncertain && n.action == RECONCILING && n.version == r.version)
      && (!reconcileOnly ==> n.state == Executing && n.action == EXECUTING
                             && n.version == r.version + (if r.state == ActionQueued then 1 else 0))
  {}
}
