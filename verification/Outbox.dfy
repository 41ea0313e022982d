/**
 The immutable outbox job and its fenced transitions. A transition computes the
 next value; a store keeps it only when the version it was computed from is still
 the stored one.
 */
module Outbox {
  import opened Outcomes
  import opened Text
  import opened Calendar
  import opened Hashing
  import Backoff

  datatype JobState = Pending | Leased | Completed | DeadLetter

  datatype RetryMode = FirstTry | ReconcileOnly | RetrySameEffect

  datatype Job = Job(
    jobId: string,
    actionKey: string,
    payloadDigest: string,
    state: JobState,
    version: int,
    attempts: int,
    maxAttempts: int,
    createdAt: int,
    updatedAt: int,
    availableAt: Option<int>,
    mode: RetryMode,
    owner: Option<string>,
    token: Option<string>,
    expiresAt: Option<int>,
    lastError: Option<string>,
    completion: Option<string>,
    deadReason: Option<string>)
  {
    predicate Named() {
      && IsCleanText(jobId, 128) && IsCleanText(actionKey, 128) && IsHexDigest(payloadDigest)
      && OptionalClean(owner) && OptionalClean(token) && OptionalClean(lastError) && OptionalClean(completion)
      && OptionalClean(deadReason)
    }

    predicate Unleased() { owner.None? && token.None? && expiresAt.None? }

    predicate Shaped() {
      match state
      case Pending =>
        availableAt.Some? && Unleased() && attempts < maxAttempts && completion.None? && deadReason.None?
      case Leased =>
        && availableAt.None? && owner.Some? && token.Some? && expiresAt.Some? && attempts >= 1
        && expiresAt.value > updatedAt && completion.None? && deadReason.None?
      case Completed => availableAt.None? && Unleased() && completion.Some? && deadReason.None?
      case DeadLetter => availableAt.None? && Unleased() && deadReason.Some? && completion.None?
    }

    /** What construction enforces, and so every transition too. */
    predicate Valid() {
      && Named() && version >= 0 && 0 <= attempts <= maxAttempts && maxAttempts >= 1 && updatedAt >= createdAt
      && Shaped()
    }

    predicate Terminal() { state.Completed? || state.DeadLetter? }
  }

  predicate OptionalClean(t: Option<string>) {
    t.Some? ==> IsCleanText(t.value, 512)
  }

  datatype JobError = InvalidValue | VersionConflict | TransitionRefused | LeaseRefused | NotReady | TimeOverflow

  type JobResult = Result<Job, JobError>

  function Checked(j: Job): JobResult {
    if j.Valid() then Ok(j) else Err(InvalidValue)
  }

  function Need(ok: bool, e: JobError): Result<(), JobError> {
    if ok then Ok(()) else Err(e)
  }

  function Create(jobId: string, actionKey: string, payloadDigest: string, now: int, maxAttempts: int,
                  availableAt: Option<int>): JobResult {
    Checked(Job(jobId, actionKey, payloadDigest, Pending, 0, 0, maxAttempts, now, now,
                if availableAt.None? then Some(now) else availableAt, FirstTry, None, None, None, None, None, None))
  }

  /** ISO 8601 with an explicit zero offset; whole seconds carry no fraction. */
  function IsoText(t: UtcTime): string {
    var clock := ClockOf(t % DAY);
    FormatDate(DateOf(t)) + "T" + (if clock.micro == 0 then FormatClock(clock)[..8] else FormatClock(clock)) + "+00:00"
  }

  function LeaseToken(j: Job, version: int, attempt: int, worker: string, expiresAt: UtcTime): string {
    "lease_" + Sha256Hex(j.jobId + "|" + j.actionKey + "|" + RenderInt(version) + "|" + RenderInt(attempt) + "|"
                         + worker + "|" + IsoText(expiresAt))
  }

  /** Takes a ready job, or takes over an expired lease, which forces reconciliation. */
  function Claim(j: Job, worker: string, now: int, duration: int, expectedVersion: int): JobResult {
    var _ :- Need(expectedVersion == j.version, VersionConflict);
    var _ :- Need(IsCleanText(worker, 128) && now >= j.updatedAt && duration > 0, InvalidValue);
    var _ :- Need(!j.Terminal(), TransitionRefused);
    var _ :- Need(j.state.Pending? && j.availableAt.Some? ==> now >= j.availableAt.value, NotReady);
    var _ :- Need(j.state.Leased? && j.expiresAt.Some? ==> now >= j.expiresAt.value, LeaseRefused);
    if j.attempts + 1 > j.maxAttempts then
      Checked(j.(state := DeadLetter, version := j.version + 1, updatedAt := now, availableAt := None,
                 mode := ReconcileOnly, owner := None, token := None, expiresAt := None,
                 deadReason := Some("max_attempts_exhausted_after_stale_lease")))
    else
      var _ :- Need(Representable(now + duration), TimeOverflow);
      Checked(j.(state := Leased, version := j.version + 1, attempts := j.attempts + 1, updatedAt := now,
                 availableAt := None, mode := if j.state.Leased? then ReconcileOnly else j.mode,
                 owner := Some(worker),
                 token := Some(LeaseToken(j, j.version + 1, j.attempts + 1, worker, now + duration)),
                 expiresAt := Some(now + duration), deadReason := None))
  }

  /** The caller holds this very lease and it has not run out. */
  function ActiveLease(j: Job, worker: string, token: string, now: int): Result<(), JobError> {
    var _ :- Need(IsCleanText(worker, 128) && IsCleanText(token, 128), InvalidValue);
    Need(j.state.Leased? && j.owner == Some(worker) && j.token == Some(token)
         && j.expiresAt.Some? && now < j.expiresAt.value, LeaseRefused)
  }

  /** The checks every settlement of a lease shares. */
  function Settling(j: Job, worker: string, token: string, now: int, expectedVersion: int): Result<(), JobError> {
    var _ :- Need(expectedVersion == j.version, VersionConflict);
    var _ :- Need(now >= j.updatedAt, InvalidValue);
    ActiveLease(j, worker, token, now)
  }

  function Released(j: Job, now: int): Job {
    j.(version := j.version + 1, updatedAt := now, availableAt := None, owner := None, token := None, expiresAt := None)
  }

  function Complete(j: Job, worker: string, token: string, now: int, expectedVersion: int, reference: string)
    : JobResult
  {
    var _ :- Need(IsCleanText(reference, 512), InvalidValue);
    if j.state.Completed? then
      if j.completion == Some(reference) then Ok(j) else Err(TransitionRefused)
    else
      var _ :- Settling(j, worker, token, now, expectedVersion);
      Checked(Released(j, now).(state := Completed, lastError := None, completion := Some(reference)))
  }

  const EXHAUSTED_PREFIX := "max_attempts_exhausted:"

  function Requeue(j: Job, worker: string, token: string, now: int, expectedVersion: int, reason: string,
                   backoff: Backoff.Policy, mode: RetryMode): JobResult {
    var _ :- Need(IsCleanText(reason, 512), InvalidValue);
    var _ :- Settling(j, worker, token, now, expectedVersion);
    if j.attempts >= j.maxAttempts then
      Checked(Released(j, now).(state := DeadLetter, mode := mode, lastError := Some(reason),
                                deadReason := Some(EXHAUSTED_PREFIX + reason)))
    else
      match Backoff.DelayAfter(backoff, j.attempts)
      case Err(_) => Err(InvalidValue)
      case Ok(delay) =>
        var _ :- Need(Representable(now + delay), TimeOverflow);
        Checked(Released(j, now).(state := Pending, availableAt := Some(now + delay), mode := mode,
                                  lastError := Some(reason)))
  }

  function Bury(j: Job, worker: string, token: string, now: int, expectedVersion: int, reason: string): JobResult {
    var _ :- Need(IsCleanText(reason, 512), InvalidValue);
    if j.state.DeadLetter? then
      if j.deadReason == Some(reason) then Ok(j) else Err(TransitionRefused)
    else
      var _ :- Settling(j, worker, token, now, expectedVersion);
      Checked(Released(j, now).(state := DeadLetter, lastError := Some(reason), deadReason := Some(reason)))
  }

  // ---- The store ----

  /** One worker request, computed on whatever value of the job the worker read. */
  datatype Request =
    | ClaimIt(worker: string, now: int, duration: int)
    | CompleteIt(worker: string, token: string, now: int, reference: string)
    | RequeueIt(worker: string, token: string, now: int, reason: string, backoff: Backoff.Policy, mode: RetryMode)
    | BuryIt(worker: string, token: string, now: int, reason: string)

  function Serve(j: Job, r: Request): JobResult {
    match r
    case ClaimIt(worker, now, duration) => Claim(j, worker, now, duration, j.version)
    case CompleteIt(worker, token, now, reference) => Complete(j, worker, token, now, j.version, reference)
    case RequeueIt(worker, token, now, reason, backoff, mode) =>
      Requeue(j, worker, token, now, j.version, reason, backoff, mode)
    case BuryIt(worker, token, now, reason) => Bury(j, worker, token, now, j.version, reason)
  }

  /** A request made from the value stored `read` transitions ago onwards. */
  datatype Attempt = Attempt(read: nat, request: Request)

  /** Compare-and-swap: the result is kept only if the value read is still the stored one. */
  function Persist(history: seq<Job>, a: Attempt): seq<Job>
    requires history != []
  {
    if a.read >= |history| then history
    else
      var seen, stored := history[a.read], history[|history| - 1];
      var r := Serve(seen, a.request);
      if r.Ok? && r.value != seen && seen.version == stored.version then history + [r.value] else history
  }

  /** Everything ever stored for one job, in order. */
  function Stored(first: Job, attempts: seq<Attempt>): (history: seq<Job>)
    ensures history != [] && history[0] == first
  {
    if attempts == [] then [first]
    else Persist(Stored(first, attempts[..|attempts| - 1]), attempts[|attempts| - 1])
  }

  /** A newly created job. */
  predicate Fresh(j: Job) {
    j.Valid() && j.state.Pending? && j.version == 0 && j.attempts == 0 && j.mode.FirstTry?
  }

  /** A job is created exactly from clean names, a digest and an attempt to spend, and then it is fresh. */
  lemma CreateIsFresh(jobId: string, actionKey: string, payloadDigest: string, now: int, maxAttempts: int,
                      availableAt: Option<int>)
    ensures var r := Create(jobId, actionKey, payloadDigest, now, maxAttempts, availableAt);
      && (r.Ok? <==> && IsCleanText(jobId, 128) && IsCleanText(actionKey, 128) && IsHexDigest(payloadDigest)
                     && maxAttempts >= 1)
      && (r.Ok? ==> && Fresh(r.value) && r.value.availableAt == Some(if availableAt.None? then now else availableAt.value)
                    && r.value.jobId == jobId && r.value.maxAttempts == maxAttempts)
  {
    hide IsCleanText, IsHexDigest;
  }

  /** One stored transition: a claim, or a settlement of the lease before it. */
  predicate Moves(j: Job, k: Job) {
    && k.Valid() && k.version == j.version + 1 && !j.Terminal()
    && k.jobId == j.jobId && k.actionKey == j.actionKey && k.payloadDigest == j.payloadDigest
    && k.maxAttempts == j.maxAttempts && k.createdAt == j.createdAt && k.updatedAt >= j.updatedAt
    && (if k.state.Leased?
        then k.attempts == j.attempts + 1 && k.mode == (if j.state.Leased? then ReconcileOnly else j.mode)
             && (j.state.Leased? ==> j.expiresAt.Some? && k.updatedAt >= j.expiresAt.value)
        else k.attempts == j.attempts && j.state.Leased?)
  }

  lemma ClaimMoves(j: Job, worker: string, now: int, duration: int)
    requires j.Valid() && Claim(j, worker, now, duration, j.version).Ok?
    ensures var k := Claim(j, worker, now, duration, j.version).value;
      Moves(j, k) && (k.state.Leased? || k.state.DeadLetter?)
  {
    hide Job.Named, LeaseToken, IsCleanText;
  }

  lemma SettlementMoves(j: Job, r: Request)
    requires j.Valid() && !r.ClaimIt? && Serve(j, r).Ok? && Serve(j, r).value != j
    ensures Moves(j, Serve(j, r).value)
  {
    hide Job.Named, IsCleanText, Backoff.DelayAfter;
  }

  lemma ServeMoves(j: Job, r: Request)
    requires j.Valid() && Serve(j, r).Ok? && Serve(j, r).value != j
    ensures Moves(j, Serve(j, r).value)
  {
    hide Claim, Complete, Requeue, Bury, Moves, Job.Valid;
    match r
    case ClaimIt(worker, now, duration) => ClaimMoves(j, worker, now, duration);
    case _ => SettlementMoves(j, r);
  }

  /** The stored versions count up from zero, and each follows the one before by a real transition. */
  predicate Chain(history: seq<Job>) {
    && history != [] && Fresh(history[0])
    && (forall i | 0 <= i < |history| :: history[i].Valid() && history[i].version == i)
    && (forall i | 0 < i < |history| :: Moves(history[i - 1], history[i]))
  }

  lemma {:induction false} StoredIsChain(first: Job, attempts: seq<Attempt>)
    requires Fresh(first)
    ensures Chain(Stored(first, attempts))
  {
    hide Serve, Job.Valid, Moves;
    if attempts != [] {
      var history, a := Stored(first, attempts[..|attempts| - 1]), attempts[|attempts| - 1];
      StoredIsChain(first, attempts[..|attempts| - 1]);
      PersistKeepsChain(history, a);
    }
  }

  lemma PersistKeepsChain(history: seq<Job>, a: Attempt)
    requires Chain(history)
    ensures Chain(Persist(history, a))
  {
    hide Serve, Moves, Job.Valid;
    var last := |history| - 1;
    if a.read < |history| && Persist(history, a) != history {
      assert a.read == last;
      ServeMoves(history[last], a.request);
      MovesFacts(history[last], Serve(history[last], a.request).value);
    }
  }

  lemma MovesFacts(j: Job, k: Job)
    requires Moves(j, k)
    ensures k.Valid() && k.version == j.version + 1 && !j.Terminal()
  {}

  /** A value read before the latest stored one can no longer change anything: the fence. */
  lemma StaleReadChangesNothing(first: Job, attempts: seq<Attempt>, a: Attempt)
    requires Fresh(first) && a.read < |Stored(first, attempts)| - 1
    ensures Persist(Stored(first, attempts), a) == Stored(first, attempts)
  {
    hide Serve, Moves, Job.Valid;
    StoredIsChain(first, attempts);
  }

  /** A completed or dead-lettered job never changes again. */
  lemma TerminalAbsorbs(first: Job, attempts: seq<Attempt>, a: Attempt)
    requires Fresh(first)
    requires var history := Stored(first, attempts); history[|history| - 1].Terminal()
    ensures Persist(Stored(first, attempts), a) == Stored(first, attempts)
  {
    hide Serve, Moves, Job.Valid;
    var history := Stored(first, attempts);
    StoredIsChain(first, attempts);
    PersistKeepsChain(history, a);
    if Persist(history, a) != history {
      var longer := Persist(history, a);
      assert Moves(longer[|history| - 1], longer[|history|]);
      MovesFacts(longer[|history| - 1], longer[|history|]);
    }
  }

  // ---- Attempts and the length of a job's life ----

  /** Deliveries granted: the stored values that are leases. */
  function Grants(history: seq<Job>): nat {
    if history == [] then 0
    else Grants(history[..|history| - 1]) + (if history[|history| - 1].state.Leased? then 1 else 0)
  }

  /** Attempts count the deliveries granted, and the version stays within two per delivery. */
  lemma {:induction false} AttemptsAreGrants(history: seq<Job>)
    requires Chain(history)
    ensures var last := history[|history| - 1];
      && last.attempts == Grants(history)
      && |history| - 1 <= 2 * Grants(history) - (if last.state.Leased? then 1 else 0)
  {
    hide Job.Valid;
    var last := |history| - 1;
    if last == 0 {
      assert history[..0] == [];
    } else {
      var prefix := history[..last];
      assert Chain(prefix);
      AttemptsAreGrants(prefix);
      assert Moves(history[last - 1], history[last]);
    }
  }

  /** A new job is delivered at most `maxAttempts` times and stored at most twice per delivery. */
  lemma LifeIsBounded(first: Job, attempts: seq<Attempt>)
    requires Fresh(first)
    ensures var history := Stored(first, attempts);
      var last := history[|history| - 1];
      && last.attempts == Grants(history) <= first.maxAttempts
      && last.version == |history| - 1 <= 2 * first.maxAttempts
  {
    hide Moves, Grants;
    var history := Stored(first, attempts);
    StoredIsChain(first, attempts);
    AttemptsAreGrants(history);
    SameBudget(history, |history| - 1);
  }

  lemma {:induction false} SameBudget(history: seq<Job>, i: nat)
    requires Chain(history) && i < |history|
    ensures history[i].maxAttempts == history[0].maxAttempts
  {
    hide Job.Valid;
    if i > 0 {
      SameBudget(history, i - 1);
      assert Moves(history[i - 1], history[i]);
    }
  }

  // ---- The final attempt's reason ----

  /** Settling a valid lease as its own live holder. */
  predicate Holds(j: Job, worker: string, token: string, now: int) {
    j.Valid() && Settling(j, worker, token, now, j.version).Ok?
  }

  /** On the last attempt the reason must also fit behind its prefix: 489 characters, not 512. */
  lemma LastRequeueNeedsShortReason(j: Job, worker: string, token: string, now: int, reason: string,
                                    backoff: Backoff.Policy, mode: RetryMode)
    requires Holds(j, worker, token, now) && IsCleanText(reason, 512) && j.attempts == j.maxAttempts
    ensures Requeue(j, worker, token, now, j.version, reason, backoff, mode).Ok? <==> |reason| <= 489
  {
    hide IsSpace;
    PrefixIsClean(reason);
  }

  lemma PrefixIsClean(reason: string)
    requires IsCleanText(reason, 512)
    ensures IsCleanText(EXHAUSTED_PREFIX + reason, 512) <==> |reason| <= 489
  {
    var s := EXHAUSTED_PREFIX + reason;
    assert |EXHAUSTED_PREFIX| == 23;
    assert s[|s| - 1] == reason[|reason| - 1];
    forall i | 0 <= i < |s| ensures s[i] >= ' ' && s[i] != '\U{7f}' {
      if i < 23 { assert s[i] == EXHAUSTED_PREFIX[i]; } else { assert s[i] == reason[i - 23]; }
    }
  }

  /** A 490-character reason is accepted as text and still refused on the last attempt. */
  lemma LongReasonWitness()
    ensures var reason := seq(490, _ => 'x');
            IsCleanText(reason, 512) && !IsCleanText(EXHAUSTED_PREFIX + reason, 512)
  {
    var reason := seq(490, _ => 'x');
    assert |EXHAUSTED_PREFIX| == 23;
  }
}
