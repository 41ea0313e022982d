/**
 Every transition of an outbox job as a table: when a valid job accepts it, and the whole
 value it leaves. And the fence it hands out: no two leases of one job share a token.
 */
module JobTransitions {
  import opened Outcomes
  import opened Text
  import opened Calendar
  import opened Hashing
  import Backoff
  import opened Outbox

  // ---- Clean names made of a digest ----

  lemma HexIsPlain(c: char)
    requires IsHexDigit(c)
    ensures c >= ' ' && c != '\U{7f}' && !IsSpace(c)
  {}

  /** A plain tag in front of a digest is clean text. */
  lemma TaggedIsClean(tag: string, digest: Digest, maximum: nat)
    requires IsCleanText(tag, maximum) && |tag| + 64 <= maximum
    ensures IsCleanText(tag + digest, maximum)
  {
    hide IsHexDigit, IsSpace;
    var s := tag + digest;
    forall i | 0 <= i < |s| ensures s[i] >= ' ' && s[i] != '\U{7f}' && (i == |s| - 1 ==> !IsSpace(s[i])) {
      if i >= |tag| { HexIsPlain(digest[i - |tag|]); }
    }
  }

  lemma LeaseTagIsClean(maximum: nat)
    requires maximum >= 6
    ensures IsCleanText("lease_", maximum)
  {}

  lemma TokenIsClean(j: Job, version: int, attempt: int, worker: string, expiresAt: UtcTime)
    ensures IsCleanText(LeaseToken(j, version, attempt, worker, expiresAt), 128)
  {
    hide IsCleanText, IsoText, RenderInt;
    LeaseTagIsClean(128);
    TaggedIsClean("lease_", Sha256Hex(
      j.jobId + "|" + j.actionKey + "|" + RenderInt(version) + "|" + RenderInt(attempt) + "|" + worker + "|"
      + IsoText(expiresAt)), 128);
  }

  lemma CleanWithin(s: string)
    requires IsCleanText(s, 128)
    ensures IsCleanText(s, 512)
  {}

  // ---- The tables ----

  /** The caller holds this lease, in time, and read this version. */
  predicate HeldBy(j: Job, worker: string, token: string, now: int, expectedVersion: int) {
    && expectedVersion == j.version && now >= j.updatedAt && IsCleanText(worker, 128) && IsCleanText(token, 128)
    && j.state == Leased && j.owner == Some(worker) && j.token == Some(token) && j.expiresAt.Some?
    && now < j.expiresAt.value
  }

  /** A job is free to be taken: ready, or its lease has run out. */
  predicate Free(j: Job, now: int) {
    || (j.state == Pending && j.availableAt.Some? && j.availableAt.value <= now)
    || (j.state == Leased && j.expiresAt.Some? && j.expiresAt.value <= now)
  }

  /** A lease on the next attempt, or burial of a stale lease when no attempt is left. */
  lemma ClaimTable(j: Job, worker: string, now: int, duration: int, expectedVersion: int)
    requires j.Valid()
    ensures var r := Claim(j, worker, now, duration, expectedVersion);
      && (r.Ok? <==> && expectedVersion == j.version && IsCleanText(worker, 128) && now >= j.updatedAt && duration > 0
                     && Free(j, now) && (j.attempts < j.maxAttempts ==> Representable(now + duration)))
      && (r.Ok? && j.attempts < j.maxAttempts ==>
            r.value == Job(j.jobId, j.actionKey, j.payloadDigest, Leased, j.version + 1, j.attempts + 1, j.maxAttempts,
                           j.createdAt, now, None, if j.state == Leased then ReconcileOnly else j.mode, Some(worker),
                           Some(LeaseToken(j, j.version + 1, j.attempts + 1, worker, now + duration)),
                           Some(now + duration), j.lastError, None, None))
      && (r.Ok? && j.attempts == j.maxAttempts ==>
            r.value == Job(j.jobId, j.actionKey, j.payloadDigest, DeadLetter, j.version + 1, j.attempts, j.maxAttempts,
                           j.createdAt, now, None, ReconcileOnly, None, None, None, j.lastError, None,
                           Some("max_attempts_exhausted_after_stale_lease")))
  {
    hide IsCleanText, IsHexDigest, LeaseToken;
    StaleReasonIsClean();
    if IsCleanText(worker, 128) { CleanWithin(worker); }
    if Representable(now + duration) {
      TokenIsClean(j, j.version + 1, j.attempts + 1, worker, now + duration);
      CleanWithin(LeaseToken(j, j.version + 1, j.attempts + 1, worker, now + duration));
    }
  }

  lemma StaleReasonIsClean()
    ensures IsCleanText("max_attempts_exhausted_after_stale_lease", 512)
  {}

  lemma SettlingTable(j: Job, worker: string, token: string, now: int, expectedVersion: int)
    ensures Settling(j, worker, token, now, expectedVersion).Ok? <==> HeldBy(j, worker, token, now, expectedVersion)
  {
    hide IsCleanText;
  }

  /** Completion under a held lease; repeating the same completion changes nothing. */
  lemma CompleteTable(j: Job, worker: string, token: string, now: int, expectedVersion: int, reference: string)
    requires j.Valid()
    ensures var r := Complete(j, worker, token, now, expectedVersion, reference);
      && (r.Ok? <==> && IsCleanText(reference, 512)
                     && (if j.state == Completed then j.completion == Some(reference)
                         else HeldBy(j, worker, token, now, expectedVersion)))
      && (r.Ok? && j.state == Completed ==> r.value == j)
      && (r.Ok? && j.state != Completed ==>
            r.value == Job(j.jobId, j.actionKey, j.payloadDigest, Completed, j.version + 1, j.attempts, j.maxAttempts,
                           j.createdAt, now, None, j.mode, None, None, None, None, Some(reference), None))
  {
    hide IsCleanText, IsHexDigest, Settling, HeldBy;
    SettlingTable(j, worker, token, now, expectedVersion);
    HeldIsLeased(j, worker, token, now, expectedVersion);
  }

  lemma HeldIsLeased(j: Job, worker: string, token: string, now: int, expectedVersion: int)
    ensures HeldBy(j, worker, token, now, expectedVersion) ==> j.state == Leased && now >= j.updatedAt
  {}

  /** The delay before the next attempt: the base doubled per attempt and capped, but on one rounding family. */
  function WaitAfter(backoff: Backoff.Policy, attempts: int): int
    requires attempts >= 1
  {
    var wanted := backoff.base * Backoff.Pow2(attempts - 1);
    if wanted >= backoff.maximum || (attempts >= 2 && backoff.maximum % 4 == 1 && wanted == backoff.maximum - 1)
    then backoff.maximum else wanted
  }

  /** A retry at `now` plus the delay of the attempts so far, or burial once they are spent. */
  lemma RequeueTable(j: Job, worker: string, token: string, now: int, expectedVersion: int, reason: string,
                     backoff: Backoff.Policy, mode: RetryMode)
    requires j.Valid() && backoff.Valid()
    ensures var r := Requeue(j, worker, token, now, expectedVersion, reason, backoff, mode);
      && (r.Ok? <==> && IsCleanText(reason, 512) && HeldBy(j, worker, token, now, expectedVersion)
                     && (if j.attempts < j.maxAttempts then Representable(now + WaitAfter(backoff, j.attempts))
                         else |reason| <= 489))
      && (r.Ok? && j.attempts < j.maxAttempts ==>
            r.value == Job(j.jobId, j.actionKey, j.payloadDigest, Pending, j.version + 1, j.attempts, j.maxAttempts,
                           j.createdAt, now, Some(now + WaitAfter(backoff, j.attempts)), mode, None, None, None,
                           Some(reason), None, None))
      && (r.Ok? && j.attempts == j.maxAttempts ==>
            r.value == Job(j.jobId, j.actionKey, j.payloadDigest, DeadLetter, j.version + 1, j.attempts, j.maxAttempts,
                           j.createdAt, now, None, mode, None, None, None, Some(reason), None,
                           Some("max_attempts_exhausted:" + reason)))
  {
    hide IsCleanText, IsHexDigest, Settling, HeldBy, Backoff.DelayAfter, Backoff.Pow2;
    SettlingTable(j, worker, token, now, expectedVersion);
    HeldIsLeased(j, worker, token, now, expectedVersion);
    if HeldBy(j, worker, token, now, expectedVersion) {
      Backoff.DelayExact(backoff, j.attempts);
      if IsCleanText(reason, 512) { PrefixIsClean(reason); }
    }
  }

  /** Burial under a held lease; repeating the same burial changes nothing. */
  lemma BuryTable(j: Job, worker: string, token: string, now: int, expectedVersion: int, reason: string)
    requires j.Valid()
    ensures var r := Bury(j, worker, token, now, expectedVersion, reason);
      && (r.Ok? <==> && IsCleanText(reason, 512)
                     && (if j.state == DeadLetter then j.deadReason == Some(reason)
                         else HeldBy(j, worker, token, now, expectedVersion)))
      && (r.Ok? && j.state == DeadLetter ==> r.value == j)
      && (r.Ok? && j.state != DeadLetter ==>
            r.value == Job(j.jobId, j.actionKey, j.payloadDigest, DeadLetter, j.version + 1, j.attempts, j.maxAttempts,
                           j.createdAt, now, None, j.mode, None, None, None, Some(reason), None, Some(reason)))
  {
    hide IsCleanText, IsHexDigest, Settling, HeldBy;
    SettlingTable(j, worker, token, now, expectedVersion);
    HeldIsLeased(j, worker, token, now, expectedVersion);
  }

  // ---- The fence ----

  /** The time in a token is the timestamp with an explicit zero offset, without a fraction that is zero. */
  lemma IsoIsTimestamp(t: UtcTime)
    ensures IsoText(t) == FormatTimestamp(t)[..if t % SECOND == 0 then 19 else 26] + "+00:00"
  {
    hide FormatDate, FormatClock, DateOf;
    assert t % DAY % SECOND == t % SECOND;
    var day, clock := FormatDate(DateOf(t)), FormatClock(ClockOf(t % DAY));
    assert FormatTimestamp(t) == day + "T" + clock + "Z";
    assert FormatTimestamp(t)[..19] == day + "T" + clock[..8];
    assert FormatTimestamp(t)[..26] == day + "T" + clock;
  }

  /** What the digest behind a token is taken over: the job, the grant, its holder and its end. */
  function Material(j: Job): string
    requires j.owner.Some? && j.expiresAt.Some? && Representable(j.expiresAt.value)
  {
    j.jobId + "|" + j.actionKey + "|" + RenderInt(j.version) + "|" + RenderInt(j.attempts) + "|" + j.owner.value + "|"
    + IsoText(j.expiresAt.value)
  }

  /** A leased job's token is the digest of its own grant. */
  predicate Sealed(j: Job) {
    j.state == Leased ==>
      && j.owner.Some? && j.expiresAt.Some? && Representable(j.expiresAt.value)
      && j.token == Some("lease_" + Sha256Hex(Material(j)))
  }

  lemma ServeSeals(j: Job, r: Request)
    requires j.Valid() && Serve(j, r).Ok? && Serve(j, r).value != j
    ensures Sealed(Serve(j, r).value)
  {
    hide IsCleanText, IsoText, RenderInt, Complete, Requeue, Bury, Claim, Job.Valid;
    match r
    case ClaimIt(worker, now, duration) => ClaimSeals(j, worker, now, duration);
    case _ => SettlementUnleases(j, r);
  }

  lemma ClaimSeals(j: Job, worker: string, now: int, duration: int)
    requires j.Valid() && Claim(j, worker, now, duration, j.version).Ok?
    ensures Sealed(Claim(j, worker, now, duration, j.version).value)
  {
    hide Claim, IsCleanText, IsoText, RenderInt, Job.Named;
    ClaimTable(j, worker, now, duration, j.version);
  }

  lemma SettlementUnleases(j: Job, r: Request)
    requires j.Valid() && !r.ClaimIt? && Serve(j, r).Ok? && Serve(j, r).value != j
    ensures Serve(j, r).value.state != Leased
  {
    hide IsCleanText, Job.Named, Backoff.DelayAfter;
  }

  lemma {:induction false} StoredIsSealed(first: Job, attempts: seq<Attempt>, i: nat)
    requires Fresh(first) && i < |Stored(first, attempts)|
    ensures Sealed(Stored(first, attempts)[i])
  {
    hide Sealed, Serve, Job.Valid, Moves;
    if attempts == [] {
      FreshIsSealed(first);
    } else {
      var history, a := Stored(first, attempts[..|attempts| - 1]), attempts[|attempts| - 1];
      StoredIsChain(first, attempts[..|attempts| - 1]);
      if i < |history| {
        StoredIsSealed(first, attempts[..|attempts| - 1], i);
      } else {
        ServeSeals(history[a.read], a.request);
      }
    }
  }

  lemma FreshIsSealed(j: Job)
    requires Fresh(j)
    ensures Sealed(j)
  {}

  lemma BarInside(a: string, b: string, x: string, y: string)
    requires |a| < |b| && a + "|" + x == b + "|" + y
    ensures '|' in b
  {
    assert (a + "|" + x)[|a|] == '|' && (b + "|" + y)[|a|] == b[|a|];
  }

  /** Texts without a bar are read back from in front of the first one. */
  lemma BarSplits(a: string, b: string, x: string, y: string)
    requires '|' !in a && '|' !in b && a + "|" + x == b + "|" + y
    ensures a == b
  {
    if |a| < |b| { BarInside(a, b, x, y); }
    if |b| < |a| { BarInside(b, a, y, x); }
    assert (a + "|" + x)[..|a|] == a && (b + "|" + y)[..|b|] == b;
  }

  /** Two leases of one job's life carry different tokens, or two different texts have one digest. */
  lemma TokensDiffer(first: Job, attempts: seq<Attempt>, i: nat, k: nat)
    requires Fresh(first) && i < k < |Stored(first, attempts)|
    requires Stored(first, attempts)[i].state == Leased && Stored(first, attempts)[k].state == Leased
    ensures Stored(first, attempts)[i].token != Stored(first, attempts)[k].token
         || exists a, b :: Collides(a, b)
  {
    hide Sealed, Serve, Moves, Job.Valid, Material;
    var history := Stored(first, attempts);
    StoredIsChain(first, attempts);
    StoredIsSealed(first, attempts, i);
    StoredIsSealed(first, attempts, k);
    SameNames(history, i);
    SameNames(history, k);
    SealsDiffer(history[i], history[k]);
  }

  lemma {:induction false} SameNames(history: seq<Job>, i: nat)
    requires Chain(history) && i < |history|
    ensures history[i].jobId == history[0].jobId && history[i].actionKey == history[0].actionKey
  {
    hide Job.Valid;
    if i > 0 {
      SameNames(history, i - 1);
      assert Moves(history[i - 1], history[i]);
    }
  }

  lemma SealsDiffer(j: Job, k: Job)
    requires Sealed(j) && Sealed(k) && j.state == Leased && k.state == Leased
    requires j.jobId == k.jobId && j.actionKey == k.actionKey && 0 <= j.version < k.version
    ensures j.token != k.token || exists a, b :: Collides(a, b)
  {
    hide IsoText, RenderInt, Material;
    if j.token == k.token {
      var a, b := "lease_" + Sha256Hex(Material(j)), "lease_" + Sha256Hex(Material(k));
      assert a[6..] == Sha256Hex(Material(j)) && b[6..] == Sha256Hex(Material(k));
      MaterialsDiffer(j, k);
      assert Collides(Material(j), Material(k));
    }
  }

  lemma MaterialsDiffer(j: Job, k: Job)
    requires j.owner.Some? && j.expiresAt.Some? && Representable(j.expiresAt.value)
    requires k.owner.Some? && k.expiresAt.Some? && Representable(k.expiresAt.value)
    requires j.jobId == k.jobId && j.actionKey == k.actionKey && 0 <= j.version < k.version
    ensures Material(j) != Material(k)
  {
    hide IsoText, RenderInt;
    var head := j.jobId + "|" + j.actionKey + "|";
    var x := RenderInt(j.attempts) + "|" + j.owner.value + "|" + IsoText(j.expiresAt.value);
    var y := RenderInt(k.attempts) + "|" + k.owner.value + "|" + IsoText(k.expiresAt.value);
    var v, w := RenderInt(j.version), RenderInt(k.version);
    assert Material(j) == head + (v + "|" + x);
    assert Material(k) == head + (w + "|" + y);
    if Material(j) == Material(k) {
      assert Material(j)[|head|..] == v + "|" + x;
      assert Material(k)[|head|..] == w + "|" + y;
      NumeralHasNoBar(j.version);
      NumeralHasNoBar(k.version);
      BarSplits(v, w, x, y);
      NumeralsDiffer(j.version, k.version);
    }
  }

  lemma NumeralHasNoBar(n: nat)
    ensures '|' !in RenderInt(n)
  {
    hide RenderNat;
  }

  lemma NumeralsDiffer(m: nat, n: nat)
    requires m != n
    ensures RenderInt(m) != RenderInt(n)
  {
    hide RenderNat, NatValue;
    RenderNatValue(m);
    RenderNatValue(n);
  }
}
