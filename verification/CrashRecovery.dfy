/**
 A run the protocol must not refuse: the create's outcome is unknown, the doubt
 is persisted, the worker dies, and the next delivery adopts the link.
 */
module CrashRecovery {
  import opened Outcomes
  import opened Text
  import Calendar
  import Hashing
  import Json
  import PL = PaymentLinks
  import Backoff
  import Outbox
  import opened JobTransitions
  import E = Executor
  import R = EffectRows
  import opened CreateProtocol

  // ---- Claims that are granted ----

  /** Ready, or leased by someone whose lease ran out, with an attempt left. */
  predicate Claimable(j: Outbox.Job, worker: string, now: int, duration: int) {
    && j.Valid() && j.attempts < j.maxAttempts && IsCleanText(worker, 128) && now >= j.updatedAt && duration > 0
    && Calendar.Representable(now + duration)
    && (match j.state
        case Pending => j.availableAt.Some? && now >= j.availableAt.value
        case Leased => j.expiresAt.Some? && now >= j.expiresAt.value
        case _ => false)
  }

  /** The lease a claim of `j` hands out. */
  predicate Granted(j: Outbox.Job, k: Outbox.Job, worker: string, now: int, duration: int) {
    && k.Valid() && k.state.Leased? && k.version == j.version + 1 && k.attempts == j.attempts + 1
    && k.maxAttempts == j.maxAttempts && k.mode == (if j.state.Leased? then Outbox.ReconcileOnly else j.mode)
    && k.owner == Some(worker) && k.token.Some? && IsCleanText(k.token.value, 128)
    && k.updatedAt == now && k.expiresAt == Some(now + duration)
  }

  lemma ClaimSucceeds(j: Outbox.Job, worker: string, now: int, duration: int)
    requires Claimable(j, worker, now, duration)
    ensures var r := Outbox.Claim(j, worker, now, duration, j.version);
      r.Ok? && Granted(j, r.value, worker, now, duration)
  {
    hide IsCleanText, Outbox.LeaseToken;
    TokenIsClean(j, j.version + 1, j.attempts + 1, worker, now + duration);
    CleanWithin(worker);
    CleanWithin(Outbox.LeaseToken(j, j.version + 1, j.attempts + 1, worker, now + duration));
  }

  lemma ClaimStarts(w: World, worker: string, now: int, duration: int)
    requires Claimable(w.job, worker, now, duration)
    ensures var n := Next(w, Claim(worker, now, duration));
      && Granted(w.job, n.job, worker, now, duration) && Delivering(n, Started)
      && n.rows == w.rows && n.links == w.links && n.trace == w.trace && n.request == w.request && n.named == w.named
  {
    hide Granted, Claimable, Outbox.Claim;
    ClaimSucceeds(w.job, worker, now, duration);
    GrantedIsLeased(w.job, Outbox.Claim(w.job, worker, now, duration, w.job.version).value, worker, now, duration);
  }

  lemma GrantedIsLeased(j: Outbox.Job, k: Outbox.Job, worker: string, now: int, duration: int)
    requires Granted(j, k, worker, now, duration)
    ensures k.state.Leased?
  {}

  // ---- The two deliveries ----

  /** The first delivery's steps: an unknown create that did make a link, and an interrupted lookup. */
  function Doubt(v: int, version: int, code: string, linkId: string): seq<Step> {
    [Record(v, true, version, true, true), CallCreate(v, E.Answer(E.Ambiguous(code)), Some(linkId)),
     CallLookup(v, E.Answer(PL.Lookup(false, []))), Persist(v, false, true, true)]
  }

  /** The second delivery's steps: a completed lookup finds the link. */
  function Adoption(v: int, version: int, candidate: Json.Json, now: int, text: string, backoff: Backoff.Policy): seq<Step> {
    [Record(v, true, version, true, true), CallLookup(v, E.Answer(PL.Lookup(true, [candidate]))),
     Persist(v, false, true, true), Settle(v, now, text, backoff)]
  }

  function Fourth(w: World, steps: seq<Step>): World
    requires |steps| == 4
  {
    Next(Next(Next(Next(w, steps[0]), steps[1]), steps[2]), steps[3])
  }

  predicate Same(w: World, n: World) {
    n.job == w.job && n.request == w.request && n.named == w.named
  }

  lemma DoubtIsPersisted(w: World, code: string, linkId: string)
    requires Delivering(w, Started) && !w.job.mode.ReconcileOnly? && w.job.attempts < w.job.maxAttempts
    requires w.rows.state.ActionQueued? && w.rows.action.QUEUED? && w.rows.instrument.CREATING? && w.rows.link.None?
    ensures var n := Fourth(w, Doubt(w.job.version, w.rows.version, code, linkId));
      && Same(w, n) && Delivering(n, Settling(Retry(Outbox.ReconcileOnly)))
      && n.rows == w.rows.(state := R.States.ActionUncertain, action := R.UNCERTAIN, instrument := R.UNSURE,
                           version := w.rows.version + 2)
      && n.links == w.links + {linkId} && n.trace == w.trace + [Create(w.job.version, false)] + [Look(w.job.version, false)]
  {
    var v := w.job.version;
    var steps := Doubt(v, w.rows.version, code, linkId);
    var a := Next(w, steps[0]);
    assert Delivering(a, Recorded);
    var b := Next(a, steps[1]);
    assert Delivering(b, MustLookUp);
    var c := Next(b, steps[2]);
    assert Delivering(c, Ready(E.REQUERY_REQUIRED, None));
  }

  lemma AdoptionCompletes(w: World, candidate: Json.Json, link: string, now: int, text: string, backoff: Backoff.Policy)
    requires Delivering(w, Started) && w.job.Valid() && w.job.mode.ReconcileOnly? && w.job.state.Leased?
    requires w.job.updatedAt <= now < w.job.expiresAt.value
    requires IsCleanText(w.job.owner.value, 128) && IsCleanText(w.job.token.value, 128)
    requires w.rows.state.ActionUncertain? && (w.rows.action.UNCERTAIN? || w.rows.action.RECONCILING?)
    requires w.rows.instrument.UNSURE? && w.rows.link.None?
    requires PL.IsLinkFor(candidate, w.request, link)
    ensures var n := Fourth(w, Adoption(w.job.version, w.rows.version, candidate, now, text, backoff));
      var linkId := Some(link);
      && n.job.state.Completed? && n.job.completion == linkId && n.named == linkId
      && n.rows.state.Active? && n.rows.link == linkId
      && n.links == w.links && n.trace == w.trace + [Look(w.job.version, false)]
  {
    hide PL.ReadCandidate, PL.Snapshot.Matches, PL.IsLinkFor, PL.WellFormed, IsCleanText, Outbox.Complete;
    PL.CandidateDecided(w.request, candidate, link);
    var v := w.job.version;
    var steps := Adoption(v, w.rows.version, candidate, now, text, backoff);
    var linkId := PL.ReadCandidate(candidate).value.linkId;
    var a := Next(w, steps[0]);
    assert Delivering(a, Recorded);
    var b := Next(a, steps[1]);
    assert Delivering(b, Ready(E.ADOPTED, Some(linkId)));
    var c := Next(b, steps[2]);
    assert Delivering(c, Settling(Complete(Some(linkId))));
    CandidateIsClean(candidate);
    CompletionLands(w.job, now, linkId);
  }

  lemma CandidateIsClean(candidate: Json.Json)
    requires PL.ReadCandidate(candidate).Some?
    ensures IsCleanText(PL.ReadCandidate(candidate).value.linkId, 128)
    ensures IsCleanText(PL.ReadCandidate(candidate).value.linkId, 512)
  {
    hide PL.IsLinkStatus, PL.Get, IsCurrency, IsSpace;
  }

  lemma CompletionLands(j: Outbox.Job, now: int, linkId: string)
    requires j.Valid() && j.state.Leased? && j.updatedAt <= now < j.expiresAt.value && IsCleanText(linkId, 512)
    requires IsCleanText(j.owner.value, 128) && IsCleanText(j.token.value, 128)
    ensures var r := Outbox.Complete(j, j.owner.value, j.token.value, now, j.version, linkId);
      r.Ok? && r.value.state.Completed? && r.value.completion == Some(linkId)
  {
    hide IsCleanText;
  }

  // ---- The whole run ----

  /** What the two workers and the provider do; the first worker dies before it settles. */
  datatype Story = Story(first: string, firstAt: int, second: string, secondAt: int, duration: int, code: string,
                         candidate: Json.Json, linkId: string, text: string, backoff: Backoff.Policy)
  {
    predicate Plausible(w: World) {
      && Claimable(w.job, first, firstAt, duration) && w.job.maxAttempts >= 2
      && IsCleanText(second, 128) && secondAt >= firstAt + duration && Calendar.Representable(secondAt + duration)
      && PL.IsLinkFor(candidate, w.request, linkId)
    }

    function Steps(w: World): seq<Step> {
      [Claim(first, firstAt, duration)] + Doubt(1, w.rows.version, code, linkId)
      + [Claim(second, secondAt, duration)]
      + Adoption(2, w.rows.version + 2, candidate, secondAt, text, backoff)
    }
  }

  lemma AfterNext(w: World, steps: seq<Step>, i: nat)
    requires i < |steps|
    ensures After(w, steps[..i + 1]) == Next(After(w, steps[..i]), steps[i])
  {
    hide Next;
    assert steps[..i + 1][..i] == steps[..i];
  }

  lemma AfterFour(w: World, steps: seq<Step>, i: nat)
    requires i + 4 <= |steps|
    ensures After(w, steps[..i + 4]) == Fourth(After(w, steps[..i]), steps[i..i + 4])
  {
    hide Next, After;
    AfterNext(w, steps, i);
    AfterNext(w, steps, i + 1);
    AfterNext(w, steps, i + 2);
    AfterNext(w, steps, i + 3);
  }

  /**
   An unknown create whose doubt was persisted survives the death of its worker:
   once the lease has run out the next delivery, which may only reconcile, adopts
   the one link, and the run has a single create call.
   */
  lemma DoubtIsAdopted(w: World, s: Story)
    requires Initial(w) && s.Plausible(w)
    ensures HonestRun(w, s.Steps(w))
    ensures var n := After(w, s.Steps(w));
      && n.named == Some(s.linkId) && n.links == {s.linkId}
      && n.job.state.Completed? && n.job.completion == n.named && n.rows.state.Active? && n.rows.link == n.named
      && n.trace == [Create(1, false), Look(1, false), Look(2, false)]
  {
    hide Next, After, Fourth, PL.ReadCandidate, PL.Snapshot.Matches, PL.IsLinkFor, PL.WellFormed, IsCleanText;
    PL.CandidateDecided(w.request, s.candidate, s.linkId);
    var steps := s.Steps(w);
    var a, b, c := After(w, steps[..1]), After(w, steps[..5]), After(w, steps[..6]);
    AfterNothing(w, steps);
    AfterNext(w, steps, 0);
    ClaimStarts(w, s.first, s.firstAt, s.duration);
    AfterFour(w, steps, 1);
    assert steps[1..5] == Doubt(1, w.rows.version, s.code, s.linkId);
    DoubtIsPersisted(a, s.code, s.linkId);
    AfterNext(w, steps, 5);
    ClaimStarts(b, s.second, s.secondAt, s.duration);
    AfterFour(w, steps, 6);
    assert steps[6..10] == Adoption(2, w.rows.version + 2, s.candidate, s.secondAt, s.text, s.backoff);
    AdoptionCompletes(c, s.candidate, s.linkId, s.secondAt, s.text, s.backoff);
    assert steps[..10] == steps;
    AfterNext(w, steps, 6);
    RecordKeepsLinks(c, steps[6]);
    assert b.links == {s.linkId};
    StoryIsHonest(w, s);
  }

  lemma RecordKeepsLinks(w: World, s: Step)
    requires s.Record?
    ensures Next(w, s).links == w.links
  {}

  lemma AfterNothing(w: World, steps: seq<Step>)
    ensures After(w, steps[..0]) == w
  {}

  lemma StoryIsHonest(w: World, s: Story)
    requires PL.ReadCandidate(s.candidate).Some? && PL.ReadCandidate(s.candidate).value.linkId == s.linkId
    requires After(w, s.Steps(w)[..7]).links == {s.linkId}
    ensures HonestRun(w, s.Steps(w))
  {
    hide Next, After, PL.ReadCandidate;
    var steps := s.Steps(w);
    forall i | 0 <= i < |steps| ensures Honest(After(w, steps[..i]), steps[i]) {
      if i == 7 { assert steps[i] == CallLookup(2, E.Answer(PL.Lookup(true, [s.candidate]))); }
    }
  }
}
