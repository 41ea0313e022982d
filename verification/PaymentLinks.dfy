/** Standard Payment Link requests, their expiry window, and what a reference lookup decides. */
module PaymentLinks {
  import opened Outcomes
  import opened Text
  import opened Calendar
  import opened Json

  datatype Customer = Customer(name: string, contact: Option<string>, email: Option<string>) {
    predicate Valid() {
      && IsCleanText(name, 256)
      && (contact.Some? ==> IsCleanText(contact.value, 64))
      && (email.Some? ==> IsCleanText(email.value, 254))
    }

    function ToJson(): Json {
      Obj((if contact.Some? then [Member("contact", Str(contact.value))] else [])
          + (if email.Some? then [Member("email", Str(email.value))] else [])
          + [Member("name", Str(name))])
    }
  }

  /** A note of a link; a request keeps its notes in ascending key order. */
  datatype Note = Note(key: string, text: string)

  predicate AscendingNotes(notes: seq<Note>) {
    forall i | 0 <= i < |notes| - 1 :: Less(notes[i].key, notes[i + 1].key)
  }

  function NotesJson(notes: seq<Note>): Json {
    Obj(seq(|notes|, i requires 0 <= i < |notes| => Member(notes[i].key, Str(notes[i].text))))
  }

  datatype Request = Request(
    amountMinor: int,
    currency: string,
    referenceId: string,
    description: string,
    expireBy: int,
    notes: seq<Note>,
    customer: Option<Customer>)
  {
    predicate Valid() {
      && amountMinor > 0 && IsCurrency(currency) && IsCleanText(referenceId, 40)
      && IsCleanText(description, 2048) && expireBy > 0
      && |notes| <= 15 && AscendingNotes(notes)
      && (forall i | 0 <= i < |notes| :: IsCleanText(notes[i].key, 256) && IsCleanText(notes[i].text, 256))
      && (customer.Some? ==> customer.value.Valid())
    }

    /** The provider's create body: no partial payment, no UPI link, no messages sent by the provider. */
    function ToJson(): Json {
      Obj([Member("accept_partial", Bool(false)), Member("amount", Int(amountMinor)), Member("currency", Str(currency))]
          + (if customer.Some? then [Member("customer", customer.value.ToJson())] else [])
          + [Member("description", Str(description)), Member("expire_by", Int(expireBy)),
             Member("notes", NotesJson(notes)),
             Member("notify", Obj([Member("email", Bool(false)), Member("sms", Bool(false))])),
             Member("reference_id", Str(referenceId)), Member("reminder_enable", Bool(false)),
             Member("upi_link", Bool(false))])
    }
  }

  // ---- The expiry window ----

  const MIN_LEAD := 900

  datatype LinkError = TooSoon | TooLate | NegativeClock | OutOfRange

  /** The same day six months on, or that month's last day. */
  function SixMonthsOn(d: Date): (r: Date)
    requires d.Valid()
    ensures r.Valid()
  {
    var year := d.year + (if d.month > 6 then 1 else 0);
    var month := if d.month > 6 then d.month - 6 else d.month + 6;
    Date(year, month, if d.day <= MonthLength(year, month) then d.day else MonthLength(year, month))
  }

  /** The date of an epoch second. */
  function DateAt(epoch: nat): (d: Date)
    ensures d.Valid() && d.Ordinal() == epoch / DAY_SECONDS + EPOCH_ORDINAL
  {
    FromOrdinal(epoch / DAY_SECONDS + EPOCH_ORDINAL)
  }

  /** Epoch seconds six calendar months after `epoch`, at the same time of day. */
  function SixMonthsAfter(epoch: nat): int {
    var d := DateAt(epoch);
    (SixMonthsOn(d).Ordinal() - EPOCH_ORDINAL) * DAY_SECONDS + epoch % DAY_SECONDS
  }

  function ValidateExpiry(expireBy: int, now: int): Result<(), LinkError> {
    if now < 0 then Err(NegativeClock)
    else if expireBy < now + MIN_LEAD then Err(TooSoon)
    else if SixMonthsOn(DateAt(now)).year > 9999 then Err(OutOfRange)
    else if expireBy > SixMonthsAfter(now) then Err(TooLate)
    else Ok(())
  }

  /** Any six calendar months, whatever the month lengths and clamping, hold at least 181 days. */
  lemma SixMonthsHold181Days(d: Date)
    requires d.Valid()
    ensures SixMonthsOn(d).Ordinal() - d.Ordinal() >= 181
  {
    hide DaysBeforeYear, DaysBeforeMonth, IsLeap;
    MonthTable(d.year);
    MonthTable(d.year + 1);
    YearStep(d.year);
  }

  lemma LaterDay(later: int, day: int, span: int, rest: int)
    requires later >= day + span
    ensures later * DAY_SECONDS + rest >= day * DAY_SECONDS + rest + span * DAY_SECONDS
  {}

  lemma SixMonthsInSeconds(epoch: nat)
    ensures SixMonthsAfter(epoch) >= epoch + 181 * DAY_SECONDS
  {
    hide SixMonthsOn, Date.Ordinal, Date.Valid;
    var day := epoch / DAY_SECONDS;
    assert epoch == day * DAY_SECONDS + epoch % DAY_SECONDS;
    var d := DateAt(epoch);
    SixMonthsHold181Days(d);
    var later := SixMonthsOn(d).Ordinal() - EPOCH_ORDINAL;
    assert later >= day + 181;
    LaterDay(later, day, 181, epoch % DAY_SECONDS);
  }

  function DayEpoch(d: Date, second: nat): int
    requires d.Valid()
  {
    (d.Ordinal() - EPOCH_ORDINAL) * DAY_SECONDS + second
  }

  lemma AtClock(d: Date, second: nat)
    requires d.Valid() && d.Ordinal() >= EPOCH_ORDINAL && second < DAY_SECONDS
    ensures DayEpoch(d, second) >= 0 && DateAt(DayEpoch(d, second)) == d
    ensures SixMonthsAfter(DayEpoch(d, second)) == DayEpoch(SixMonthsOn(d), second)
  {
    hide SixMonthsOn, Date.Ordinal, Date.Valid, DateAt;
    var epoch := DayEpoch(d, second);
    DivUnique(epoch, DAY_SECONDS, d.Ordinal() - EPOCH_ORDINAL, second);
    OrdinalInjective(DateAt(epoch), d);
  }

  lemma DaysOf2025()
    ensures DaysBeforeYear(2025) == 739_251 && DaysBeforeYear(2026) == 739_616
    ensures DaysBeforeMonth(2025, 2) == 31 && DaysBeforeMonth(2025, 8) == 212 && DaysBeforeMonth(2026, 2) == 31
  {}

  /** Earlier in the calendar. */
  predicate Earlier(a: Date, b: Date) {
    a.year < b.year || (a.year == b.year && (a.month < b.month || (a.month == b.month && a.day < b.day)))
  }

  lemma EarlierOrdinal(a: Date, b: Date)
    requires a.Valid() && b.Valid()
    ensures a.Ordinal() < b.Ordinal() <==> Earlier(a, b)
  {
    EarlierBelow(a, b);
    EarlierBelow(b, a);
  }

  lemma EarlierBelow(a: Date, b: Date)
    requires a.Valid() && b.Valid()
    ensures Earlier(a, b) ==> a.Ordinal() < b.Ordinal()
  {
    hide DaysBeforeYear, YearLength, MonthLength, DaysBeforeMonth;
    YearBounds(a);
    YearBounds(b);
    if a.year < b.year {
      YearsAscend(a.year + 1, b.year);
    } else if a.year == b.year && a.month < b.month {
      MonthsAscend(a.year, a.month, b.month);
    }
  }

  /** On dates it is monotone: clamping may merge days, never swap them. */
  lemma SixMonthsKeepsOrder(a: Date, b: Date)
    requires a.Valid() && b.Valid() && a.Ordinal() <= b.Ordinal()
    ensures SixMonthsOn(a).Ordinal() <= SixMonthsOn(b).Ordinal()
  {
    hide Date.Ordinal, MonthLength;
    EarlierOrdinal(b, a);
    EarlierOrdinal(SixMonthsOn(b), SixMonthsOn(a));
  }

  /**
   Six months on, two instants keep their order exactly unless clamping puts them on
   the same day while the earlier one has the later time of day.
   */
  lemma SixMonthsOrder(a: nat, b: nat)
    requires a <= b
    ensures SixMonthsAfter(a) <= SixMonthsAfter(b)
       <==> SixMonthsOn(DateAt(a)) != SixMonthsOn(DateAt(b)) || a % DAY_SECONDS <= b % DAY_SECONDS
  {
    hide SixMonthsOn, DateAt, Date.Ordinal, Date.Valid;
    SixMonthsKeepsOrder(DateAt(a), DateAt(b));
    var x, y := SixMonthsOn(DateAt(a)), SixMonthsOn(DateAt(b));
    if x.Ordinal() == y.Ordinal() { OrdinalInjective(x, y); }
  }

  /** It is not monotone: a later instant on the 31st maps before an earlier one on the 30th. */
  lemma SixMonthsNotMonotone() returns (a: nat, b: nat)
    ensures a < b && SixMonthsAfter(a) > SixMonthsAfter(b)
  {
    hide SixMonthsAfter, DaysBeforeYear, DaysBeforeMonth, DateAt;
    DaysOf2025();
    var d, e := Date(2025, 8, 30), Date(2025, 8, 31);
    assert SixMonthsOn(d) == SixMonthsOn(e) == Date(2026, 2, 28);
    AtClock(d, 50_000);
    AtClock(e, 10);
    return DayEpoch(d, 50_000), DayEpoch(e, 10);
  }

  // ---- Planner-built links never block an authorized effect ----

  const MINIMUM_LINK_LEAD := 15 * 60 * SECOND
  const MAX_LINK_TTL := 180 * DAY

  /** The lifetimes a planner may be built with. */
  predicate PlannerTtls(proposalTtl: int, linkTtl: int) {
    proposalTtl > 0 && proposalTtl + MINIMUM_LINK_LEAD <= linkTtl <= MAX_LINK_TTL
  }

  /** Whole epoch seconds of an instant, truncated toward zero. */
  function EpochSeconds(t: int): int {
    if t >= 0 then t / SECOND else -(-t / SECOND)
  }

  /**
   A link planned at `created` passes its expiry check at every instant the gate
   still allows the proposal, for any clock skew of at most a day.
   */
  lemma ExpiryNeverBlocks(created: int, proposalTtl: int, linkTtl: int, skew: nat, now: int)
    requires PlannerTtls(proposalTtl, linkTtl) && skew <= DAY
    requires created <= now + skew && now < created + proposalTtl
    requires 0 <= now && SixMonthsOn(DateAt(EpochSeconds(now))).year <= 9999
    ensures ValidateExpiry(EpochSeconds(created + linkTtl), EpochSeconds(now)).Ok?
  {
    hide SixMonthsOn, DateAt, SixMonthsAfter;
    SixMonthsInSeconds(EpochSeconds(now));
  }

  /** Midnight of 1 July 9999: six calendar months before dates run out. */
  const LAST_CHECKED := 253_386_403_200 * SECOND

  lemma BeforeLastChecked(now: int)
    requires 0 <= now < LAST_CHECKED
    ensures SixMonthsOn(DateAt(EpochSeconds(now))).year <= 9999
  {
    hide DateAt, Date.Ordinal;
    var n := EpochSeconds(now) / DAY_SECONDS + EPOCH_ORDINAL;
    var d := DateAt(EpochSeconds(now));
    assert n <= 3_651_875;
    BeforeJuly9999(d);
  }

  lemma BeforeJuly9999(d: Date)
    requires d.Valid() && d.Ordinal() <= 3_651_875
    ensures d.year < 9999 || (d.year == 9999 && d.month <= 6)
  {
    assert DaysBeforeYear(9999) == 3_651_694;
    assert DaysBeforeMonth(9999, 7) == 181 by { MonthTable(9999); }
    DateAtMost(d);
  }

  lemma DateAtMost(d: Date)
    requires d.Valid() && d.Ordinal() <= DaysBeforeYear(9999) + DaysBeforeMonth(9999, 7)
    ensures d.year < 9999 || (d.year == 9999 && d.month <= 6)
  {
    hide DaysBeforeYear, DaysBeforeMonth, MonthLength;
    YearBounds(d);
    if d.year > 9999 {
      YearsAscend(10_000, d.year);
      YearStep(9999);
      TwelveMonths(9999);
      MonthsAscend(9999, 7, 13);
    } else if d.year == 9999 && d.month > 6 {
      MonthsAscend(9999, 7, d.month);
    }
  }

  /** A planner's link and a moment at which the gate, with this skew, may still allow its proposal. */
  predicate Admissible(created: int, proposalTtl: int, linkTtl: int, skew: nat, now: int) {
    && PlannerTtls(proposalTtl, linkTtl) && created <= now + skew && now < created + proposalTtl
    && 0 <= now && SixMonthsOn(DateAt(EpochSeconds(now))).year <= 9999
  }

  /** No planned link is refused at any moment its proposal may still be allowed. */
  ghost predicate NeverBlocks(skew: nat) {
    forall created, proposalTtl, linkTtl, now ::
      Admissible(created, proposalTtl, linkTtl, skew, now)
      ==> ValidateExpiry(EpochSeconds(created + linkTtl), EpochSeconds(now)).Ok?
  }

  /** With any skew beyond a day an allowed proposal's link can be refused as too far ahead. */
  lemma LargerSkewBlocks(skew: nat) returns (created: int, now: int)
    requires skew > DAY
    ensures Admissible(created, 300 * SECOND, MAX_LINK_TTL, skew, now)
    ensures ValidateExpiry(EpochSeconds(created + MAX_LINK_TTL), EpochSeconds(now)) == Err(TooLate)
  {
    hide SixMonthsAfter, DaysBeforeYear, DaysBeforeMonth, DateAt;
    DaysOf2025();
    var d := Date(2025, 2, 1);
    AtClock(d, 0);
    assert DayEpoch(d, 0) == 1738368000 && DayEpoch(SixMonthsOn(d), 0) == 1754006400;
    now := 1738368000 * SECOND + SECOND - 1;
    created := now + DAY + 1;
  }

  /** A day is the exact limit: the expiry check never blocks if and only if the skew is at most a day. */
  lemma DayOfSkewIsTheLimit(skew: nat)
    ensures NeverBlocks(skew) <==> skew <= DAY
  {
    hide ValidateExpiry, SixMonthsOn, DateAt, EpochSeconds;
    if skew <= DAY {
      forall created, proposalTtl, linkTtl, now | Admissible(created, proposalTtl, linkTtl, skew, now)
        ensures ValidateExpiry(EpochSeconds(created + linkTtl), EpochSeconds(now)).Ok?
      {
        ExpiryNeverBlocks(created, proposalTtl, linkTtl, skew, now);
      }
    } else {
      var created, now := LargerSkewBlocks(skew);
    }
  }

  // ---- Lookups by reference ----

  /** The links a provider listed for a reference; an interrupted lookup lists none. */
  datatype Lookup = Lookup(completed: bool, candidates: seq<Json>) {
    predicate Valid() { !completed ==> candidates == [] }
  }

  function Get(j: Json, key: string): Json {
    if j.Obj? then GetField(j.fields, key) else Null
  }

  function GetField(fields: seq<Member>, key: string): Json {
    if fields == [] then Null
    else if fields[0].key == key then fields[0].value
    else GetField(fields[1..], key)
  }

  datatype Snapshot = Snapshot(linkId: string, referenceId: string, amountMinor: int, currency: string,
                               acceptPartial: bool, upiLink: bool, status: string)
  {
    predicate Matches(request: Request) {
      && referenceId == request.referenceId && amountMinor == request.amountMinor && currency == request.currency
      && !acceptPartial && !upiLink
    }
  }

  predicate IsLinkStatus(s: string) {
    s == "created" || s == "partially_paid" || s == "expired" || s == "cancelled" || s == "paid"
  }

  predicate CleanString(j: Json, maximum: nat) {
    j.Str? && IsCleanText(j.s, maximum)
  }

  /** A candidate the provider listed, if every field is well formed. */
  function ReadCandidate(j: Json): Option<Snapshot> {
    var id, reference, amount, currency, partial, upi, status :=
      Get(j, "id"), Get(j, "reference_id"), Get(j, "amount"), Get(j, "currency"), Get(j, "accept_partial"),
      Get(j, "upi_link"), Get(j, "status");
    if || !j.Obj? || !CleanString(id, 128) || !CleanString(reference, 40) || !amount.Int? || amount.i <= 0
       || !currency.Str? || !IsCurrency(currency.s) || !partial.Bool? || !upi.Bool?
       || !status.Str? || !IsLinkStatus(status.s)
    then None
    else Some(Snapshot(id.s, reference.s, amount.i, currency.s, partial.b, upi.b, status.s))
  }

  datatype Decision =
    | Adopt(linkId: string)
    | RetrySameReference
    | Requery
    | Escalate(reason: string)

  /** What to do after a create whose outcome is unknown. */
  function DecideAmbiguousCreate(request: Request, lookup: Lookup): Decision {
    if !lookup.completed then Requery
    else if lookup.candidates == [] then RetrySameReference
    else if |lookup.candidates| != 1 then Escalate("multiple_links_found_for_unique_reference")
    else
      match ReadCandidate(lookup.candidates[0])
      case None => Escalate("malformed_provider_candidate")
      case Some(s) =>
        if s.Matches(request) then Adopt(s.linkId) else Escalate("provider_candidate_conflicts_with_command")
  }

  // ---- What the decision means, field by field ----

  /** A field of an object is its first member of that name, and null without one. */
  lemma {:induction false} FieldIsFirst(fields: seq<Member>, key: string, i: nat)
    requires i <= |fields| && forall k | 0 <= k < i :: fields[k].key != key
    requires i < |fields| ==> fields[i].key == key
    ensures Get(Obj(fields), key) == if i < |fields| then fields[i].value else Null
  {
    if i > 0 { FieldIsFirst(fields[1..], key, i - 1); }
  }

  /** A listed link in every field of the shape the provider documents. */
  predicate WellFormed(c: Json) {
    && c.Obj?
    && Get(c, "id").Str? && IsCleanText(Get(c, "id").s, 128)
    && Get(c, "reference_id").Str? && IsCleanText(Get(c, "reference_id").s, 40)
    && Get(c, "amount").Int? && Get(c, "amount").i >= 1
    && Get(c, "currency").Str? && IsCurrency(Get(c, "currency").s)
    && Get(c, "accept_partial").Bool? && Get(c, "upi_link").Bool?
    && Get(c, "status") in {Str("created"), Str("partially_paid"), Str("expired"), Str("cancelled"), Str("paid")}
  }

  /** The listed link called `id` is the one this request asks for: same reference, same money, no other mode. */
  predicate IsLinkFor(c: Json, request: Request, id: string) {
    && WellFormed(c) && Get(c, "id") == Str(id)
    && Get(c, "reference_id") == Str(request.referenceId)
    && Get(c, "amount") == Int(request.amountMinor) && Get(c, "currency") == Str(request.currency)
    && Get(c, "accept_partial") == Bool(false) && Get(c, "upi_link") == Bool(false)
  }

  lemma ReadableIsWellFormed(c: Json)
    ensures ReadCandidate(c).Some? <==> WellFormed(c)
    ensures WellFormed(c) ==> Get(c, "id") == Str(ReadCandidate(c).value.linkId)
  {
    hide Get, IsCleanText, IsCurrency;
  }

  lemma MatchingIsLinkFor(c: Json, request: Request)
    requires WellFormed(c) && ReadCandidate(c).Some?
    ensures ReadCandidate(c).value.Matches(request) <==> IsLinkFor(c, request, ReadCandidate(c).value.linkId)
  {
    hide Get, IsCleanText, IsCurrency, IsLinkStatus;
  }

  /** One listed link is adopted, malformed or conflicting, and never two of these. */
  lemma CandidateDecided(request: Request, c: Json, id: string)
    ensures IsLinkFor(c, request, id) <==>
      ReadCandidate(c).Some? && ReadCandidate(c).value.Matches(request) && ReadCandidate(c).value.linkId == id
    ensures WellFormed(c) <==> ReadCandidate(c).Some?
    ensures WellFormed(c) ==> Get(c, "id") == Str(ReadCandidate(c).value.linkId)
  {
    hide ReadCandidate, Snapshot.Matches, WellFormed, Get;
    ReadableIsWellFormed(c);
    if WellFormed(c) { MatchingIsLinkFor(c, request); }
  }

  /**
   A link is adopted exactly when a completed lookup lists it alone and its fields are those of
   the request; only a completed lookup of nothing permits another create; every other answer
   has its own escalation.
   */
  lemma DecisionIsSafe(request: Request, lookup: Lookup)
    ensures var d := DecideAmbiguousCreate(request, lookup);
      && (forall id :: d == Adopt(id) <==>
            lookup.completed && |lookup.candidates| == 1 && IsLinkFor(lookup.candidates[0], request, id))
      && (d == RetrySameReference <==> lookup.completed && lookup.candidates == [])
      && (d == Requery <==> !lookup.completed)
      && (d == Escalate("multiple_links_found_for_unique_reference") <==>
            lookup.completed && |lookup.candidates| >= 2)
      && (d == Escalate("malformed_provider_candidate") <==>
            lookup.completed && |lookup.candidates| == 1 && !WellFormed(lookup.candidates[0]))
      && (d == Escalate("provider_candidate_conflicts_with_command") <==>
            && lookup.completed && |lookup.candidates| == 1 && WellFormed(lookup.candidates[0])
            && !IsLinkFor(lookup.candidates[0], request, Get(lookup.candidates[0], "id").s))
  {
    hide ReadCandidate, Snapshot.Matches, IsLinkFor, Get, IsCleanText, IsCurrency;
    EscalationsDiffer();
    if |lookup.candidates| == 1 {
      var c := lookup.candidates[0];
      forall id ensures IsLinkFor(c, request, id) <==>
        ReadCandidate(c).Some? && ReadCandidate(c).value.Matches(request) && ReadCandidate(c).value.linkId == id
      {
        CandidateDecided(request, c, id);
      }
      CandidateDecided(request, c, "");
    }
  }

  lemma EscalationsDiffer()
    ensures "multiple_links_found_for_unique_reference" != "malformed_provider_candidate"
    ensures "multiple_links_found_for_unique_reference" != "provider_candidate_conflicts_with_command"
    ensures "malformed_provider_candidate" != "provider_candidate_conflicts_with_command"
  {
    assert |"multiple_links_found_for_unique_reference"| == 41 && |"malformed_provider_candidate"| == 28;
    assert "multiple_links_found_for_unique_reference"[0] == 'm';
    assert "provider_candidate_conflicts_with_command"[0] == 'p';
  }
}
