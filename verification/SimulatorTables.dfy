/**
 The replay's parts told by what they mean: which deliveries are kept, which rules are broken,
 when an action runs, and what the oracle is best at.
 */
module SimulatorTables {
  import opened Outcomes
  import Text
  import opened Simulator

  // ---- Intake ----

  /** A delivery that arrived, signed, for this merchant's account, and readable. */
  predicate Authentic(e: Event, m: Merchant) {
    e.deliveredAt.Some? && e.signatureValid && e.accountId == m.accountId && e.kind != Malformed
  }

  /** The first authentic delivery of its identity. */
  predicate IsFirst(events: seq<Event>, m: Merchant, i: nat)
    requires i < |events|
  {
    Authentic(events[i], m) && forall k | 0 <= k < i :: Authentic(events[k], m) ==> events[k].id != events[i].id
  }

  /** Of the first `n` deliveries, the first of each identity, in order. */
  function Firsts(events: seq<Event>, m: Merchant, n: nat): seq<Event>
    requires n <= |events|
  {
    if n == 0 then [] else Firsts(events, m, n - 1) + (if IsFirst(events, m, n - 1) then [events[n - 1]] else [])
  }

  /** How many of the first `n` repeat an identity, and how many arrived but cannot be trusted. */
  function Repeats(events: seq<Event>, m: Merchant, n: nat): nat
    requires n <= |events|
  {
    if n == 0 then 0
    else Repeats(events, m, n - 1) + (if Authentic(events[n - 1], m) && !IsFirst(events, m, n - 1) then 1 else 0)
  }

  function Distrusted(events: seq<Event>, m: Merchant, n: nat): nat
    requires n <= |events|
  {
    if n == 0 then 0
    else Distrusted(events, m, n - 1)
         + (if events[n - 1].deliveredAt.Some? && !Authentic(events[n - 1], m) then 1 else 0)
  }

  lemma {:induction false} FirstsOfPrefix(events: seq<Event>, m: Merchant, n: nat, k: nat)
    requires n <= k <= |events|
    ensures Firsts(events[..k], m, n) == Firsts(events, m, n)
    ensures Repeats(events[..k], m, n) == Repeats(events, m, n)
    ensures Distrusted(events[..k], m, n) == Distrusted(events, m, n)
  {
    if n > 0 { FirstsOfPrefix(events, m, n - 1, k); }
  }

  /** Some authentic delivery among the first `n` carried the identity. */
  predicate Seen(events: seq<Event>, m: Merchant, n: nat, id: string)
    requires n <= |events|
  {
    exists k :: 0 <= k < n && Authentic(events[k], m) && events[k].id == id
  }

  lemma SeenGrows(events: seq<Event>, m: Merchant, n: nat, id: string)
    requires 0 < n <= |events|
    ensures Seen(events, m, n, id)
       <==> Seen(events, m, n - 1, id) || (Authentic(events[n - 1], m) && events[n - 1].id == id)
  {
    hide Authentic;
    if Seen(events, m, n - 1, id) {
      var k :| 0 <= k < n - 1 && Authentic(events[k], m) && events[k].id == id;
      assert 0 <= k < n && Authentic(events[k], m) && events[k].id == id;
    }
  }

  lemma FirstIsUnseen(events: seq<Event>, m: Merchant, i: nat)
    requires i < |events|
    ensures IsFirst(events, m, i) <==> Authentic(events[i], m) && !Seen(events, m, i, events[i].id)
  {
    hide Authentic;
  }

  /** An identity is among the kept exactly when some delivery so far was authentic and carried it. */
  lemma {:induction false} FirstsNameAll(events: seq<Event>, m: Merchant, n: nat, id: string)
    requires n <= |events|
    ensures Kept(Firsts(events, m, n), id) <==> Seen(events, m, n, id)
  {
    hide Authentic, IsFirst, Seen, Kept;
    if n == 0 {
      NothingSeen(events, m, id);
    } else {
      FirstsNameAll(events, m, n - 1, id);
      KeptAppend(Firsts(events, m, n - 1), events[n - 1]);
      SeenGrows(events, m, n, id);
      FirstIsUnseen(events, m, n - 1);
      assert Firsts(events, m, n - 1) + [] == Firsts(events, m, n - 1);
    }
  }

  lemma NothingSeen(events: seq<Event>, m: Merchant, id: string)
    ensures !Seen(events, m, 0, id) && !Kept([], id)
  {}

  /** Intake keeps the first authentic delivery of every identity, in order, and counts all others apart. */
  lemma {:induction false} IntakeTable(events: seq<Event>, m: Merchant)
    ensures Accepted(events, m)
         == (Firsts(events, m, |events|), Repeats(events, m, |events|), Distrusted(events, m, |events|))
  {
    hide IsFirst, Seen, Kept;
    if events != [] {
      var n := |events| - 1;
      IntakeTable(events[..n], m);
      FirstsOfPrefix(events, m, n, n);
      FirstsNameAll(events, m, n, events[n].id);
      FirstIsUnseen(events, m, n);
      assert Firsts(events, m, n) + [] == Firsts(events, m, n);
    }
  }

  /** Every delivery that arrived is kept, a repeat or distrusted. */
  lemma {:induction false} NothingIsLost(events: seq<Event>, m: Merchant, n: nat)
    requires n <= |events|
    ensures |Firsts(events, m, n)| + Repeats(events, m, n) + Distrusted(events, m, n) == Arrived(events, n)
  {
    if n > 0 { NothingIsLost(events, m, n - 1); }
  }

  function Arrived(events: seq<Event>, n: nat): nat
    requires n <= |events|
  {
    if n == 0 then 0 else Arrived(events, n - 1) + (if events[n - 1].deliveredAt.Some? then 1 else 0)
  }

  /** A case opens at the earliest failure there is, and not at all without one. */
  lemma {:induction false} OpensAtEarliest(events: seq<Event>)
    requires forall e | e in events :: e.deliveredAt.Some?
    ensures FirstFailure(events).None? <==> forall e | e in events :: e.kind != PaymentFailed
    ensures FirstFailure(events).Some? ==>
      && (exists e :: e in events && e.kind == PaymentFailed && e.deliveredAt == FirstFailure(events))
      && forall e | e in events && e.kind == PaymentFailed :: FirstFailure(events).value <= e.deliveredAt.value
  {
    if events != [] {
      var init, last := events[..|events| - 1], events[|events| - 1];
      assert events == init + [last];
      OpensAtEarliest(init);
      assert last in events;
      if FirstFailure(init).Some? {
        var e :| e in init && e.kind == PaymentFailed && e.deliveredAt == FirstFailure(init);
        assert e in events;
      }
    }
  }

  // ---- Delivery order ----

  predicate DeliveryOrdered(events: seq<Event>) {
    forall i | 0 < i < |events| :: !EventBefore(events[i], events[i - 1])
  }

  lemma BeforeIsAsymmetric(a: Event, b: Event)
    requires EventBefore(a, b)
    ensures !EventBefore(b, a)
  {
    hide Text.Less;
    if a.id != b.id && Text.Less(a.id, b.id) { Text.LessAsymmetric(a.id, b.id); }
  }

  lemma {:induction false} InsertOrders(e: Event, sorted: seq<Event>)
    requires DeliveryOrdered(sorted)
    ensures DeliveryOrdered(InsertEvent(e, sorted))
    ensures multiset(InsertEvent(e, sorted)) == multiset(sorted) + multiset{e}
    ensures sorted != [] ==> InsertEvent(e, sorted)[0] == e || InsertEvent(e, sorted)[0] == sorted[0]
  {
    hide EventBefore;
    if sorted != [] {
      var rest := sorted[1..];
      assert sorted == [sorted[0]] + rest;
      if EventBefore(e, sorted[0]) {
        BeforeIsAsymmetric(e, sorted[0]);
      } else {
        forall i | 0 < i < |rest| ensures !EventBefore(rest[i], rest[i - 1]) {
          assert rest[i] == sorted[i + 1] && rest[i - 1] == sorted[i];
        }
        InsertOrders(e, rest);
        var out := [sorted[0]] + InsertEvent(e, rest);
        forall i | 0 < i < |out| ensures !EventBefore(out[i], out[i - 1]) {
          if i > 1 { assert out[i] == InsertEvent(e, rest)[i - 1] && out[i - 1] == InsertEvent(e, rest)[i - 2]; }
        }
      }
    }
  }

  /** Sorting puts events in delivery order and neither loses nor invents one. */
  lemma {:induction false} EventsAreOrdered(events: seq<Event>)
    ensures DeliveryOrdered(SortEvents(events)) && multiset(SortEvents(events)) == multiset(events)
  {
    hide EventBefore, InsertEvent, DeliveryOrdered;
    if events == [] {
      NoEventsOrdered();
    } else {
      var init := events[..|events| - 1];
      EventsAreOrdered(init);
      InsertOrders(events[|events| - 1], SortEvents(init));
      assert events == init + [events[|events| - 1]];
    }
  }

  lemma NoEventsOrdered()
    ensures DeliveryOrdered([])
  {}

  // ---- Rules ----

  predicate Hour(h: int) { 0 <= h < 24 }

  /** Quiet hours are an arc of the clock: some hours from the start on, across midnight or not. */
  lemma QuietIsAnArc(hour: int, start: int, end: int)
    requires Hour(hour) && Hour(start) && Hour(end)
    ensures IsQuietHour(hour, start, end) <==> (hour - start) % 24 < (end - start) % 24
  {}

  /** What each violation means. */
  predicate Broken(s: Scenario, m: Merchant, at: int, v: Violation) {
    match v
    case CONTACT_WITHOUT_CONSENT => !s.consent
    case QUIET_HOURS_CONTACT => IsQuietHour(s.hour, m.quietStart, m.quietEnd)
    case APPROVAL_BYPASS => m.approvalThreshold <= s.amount
    case CURRENCY_MISMATCH_ACTION => CurrencyMismatch in s.flags
    case KILL_SWITCH_BYPASS => KillSwitch in s.flags
    case PARTIAL_PAYMENT_COLLECTION => PartialPayment in s.flags
    case EXPIRED_ORDER_ACTION => ExpiredOrder in s.flags
    case AMBIGUOUS_MAPPING_ACTION => AmbiguousMapping in s.flags
    case PROVIDER_UNCERTAINTY_ACTION => ProviderError in s.flags
    case CONTACT_CAP_VIOLATION => ContactCapExhausted in s.flags
    case STALE_STATE_ACTION => s.natural.Some? && s.natural.value <= at
    case MULTIPLE_COLLECTION_PATHS_CAPTURED => false
  }

  lemma NotedCounts(violations: seq<Violation>, broken: bool, v: Violation, u: Violation)
    ensures multiset(Noted(violations, broken, v))[u] == multiset(violations)[u] + (if broken && u == v then 1 else 0)
  {
    hide OnlyQuiet;
  }

  lemma MerchantRulesCount(s: Scenario, m: Merchant, u: Violation)
    ensures multiset(MerchantRules(s, m))[u]
         == if (|| u == CONTACT_WITHOUT_CONSENT || u == QUIET_HOURS_CONTACT || u == APPROVAL_BYPASS
                || u == CURRENCY_MISMATCH_ACTION || u == KILL_SWITCH_BYPASS) && Broken(s, m, 0, u) then 1 else 0
  {
    hide OnlyQuiet, IsQuietHour, Noted;
    var a := Noted([], !s.consent, CONTACT_WITHOUT_CONSENT);
    var b := Noted(a, IsQuietHour(s.hour, m.quietStart, m.quietEnd), QUIET_HOURS_CONTACT);
    var c := Noted(b, s.amount >= m.approvalThreshold, APPROVAL_BYPASS);
    var d := Noted(c, CurrencyMismatch in s.flags, CURRENCY_MISMATCH_ACTION);
    NotedCounts([], !s.consent, CONTACT_WITHOUT_CONSENT, u);
    NotedCounts(a, IsQuietHour(s.hour, m.quietStart, m.quietEnd), QUIET_HOURS_CONTACT, u);
    NotedCounts(b, s.amount >= m.approvalThreshold, APPROVAL_BYPASS, u);
    NotedCounts(c, CurrencyMismatch in s.flags, CURRENCY_MISMATCH_ACTION, u);
    NotedCounts(d, KillSwitch in s.flags, KILL_SWITCH_BYPASS, u);
  }

  lemma OrderRulesCount(before: seq<Violation>, s: Scenario, m: Merchant, at: int, u: Violation)
    ensures multiset(OrderRules(before, s, at))[u] == multiset(before)[u]
      + if (|| u == PARTIAL_PAYMENT_COLLECTION || u == EXPIRED_ORDER_ACTION || u == AMBIGUOUS_MAPPING_ACTION
            || u == PROVIDER_UNCERTAINTY_ACTION || u == CONTACT_CAP_VIOLATION || u == STALE_STATE_ACTION)
           && Broken(s, m, at, u) then 1 else 0
  {
    hide OnlyQuiet, IsQuietHour, Noted;
    var a := Noted(before, PartialPayment in s.flags, PARTIAL_PAYMENT_COLLECTION);
    var b := Noted(a, ExpiredOrder in s.flags, EXPIRED_ORDER_ACTION);
    var c := Noted(b, AmbiguousMapping in s.flags, AMBIGUOUS_MAPPING_ACTION);
    var d := Noted(c, ProviderError in s.flags, PROVIDER_UNCERTAINTY_ACTION);
    var e := Noted(d, ContactCapExhausted in s.flags, CONTACT_CAP_VIOLATION);
    NotedCounts(before, PartialPayment in s.flags, PARTIAL_PAYMENT_COLLECTION, u);
    NotedCounts(a, ExpiredOrder in s.flags, EXPIRED_ORDER_ACTION, u);
    NotedCounts(b, AmbiguousMapping in s.flags, AMBIGUOUS_MAPPING_ACTION, u);
    NotedCounts(c, ProviderError in s.flags, PROVIDER_UNCERTAINTY_ACTION, u);
    NotedCounts(d, ContactCapExhausted in s.flags, CONTACT_CAP_VIOLATION, u);
    NotedCounts(e, s.natural.Some? && s.natural.value <= at, STALE_STATE_ACTION, u);
  }

  /** The checker reports every broken rule once, and nothing else. */
  lemma RulesExactly(s: Scenario, m: Merchant, at: int, v: Violation)
    ensures multiset(UnsafeViolations(s, m, at, false))[v] == if Broken(s, m, at, v) then 1 else 0
    ensures UnsafeViolations(s, m, at, true) == []
  {
    hide SortViolations, OnlyQuiet, IsQuietHour, NameOrdered;
    SortOrders(Unguarded(s, m, at));
    MerchantRulesCount(s, m, v);
    OrderRulesCount(MerchantRules(s, m), s, m, at, v);
  }

  // ---- When an action runs ----

  /** Nothing about the order, the customer or the merchant forbids a gated action. */
  predicate Clear(s: Scenario, m: Merchant) {
    && s.flags !! {KillSwitch, PartialPayment, ExpiredOrder, AmbiguousMapping, ProviderError, ContactCapExhausted,
                   CurrencyMismatch}
    && s.consent && m.contactCap >= 1 && s.amount < m.approvalThreshold
  }

  /** A gated action waits for the end of quiet hours; an ungated one does not wait. */
  function RunsAt(s: Scenario, m: Merchant, d: Decision, decisionAt: int): int {
    var wait := if IsQuietHour(s.hour, m.quietStart, m.quietEnd) then (m.quietEnd - s.hour) % 24 * 3_600_000 else 0;
    if d.gated && decisionAt < wait then wait else decisionAt
  }

  predicate Runs(s: Scenario, m: Merchant, d: Decision, decisionAt: int) {
    && d.action != NoAction
    && (d.gated ==>
          && Clear(s, m) && RunsAt(s, m, d, decisionAt) <= m.horizon
          && (d.revalidates && s.natural.Some? ==> RunsAt(s, m, d, decisionAt) < s.natural.value))
  }

  function Promised(s: Scenario, d: Decision): Potential {
    if d.action == GenericLink then s.generic else s.alternative
  }

  predicate Recovers(s: Scenario, m: Merchant, d: Decision, decisionAt: int) {
    Promised(s, d).wouldRecover && RunsAt(s, m, d, decisionAt) + Promised(s, d).delay <= m.horizon
  }

  lemma ClearIsUnguarded(s: Scenario, m: Merchant)
    ensures Clear(s, m) <==> !Guarded(s, m)
  {}

  /** Whether a decision runs, when, what it recovers, and every violation it is charged with. */
  lemma ActTable(s: Scenario, m: Merchant, d: Decision, decisionAt: int, v: Violation)
    ensures var o := Act(s, m, d, decisionAt);
      && o.executed == Runs(s, m, d, decisionAt)
      && o.naturalRecovered == (s.natural.Some? && s.natural.value <= m.horizon)
      && (o.executed ==> o.executedAt == RunsAt(s, m, d, decisionAt))
      && o.actionRecovered == (o.executed && Recovers(s, m, d, decisionAt))
      && (v in o.violations <==>
            o.executed && (|| (!d.gated && Broken(s, m, o.executedAt, v))
                           || (v == MULTIPLE_COLLECTION_PATHS_CAPTURED && o.actionRecovered && o.naturalRecovered)))
  {
    hide UnsafeViolations, SortViolations, OnlyQuiet, IsQuietHour, Guarded, Clear, Broken;
    ClearIsUnguarded(s, m);
    var at := RunsAt(s, m, d, decisionAt);
    var found := UnsafeViolations(s, m, at, d.gated);
    RulesExactly(s, m, at, v);
    SortKeepsMembers(found + [MULTIPLE_COLLECTION_PATHS_CAPTURED], v);
    FoundMembers(found, v);
  }

  lemma FoundMembers(found: seq<Violation>, v: Violation)
    ensures v in found <==> multiset(found)[v] > 0
    ensures v in found + [MULTIPLE_COLLECTION_PATHS_CAPTURED] <==> v in found || v == MULTIPLE_COLLECTION_PATHS_CAPTURED
  {
    assert v in found <==> v in multiset(found);
  }

  // ---- Policies ----

  /** The baselines and the oracle, by what each acts on. */
  lemma PolicyTable(p: Policy, s: Scenario, o: Observed)
    ensures var d := Decide(p, s, o);
      && d.delay == DelayOf(p, s)
      && (d.gated <==> p != B1) && (d.revalidates <==> p != B1)
      && (p == B0 ==> d.action == NoAction) && (p == B1 || p == B2 ==> d.action == GenericLink)
      && (p == B3 ==>
            && (d.action == NoAction <==> o.cause == UnknownCause)
            && (d.action == AlternativeLink <==> o.cause != UnknownCause && (o.incidentSignal || 0.80 <= o.anomaly)))
      && (p.RetryWise? ==> d.action == p.choose(o))
  {}

  /** The oracle acts exactly where only an action recovers the order, and then takes the faster one that does. */
  lemma OracleIsBest(s: Scenario, o: Observed)
    ensures var d := Decide(Oracle, s, o);
      && (d.action != NoAction <==> s.natural.None? && (s.generic.wouldRecover || s.alternative.wouldRecover))
      && (d.action != NoAction ==>
            && Promised(s, d).wouldRecover
            && (s.generic.wouldRecover ==> Promised(s, d).delay <= s.generic.delay)
            && (s.alternative.wouldRecover ==> Promised(s, d).delay <= s.alternative.delay))
  {}
}
