/** The offline policy replay: generated scenarios, guarded policies, and the violations they record. */
module Simulator {
  import opened Outcomes
  import Text
  import Normalization

  const MINUTE := 60_000
  const HOUR := 3_600_000

  datatype Cause =
    | OrdinaryRecoverable | WrongUpiPin | LateAuthorization | InsufficientFunds | ExpiredCredential | UnknownCause
    | UpiIncident | IssuerIncident | BankIncident

  datatype EventKind = PaymentFailed | PaymentCaptured | DowntimeStarted | Malformed

  datatype ActionKind = NoAction | GenericLink | AlternativeLink

  datatype Flag =
    | KillSwitch | PartialPayment | ExpiredOrder | AmbiguousMapping | ProviderError | ContactCapExhausted
    | CurrencyMismatch

  datatype Merchant = Merchant(merchantId: string, accountId: string, contactCap: int, quietStart: int, quietEnd: int,
                               approvalThreshold: int, horizon: int)

  datatype Event = Event(id: string, kind: EventKind, deliveredAt: Option<nat>, accountId: string,
                         signatureValid: bool, attempt: nat)

  datatype Potential = Potential(wouldRecover: bool, delay: int)

  datatype Scenario = Scenario(id: string, merchantId: string, amount: int, cause: Cause, consent: bool, hour: int,
                               natural: Option<int>, anomaly: real, events: seq<Event>, generic: Potential,
                               alternative: Potential, flags: set<Flag>)

  datatype Violation =
    | CONTACT_WITHOUT_CONSENT | QUIET_HOURS_CONTACT | APPROVAL_BYPASS | CURRENCY_MISMATCH_ACTION | KILL_SWITCH_BYPASS
    | PARTIAL_PAYMENT_COLLECTION | EXPIRED_ORDER_ACTION | AMBIGUOUS_MAPPING_ACTION | PROVIDER_UNCERTAINTY_ACTION
    | CONTACT_CAP_VIOLATION | STALE_STATE_ACTION | MULTIPLE_COLLECTION_PATHS_CAPTURED

  // ---- Keyed generation ----

  /** A keyed hash: the seed and a key to a 64-bit number. */
  type Keyed = (int, seq<string>) -> nat

  const TWO_64: nat := 0x1_0000_0000_0000_0000

  function KeyedU64(h: Keyed, seed: int, key: seq<string>): (n: nat)
    ensures n < TWO_64
  {
    h(seed, key) % TWO_64
  }

  function KeyedUnit(h: Keyed, seed: int, key: seq<string>): real {
    KeyedU64(h, seed, key) as real / TWO_64 as real
  }

  function KeyedInt(h: Keyed, seed: int, low: int, high: int, key: seq<string>): (n: int)
    requires low <= high
    ensures low <= n <= high
  {
    low + KeyedU64(h, seed, key) % (high - low + 1)
  }

  /** Decimal digits, zero padded on the left to a width. */
  function Numbered(n: nat, width: nat): string {
    var digits := Text.RenderNat(n);
    if |digits| >= width then digits else seq(width - |digits|, _ => '0') + digits
  }

  function NaturalProbability(c: Cause): real {
    match c
    case OrdinaryRecoverable => 0.20
    case WrongUpiPin => 0.65
    case LateAuthorization => 0.82
    case InsufficientFunds => 0.08
    case ExpiredCredential => 0.01
    case UnknownCause => 0.18
    case UpiIncident => 0.25
    case IssuerIncident => 0.18
    case BankIncident => 0.20
  }

  /** How likely a generic and an alternative link recover a case of each cause. */
  function ActionProbability(c: Cause): (real, real) {
    match c
    case OrdinaryRecoverable => (0.62, 0.56)
    case WrongUpiPin => (0.58, 0.72)
    case LateAuthorization => (0.35, 0.48)
    case InsufficientFunds => (0.24, 0.33)
    case ExpiredCredential => (0.18, 0.82)
    case UnknownCause => (0.36, 0.48)
    case UpiIncident => (0.12, 0.78)
    case IssuerIncident => (0.16, 0.76)
    case BankIncident => (0.15, 0.74)
  }

  predicate IsIncident(c: Cause) { c.UpiIncident? || c.IssuerIncident? || c.BankIncident? }

  function CauseAt(n: nat): Cause
    requires n < 9
  {
    match n
    case 0 => OrdinaryRecoverable
    case 1 => WrongUpiPin
    case 2 => LateAuthorization
    case 3 => InsufficientFunds
    case 4 => ExpiredCredential
    case 5 => UnknownCause
    case 6 => UpiIncident
    case 7 => IssuerIncident
    case _ => BankIncident
  }

  function GenerateMerchant(h: Keyed, seed: int, index: nat): Merchant {
    var key := Text.RenderNat(index);
    Merchant("merchant-" + Numbered(index, 2), "acc_sim_" + Numbered(index, 2),
             if KeyedUnit(h, seed, ["merchant", key, "cap"]) > 0.82 then 2 else 1,
             22, 8, KeyedInt(h, seed, 800_000, 1_600_000, ["merchant", key, "approval"]), 8 * HOUR)
  }

  predicate Divides(k: int, index: nat)
    requires k > 0
  {
    index % k == 0
  }

  /** The adversarial flags that guardrails look at, by index. */
  function FlagsOf(index: nat): set<Flag> {
    (if Divides(19, index) then {CurrencyMismatch} else {}) + (if Divides(23, index) then {KillSwitch} else {})
    + (if Divides(31, index) then {PartialPayment} else {}) + (if Divides(37, index) then {ExpiredOrder} else {})
    + (if Divides(43, index) then {AmbiguousMapping} else {}) + (if Divides(47, index) then {ProviderError} else {})
    + (if Divides(59, index) then {ContactCapExhausted} else {})
  }

  function When<T>(b: bool, x: T): seq<T> {
    if b then [x] else []
  }

  /** Provider events before sorting, in the order they are appended. */
  function RawEvents(h: Keyed, seed: int, index: nat, name: string, m: Merchant, cause: Cause, natural: Option<nat>)
    : seq<Event>
  {
    var failed := "evt-" + name + "-failed";
    var capture := if natural.None? || Divides(29, index) then None
      else if Divides(6, index) then
        Some(natural.value + KeyedInt(h, seed, 1_000, 30_000, [name, "capture-delay"]))
      else natural;
    var signal := if Divides(3, index) then Some(20_000) else if index % 3 == 1 then Some(180_000) else None;
    [Event(failed, PaymentFailed, Some(0), m.accountId, true, 1)]
    + When(Divides(5, index), Event(failed, PaymentFailed, Some(KeyedInt(h, seed, 1, 5_000, [name, "duplicate-delay"])),
                                    m.accountId, true, 2))
    + When(Divides(7, index), Event("evt-" + name + "-forged", PaymentFailed, Some(0), m.accountId, false, 1))
    + When(Divides(11, index), Event("evt-" + name + "-cross-tenant", PaymentFailed, Some(1), "acc_wrong_tenant", true, 1))
    + When(Divides(71, index), Event("evt-" + name + "-malformed", Malformed, Some(2), m.accountId, true, 1))
    + When(natural.Some?, Event("evt-" + name + "-captured", PaymentCaptured, capture, m.accountId, true, 1))
    + When(IsIncident(cause), Event("evt-" + name + "-downtime", DowntimeStarted, signal, m.accountId, true, 1))
  }

  /** Undelivered last; then by delivery time, identity and attempt. */
  predicate EventBefore(a: Event, b: Event) {
    var x := if a.deliveredAt.Some? then a.deliveredAt.value else 0;
    var y := if b.deliveredAt.Some? then b.deliveredAt.value else 0;
    if a.deliveredAt.None? != b.deliveredAt.None? then b.deliveredAt.None?
    else if x != y then x < y
    else if a.id != b.id then Text.Less(a.id, b.id)
    else a.attempt < b.attempt
  }

  function InsertEvent(e: Event, sorted: seq<Event>): seq<Event> {
    if sorted == [] || EventBefore(e, sorted[0]) then [e] + sorted else [sorted[0]] + InsertEvent(e, sorted[1..])
  }

  function SortEvents(events: seq<Event>): seq<Event> {
    if events == [] then [] else InsertEvent(events[|events| - 1], SortEvents(events[..|events| - 1]))
  }

  /** Rounded to six decimal places. */
  function Millionths(x: real): real {
    Normalization.HalfEven(x * 1_000_000.0) as real / 1_000_000.0
  }

  function Likely(probability: real, response: real): real {
    var p := probability * (0.65 + 0.7 * response);
    if p < 0.97 then p else 0.97
  }

  function GenerateScenario(h: Keyed, seed: int, index: nat, m: Merchant): Scenario {
    var name := "case-" + Numbered(index, 5);
    var cause := CauseAt((index + seed) % 9);
    var natural := if KeyedUnit(h, seed, [name, "natural"]) < NaturalProbability(cause)
      then Some(KeyedInt(h, seed, 25_000, 105_000, [name, "natural-delay"]) as nat) else None;
    var response := Millionths(KeyedUnit(h, seed, [name, "response-score"]));
    var (p, q) := ActionProbability(cause);
    var noise := KeyedUnit(h, seed, [name, "anomaly"]);
    Scenario(
      name, m.merchantId, KeyedInt(h, seed, 40_000, 2_000_000, [name, "amount"]), cause,
      KeyedUnit(h, seed, [name, "consent"]) > 0.08, KeyedInt(h, seed, 0, 23, [name, "hour"]), natural,
      Millionths(if IsIncident(cause) then 0.82 + 0.17 * noise else 0.05 + 0.55 * noise),
      SortEvents(RawEvents(h, seed, index, name, m, cause, natural)),
      Potential(KeyedUnit(h, seed, [name, "generic_payment_link"]) < Likely(p, response),
                KeyedInt(h, seed, 20_000, 95_000, [name, "generic-delay"])),
      Potential(KeyedUnit(h, seed, [name, "alternative_method_link"]) < Likely(q, response),
                KeyedInt(h, seed, 20_000, 90_000, [name, "alternative-delay"])),
      FlagsOf(index))
  }

  function MerchantCount(cases: nat): nat {
    var wanted := (cases + 24) / 25;
    if wanted < 4 then 4 else if wanted > 12 then 12 else wanted
  }

  /** A case and the merchant it belongs to. */
  function CaseAt(h: Keyed, seed: int, cases: nat, index: nat): (Scenario, Merchant) {
    var m := GenerateMerchant(h, seed, index % MerchantCount(cases));
    (GenerateScenario(h, seed, index, m), m)
  }

  // ---- Event intake ----

  predicate Acceptable(e: Event, m: Merchant) {
    e.signatureValid && e.accountId == m.accountId && !e.kind.Malformed?
  }

  /** The first delivery of every authentic event, and how many were dropped as duplicate or invalid. */
  function Accepted(events: seq<Event>, m: Merchant): (seq<Event>, nat, nat) {
    if events == [] then ([], 0, 0)
    else
      var (kept, duplicates, invalid) := Accepted(events[..|events| - 1], m);
      var e := events[|events| - 1];
      if e.deliveredAt.None? then (kept, duplicates, invalid)
      else if !Acceptable(e, m) then (kept, duplicates, invalid + 1)
      else if Kept(kept, e.id) then (kept, duplicates + 1, invalid)
      else (kept + [e], duplicates, invalid)
  }

  method AcceptEvents(events: seq<Event>, m: Merchant) returns (kept: seq<Event>, duplicates: nat, invalid: nat)
    ensures (kept, duplicates, invalid) == Accepted(events, m)
  {
    kept, duplicates, invalid := [], 0, 0;
    var seen: set<string> := {};
    for i := 0 to |events|
      invariant (kept, duplicates, invalid) == Accepted(events[..i], m)
      invariant forall id :: id in seen <==> Kept(kept, id)
    {
      assert events[..i + 1][..i] == events[..i];
      var e := events[i];
      if e.deliveredAt.Some? {
        if !Acceptable(e, m) {
          invalid := invalid + 1;
        } else if e.id in seen {
          duplicates := duplicates + 1;
        } else {
          KeptAppend(kept, e);
          seen := seen + {e.id};
          kept := kept + [e];
        }
      }
    }
    assert events[..|events|] == events;
  }

  predicate Kept(kept: seq<Event>, id: string) {
    exists i :: 0 <= i < |kept| && kept[i].id == id
  }

  lemma KeptAppend(kept: seq<Event>, e: Event)
    ensures forall id :: Kept(kept + [e], id) <==> Kept(kept, id) || id == e.id
  {
    forall id ensures Kept(kept + [e], id) <==> Kept(kept, id) || id == e.id {
      assert (kept + [e])[|kept|] == e;
      if Kept(kept, id) {
        var i :| 0 <= i < |kept| && kept[i].id == id;
        assert (kept + [e])[i].id == id;
      }
    }
  }

  function FirstFailure(events: seq<Event>): Option<nat> {
    if events == [] then None
    else
      var before := FirstFailure(events[..|events| - 1]);
      var e := events[|events| - 1];
      if !e.kind.PaymentFailed? then before
      else
        var at := if e.deliveredAt.Some? then e.deliveredAt.value else 0;
        if before.None? || at < before.value then Some(at) else before
  }

  // ---- Policies ----

  /** What a deployable policy may see. */
  datatype Observed = Observed(scenarioId: string, merchantId: string, amount: int, cause: Cause, consent: bool,
                               hour: int, anomaly: real, incidentSignal: bool)

  function Observe(s: Scenario, events: seq<Event>, at: int): Observed {
    Observed(s.id, s.merchantId, s.amount, s.cause, s.consent, s.hour, s.anomaly,
             exists i :: 0 <= i < |events| && events[i].kind.DowntimeStarted? && events[i].deliveredAt.Some?
                         && events[i].deliveredAt.value <= at)
  }

  /** The learned policy is any choice of action from what is observed. */
  datatype Policy = B0 | B1 | B2 | B3 | RetryWise(choose: Observed -> ActionKind) | Oracle

  datatype Decision = Decision(action: ActionKind, delay: int, gated: bool, revalidates: bool)

  /** The observable error is one per cause, and so is RetryWise's observation window. */
  function RetryWiseDelay(c: Cause): int {
    match c
    case OrdinaryRecoverable => 120_000
    case WrongUpiPin => 120_000
    case LateAuthorization => 130_000
    case InsufficientFunds => 15 * MINUTE
    case ExpiredCredential => 120_000
    case UnknownCause => 180_000
    case UpiIncident => 150_000
    case IssuerIncident => 150_000
    case BankIncident => 150_000
  }

  function DelayOf(p: Policy, s: Scenario): int {
    match p
    case B0 => 0
    case B1 => 0
    case B2 => 120_000
    case B3 => 120_000
    case RetryWise(_) => RetryWiseDelay(s.cause)
    case Oracle => 0
  }

  function Decide(p: Policy, s: Scenario, o: Observed): Decision {
    match p
    case B0 => Decision(NoAction, 0, true, true)
    case B1 => Decision(GenericLink, 0, false, false)
    case B2 => Decision(GenericLink, 120_000, true, true)
    case B3 =>
      Decision(if o.cause.UnknownCause? then NoAction
               else if o.incidentSignal || o.anomaly >= 0.80 then AlternativeLink else GenericLink,
               120_000, true, true)
    case RetryWise(choose) => Decision(choose(o), RetryWiseDelay(s.cause), true, true)
    case Oracle =>
      Decision(if s.natural.Some? then NoAction
               else if s.generic.wouldRecover && (!s.alternative.wouldRecover || s.generic.delay <= s.alternative.delay)
               then GenericLink
               else if s.alternative.wouldRecover then AlternativeLink
               else NoAction, 0, true, true)
  }

  // ---- Guardrails and the violation checker ----

  predicate IsQuietHour(hour: int, start: int, end: int) {
    if start == end then false else if start < end then start <= hour < end else hour >= start || hour < end
  }

  /** Milliseconds until quiet hours end; zero outside them. */
  function QuietDelay(hour: int, start: int, end: int): int {
    if !IsQuietHour(hour, start, end) then 0 else (end - hour) % 24 * HOUR
  }

  predicate Guarded(s: Scenario, m: Merchant) {
    || KillSwitch in s.flags || PartialPayment in s.flags || ExpiredOrder in s.flags || AmbiguousMapping in s.flags
    || ProviderError in s.flags || ContactCapExhausted in s.flags || CurrencyMismatch in s.flags
    || !s.consent || m.contactCap < 1 || s.amount >= m.approvalThreshold
  }

  /** When a guarded action may run, if at all. */
  function ApplyGuardrails(s: Scenario, m: Merchant, at: int): (int, bool) {
    if Guarded(s, m) then (at, true)
    else
      var quiet := QuietDelay(s.hour, m.quietStart, m.quietEnd);
      var later := if quiet > at then quiet else at;
      (later, later > m.horizon)
  }

  /** Nothing but contact in quiet hours. */
  predicate OnlyQuiet(violations: seq<Violation>) {
    forall v | v in violations :: v.QUIET_HOURS_CONTACT?
  }

  /** One rule: its violation is appended when the rule is broken. */
  function Noted(violations: seq<Violation>, broken: bool, v: Violation): (out: seq<Violation>)
    ensures out == [] <==> violations == [] && !broken
    ensures OnlyQuiet(out) <==> OnlyQuiet(violations) && (broken ==> v.QUIET_HOURS_CONTACT?)
  {
    AppendQuiet(violations, v);
    if broken then violations + [v] else violations
  }

  lemma AppendQuiet(violations: seq<Violation>, v: Violation)
    ensures OnlyQuiet(violations + [v]) <==> OnlyQuiet(violations) && v.QUIET_HOURS_CONTACT?
  {
    assert forall u :: u in violations + [v] <==> u in violations || u == v;
  }

  function ViolationName(v: Violation): string {
    match v
    case CONTACT_WITHOUT_CONSENT => "contact_without_consent"
    case QUIET_HOURS_CONTACT => "quiet_hours_contact"
    case APPROVAL_BYPASS => "approval_bypass"
    case CURRENCY_MISMATCH_ACTION => "currency_mismatch_action"
    case KILL_SWITCH_BYPASS => "kill_switch_bypass"
    case PARTIAL_PAYMENT_COLLECTION => "partial_payment_collection"
    case EXPIRED_ORDER_ACTION => "expired_order_action"
    case AMBIGUOUS_MAPPING_ACTION => "ambiguous_mapping_action"
    case PROVIDER_UNCERTAINTY_ACTION => "provider_uncertainty_action"
    case CONTACT_CAP_VIOLATION => "contact_cap_violation"
    case STALE_STATE_ACTION => "stale_state_action"
    case MULTIPLE_COLLECTION_PATHS_CAPTURED => "multiple_collection_paths_captured"
  }

  /** Reported in the order of their names. */
  predicate NameOrdered(violations: seq<Violation>) {
    forall i | 0 < i < |violations| :: !Text.Less(ViolationName(violations[i]), ViolationName(violations[i - 1]))
  }

  function Inserted(v: Violation, sorted: seq<Violation>): seq<Violation> {
    if sorted == [] || Text.Less(ViolationName(v), ViolationName(sorted[0])) then [v] + sorted
    else [sorted[0]] + Inserted(v, sorted[1..])
  }

  function SortViolations(violations: seq<Violation>): seq<Violation> {
    if violations == [] then []
    else Inserted(violations[|violations| - 1], SortViolations(violations[..|violations| - 1]))
  }

  lemma {:induction false} InsertedOrders(v: Violation, sorted: seq<Violation>)
    requires NameOrdered(sorted)
    ensures NameOrdered(Inserted(v, sorted)) && multiset(Inserted(v, sorted)) == multiset(sorted) + multiset{v}
    ensures sorted != [] ==> Inserted(v, sorted)[0] == v || Inserted(v, sorted)[0] == sorted[0]
  {
    hide ViolationName;
    if sorted != [] {
      var rest := sorted[1..];
      assert sorted == [sorted[0]] + rest;
      if Text.Less(ViolationName(v), ViolationName(sorted[0])) {
        Text.LessAsymmetric(ViolationName(v), ViolationName(sorted[0]));
      } else {
        forall i | 0 < i < |rest| ensures !Text.Less(ViolationName(rest[i]), ViolationName(rest[i - 1])) {
          assert rest[i] == sorted[i + 1] && rest[i - 1] == sorted[i];
        }
        InsertedOrders(v, rest);
        var out := [sorted[0]] + Inserted(v, rest);
        forall i | 0 < i < |out| ensures !Text.Less(ViolationName(out[i]), ViolationName(out[i - 1])) {
          if i > 1 { assert out[i] == Inserted(v, rest)[i - 1] && out[i - 1] == Inserted(v, rest)[i - 2]; }
        }
      }
    }
  }

  /** Sorting puts the violations in name order and changes none of them. */
  lemma {:induction false} SortOrders(violations: seq<Violation>)
    ensures NameOrdered(SortViolations(violations)) && multiset(SortViolations(violations)) == multiset(violations)
  {
    hide ViolationName, Inserted, NameOrdered;
    if violations == [] {
      NothingIsOrdered();
    } else {
      var init := violations[..|violations| - 1];
      SortOrders(init);
      InsertedOrders(violations[|violations| - 1], SortViolations(init));
      assert violations == init + [violations[|violations| - 1]];
    }
  }

  lemma NothingIsOrdered()
    ensures NameOrdered([])
  {}

  function MerchantRules(s: Scenario, m: Merchant): seq<Violation> {
    var v := Noted([], !s.consent, CONTACT_WITHOUT_CONSENT);
    var v := Noted(v, IsQuietHour(s.hour, m.quietStart, m.quietEnd), QUIET_HOURS_CONTACT);
    var v := Noted(v, s.amount >= m.approvalThreshold, APPROVAL_BYPASS);
    var v := Noted(v, CurrencyMismatch in s.flags, CURRENCY_MISMATCH_ACTION);
    Noted(v, KillSwitch in s.flags, KILL_SWITCH_BYPASS)
  }

  function OrderRules(before: seq<Violation>, s: Scenario, at: int): seq<Violation> {
    var v := Noted(before, PartialPayment in s.flags, PARTIAL_PAYMENT_COLLECTION);
    var v := Noted(v, ExpiredOrder in s.flags, EXPIRED_ORDER_ACTION);
    var v := Noted(v, AmbiguousMapping in s.flags, AMBIGUOUS_MAPPING_ACTION);
    var v := Noted(v, ProviderError in s.flags, PROVIDER_UNCERTAINTY_ACTION);
    var v := Noted(v, ContactCapExhausted in s.flags, CONTACT_CAP_VIOLATION);
    Noted(v, s.natural.Some? && s.natural.value <= at, STALE_STATE_ACTION)
  }

  /** What an action would violate if nothing guarded it, in the order the rules are checked. */
  function Unguarded(s: Scenario, m: Merchant, at: int): seq<Violation> {
    OrderRules(MerchantRules(s, m), s, at)
  }

  function UnsafeViolations(s: Scenario, m: Merchant, at: int, gated: bool): seq<Violation> {
    if gated then [] else SortViolations(Unguarded(s, m, at))
  }

  /** The checker as it runs, one append per broken rule; what it reports is in name order. */
  method ListViolations(s: Scenario, m: Merchant, at: int, gated: bool) returns (violations: seq<Violation>)
    ensures violations == UnsafeViolations(s, m, at, gated)
    ensures NameOrdered(violations)
    ensures multiset(violations) == if gated then multiset{} else multiset(Unguarded(s, m, at))
  {
    hide SortViolations, NameOrdered, OnlyQuiet;
    if gated {
      NothingIsOrdered();
      return [];
    }
    violations := ListMerchantRules(s, m);
    violations := ListOrderRules(violations, s, at);
    SortOrders(violations);
    violations := SortViolations(violations);
  }

  method ListMerchantRules(s: Scenario, m: Merchant) returns (violations: seq<Violation>)
    ensures violations == MerchantRules(s, m)
  {
    hide OnlyQuiet, IsQuietHour;
    violations := [];
    if !s.consent { violations := violations + [CONTACT_WITHOUT_CONSENT]; }
    if IsQuietHour(s.hour, m.quietStart, m.quietEnd) { violations := violations + [QUIET_HOURS_CONTACT]; }
    if s.amount >= m.approvalThreshold { violations := violations + [APPROVAL_BYPASS]; }
    if CurrencyMismatch in s.flags { violations := violations + [CURRENCY_MISMATCH_ACTION]; }
    if KillSwitch in s.flags { violations := violations + [KILL_SWITCH_BYPASS]; }
  }

  method ListOrderRules(before: seq<Violation>, s: Scenario, at: int) returns (violations: seq<Violation>)
    ensures violations == OrderRules(before, s, at)
  {
    hide OnlyQuiet;
    violations := before;
    if PartialPayment in s.flags { violations := violations + [PARTIAL_PAYMENT_COLLECTION]; }
    if ExpiredOrder in s.flags { violations := violations + [EXPIRED_ORDER_ACTION]; }
    if AmbiguousMapping in s.flags { violations := violations + [AMBIGUOUS_MAPPING_ACTION]; }
    if ProviderError in s.flags { violations := violations + [PROVIDER_UNCERTAINTY_ACTION]; }
    if ContactCapExhausted in s.flags { violations := violations + [CONTACT_CAP_VIOLATION]; }
    if s.natural.Some? && s.natural.value <= at { violations := violations + [STALE_STATE_ACTION]; }
  }

  // ---- One case under one policy ----

  datatype CaseOutcome = CaseOutcome(executed: bool, executedAt: int, naturalRecovered: bool, actionRecovered: bool,
                                     violations: seq<Violation>)

  function Idle(natural: bool): CaseOutcome {
    CaseOutcome(false, 0, natural, false, [])
  }

  function RunCase(s: Scenario, m: Merchant, p: Policy): CaseOutcome {
    var events := Accepted(s.events, m).0;
    match FirstFailure(events)
    case None => Idle(s.natural.Some?)
    case Some(failureAt) =>
      var decision := Decide(p, s, Observe(s, events, failureAt + DelayOf(p, s)));
      Act(s, m, decision, failureAt + decision.delay)
  }

  function NaturalRecovered(s: Scenario, m: Merchant): bool {
    s.natural.Some? && s.natural.value <= m.horizon
  }

  /** What the decision leads to, from the moment it is made. */
  function Act(s: Scenario, m: Merchant, d: Decision, decisionAt: int): CaseOutcome {
    var natural := NaturalRecovered(s, m);
    if d.action.NoAction? then Idle(natural)
    else
      var (at, suppressed) := if d.gated then ApplyGuardrails(s, m, decisionAt) else (decisionAt, false);
      if suppressed || (d.gated && d.revalidates && s.natural.Some? && s.natural.value <= at) then Idle(natural)
      else
        var potential := if d.action.GenericLink? then s.generic else s.alternative;
        var recovered := potential.wouldRecover && at + potential.delay <= m.horizon;
        CaseOutcome(true, at, natural, recovered,
                    if recovered && natural
                    then SortViolations(UnsafeViolations(s, m, at, d.gated) + [MULTIPLE_COLLECTION_PATHS_CAPTURED])
                    else UnsafeViolations(s, m, at, d.gated))
  }

  // ---- Zero hard violations ----

  /** Late enough that every natural recovery the generator makes is already visible. */
  predicate Settles(p: Policy) {
    p.B0? || p.B2? || p.B3? || p.RetryWise? || p.Oracle?
  }

  /** Natural recoveries come at 105 seconds at the latest. */
  predicate Plausible(s: Scenario) {
    s.natural.Some? ==> 25_000 <= s.natural.value <= 105_000
  }

  lemma GeneratedIsPlausible(h: Keyed, seed: int, index: nat, m: Merchant)
    ensures Plausible(GenerateScenario(h, seed, index, m))
  {
    hide SortEvents, RawEvents, FlagsOf, KeyedUnit, ActionProbability, Numbered, CauseAt, NaturalProbability, Likely,
         Millionths;
  }

  /** An observing policy, a policy that never acts and one that sees the truth all act cleanly. */
  lemma ActsCleanly(s: Scenario, m: Merchant, p: Policy)
    requires Settles(p) && Plausible(s)
    ensures RunCase(s, m, p).violations == []
    ensures RunCase(s, m, p).executed ==> !RunCase(s, m, p).naturalRecovered
  {
    hide Accepted, FirstFailure, Guarded, Unguarded, QuietDelay, Observe, SortViolations, OnlyQuiet;
  }

  function RunPolicy(h: Keyed, seed: int, cases: nat, p: Policy, n: nat): seq<CaseOutcome> {
    if n == 0 then []
    else
      var (s, m) := CaseAt(h, seed, cases, n - 1);
      RunPolicy(h, seed, cases, p, n - 1) + [RunCase(s, m, p)]
  }

  function HardViolations(outcomes: seq<CaseOutcome>): nat {
    if outcomes == [] then 0 else HardViolations(outcomes[..|outcomes| - 1]) + |outcomes[|outcomes| - 1].violations|
  }

  /** Whatever the seed, the number of cases, the hash and the model: no deployable gated policy records a violation. */
  lemma {:induction false} ZeroHardViolations(h: Keyed, seed: int, cases: nat, p: Policy, n: nat)
    requires Settles(p)
    ensures HardViolations(RunPolicy(h, seed, cases, p, n)) == 0
  {
    hide RunCase, CaseAt, Plausible;
    if n > 0 {
      ZeroHardViolations(h, seed, cases, p, n - 1);
      var (s, m) := CaseAt(h, seed, cases, n - 1);
      CaseIsPlausible(h, seed, cases, n - 1);
      ActsCleanly(s, m, p);
      var before := RunPolicy(h, seed, cases, p, n - 1);
      assert (before + [RunCase(s, m, p)])[..|before|] == before;
    }
  }

  lemma CaseIsPlausible(h: Keyed, seed: int, cases: nat, index: nat)
    ensures Plausible(CaseAt(h, seed, cases, index).0)
  {
    hide GenerateScenario, GenerateMerchant, Plausible;
    GeneratedIsPlausible(h, seed, index, GenerateMerchant(h, seed, index % MerchantCount(cases)));
  }

  /**
   Any gated, revalidating action that is executed would also pass the checker meant
   for ungated ones, except possibly for quiet hours, and then it waited for their end.
   */
  lemma GatedActionsPassTheChecker(s: Scenario, m: Merchant, d: Decision, decisionAt: int)
    requires d.gated && d.revalidates && Act(s, m, d, decisionAt).executed
    ensures var at := Act(s, m, d, decisionAt).executedAt;
      && OnlyQuiet(Unguarded(s, m, at))
      && decisionAt <= at <= m.horizon
      && (Unguarded(s, m, at) != [] ==> IsQuietHour(s.hour, m.quietStart, m.quietEnd)
                                        && at >= (m.quietEnd - s.hour) % 24 * HOUR)
  {
    hide OnlyQuiet;
    NothingIsQuiet();
  }

  lemma NothingIsQuiet()
    ensures OnlyQuiet([])
  {}

  // ---- The ungated baseline does violate ----

  /** An authentic, delivered failure. */
  predicate Opening(e: Event, m: Merchant) {
    e.kind.PaymentFailed? && Acceptable(e, m) && e.deliveredAt.Some?
  }

  /** Whatever authentic delivery carries this identity is a failure. */
  predicate OnlyFailures(events: seq<Event>, m: Merchant, id: string) {
    forall e | e in events && e.id == id && Acceptable(e, m) :: e.kind.PaymentFailed?
  }

  predicate HasFailure(events: seq<Event>) {
    exists e :: e in events && e.kind.PaymentFailed?
  }

  lemma {:induction false} FailureIsFirst(events: seq<Event>)
    ensures HasFailure(events) ==> FirstFailure(events).Some?
  {
    if events != [] {
      var init, last := events[..|events| - 1], events[|events| - 1];
      assert events == init + [last];
      FailureIsFirst(init);
      if HasFailure(events) && !last.kind.PaymentFailed? {
        var e :| e in events && e.kind.PaymentFailed?;
        assert e in init;
      }
    }
  }

  lemma KeptIsMember(kept: seq<Event>, id: string)
    requires Kept(kept, id)
    ensures exists e :: e in kept && e.id == id
  {
    var i :| 0 <= i < |kept| && kept[i].id == id;
    assert kept[i] in kept;
  }

  /** Intake only passes on what it was given, and never anything it must refuse. */
  lemma {:induction false} AcceptedAreAuthentic(events: seq<Event>, m: Merchant)
    ensures forall e | e in Accepted(events, m).0 :: e in events && Acceptable(e, m)
  {
    if events != [] {
      var init, last := events[..|events| - 1], events[|events| - 1];
      assert events == init + [last];
      AcceptedAreAuthentic(init, m);
    }
  }

  /** Of an authentic identity some delivery is kept. */
  lemma {:induction false} IdentityIsKept(events: seq<Event>, m: Merchant, x: Event)
    requires x in events && Acceptable(x, m) && x.deliveredAt.Some?
    ensures Kept(Accepted(events, m).0, x.id)
  {
    var init, last := events[..|events| - 1], events[|events| - 1];
    var kept := Accepted(init, m).0;
    assert events == init + [last];
    KeptAppend(kept, last);
    if x in init { IdentityIsKept(init, m, x); }
  }

  /** So an authentic failure whose identity nothing else uses opens the case. */
  lemma OpeningIsAccepted(events: seq<Event>, m: Merchant, x: Event)
    requires x in events && Opening(x, m) && OnlyFailures(events, m, x.id)
    ensures FirstFailure(Accepted(events, m).0).Some?
  {
    hide Accepted, FirstFailure, Kept;
    var kept := Accepted(events, m).0;
    IdentityIsKept(events, m, x);
    AcceptedAreAuthentic(events, m);
    KeptIsMember(kept, x.id);
    var e :| e in kept && e.id == x.id;
    assert e.kind.PaymentFailed?;
    FailureIsFirst(kept);
  }

  lemma {:induction false} InsertKeepsEvents(e: Event, sorted: seq<Event>)
    ensures forall x :: x in InsertEvent(e, sorted) <==> x == e || x in sorted
  {
    hide EventBefore;
    if sorted != [] && !EventBefore(e, sorted[0]) {
      InsertKeepsEvents(e, sorted[1..]);
      assert sorted == [sorted[0]] + sorted[1..];
    }
  }

  lemma {:induction false} SortKeepsEvents(events: seq<Event>)
    ensures forall x :: x in SortEvents(events) <==> x in events
  {
    hide InsertEvent;
    if events != [] {
      var init, last := events[..|events| - 1], events[|events| - 1];
      assert events == init + [last];
      SortKeepsEvents(init);
      InsertKeepsEvents(last, SortEvents(init));
    }
  }

  /** The generator's failure, and what else could be taken for it: identities of other kinds end differently. */
  lemma RawFailure(h: Keyed, seed: int, index: nat, name: string, m: Merchant, cause: Cause, natural: Option<nat>)
    ensures var x := Event("evt-" + name + "-failed", PaymentFailed, Some(0), m.accountId, true, 1);
      var raw := RawEvents(h, seed, index, name, m, cause, natural);
      x in raw && Opening(x, m) && OnlyFailures(raw, m, x.id)
  {
    hide KeyedInt, Divides;
    var raw := RawEvents(h, seed, index, name, m, cause, natural);
    var x := Event("evt-" + name + "-failed", PaymentFailed, Some(0), m.accountId, true, 1);
    assert raw[0] == x;
    forall e | e in raw && e.id == x.id && Acceptable(e, m) ensures e.kind.PaymentFailed? {
      assert e.kind.PaymentCaptured? ==> |e.id| == |x.id| + 2;
      assert e.kind.DowntimeStarted? ==> |e.id| == |x.id| + 2;
    }
  }

  /** Every generated case opens: its failure is authentic, delivered and accepted. */
  lemma GeneratedCaseOpens(h: Keyed, seed: int, index: nat, m: Merchant)
    ensures FirstFailure(Accepted(GenerateScenario(h, seed, index, m).events, m).0).Some?
  {
    hide RawEvents, SortEvents, Accepted, FirstFailure, KeyedUnit, ActionProbability, Numbered, CauseAt,
         NaturalProbability, Likely, Millionths, FlagsOf, Opening, OnlyFailures;
    var name := "case-" + Numbered(index, 5);
    var cause := CauseAt((index + seed) % 9);
    var natural := if KeyedUnit(h, seed, [name, "natural"]) < NaturalProbability(cause)
      then Some(KeyedInt(h, seed, 25_000, 105_000, [name, "natural-delay"]) as nat) else None;
    var raw := RawEvents(h, seed, index, name, m, cause, natural);
    var x := Event("evt-" + name + "-failed", PaymentFailed, Some(0), m.accountId, true, 1);
    assert GenerateScenario(h, seed, index, m).events == SortEvents(raw);
    RawFailure(h, seed, index, name, m, cause, natural);
    SortKeepsEvents(raw);
    SameFailures(raw, SortEvents(raw), m, x.id);
    OpeningIsAccepted(SortEvents(raw), m, x);
  }

  lemma SameFailures(raw: seq<Event>, sorted: seq<Event>, m: Merchant, id: string)
    requires OnlyFailures(raw, m, id) && forall x :: x in sorted <==> x in raw
    ensures OnlyFailures(sorted, m, id)
  {}

  lemma BrokenRuleIsNoted(s: Scenario, m: Merchant, at: int)
    requires !s.consent
    ensures CONTACT_WITHOUT_CONSENT in Unguarded(s, m, at)
  {
    hide OnlyQuiet, IsQuietHour;
    ConsentIsFirst(s, m);
    OrderRulesKeep(MerchantRules(s, m), s, at);
  }

  lemma ConsentIsFirst(s: Scenario, m: Merchant)
    requires !s.consent
    ensures CONTACT_WITHOUT_CONSENT in MerchantRules(s, m)
  {
    hide OnlyQuiet, IsQuietHour;
    var first := Noted([], true, CONTACT_WITHOUT_CONSENT);
    assert first[0] == CONTACT_WITHOUT_CONSENT;
  }

  lemma OrderRulesKeep(before: seq<Violation>, s: Scenario, at: int)
    requires CONTACT_WITHOUT_CONSENT in before
    ensures CONTACT_WITHOUT_CONSENT in OrderRules(before, s, at)
  {
    hide OnlyQuiet;
  }

  lemma SortKeepsMembers(violations: seq<Violation>, v: Violation)
    ensures v in SortViolations(violations) <==> v in violations
  {
    hide SortViolations, NameOrdered;
    SortOrders(violations);
    assert v in SortViolations(violations) <==> v in multiset(SortViolations(violations));
    assert v in violations <==> v in multiset(violations);
  }

  /** In every opened case without consent the ungated baseline contacts the customer all the same. */
  lemma UngatedViolates(s: Scenario, m: Merchant)
    requires !s.consent && FirstFailure(Accepted(s.events, m).0).Some?
    ensures RunCase(s, m, B1).executed && CONTACT_WITHOUT_CONSENT in RunCase(s, m, B1).violations
  {
    hide Accepted, FirstFailure, OnlyQuiet, SortViolations, Unguarded;
    var at := FirstFailure(Accepted(s.events, m).0).value;
    var found := UnsafeViolations(s, m, at, false);
    BrokenRuleIsNoted(s, m, at);
    SortKeepsMembers(Unguarded(s, m, at), CONTACT_WITHOUT_CONSENT);
    SortKeepsMembers(found + [MULTIPLE_COLLECTION_PATHS_CAPTURED], CONTACT_WITHOUT_CONSENT);
  }

  /** A hash under which nobody consents. */
  const Silent: Keyed := (_, _) => 0

  /** Such data exist: with that hash every one of the baseline's cases, for every seed and count, is a violation. */
  lemma {:induction false} UngatedBaselineFails(seed: int, cases: nat, n: nat)
    ensures HardViolations(RunPolicy(Silent, seed, cases, B1, n)) >= n
  {
    hide RunCase, CaseAt;
    if n > 0 {
      UngatedBaselineFails(seed, cases, n - 1);
      var (s, m) := CaseAt(Silent, seed, cases, n - 1);
      SilentViolates(seed, cases, n - 1);
      var before := RunPolicy(Silent, seed, cases, B1, n - 1);
      assert (before + [RunCase(s, m, B1)])[..|before|] == before;
    }
  }

  lemma SilentViolates(seed: int, cases: nat, index: nat)
    ensures var (s, m) := CaseAt(Silent, seed, cases, index);
      |RunCase(s, m, B1).violations| >= 1
  {
    hide RunCase, GenerateScenario, GenerateMerchant;
    var m := GenerateMerchant(Silent, seed, index % MerchantCount(cases));
    NobodyConsents(seed, index, m);
    GeneratedCaseOpens(Silent, seed, index, m);
    UngatedViolates(GenerateScenario(Silent, seed, index, m), m);
  }

  lemma NobodyConsents(seed: int, index: nat, m: Merchant)
    ensures !GenerateScenario(Silent, seed, index, m).consent
  {
    hide SortEvents, RawEvents, FlagsOf, ActionProbability, Numbered, CauseAt, NaturalProbability, Likely, Millionths;
  }
}
