/** Reading proposals and plans back from their canonical JSON. */
module ProposalCodec {
  import opened Outcomes
  import opened Text
  import opened Calendar
  import opened Json
  import opened Hashing
  import opened Actions
  import opened Gate

  // ---- Scalars ----

  function ReadAction(j: Json): Option<ActionType> {
    if !j.Str? then None
    else if j.s == ActionName(Wait) then Some(Wait)
    else if j.s == ActionName(CreateLink) then Some(CreateLink)
    else if j.s == ActionName(NotifyLink) then Some(NotifyLink)
    else if j.s == ActionName(CancelLink) then Some(CancelLink)
    else if j.s == ActionName(Escalate) then Some(Escalate)
    else if j.s == ActionName(Stop) then Some(Stop)
    else None
  }

  function ReadTime(j: Json): Option<UtcTime> {
    if !j.Str? then None
    else
      var t := ParseTimestamp(j.s);
      if t.Some? && Representable(t.value) then Some(t.value) else None
  }

  function ReadOptionalText(j: Json): Option<Option<string>> {
    match j
    case Null => Some(None)
    case Str(s) => Some(Some(s))
    case _ => None
  }

  function ReadOptionalInt(j: Json): Option<Option<int>> {
    match j
    case Null => Some(None)
    case Int(i) => Some(Some(i))
    case _ => None
  }

  /** Digits before the point over digits after it, as units of the last place. */
  function Decimal(whole: string, fraction: string): Probability
    requires AllDigits(whole) && AllDigits(fraction)
  {
    Probability(NatValue(whole) * Pow10(|fraction|) + NatValue(fraction), |fraction|)
  }

  /** A decimal in [0, 1], accepted only in the one spelling it renders to. */
  function ParseProbability(s: string): Option<Probability> {
    var parts := match Cut(s, '.')
      case None => (s, "")
      case Some(p) => p;
    if AllDigits(parts.0) && AllDigits(parts.1) && parts.0 != "" then
      var p := Decimal(parts.0, parts.1);
      if p.Valid() && p.Render() == s then Some(p) else None
    else None
  }

  function ReadOptionalProbability(j: Json): Option<Option<Probability>> {
    match j
    case Null => Some(None)
    case Str(s) => (match ParseProbability(s) case None => None case Some(p) => Some(Some(p)))
    case _ => None
  }

  function ReadMoney(j: Json): Option<Money> {
    match ExactObject(j, MoneyKeys())
    case None => None
    case Some(v) =>
      if v[0].Str? && v[1].Int? && Money(v[1].i, v[0].s).Valid() then Some(Money(v[1].i, v[0].s)) else None
  }

  function ReadOptionalMoney(j: Json): Option<Option<Money>> {
    if j.Null? then Some(None)
    else match ReadMoney(j) case None => None case Some(m) => Some(Some(m))
  }

  lemma ActionInverse(a: ActionType)
    ensures ReadAction(Str(ActionName(a))) == Some(a)
  {
    assert |ActionName(Wait)| == 4 && |ActionName(CreateLink)| == 28 && |ActionName(NotifyLink)| == 20;
    assert |ActionName(CancelLink)| == 19 && |ActionName(Escalate)| == 8 && |ActionName(Stop)| == 4;
    assert ActionName(Wait)[0] == 'w' && ActionName(Stop)[0] == 's';
  }

  lemma TimeInverse(t: UtcTime)
    ensures ReadTime(Str(FormatTimestamp(t))) == Some(t)
  {
    hide ParseTimestamp, FormatTimestamp;
    FormatThenParse(t);
  }

  lemma DigitsHaveNoPoint(s: string)
    requires AllDigits(s)
    ensures '.' !in s
  {}

  lemma Recombine(units: nat, d: nat)
    requires d >= 1
    ensures Quotient(units, d) * d + Remainder(units, d) == units
  {}

  lemma ProbabilityInverse(p: Probability)
    requires p.Valid()
    ensures ParseProbability(p.Render()) == Some(p)
  {
    hide Cut, NatValue, RenderNat, Padded, Quotient, Remainder, Pow10;
    if p.scale == 0 {
      var whole := RenderNat(p.units);
      RenderNatValue(p.units);
      DigitsHaveNoPoint(whole);
      EmptyFraction();
      assert Cut(whole, '.').Some? ==> '.' in whole;
    } else {
      var d := Pow10(p.scale);
      var whole, fraction := RenderNat(Quotient(p.units, d)), Padded(Remainder(p.units, d), p.scale);
      DigitsHaveNoPoint(whole);
      CutAt(whole, '.', fraction);
      assert p.Render() == whole + ['.'] + fraction;
      RenderNatValue(Quotient(p.units, d));
      PaddedValue(Remainder(p.units, d), p.scale);
      Recombine(p.units, d);
    }
  }

  lemma EmptyFraction()
    ensures NatValue("") == 0 && Pow10(0) == 1
  {}

  lemma MoneyInverse(m: Money)
    requires m.Valid()
    ensures ReadMoney(m.ToJson()) == Some(m)
  {
    hide Money.Valid, Record, ExactObject;
    ExactRecord(MoneyKeys(), [Str(m.currency), Int(m.minorUnits)]);
  }

  // ---- Proposals ----

  /** The proposal the fields spell, if each field is of its type; `v` follows the order of ProposalKeys. */
  function FromFields(v: seq<Json>): Option<ActionProposal>
    requires |v| == 15
  {
    if !(v[3].Int? && v[4].Str? && v[6].Int? && v[10].Str? && v[13].Str? && v[14].Bool?) then None
    else
      match (ReadAction(v[1]), ReadOptionalMoney(v[2]), ReadTime(v[5]), ReadTime(v[8]))
      case (Some(a), Some(amount), Some(created), Some(expires)) =>
        (match (ReadOptionalInt(v[7]), ReadOptionalText(v[9]), ReadOptionalProbability(v[11]), ReadOptionalText(v[12]))
         case (Some(value), Some(instrument), Some(confidence), Some(paymentMethod)) =>
           Some(ActionProposal(v[13].s, v[10].s, v[4].s, v[6].i, a, created, expires, v[3].i, amount, paymentMethod,
                               value, confidence, v[14].b, instrument))
         case _ => None)
      case _ => None
  }

  /** A proposal is accepted only if it is valid and re-renders to exactly what was read. */
  function ReadProposal(j: Json): Option<ActionProposal> {
    match ExactObject(j, ProposalKeys())
    case None => None
    case Some(v) =>
      match FromFields(v)
      case None => None
      case Some(p) => if p.Valid() && p.ToJson() == j then Some(p) else None
  }

  lemma FieldsInverse(p: ActionProposal)
    requires p.Valid()
    ensures FromFields(p.Fields()) == Some(p)
  {
    hide ReadAction, ReadTime, FormatTimestamp, ReadMoney, Money.ToJson, ParseProbability, Probability.Render,
         ActionProposal.ActionKey, ActionName, IsIdentifier, IsPaymentMethod;
    ActionInverse(p.actionType);
    TimeInverse(p.createdAt);
    TimeInverse(p.expiresAt);
    if p.amount.Some? { MoneyInverse(p.amount.value); MoneyIsObject(p.amount.value); }
    if p.modelConfidence.Some? { ProbabilityInverse(p.modelConfidence.value); }
  }

  lemma MoneyIsObject(m: Money)
    ensures !m.ToJson().Null?
  {}

  /** Every valid proposal is read back from its own JSON. */
  lemma ProposalRoundTrip(p: ActionProposal)
    requires p.Valid()
    ensures ReadProposal(p.ToJson()) == Some(p)
  {
    hide ActionProposal.Valid, ActionProposal.Fields, FromFields, Record, ProposalKeys, ExactObject;
    ExactRecord(ProposalKeys(), p.Fields());
    FieldsInverse(p);
  }

  /** So the JSON of a proposal determines it, and equal texts mean equal proposals. */
  lemma ProposalTextInjective(p: ActionProposal, q: ActionProposal)
    requires p.Valid() && q.Valid() && Print(p.ToJson()) == Print(q.ToJson())
    ensures p == q
  {
    hide ActionProposal.Valid, ActionProposal.ToJson, ReadProposal, Canonical, Print;
    ProposalCanonical(p);
    ProposalCanonical(q);
    PrintInjective(p.ToJson(), q.ToJson());
    ProposalRoundTrip(p);
    ProposalRoundTrip(q);
  }

  // ---- Plans ----

  /** A durable plan: what a decoder demands of a decision beyond its type. */
  predicate Decodable(d: GateDecision) {
    && IsIdentifier(d.policyVersion) && IsIdentifier(d.proposalId) && IsIdentifier(d.caseId)
    && IsHexDigest(d.proposalDigest) && d.decisionVersion >= 1 && d.aggregateVersion >= 0
  }

  /**
   Reads an allowed plan. A plan with reasons is refused here; the source reads
   it first and refuses it right after, because an effect needs an allowed plan.
   */
  function ReadPlan(j: Json): Option<GateDecision> {
    match ExactObject(j, PlanKeys())
    case None => None
    case Some(v) =>
      match PlanFromFields(v)
      case None => None
      case Some(d) => if Decodable(d) && d.ToJson() == j then Some(d) else None
  }

  function PlanFromFields(v: seq<Json>): Option<GateDecision>
    requires |v| == 11
  {
    if !(v[0].Str? && v[1].Int? && v[2] == Bool(true) && v[3].Str? && v[4].Int? && v[6].Str? && v[7].Str? && v[8].Str?
         && v[9] == Arr([]) && v[10].Str? && (v[10].s == StageName(Policy) || v[10].s == StageName(Effect)))
       || ReadTime(v[5]).None?
    then None
    else Some(GateDecision(if v[10].s == StageName(Policy) then Policy else Effect, v[6].s, v[8].s, v[0].s, v[7].s, v[3].s,
                           v[4].i, v[1].i, ReadTime(v[5]).value, []))
  }

  lemma PlanFieldsInverse(d: GateDecision)
    requires d.Allowed()
    ensures PlanFromFields(d.Fields()) == Some(d)
  {
    hide ReadTime, FormatTimestamp, ReasonName;
    TimeInverse(d.evaluatedAt);
    assert StageName(Policy)[0] != StageName(Effect)[0];
  }

  /** An allowed plan is read back exactly when it is decodable. */
  lemma PlanRoundTrip(d: GateDecision)
    requires d.Allowed()
    ensures ReadPlan(d.ToJson()) == if Decodable(d) then Some(d) else None
  {
    hide Decodable, GateDecision.Fields, PlanFromFields, Record, PlanKeys, ExactObject;
    ExactRecord(PlanKeys(), d.Fields());
    PlanFieldsInverse(d);
  }

  // ---- Canonical forms ----

  lemma MoneyCanonical(m: Money)
    ensures Canonical(m.ToJson())
  {
    hide Record, Canonical;
    LessAt("currency", "minor_units", 0);
    CanonicalScalars(m.currency, m.minorUnits);
    RecordCanonical(MoneyKeys(), [Str(m.currency), Int(m.minorUnits)]);
  }

  lemma CanonicalScalars(s: string, i: int)
    ensures Canonical(Str(s)) && Canonical(Int(i)) && Canonical(Null) && Canonical(Bool(true)) && Canonical(Bool(false))
    ensures Canonical(Arr([]))
  {}

  predicate ScalarOrCanonical(j: Json) {
    j.Str? || j.Int? || j.Null? || j.Bool? || Canonical(j)
  }

  lemma ScalarIsCanonical(j: Json)
    requires ScalarOrCanonical(j)
    ensures Canonical(j)
  {}

  lemma EarlyKeysAscend()
    ensures AscendingKeys(EarlyKeys())
  {
    hide Less;
    LessAt("action_key", "action_type", 7);
    LessAt("action_type", "amount", 1);
    LessAt("amount", "attempt_ordinal", 1);
    LessAt("attempt_ordinal", "case_id", 0);
    LessAt("case_id", "created_at", 1);
    LessAt("created_at", "decision_version", 0);
  }

  lemma MiddleKeysAscend()
    ensures AscendingKeys(MiddleKeys())
  {
    hide Less;
    LessAt("expected_value_minor", "expires_at", 3);
    LessAt("expires_at", "instrument_reference", 0);
    LessAt("instrument_reference", "merchant_id", 0);
  }

  lemma LateKeysAscend()
    ensures AscendingKeys(LateKeys())
  {
    hide Less;
    LessAt("model_confidence", "payment_method", 0);
    LessAt("payment_method", "proposal_id", 1);
    LessAt("proposal_id", "requires_approval", 0);
  }

  lemma ProposalKeysAscend()
    ensures AscendingKeys(ProposalKeys())
  {
    hide Less, AscendingKeys;
    EarlyKeysAscend();
    MiddleKeysAscend();
    LateKeysAscend();
    LessAt("decision_version", "expected_value_minor", 0);
    LessAt("merchant_id", "model_confidence", 1);
    AscendingJoin(EarlyKeys(), MiddleKeys());
    AscendingJoin(EarlyKeys() + MiddleKeys(), LateKeys());
  }

  lemma EarlyPlanKeysAscend()
    ensures AscendingKeys(EarlyPlanKeys())
  {
    hide Less;
    LessAt("action_key", "aggregate_version", 1);
    LessAt("aggregate_version", "allowed", 1);
    LessAt("allowed", "case_id", 0);
    LessAt("case_id", "decision_version", 0);
    LessAt("decision_version", "evaluated_at", 0);
  }

  lemma LatePlanKeysAscend()
    ensures AscendingKeys(LatePlanKeys())
  {
    hide Less;
    LessAt("policy_version", "proposal_digest", 1);
    LessAt("proposal_digest", "proposal_id", 9);
    LessAt("proposal_id", "reasons", 0);
    LessAt("reasons", "stage", 0);
  }

  lemma PlanKeysAscend()
    ensures AscendingKeys(PlanKeys())
  {
    hide Less, AscendingKeys;
    EarlyPlanKeysAscend();
    LatePlanKeysAscend();
    LessAt("evaluated_at", "policy_version", 0);
    AscendingJoin(EarlyPlanKeys(), LatePlanKeys());
  }

  lemma ProposalCanonical(p: ActionProposal)
    ensures Canonical(p.ToJson())
  {
    hide Canonical, Record, AscendingKeys, ProposalKeys, FormatTimestamp, ActionName, ActionProposal.ActionKey,
         Money.ToJson;
    ProposalKeysAscend();
    if p.amount.Some? { MoneyCanonical(p.amount.value); }
    var v := p.Fields();
    forall j | j in v ensures Canonical(j) {
      ScalarIsCanonical(j);
    }
    RecordCanonical(ProposalKeys(), v);
  }

  lemma ActionKeyKeysAscend()
    ensures AscendingKeys(ActionKeyKeys())
  {
    hide Less;
    LessAt("action_type", "attempt_ordinal", 1);
    LessAt("attempt_ordinal", "case_id", 0);
    LessAt("case_id", "decision_version", 0);
    LessAt("decision_version", "merchant_id", 0);
    LessAt("merchant_id", "schema", 0);
  }

  lemma KeyCanonical(p: ActionProposal)
    ensures Canonical(p.KeyJson())
  {
    hide Canonical, Record, AscendingKeys, ActionName;
    ActionKeyKeysAscend();
    var v := [Str(ActionName(p.actionType)), Int(p.attemptOrdinal), Str(p.caseId), Int(p.decisionVersion),
              Str(p.merchantId), Str("retrywise-action-key-v1")];
    forall j | j in v ensures Canonical(j) {
      ScalarIsCanonical(j);
    }
    RecordCanonical(ActionKeyKeys(), v);
  }

  /** One merchant's case, decision, attempt and kind of action. */
  predicate SameAction(p: ActionProposal, q: ActionProposal) {
    && p.merchantId == q.merchantId && p.caseId == q.caseId && p.decisionVersion == q.decisionVersion
    && p.attemptOrdinal == q.attemptOrdinal && p.actionType == q.actionType
  }

  /** Proposals share an action key exactly when they are one action, unless their key texts collide. */
  lemma SameKeySameAction(p: ActionProposal, q: ActionProposal)
    ensures p.ActionKey() == q.ActionKey() <==> SameAction(p, q) || Collides(p.KeyText(), q.KeyText())
  {
    hide Canonical, Print, ActionProposal.KeyJson, ActionName, SameAction;
    KeyJsonNamesAction(p, q);
    if p.ActionKey() == q.ActionKey() {
      assert Sha256Hex(p.KeyText()) == p.ActionKey()[4..] && Sha256Hex(q.KeyText()) == q.ActionKey()[4..];
      if p.KeyText() == q.KeyText() {
        KeyCanonical(p);
        KeyCanonical(q);
        PrintInjective(p.KeyJson(), q.KeyJson());
      }
    }
  }

  lemma KeyJsonNamesAction(p: ActionProposal, q: ActionProposal)
    ensures p.KeyJson() == q.KeyJson() <==> SameAction(p, q)
  {
    hide ActionName, ExactObject;
    ExactRecord(ActionKeyKeys(), [Str(ActionName(p.actionType)), Int(p.attemptOrdinal), Str(p.caseId),
      Int(p.decisionVersion), Str(p.merchantId), Str("retrywise-action-key-v1")]);
    ExactRecord(ActionKeyKeys(), [Str(ActionName(q.actionType)), Int(q.attemptOrdinal), Str(q.caseId),
      Int(q.decisionVersion), Str(q.merchantId), Str("retrywise-action-key-v1")]);
    ActionInverse(p.actionType);
    ActionInverse(q.actionType);
  }

  lemma PlanCanonical(d: GateDecision)
    requires d.Allowed()
    ensures Canonical(d.ToJson())
  {
    hide Canonical, Record, AscendingKeys, PlanKeys, FormatTimestamp, ReasonName, StageName;
    PlanKeysAscend();
    CanonicalScalars("", 0);
    var v := d.Fields();
    assert v[9] == Arr([]);
    forall j | j in v ensures Canonical(j) {
      ScalarIsCanonical(j);
    }
    RecordCanonical(PlanKeys(), v);
  }
}
