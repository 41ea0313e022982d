/** The closed action catalog: money, probabilities, proposals and approvals. */
module Actions {
  import opened Outcomes
  import opened Text
  import opened Calendar
  import opened Json
  import opened Hashing

  datatype ActionType = Wait | CreateLink | NotifyLink | CancelLink | Escalate | Stop

  function ActionName(a: ActionType): string {
    match a
    case Wait => "wait"
    case CreateLink => "create_standard_payment_link"
    case NotifyLink => "notify_existing_link"
    case CancelLink => "cancel_payment_link"
    case Escalate => "escalate"
    case Stop => "stop"
  }

  predicate IsCollection(a: ActionType) { a.CreateLink? || a.NotifyLink? }

  predicate IsContact(a: ActionType) { a.NotifyLink? }

  predicate IsInternal(a: ActionType) { a.Wait? || a.Escalate? || a.Stop? }

  predicate IsExternal(a: ActionType) { IsCollection(a) || a.CancelLink? }

  /** A non-negative amount in a currency's smallest unit. */
  datatype Money = Money(minorUnits: int, currency: string) {
    predicate Valid() { minorUnits >= 0 && IsCurrency(currency) }

    function ToJson(): Json {
      Record(MoneyKeys(), [Str(currency), Int(minorUnits)])
    }
  }

  function MoneyKeys(): seq<string> {
    ["currency", "minor_units"]
  }

  /** An exact decimal in [0, 1]: units / 10^scale with no trailing zero. */
  datatype Probability = Probability(units: nat, scale: nat) {
    predicate Valid() {
      units <= Pow10(scale) && (scale > 0 ==> units % 10 != 0)
    }

    predicate Below(other: Probability) {
      units * Pow10(other.scale) < other.units * Pow10(scale)
    }

    function Render(): string {
      FixedPoint(units, scale)
    }

    /** The number it stands for. */
    function Worth(): real {
      units as real / Pow10(scale) as real
    }
  }

  /** The comparison without division is the comparison of the numbers. */
  lemma BelowIsWorthLess(a: Probability, b: Probability)
    ensures a.Below(b) <==> a.Worth() < b.Worth()
  {
    hide Pow10;
    CrossMultiplied(a.units as real, Pow10(a.scale) as real, b.units as real, Pow10(b.scale) as real);
    Cast(a.units, Pow10(b.scale));
    Cast(b.units, Pow10(a.scale));
  }

  lemma Cast(m: nat, n: nat)
    ensures (m * n) as real == m as real * n as real
  {}

  lemma CrossMultiplied(a: real, x: real, b: real, y: real)
    requires x > 0.0 && y > 0.0
    ensures a / x < b / y <==> a * y < b * x
  {
    var p, q := a / x, b / y;
    assert p * x == a && q * y == b;
    Reordered(p, x, y);
    Reordered(q, y, x);
    Scaled(p, q, x * y);
  }

  lemma Reordered(p: real, x: real, y: real)
    ensures p * x * y == p * (x * y) == p * (y * x)
  {}

  lemma Scaled(p: real, q: real, z: real)
    requires z > 0.0
    ensures p < q <==> p * z < q * z
  {}

  datatype ActionProposal = ActionProposal(
    proposalId: string,
    merchantId: string,
    caseId: string,
    decisionVersion: int,
    actionType: ActionType,
    createdAt: UtcTime,
    expiresAt: UtcTime,
    attemptOrdinal: int,
    amount: Option<Money>,
    paymentMethod: Option<string>,
    expectedValueMinor: Option<int>,
    modelConfidence: Option<Probability>,
    requiresApproval: bool,
    instrumentReference: Option<string>)
  {
    predicate Valid() {
      && IsIdentifier(proposalId) && IsIdentifier(merchantId) && IsIdentifier(caseId)
      && decisionVersion >= 1 && attemptOrdinal >= 1 && createdAt < expiresAt
      && (amount.Some? ==> amount.value.Valid())
      && (modelConfidence.Some? ==> modelConfidence.value.Valid())
      && (paymentMethod.Some? ==> IsPaymentMethod(paymentMethod.value))
      && (instrumentReference.Some? ==> IsIdentifier(instrumentReference.value))
      && (if IsCollection(actionType)
          then amount.Some? && amount.value.minorUnits > 0 && paymentMethod.Some?
          else amount.None? && paymentMethod.None?)
      && (instrumentReference.Some? <==> actionType == CancelLink)
    }

    /** The text an action key is taken over. */
    function KeyText(): string {
      Print(KeyJson())
    }

    function KeyJson(): Json {
      Record(ActionKeyKeys(),
        [Str(ActionName(actionType)), Int(attemptOrdinal), Str(caseId), Int(decisionVersion),
         Str(merchantId), Str("retrywise-action-key-v1")])
    }

    function ActionKey(): string {
      "act_" + Sha256Hex(KeyText())
    }

    /** The field values, in the order of ProposalKeys. */
    function Fields(): (v: seq<Json>)
      ensures |v| == 15
    {
      [Str(ActionKey()), Str(ActionName(actionType)), if amount.None? then Null else amount.value.ToJson(),
       Int(attemptOrdinal), Str(caseId), Str(FormatTimestamp(createdAt)), Int(decisionVersion),
       if expectedValueMinor.None? then Null else Int(expectedValueMinor.value),
       Str(FormatTimestamp(expiresAt)), OptionalText(instrumentReference), Str(merchantId),
       if modelConfidence.None? then Null else Str(modelConfidence.value.Render()),
       OptionalText(paymentMethod), Str(proposalId), Bool(requiresApproval)]
    }

    function ToJson(): Json {
      Record(ProposalKeys(), Fields())
    }

    function ProposalDigest(): Digest {
      Sha256Hex(Print(ToJson()))
    }
  }

  function OptionalText(t: Option<string>): Json {
    if t.None? then Null else Str(t.value)
  }

  function ActionKeyKeys(): seq<string> {
    ["action_type", "attempt_ordinal", "case_id", "decision_version", "merchant_id", "schema"]
  }

  function ProposalKeys(): (keys: seq<string>)
    ensures |keys| == 15
  {
    EarlyKeys() + MiddleKeys() + LateKeys()
  }

  function EarlyKeys(): seq<string> {
    ["action_key", "action_type", "amount", "attempt_ordinal", "case_id", "created_at", "decision_version"]
  }

  function MiddleKeys(): seq<string> {
    ["expected_value_minor", "expires_at", "instrument_reference", "merchant_id"]
  }

  function LateKeys(): seq<string> {
    ["model_confidence", "payment_method", "proposal_id", "requires_approval"]
  }

  datatype Approval = Approval(
    merchantId: string,
    caseId: string,
    actionKey: string,
    proposalDigest: string,
    decisionVersion: int,
    approvedAt: UtcTime,
    expiresAt: UtcTime,
    granted: bool)
}
