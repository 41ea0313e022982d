/**
 Which commands the encoder accepts: every bound command of ordinary size. So it
 also accepts some that the decoder refuses, though never one planned by the gate.
 */
module EncodableCommands {
  import opened Outcomes
  import opened Text
  import opened Calendar
  import opened Json
  import opened Hashing
  import opened Actions
  import opened Gate
  import PL = PaymentLinks
  import opened Executor
  import opened ProposalCodec
  import opened CommandCodec

  // ---- Text that is stored as it is ----

  /** Printable ASCII without quotes or backslashes: one byte a character, and nothing to escape. */
  predicate Simple(s: string) {
    forall c | c in s :: SimpleChar(c)
  }

  predicate SimpleChar(c: char) {
    ' ' <= c <= '~' && c != '"' && c != '\\'
  }

  lemma SimpleCharBytes(c: char)
    requires SimpleChar(c)
    ensures CharBytes(c) == 1 && EscapeChar(c) == [c]
  {}

  lemma SimpleRest(s: string)
    requires Simple(s) && s != ""
    ensures SimpleChar(s[0]) && Simple(s[1..])
  {
    assert s[0] in s && forall c | c in s[1..] :: c in s;
  }

  lemma {:induction false} SimpleBytes(s: string)
    requires Simple(s)
    ensures Bytes(s) == |s| && Escape(s) == s
  {
    hide Simple, SimpleChar, CharBytes, EscapeChar;
    if s != "" {
      SimpleRest(s);
      SimpleCharBytes(s[0]);
      SimpleBytes(s[1..]);
      assert s == [s[0]] + s[1..];
    }
  }

  lemma {:induction false} BytesJoin(a: string, b: string)
    ensures Bytes(a + b) == Bytes(a) + Bytes(b)
  {
    if a == "" {
      assert a + b == b;
    } else {
      BytesJoin(a[1..], b);
      assert (a + b)[1..] == a[1..] + b;
    }
  }

  lemma SimpleJoin(a: string, b: string)
    requires Simple(a) && Simple(b)
    ensures Simple(a + b)
  {}

  lemma IdentifierIsSimple(s: string)
    requires IsIdentifier(s)
    ensures Simple(s) && |s| <= 128
  {
    forall c | c in s ensures SimpleChar(c) {
      assert IsIdentifierChar(c);
    }
  }

  lemma DigestIsSimple(s: Digest)
    ensures Simple(s) && |s| == 64
  {
    forall c | c in s ensures SimpleChar(c) {
      assert IsHexDigit(c);
    }
  }

  lemma DigitsAreSimple(s: string)
    requires AllDigits(s)
    ensures Simple(s)
  {}

  // ---- Sizes ----

  /** The value passes the walk at this depth, and neither the walk nor its text counts more than `n`. */
  predicate Fits(j: Json, depth: nat, n: nat) {
    Walk(j, depth).Ok? && Walk(j, depth).value <= n && Bytes(Print(j)) <= n
  }

  lemma StrFits(s: string, depth: nat)
    requires Simple(s) && |s| <= 1000 && depth <= MAX_DEPTH
    ensures Fits(Str(s), depth, |s| + 2)
  {
    SimpleBytes(s);
    BytesJoin("\"" + s, "\"");
    BytesJoin("\"", s);
  }

  lemma IntText(i: int)
    requires MIN_64 <= i <= MAX_64
    ensures Simple(RenderInt(i)) && |RenderInt(i)| <= 20
  {
    hide RenderNat, Simple, Pow10;
    NineteenDigits();
    RenderNatWidth(if i < 0 then -i else i, 19);
    DigitsAreSimple(RenderNat(if i < 0 then -i else i));
    MinusIsSimple();
    if i < 0 { SimpleJoin("-", RenderNat(-i)); }
  }

  lemma IntFits(i: int, depth: nat)
    requires MIN_64 <= i <= MAX_64 && depth <= MAX_DEPTH
    ensures Fits(Int(i), depth, 20)
  {
    hide Bytes, RenderInt, Simple;
    IntText(i);
    SimpleBytes(RenderInt(i));
  }

  lemma MinusIsSimple()
    ensures Simple("-")
  {}

  lemma NineteenDigits()
    ensures Pow10(19) == 10_000_000_000_000_000_000
  {
    assert Pow10(6) == 1_000_000;
    assert Pow10(12) == 1_000_000_000_000;
    assert Pow10(18) == 1_000_000_000_000_000_000;
  }

  lemma SmallFits(depth: nat)
    requires depth <= MAX_DEPTH
    ensures Fits(Null, depth, 5) && Fits(Bool(true), depth, 5) && Fits(Bool(false), depth, 5) && Fits(Arr([]), depth, 5)
  {
    hide Bytes, Simple;
    WordBytes();
    assert Print(Arr([])) == "[]";
  }

  lemma WordBytes()
    ensures Bytes("null") == 4 && Bytes("true") == 4 && Bytes("false") == 5 && Bytes("[]") == 2
  {
    hide Bytes, Simple;
    WordsAreSimple();
    SimpleBytes("null");
    SimpleBytes("true");
    SimpleBytes("false");
    SimpleBytes("[]");
  }

  lemma WordsAreSimple()
    ensures Simple("null") && Simple("true") && Simple("false") && Simple("[]")
  {}

  lemma FitsMore(j: Json, depth: nat, n: nat, m: nat)
    requires Fits(j, depth, n) && n <= m
    ensures Fits(j, depth, m)
  {}

  /** Keys short enough that each costs its member at most 28 bytes besides the value. */
  predicate ShortKeys(keys: seq<string>) {
    forall i | 0 <= i < |keys| :: Simple(keys[i]) && |keys[i]| <= 24
  }

  function Sum(sizes: seq<nat>, n: nat): nat
    requires n <= |sizes|
  {
    if n == 0 then 0 else Sum(sizes, n - 1) + sizes[n - 1]
  }

  predicate AllFit(values: seq<Json>, sizes: seq<nat>, depth: nat) {
    |values| == |sizes| && forall i | 0 <= i < |values| :: Fits(values[i], depth, sizes[i])
  }

  lemma {:induction false} SumGrows(sizes: seq<nat>, n: nat, m: nat)
    requires n <= m <= |sizes|
    ensures Sum(sizes, n) <= Sum(sizes, m)
    decreases m - n
  {
    if n < m { SumGrows(sizes, n, m - 1); }
  }

  lemma {:induction false} WalkOfRecord(keys: seq<string>, values: seq<Json>, sizes: seq<nat>, depth: nat, n: nat)
    requires |keys| == |values| && ShortKeys(keys) && AllFit(values, sizes, depth + 1) && n <= |keys|
    requires 2 + 28 * |keys| + Sum(sizes, |sizes|) <= MAX_BYTES
    ensures var r := WalkFields(Record(keys, values).fields, n, depth);
      r.Ok? && r.value <= 2 + 28 * n + Sum(sizes, n)
    decreases n
  {
    hide Walk, Bytes, Print, Simple;
    if n > 0 {
      WalkOfRecord(keys, values, sizes, depth, n - 1);
      SimpleBytes(keys[n - 1]);
      SumGrows(sizes, n, |sizes|);
      var f := Record(keys, values).fields[n - 1];
      assert f == Member(keys[n - 1], values[n - 1]);
      assert Fits(values[n - 1], depth + 1, sizes[n - 1]);
    }
  }

  lemma MemberBytes(key: string, j: Json, n: nat)
    requires Simple(key) && |key| <= 24 && Bytes(Print(j)) <= n
    ensures Bytes(PrintString(key) + ":" + Print(j)) <= 27 + n
  {
    hide Print;
    SimpleBytes(key);
    BytesJoin("\"" + key, "\"");
    BytesJoin("\"", key);
    BytesJoin(PrintString(key), ":");
    BytesJoin(PrintString(key) + ":", Print(j));
  }

  lemma {:induction false} TextOfRecord(keys: seq<string>, values: seq<Json>, sizes: seq<nat>, depth: nat, n: nat)
    requires |keys| == |values| && ShortKeys(keys) && AllFit(values, sizes, depth) && n < |keys|
    ensures Bytes(PrintMembers(Record(keys, values).fields[n..])) <= 28 * (|keys| - n) + Sum(sizes, |sizes|) - Sum(sizes, n)
    decreases |keys| - n
  {
    hide Walk, Bytes, Print, Simple, PrintString;
    var fields := Record(keys, values).fields;
    var rest := fields[n..];
    assert rest[0] == fields[n] == Member(keys[n], values[n]);
    assert Fits(values[n], depth, sizes[n]);
    MemberBytes(keys[n], values[n], sizes[n]);
    var head := PrintString(keys[n]) + ":" + Print(values[n]);
    CommaBytes();
    if n + 1 == |keys| {
      BytesJoin(head, "}");
      assert Sum(sizes, n + 1) == Sum(sizes, n) + sizes[n];
    } else {
      TextOfRecord(keys, values, sizes, depth, n + 1);
      assert rest[1..] == fields[n + 1..];
      BytesJoin(",", PrintMembers(fields[n + 1..]));
      BytesJoin(head, "," + PrintMembers(fields[n + 1..]));
    }
  }

  lemma CommaBytes()
    ensures Bytes(",") == 1 && Bytes("}") == 1 && Bytes("{") == 1
  {
    SimpleBytes(",");
    SimpleBytes("}");
    SimpleBytes("{");
  }

  /** A record fits in what its values need and 28 bytes a member. */
  lemma RecordFits(keys: seq<string>, values: seq<Json>, sizes: seq<nat>, depth: nat)
    requires |keys| == |values| == |sizes| && keys != [] && ShortKeys(keys) && AllFit(values, sizes, depth + 1)
    requires depth <= MAX_DEPTH && 2 + 28 * |keys| + Sum(sizes, |sizes|) <= MAX_BYTES
    ensures Fits(Record(keys, values), depth, 2 + 28 * |keys| + Sum(sizes, |sizes|))
  {
    hide Bytes, PrintMembers, ShortKeys, AllFit, WalkFields;
    var fields := Record(keys, values).fields;
    WalkOfRecord(keys, values, sizes, depth, |keys|);
    TextOfRecord(keys, values, sizes, depth + 1, 0);
    assert fields[0..] == fields && fields != [];
    CommaBytes();
    BytesJoin("{", PrintMembers(fields));
    assert Print(Record(keys, values)) == "{" + PrintMembers(fields);
    assert Walk(Record(keys, values), depth) == WalkFields(fields, |keys|, depth);
  }

  lemma {:induction false} SumOfEqual(sizes: seq<nat>, n: nat, b: nat)
    requires n <= |sizes| && forall i | 0 <= i < |sizes| :: sizes[i] == b
    ensures Sum(sizes, n) == n * b
  {
    if n > 0 {
      SumOfEqual(sizes, n - 1, b);
      assert n * b == (n - 1) * b + b;
    }
  }

  /** A record of up to fifteen values that each fit in `b`. */
  lemma EvenRecordFits(keys: seq<string>, values: seq<Json>, b: nat, depth: nat)
    requires 1 <= |keys| == |values| <= 15 && ShortKeys(keys) && b <= 1000 && depth <= MAX_DEPTH
    requires forall i | 0 <= i < |values| :: Fits(values[i], depth + 1, b)
    ensures Fits(Record(keys, values), depth, 2 + |keys| * (28 + b))
  {
    hide Fits, ShortKeys, Sum;
    var sizes: seq<nat> := seq(|keys|, _ => b);
    SumOfEqual(sizes, |sizes|, b);
    Product(|keys|, b);
    RecordFits(keys, values, sizes, depth);
  }

  lemma Product(n: nat, b: nat)
    requires n <= 15 && b <= 1000
    ensures n * (28 + b) == 28 * n + n * b && n * b <= 15_000
  {}

  // ---- The parts of a command ----

  predicate Int64(i: int) { MIN_64 <= i <= MAX_64 }

  /** A short text, a 64-bit integer, or one of the small constants. */
  predicate Scalar(j: Json) {
    (j.Str? && Simple(j.s) && |j.s| <= 128) || (j.Int? && Int64(j.i)) || j.Null? || j.Bool? || j == Arr([])
  }

  lemma ScalarFits(j: Json, depth: nat)
    requires Scalar(j) && depth <= MAX_DEPTH
    ensures Fits(j, depth, 130)
  {
    hide Fits, Simple;
    SmallFits(depth);
    if j.Str? {
      StrFits(j.s, depth);
      FitsMore(j, depth, |j.s| + 2, 130);
    } else if j.Int? {
      IntFits(j.i, depth);
      FitsMore(j, depth, 20, 130);
    } else {
      FitsMore(j, depth, 5, 130);
    }
  }

  /** A record of scalars. */
  lemma ScalarsFit(keys: seq<string>, values: seq<Json>, depth: nat)
    requires 1 <= |keys| == |values| <= 15 && ShortKeys(keys) && depth < MAX_DEPTH
    requires forall j | j in values :: Scalar(j)
    ensures Fits(Record(keys, values), depth, 2 + |keys| * 158)
  {
    hide Fits, Scalar, ShortKeys;
    forall i | 0 <= i < |values| ensures Fits(values[i], depth + 1, 130) {
      assert values[i] in values;
      ScalarFits(values[i], depth + 1);
    }
    EvenRecordFits(keys, values, 130, depth);
  }

  lemma ShortPlanKeys()
    ensures ShortKeys(PlanKeys())
  {
    ShortEarlyPlanKeys();
    ShortLatePlanKeys();
  }

  lemma ShortEarlyPlanKeys()
    ensures ShortKeys(EarlyPlanKeys())
  {}

  lemma ShortLatePlanKeys()
    ensures ShortKeys(LatePlanKeys())
  {}

  lemma ShortProposalKeys()
    ensures ShortKeys(ProposalKeys())
  {
    hide Simple;
    ShortEarlyKeys();
    ShortMiddleKeys();
    ShortLateKeys();
  }

  lemma ShortEarlyKeys()
    ensures ShortKeys(EarlyKeys())
  {}

  lemma ShortMiddleKeys()
    ensures ShortKeys(MiddleKeys())
  {
    hide Simple;
    MiddleWordsA();
    MiddleWordsB();
  }

  lemma MiddleWordsA()
    ensures Simple("expected_value_minor") && Simple("expires_at")
  {}

  lemma MiddleWordsB()
    ensures Simple("instrument_reference") && Simple("merchant_id")
  {}

  lemma ShortLateKeys()
    ensures ShortKeys(LateKeys())
  {
    hide Simple;
    LateWordsA();
    LateWordsB();
  }

  lemma LateWordsA()
    ensures Simple("model_confidence") && Simple("payment_method")
  {}

  lemma LateWordsB()
    ensures Simple("proposal_id") && Simple("requires_approval")
  {}

  lemma ShortRequestKeys()
    ensures ShortKeys(RequestKeys()) && ShortKeys(NoteKeys()) && ShortKeys(MoneyKeys())
  {
    hide ShortKeys, RequestKeys;
    ShortOuterRequestKeys();
    ShortNoteKeys();
    ShortMoneyKeys();
  }

  lemma ShortOuterRequestKeys()
    ensures ShortKeys(RequestKeys())
  {}

  lemma ShortNoteKeys()
    ensures ShortKeys(NoteKeys())
  {}

  lemma ShortMoneyKeys()
    ensures ShortKeys(MoneyKeys())
  {}

  lemma ShortBindingKeys()
    ensures ShortKeys(BindingKeys())
  {
    hide Simple;
    BindingWordsA();
    BindingWordsB();
    BindingWordsC();
  }

  lemma BindingWordsA()
    ensures Simple("action_key") && Simple("executor_payload_sha256")
  {}

  lemma BindingWordsB()
    ensures Simple("prior_plan_sha256") && Simple("proposal_sha256")
  {}

  lemma BindingWordsC()
    ensures Simple("provider_request_sha256")
  {}

  lemma ShortCommandKeys()
    ensures ShortKeys(CommandKeys()) && ShortKeys(IntegrityKeys())
  {}

  lemma ShortEnvelopeKeys()
    ensures ShortKeys(EnvelopeKeys()) && ShortKeys(UnsignedKeys())
  {
    hide Simple;
    ShortSealedKeys();
    assert UnsignedKeys() == EnvelopeKeys()[..3] + EnvelopeKeys()[4..];
  }

  lemma ShortSealedKeys()
    ensures ShortKeys(EnvelopeKeys())
  {}

  lemma TimestampIsSimple(t: UtcTime)
    ensures Simple(FormatTimestamp(t)) && |FormatTimestamp(t)| == 27
  {
    hide FormatTimestamp;
    WrittenShape(t);
  }

  lemma ActionKeyIsSimple(p: ActionProposal)
    ensures Simple(p.ActionKey()) && |p.ActionKey()| == 68
  {
    hide Simple, ActionProposal.KeyText;
    DigestIsSimple(Sha256Hex(p.KeyText()));
    Prefixes();
    SimpleJoin("act_", Sha256Hex(p.KeyText()));
  }

  lemma Prefixes()
    ensures Simple("act_") && Simple("rtw_") && Simple("_") && Simple("case") && Simple(DESCRIPTION_PREFIX)
    ensures |DESCRIPTION_PREFIX| == 24
  {}

  lemma PlanIsScalar(d: GateDecision)
    requires d.Allowed() && IsIdentifier(d.caseId) && IsIdentifier(d.proposalId)
    requires Simple(d.actionKey) && |d.actionKey| == 68
    requires Simple(d.proposalDigest) && |d.proposalDigest| == 64 && Simple(d.policyVersion) && |d.policyVersion| <= 128
    requires Int64(d.aggregateVersion) && Int64(d.decisionVersion)
    ensures forall j | j in d.Fields() :: Scalar(j)
  {
    hide Simple, FormatTimestamp, IsIdentifier, ReasonName;
    IdentifierIsSimple(d.caseId);
    IdentifierIsSimple(d.proposalId);
    TimestampIsSimple(d.evaluatedAt);
    StagesAreSimple(d.stage);
    assert d.Fields()[9] == Arr([]);
  }

  lemma StagesAreSimple(s: Stage)
    ensures Simple(StageName(s)) && |StageName(s)| <= 128
  {}

  lemma MoneyFits(m: Money, depth: nat)
    requires m.Valid() && Int64(m.minorUnits) && depth < MAX_DEPTH
    ensures Fits(m.ToJson(), depth, 130)
  {
    hide Fits, Simple, ShortKeys;
    ShortRequestKeys();
    CurrencyIsSimple(m.currency);
    StrFits(m.currency, depth + 1);
    FitsMore(Str(m.currency), depth + 1, 5, 20);
    IntFits(m.minorUnits, depth + 1);
    EvenRecordFits(MoneyKeys(), [Str(m.currency), Int(m.minorUnits)], 20, depth);
    FitsMore(m.ToJson(), depth, 98, 130);
  }

  lemma CurrencyIsSimple(s: string)
    requires IsCurrency(s)
    ensures Simple(s) && |s| == 3
  {}

  /** Texts and numbers of ordinary size, beyond what the constructors bound. */
  predicate Ordinary(c: Command) {
    && Simple(c.plan.policyVersion) && |c.plan.policyVersion| <= 128 && Int64(c.plan.aggregateVersion)
    && Int64(c.proposal.decisionVersion) && Int64(c.proposal.attemptOrdinal)
    && (c.proposal.amount.Some? ==> Int64(c.proposal.amount.value.minorUnits)) && Int64(c.request.expireBy)
    && (c.proposal.expectedValueMinor.Some? ==> Int64(c.proposal.expectedValueMinor.value))
    && (c.proposal.modelConfidence.Some? ==> |c.proposal.modelConfidence.value.Render()| <= 128)
  }

  lemma ConfidenceIsSimple(p: Probability)
    ensures Simple(p.Render())
  {
    hide RenderNat, Padded, Quotient, Remainder, Pow10;
    var d := Pow10(p.scale);
    DigitsAreSimple(RenderNat(p.units));
    DigitsAreSimple(RenderNat(Quotient(p.units, d)));
    DigitsAreSimple(Padded(Remainder(p.units, d), p.scale));
  }

  lemma MethodIsSimple(s: string)
    requires IsPaymentMethod(s)
    ensures Simple(s) && |s| <= 32
  {}

  lemma CreateNameIsSimple()
    ensures Simple(ActionName(ActionType.CreateLink)) && |ActionName(ActionType.CreateLink)| <= 128
  {}

  lemma ProposalFieldsFit(c: Command, depth: nat)
    requires WellFormed(c) && Ordinary(c) && c.proposal.actionType == ActionType.CreateLink && depth < MAX_DEPTH
    ensures forall i | 0 <= i < 15 :: Fits(c.proposal.Fields()[i], depth, 130)
  {
    hide Fits, Simple, FormatTimestamp, IsIdentifier, IsPaymentMethod, ActionName, ActionProposal.ActionKey,
         PL.Request.Valid, Probability.Render, Money.ToJson, Money.Valid;
    var p := c.proposal;
    ActionKeyIsSimple(p);
    CreateNameIsSimple();
    MoneyFits(p.amount.value, depth);
    IdentifierIsSimple(p.caseId);
    IdentifierIsSimple(p.merchantId);
    IdentifierIsSimple(p.proposalId);
    TimestampIsSimple(p.createdAt);
    TimestampIsSimple(p.expiresAt);
    MethodIsSimple(p.paymentMethod.value);
    if p.modelConfidence.Some? { ConfidenceIsSimple(p.modelConfidence.value); }
    forall i | 0 <= i < 15 ensures Fits(p.Fields()[i], depth, 130) {
      if i != 2 { ScalarFits(p.Fields()[i], depth); }
    }
  }

  lemma ProposalFits(c: Command, depth: nat)
    requires WellFormed(c) && Ordinary(c) && c.proposal.actionType == ActionType.CreateLink && depth + 1 < MAX_DEPTH
    ensures Fits(c.proposal.ToJson(), depth, 2372)
  {
    hide Fits, WellFormed, Ordinary, ShortKeys, ActionProposal.Fields;
    ShortProposalKeys();
    ProposalFieldsFit(c, depth + 1);
    EvenRecordFits(ProposalKeys(), c.proposal.Fields(), 130, depth);
  }

  lemma PlanFits(c: Command, depth: nat)
    requires WellFormed(c) && CheckBinding(c).Ok? && Ordinary(c) && depth < MAX_DEPTH
    ensures Fits(c.plan.ToJson(), depth, 1740)
  {
    hide Fits, ShortKeys, Simple, GateDecision.Fields, ActionProposal.ActionKey, IsIdentifier, PL.Request.Valid, Scalar,
         ReferenceId;
    ShortPlanKeys();
    ActionKeyIsSimple(c.proposal);
    DigestIsSimple(c.proposal.ProposalDigest());
    PlanIsScalar(c.plan);
    ScalarsFit(PlanKeys(), c.plan.Fields(), depth);
  }

  lemma {:induction false} AlphanumericsAreSimple(s: string)
    ensures Simple(Alphanumerics(s))
  {
    if s != "" { AlphanumericsAreSimple(s[1..]); }
  }

  lemma ReferenceIsSimple(caseId: string, accountId: string)
    ensures Simple(ReferenceId(caseId, accountId)) && |ReferenceId(caseId, accountId)| <= 39
    ensures IsCleanText(ReferenceId(caseId, accountId), 40)
  {
    hide Simple, Alphanumerics, IsSpace;
    var slug, digest := Slug(caseId), ReferenceDigest(accountId, caseId);
    Prefixes();
    AlphanumericsAreSimple(caseId);
    SlugIsSimple(caseId);
    ReferenceTextIsSimple(digest);
    SimpleJoin("rtw_", slug);
    SimpleJoin("rtw_" + slug, "_");
    SimpleJoin("rtw_" + slug + "_", digest);
    var s := ReferenceId(caseId, accountId);
    assert s[0] == 'r' && s[|s| - 1] == digest[25];
    SimpleIsClean(s);
  }

  lemma SlugIsSimple(caseId: string)
    ensures Simple(Slug(caseId)) && 1 <= |Slug(caseId)| <= 8
  {
    hide Alphanumerics;
    Prefixes();
    AlphanumericsAreSimple(caseId);
    var text := Alphanumerics(caseId);
    assert |text| > 8 ==> forall c | c in text[..8] :: c in text;
  }

  lemma ReferenceTextIsSimple(s: ReferenceText)
    ensures Simple(s) && !IsSpace(s[25])
  {
    hide IsSpace;
    assert IsLower(s[25]) || IsDigit(s[25]);
    LetterIsNoSpace(s[25]);
  }

  lemma LetterIsNoSpace(c: char)
    requires IsLower(c) || IsDigit(c)
    ensures !IsSpace(c)
  {}

  lemma SimpleIsClean(s: string)
    requires Simple(s) && 1 <= |s| <= 40 && IsLower(s[0]) && !IsSpace(s[|s| - 1])
    ensures IsCleanText(s, 40)
  {
    hide IsSpace;
    LetterIsNoSpace(s[0]);
    forall i | 0 <= i < |s| ensures s[i] >= ' ' && s[i] != '\U{7f}' {
      assert s[i] in s;
    }
  }

  lemma RequestFits(c: Command, depth: nat)
    requires WellFormed(c) && CheckBinding(c).Ok? && RequestPrimitive(c.request).Ok? && Ordinary(c) && depth + 1 < MAX_DEPTH
    ensures Fits(RequestPrimitive(c.request).value, depth, 2078)
  {
    hide Fits, ShortKeys, Simple, IsIdentifier, IsCurrency, IsCleanText, Obscure, Money.Valid, ActionProposal.ActionKey,
         ReferenceId, ActionProposal.ProposalDigest;
    var r := c.request;
    ShortRequestKeys();
    IdentifierIsSimple(r.notes[0].text);
    IdentifierIsSimple(r.notes[1].text);
    ScalarsFit(NoteKeys(), [Str(r.notes[0].text), Str(r.notes[1].text)], depth + 1);
    CurrencyIsSimple(r.currency);
    ReferenceIsSimple(c.proposal.caseId, c.accountId);
    Prefixes();
    SimpleJoin(DESCRIPTION_PREFIX, r.notes[0].text);
    StrFits(r.description, depth + 1);
    FitsMore(Str(r.description), depth + 1, |r.description| + 2, 318);
    var values := [Int(r.amountMinor), Str(r.currency), Str(r.description), Int(r.expireBy), NotesOf(r.notes),
                   Str(r.referenceId)];
    forall i | 0 <= i < 6 ensures Fits(values[i], depth + 1, 318) {
      if i != 2 && i != 4 {
        ScalarFits(values[i], depth + 1);
        FitsMore(values[i], depth + 1, 130, 318);
      }
    }
    EvenRecordFits(RequestKeys(), values, 318, depth);
  }

  // ---- Whole commands ----

  lemma BindingsFit(c: Command, depth: nat)
    requires depth < MAX_DEPTH
    ensures Fits(Bindings(c), depth, 792)
  {
    hide Fits, ShortKeys, Simple, ActionProposal.ActionKey, Command.PayloadDigest, GateDecision.DecisionDigest,
         ActionProposal.ProposalDigest, Command.RequestDigest;
    ShortBindingKeys();
    ActionKeyIsSimple(c.proposal);
    DigestIsSimple(c.PayloadDigest());
    DigestIsSimple(c.plan.DecisionDigest());
    DigestIsSimple(c.proposal.ProposalDigest());
    DigestIsSimple(c.RequestDigest());
    ScalarsFit(BindingKeys(), [Str(c.proposal.ActionKey()), Str(c.PayloadDigest()), Str(c.plan.DecisionDigest()),
                               Str(c.proposal.ProposalDigest()), Str(c.RequestDigest())], depth);
  }

  lemma IntegrityFits(digest: Digest, depth: nat)
    requires depth < MAX_DEPTH
    ensures Fits(Integrity(digest), depth, 318)
  {
    hide Fits, ShortKeys, Simple;
    ShortCommandKeys();
    DigestIsSimple(digest);
    AlgorithmIsSimple();
    ScalarsFit(IntegrityKeys(), [Str("sha256"), Str(digest)], depth);
  }

  lemma AlgorithmIsSimple()
    ensures Simple("sha256") && |"sha256"| == 6
  {}

  lemma SumOfFour(a: nat, b: nat, c: nat, d: nat)
    ensures Sum([a, b, c, d], 4) == a + b + c + d
  {
    var s := [a, b, c, d];
    assert Sum(s, 1) == a;
    assert Sum(s, 2) == a + b;
    assert Sum(s, 3) == a + b + c;
  }

  lemma CommandFits(c: Command, depth: nat)
    requires WellFormed(c) && CheckBinding(c).Ok? && RequestPrimitive(c.request).Ok? && Ordinary(c) && depth <= 8
    ensures Fits(CommandJson(c, RequestPrimitive(c.request).value), depth, 6434)
  {
    hide Fits, ShortKeys, WellFormed, Ordinary, RequestPrimitive, Sum, ActionProposal.ToJson, GateDecision.ToJson;
    ShortCommandKeys();
    PlanFits(c, depth + 1);
    BoundIsCreate(c);
    ProposalFits(c, depth + 1);
    RequestFits(c, depth + 1);
    ScalarFits(Str(c.accountId), depth + 1);
    var values := [c.plan.ToJson(), c.proposal.ToJson(), Str(c.accountId), RequestPrimitive(c.request).value];
    var sizes: seq<nat> := [1740, 2372, 130, 2078];
    SumOfFour(1740, 2372, 130, 2078);
    forall i | 0 <= i < 4 ensures Fits(values[i], depth + 1, sizes[i]) {}
    RecordFits(CommandKeys(), values, sizes, depth);
  }

  lemma BoundIsCreate(c: Command)
    requires CheckBinding(c).Ok?
    ensures c.proposal.actionType == ActionType.CreateLink && Simple(c.accountId) && |c.accountId| <= 128
  {
    hide IsIdentifier, Simple, ActionProposal.ActionKey, ActionProposal.ProposalDigest, ReferenceId;
    IdentifierIsSimple(c.accountId);
  }

  lemma ConstantsFit(depth: nat)
    requires depth <= MAX_DEPTH
    ensures Fits(COMMAND_TYPE, depth, 130) && Fits(SCHEMA, depth, 130) && Fits(Int(1), depth, 20)
  {
    hide Fits, Simple;
    CommandTypeIsSimple();
    SchemaIsSimple();
    ScalarFits(COMMAND_TYPE, depth);
    ScalarFits(SCHEMA, depth);
    IntFits(1, depth);
  }

  lemma CommandTypeIsSimple()
    ensures Simple(COMMAND_TYPE.s) && |COMMAND_TYPE.s| <= 128
  {}

  lemma SchemaIsSimple()
    ensures Simple(SCHEMA.s) && |SCHEMA.s| <= 128
  {
    hide Simple;
    HalfSchemas();
    SimpleJoin("retrywise.create-standard-", "payment-link-command");
    assert SCHEMA.s == "retrywise.create-standard-" + "payment-link-command";
  }

  lemma HalfSchemas()
    ensures Simple("retrywise.create-standard-") && Simple("payment-link-command")
  {}

  lemma SumOfSix(a: nat, b: nat, c: nat, d: nat, e: nat, f: nat)
    ensures Sum([a, b, c, d, e], 5) == a + b + c + d + e
    ensures Sum([a, b, c, d, e, f], 6) == a + b + c + d + e + f
  {
    var s, r := [a, b, c, d, e], [a, b, c, d, e, f];
    assert Sum(s, 1) == a == Sum(r, 1);
    assert Sum(s, 2) == a + b == Sum(r, 2);
    assert Sum(s, 3) == a + b + c == Sum(r, 3);
    assert Sum(s, 4) == a + b + c + d == Sum(r, 4);
    assert Sum(r, 5) == a + b + c + d + e;
  }

  lemma UnsignedFits(bindings: Json, command: Json)
    requires Fits(bindings, 1, 792) && Fits(command, 1, 6434)
    ensures Fits(Unsigned(bindings, command), 0, 7648)
  {
    hide Fits, ShortKeys, Sum;
    ShortEnvelopeKeys();
    ConstantsFit(1);
    var values := [bindings, command, COMMAND_TYPE, SCHEMA, Int(1)];
    var sizes: seq<nat> := [792, 6434, 130, 130, 20];
    SumOfSix(792, 6434, 130, 130, 20, 0);
    forall i | 0 <= i < 5 ensures Fits(values[i], 1, sizes[i]) {}
    RecordFits(UnsignedKeys(), values, sizes, 0);
  }

  lemma EnvelopeFits(bindings: Json, command: Json, integrity: Json)
    requires Fits(bindings, 1, 792) && Fits(command, 1, 6434) && Fits(integrity, 1, 318)
    ensures Fits(Envelope(bindings, command, integrity), 0, 7994)
  {
    hide Fits, ShortKeys, Sum;
    ShortEnvelopeKeys();
    ConstantsFit(1);
    var values := [bindings, command, COMMAND_TYPE, integrity, SCHEMA, Int(1)];
    var sizes: seq<nat> := [792, 6434, 130, 318, 130, 20];
    SumOfSix(792, 6434, 130, 318, 130, 20);
    forall i | 0 <= i < 6 ensures Fits(values[i], 1, sizes[i]) {}
    RecordFits(EnvelopeKeys(), values, sizes, 0);
  }

  lemma FittingIsBounded(j: Json, n: nat)
    requires Fits(j, 0, n) && n <= MAX_BYTES
    ensures Bounded(j) == Ok(Print(j))
  {
    hide Walk, Bytes, Print;
  }

  /** Every bound command of ordinary size is encoded. */
  lemma OrdinaryIsEncodable(c: Command)
    requires WellFormed(c) && CheckBinding(c).Ok? && RequestPrimitive(c.request).Ok? && Ordinary(c)
    ensures Encode(c).Ok?
  {
    hide Fits, WellFormed, Ordinary, RequestPrimitive, CheckBinding, Bindings, CommandJson, Unsigned, Envelope, Integrity,
         Bounded, Print;
    var command := CommandJson(c, RequestPrimitive(c.request).value);
    CommandFits(c, 1);
    BindingsFit(c, 1);
    UnsignedFits(Bindings(c), command);
    FittingIsBounded(Unsigned(Bindings(c), command), 7648);
    var digest := Sha256Hex(Print(Unsigned(Bindings(c), command)));
    IntegrityFits(digest, 1);
    EnvelopeFits(Bindings(c), command, Integrity(digest));
    FittingIsBounded(Envelope(Bindings(c), command, Integrity(digest)), 7994);
  }

  // ---- Encoded and still refused ----

  /** The command with an empty policy version, and with a negative aggregate version. */
  function WithoutPolicy(c: Command): Command {
    c.(plan := c.plan.(policyVersion := ""))
  }

  function WithoutVersion(c: Command): Command {
    c.(plan := c.plan.(aggregateVersion := -1))
  }

  lemma PlanEditsKeep(c: Command)
    requires WellFormed(c) && CheckBinding(c).Ok? && Ordinary(c)
    ensures var d, e := WithoutPolicy(c), WithoutVersion(c);
      && WellFormed(d) && CheckBinding(d).Ok? && Ordinary(d) && !PlanSurvives(d)
      && WellFormed(e) && CheckBinding(e).Ok? && Ordinary(e) && !PlanSurvives(e)
  {
    hide ActionProposal.Valid, PL.Request.Valid, ActionProposal.ActionKey, ActionProposal.ProposalDigest, ReferenceId,
         Probability.Render;
  }

  /** Any ordinary command, its plan's policy version emptied or its version made negative, is encoded and never decoded. */
  lemma EncodedButRefused(c: Command)
    requires WellFormed(c) && CheckBinding(c).Ok? && RequestPrimitive(c.request).Ok? && Ordinary(c)
    ensures forall d | d == WithoutPolicy(c) || d == WithoutVersion(c) ::
              Encode(d).Ok? && Decode(Mapping(Encode(d).value)) == Err(SchemaFault)
  {
    hide WellFormed, CheckBinding, RequestPrimitive, Ordinary, Encode, Decode, PlanSurvives;
    PlanEditsKeep(c);
    OrdinaryIsEncodable(WithoutPolicy(c));
    OrdinaryIsEncodable(WithoutVersion(c));
    EncodeThenDecode(WithoutPolicy(c));
    EncodeThenDecode(WithoutVersion(c));
  }

  /** A plan made by the gate always survives the decoder: the policy and the context have checked both fields. */
  lemma GatePlansSurvive(stage: Stage, policy: GatePolicy, p: ActionProposal, context: GateContext,
                         plan: Option<GateDecision>, c: Command)
    requires policy.Valid() && c.plan == Decision(stage, policy, p, context, plan)
    requires WellFormed(c) && Encode(c).Ok?
    ensures Decode(Mapping(Encode(c).value)) == Ok(c) && Decode(Text(Print(Encode(c).value))) == Ok(c)
  {
    hide WellFormed, Encode, Decode, Print, Reasons, ActionProposal.ActionKey, ActionProposal.ProposalDigest;
    EncodeThenDecode(c);
  }

  // ---- A sample ----

  function SampleProposal(): ActionProposal {
    ActionProposal("p", "m", "c", 1, ActionType.CreateLink, 0, 1, 1, Some(Money(1, "INR")), Some("upi"), None, None, false,
                   None)
  }

  function SampleRequest(): PL.Request {
    PL.Request(1, "INR", ReferenceId("c", "a"), DESCRIPTION_PREFIX + "o", 1,
               [PL.Note("merchant_order_id", "o"), PL.Note("recovery_case_id", "c")], None)
  }

  /** A small command for which nothing is left open. */
  function Sample(): Command {
    var p := SampleProposal();
    Command(p, GateDecision(Policy, "v", "p", p.ActionKey(), p.ProposalDigest(), "c", 1, 0, 0, []), SampleRequest(), "a")
  }

  lemma LettersAreIdentifiers()
    ensures IsIdentifier("p") && IsIdentifier("m") && IsIdentifier("c") && IsIdentifier("a") && IsIdentifier("o")
    ensures IsPaymentMethod("upi") && IsCurrency("INR")
  {}

  lemma {:induction false} NoDigitsNoAccount(s: string)
    requires forall c | c in s :: !IsDigit(c)
    ensures !HasAccountNumber(s)
  {
    if s != "" {
      assert s[0] in s && forall c | c in s[1..] :: c in s;
      NoDigitsNoAccount(s[1..]);
    }
  }

  lemma SampleDescription()
    ensures var s := DESCRIPTION_PREFIX + "o"; Obscure(s) && IsCleanText(s, 2048)
  {
    hide IsSpace, HasAccountNumber;
    var s := DESCRIPTION_PREFIX + "o";
    DescriptionHasNoDigit();
    NoDigitsNoAccount(s);
    Prefixes();
    LastIsNoSpace();
    FirstIsNoSpace();
    LettersAreIdentifiers();
    IdentifierIsSimple("o");
    SimpleJoin(DESCRIPTION_PREFIX, "o");
    forall i | 0 <= i < |s| ensures s[i] >= ' ' && s[i] != '\U{7f}' {
      assert s[i] in s;
    }
  }

  lemma DescriptionHasNoDigit()
    ensures forall c | c in DESCRIPTION_PREFIX + "o" :: !IsDigit(c) && c != '@'
  {
    assert forall c :: c in DESCRIPTION_PREFIX + "o" <==> c in DESCRIPTION_PREFIX || c == 'o';
  }

  lemma LastIsNoSpace()
    ensures !IsSpace('o')
  {}

  lemma FirstIsNoSpace()
    ensures !IsSpace('R') && DESCRIPTION_PREFIX[0] == 'R'
  {}

  lemma SampleNotes()
    ensures var r := SampleRequest();
      && PL.AscendingNotes(r.notes)
      && forall i | 0 <= i < 2 :: IsCleanText(r.notes[i].key, 256) && IsCleanText(r.notes[i].text, 256)
  {
    hide Less, IsCleanText, ReferenceId, IsIdentifier;
    LessAt("merchant_order_id", "recovery_case_id", 0);
    NoteTextsAreClean();
  }

  lemma NoteTextsAreClean()
    ensures IsCleanText("merchant_order_id", 256) && IsCleanText("recovery_case_id", 256)
    ensures IsCleanText("o", 256) && IsCleanText("c", 256)
  {
    hide IsSpace;
    EdgesAreNoSpace();
    CleanLetters();
  }

  lemma EdgesAreNoSpace()
    ensures !IsSpace('m') && !IsSpace('d') && !IsSpace('r') && !IsSpace('o') && !IsSpace('c')
  {}

  lemma CleanLetters()
    ensures forall i | 0 <= i < |"merchant_order_id"| :: "merchant_order_id"[i] >= ' ' && "merchant_order_id"[i] != '\U{7f}'
    ensures forall i | 0 <= i < |"recovery_case_id"| :: "recovery_case_id"[i] >= ' ' && "recovery_case_id"[i] != '\U{7f}'
  {}

  /** The sample is bound, readable and ordinary. */
  lemma SampleIsOrdinary()
    ensures var c := Sample();
      WellFormed(c) && CheckBinding(c).Ok? && RequestPrimitive(c.request).Ok? && Ordinary(c)
  {
    hide IsIdentifier, IsCleanText, IsPaymentMethod, IsCurrency, Obscure, ReferenceId, ActionProposal.ActionKey,
         ActionProposal.ProposalDigest, PL.AscendingNotes;
    LettersAreIdentifiers();
    SampleDescription();
    SampleNotes();
    ReferenceIsSimple("c", "a");
    VersionIsSimple();
  }

  lemma VersionIsSimple()
    ensures Simple("v")
  {}

  /** So the encoder does accept commands that the decoder refuses. */
  lemma EncoderAcceptsMore()
    ensures var c := WithoutPolicy(Sample());
      WellFormed(c) && Encode(c).Ok? && Decode(Mapping(Encode(c).value)) == Err(SchemaFault)
    ensures var c := WithoutVersion(Sample());
      WellFormed(c) && Encode(c).Ok? && Decode(Mapping(Encode(c).value)) == Err(SchemaFault)
  {
    hide WellFormed, CheckBinding, RequestPrimitive, Ordinary, Encode, Decode, Sample, WithoutPolicy, WithoutVersion;
    SampleIsOrdinary();
    PlanEditsKeep(Sample());
    EncodedButRefused(Sample());
  }
}
