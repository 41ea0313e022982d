/** The closed, checksummed wire format of the durable create command. */
module CommandCodec {
  import opened Outcomes
  import opened Text
  import opened Json
  import opened Hashing
  import opened Actions
  import opened Gate
  import opened PaymentLinks
  import opened Executor
  import opened ProposalCodec

  datatype CodecError = SizeFault | SchemaFault | IntegrityFault | BindingFault | PrivacyFault

  const MAX_BYTES := 16384
  const MAX_DEPTH := 12

  function Need(ok: bool, e: CodecError): Result<(), CodecError> {
    if ok then Ok(()) else Err(e)
  }

  // ---- Size and shape of any JSON value ----

  /** Bytes of a character in UTF-8. */
  function CharBytes(c: char): nat {
    if c < '\U{80}' then 1 else if c < '\U{800}' then 2 else if c < '\U{10000}' then 3 else 4
  }

  function Bytes(s: string): nat {
    if s == "" then 0 else CharBytes(s[0]) + Bytes(s[1..])
  }

  /** An estimate of the serialized size, refusing what cannot be stored or is too deep or too large. */
  function Walk(j: Json, depth: nat): Result<nat, CodecError>
    decreases j, 1
  {
    if depth > MAX_DEPTH then Err(SizeFault)
    else
      match j
      case Null => Ok(4)
      case Bool(_) => Ok(4)
      case Int(i) => if MIN_64 <= i <= MAX_64 then Ok(|RenderInt(i)|) else Err(SchemaFault)
      case Float(_) => Err(SchemaFault)
      case Str(s) => if Bytes(s) + 2 > MAX_BYTES then Err(SizeFault) else Ok(Bytes(s) + 2)
      case Arr(items) => WalkItems(items, |items|, depth)
      case Obj(fields) => WalkFields(fields, |fields|, depth)
  }

  /** The running total over the first `n` items. */
  function WalkItems(items: seq<Json>, n: nat, depth: nat): Result<nat, CodecError>
    requires n <= |items|
    decreases items, 0, n
  {
    if n == 0 then Ok(2)
    else
      match WalkItems(items, n - 1, depth)
      case Err(e) => Err(e)
      case Ok(total) =>
        match Walk(items[n - 1], depth + 1)
        case Err(e) => Err(e)
        case Ok(size) => if total + 1 + size > MAX_BYTES then Err(SizeFault) else Ok(total + 1 + size)
  }

  function WalkFields(fields: seq<Member>, n: nat, depth: nat): Result<nat, CodecError>
    requires n <= |fields|
    decreases fields, 0, n
  {
    if n == 0 then Ok(2)
    else
      match WalkFields(fields, n - 1, depth)
      case Err(e) => Err(e)
      case Ok(total) =>
        var key := Bytes(fields[n - 1].key);
        if key > MAX_BYTES then Err(SizeFault)
        else
          match Walk(fields[n - 1].value, depth + 1)
          case Err(e) => Err(e)
          case Ok(size) => if total + key + 3 + size > MAX_BYTES then Err(SizeFault) else Ok(total + key + 3 + size)
  }

  /** The walk as it runs, one running total per list or object. */
  method WalkJson(j: Json, depth: nat) returns (r: Result<nat, CodecError>)
    ensures r == Walk(j, depth)
    decreases j
  {
    if depth > MAX_DEPTH { return Err(SizeFault); }
    match j {
      case Null => return Ok(4);
      case Bool(_) => return Ok(4);
      case Int(i) => return if MIN_64 <= i <= MAX_64 then Ok(|RenderInt(i)|) else Err(SchemaFault);
      case Float(_) => return Err(SchemaFault);
      case Str(s) => return if Bytes(s) + 2 > MAX_BYTES then Err(SizeFault) else Ok(Bytes(s) + 2);
      case Arr(items) =>
        var total := 2;
        for n := 0 to |items|
          invariant WalkItems(items, n, depth) == Ok(total)
        {
          var size := WalkJson(items[n], depth + 1);
          if size.Err? || total + 1 + size.value > MAX_BYTES {
            WalkItemsStops(items, n + 1, |items|, depth);
            return if size.Err? then Err(size.error) else Err(SizeFault);
          }
          total := total + 1 + size.value;
        }
        return Ok(total);
      case Obj(fields) =>
        var total := 2;
        for n := 0 to |fields|
          invariant WalkFields(fields, n, depth) == Ok(total)
        {
          var key := Bytes(fields[n].key);
          if key > MAX_BYTES {
            WalkFieldsStops(fields, n + 1, |fields|, depth);
            return Err(SizeFault);
          }
          var size := WalkJson(fields[n].value, depth + 1);
          if size.Err? || total + key + 3 + size.value > MAX_BYTES {
            WalkFieldsStops(fields, n + 1, |fields|, depth);
            return if size.Err? then Err(size.error) else Err(SizeFault);
          }
          total := total + key + 3 + size.value;
        }
        return Ok(total);
    }
  }

  /** The first refusal decides. */
  lemma {:induction false} WalkItemsStops(items: seq<Json>, n: nat, m: nat, depth: nat)
    requires n <= m <= |items| && WalkItems(items, n, depth).Err?
    ensures WalkItems(items, m, depth) == WalkItems(items, n, depth)
  {
    if n < m { WalkItemsStops(items, n, m - 1, depth); }
  }

  lemma {:induction false} WalkFieldsStops(fields: seq<Member>, n: nat, m: nat, depth: nat)
    requires n <= m <= |fields| && WalkFields(fields, n, depth).Err?
    ensures WalkFields(fields, m, depth) == WalkFields(fields, n, depth)
  {
    if n < m { WalkFieldsStops(fields, n, m - 1, depth); }
  }

  /** Whatever the walk accepts holds only 64-bit integers. */
  lemma {:induction false} WalkedIsWithin64(j: Json, depth: nat)
    requires Walk(j, depth).Ok?
    ensures Within64(j)
    decreases j, 1
  {
    hide Bytes;
    match j
    case Arr(items) =>
      forall x | x in items ensures Within64(x) {
        var k :| 0 <= k < |items| && items[k] == x;
        ItemWalked(items, k, |items|, depth);
        WalkedIsWithin64(x, depth + 1);
      }
    case Obj(fields) =>
      forall f: Member | f in fields ensures Within64(f.value) {
        var k :| 0 <= k < |fields| && fields[k] == f;
        FieldWalked(fields, k, |fields|, depth);
        WalkedIsWithin64(f.value, depth + 1);
      }
    case _ =>
  }

  lemma {:induction false} ItemWalked(items: seq<Json>, k: nat, n: nat, depth: nat)
    requires k < n <= |items| && WalkItems(items, n, depth).Ok?
    ensures Walk(items[k], depth + 1).Ok?
    decreases n
  {
    if k < n - 1 { ItemWalked(items, k, n - 1, depth); }
  }

  lemma {:induction false} FieldWalked(fields: seq<Member>, k: nat, n: nat, depth: nat)
    requires k < n <= |fields| && WalkFields(fields, n, depth).Ok?
    ensures Walk(fields[k].value, depth + 1).Ok?
    decreases n
  {
    if k < n - 1 { FieldWalked(fields, k, n - 1, depth); }
  }

  /** The canonical text of a value that fits the storage contract. */
  function Bounded(j: Json): Result<string, CodecError> {
    var _ :- Walk(j, 0);
    var _ :- Need(Bytes(Print(j)) <= MAX_BYTES, SizeFault);
    Ok(Print(j))
  }

  // ---- Text and mappings into one dictionary ----

  /** What a decoder is handed: a stored mapping, already a dictionary, or serialized text. */
  datatype Payload = Mapping(j: Json) | Text(text: string)

  function Coerce(p: Payload): Result<Json, CodecError> {
    match p
    case Mapping(j) =>
      var canonical :- Bounded(j);
      (match Parse(canonical, Plain)
       case Err(_) => Err(SchemaFault)
       case Ok(copied) => if copied.Obj? then Ok(copied) else Err(SchemaFault))
    case Text(text) =>
      if Bytes(text) > MAX_BYTES then Err(SizeFault)
      else
        match Parse(text, Strict)
        case Err(_) => Err(SchemaFault)
        case Ok(parsed) =>
          var _ :- Need(parsed.Obj?, SchemaFault);
          var canonical :- Bounded(parsed);
          if canonical == text then Ok(parsed) else Err(SchemaFault)
  }

  // ---- The provider request ----

  const DESCRIPTION_PREFIX := "Retry payment for order "

  /** A maximal run of ten to nineteen digits reads like a phone or account number. */
  predicate HasAccountNumber(s: string)
    decreases |s|
  {
    if s == "" then false
    else if IsDigit(s[0]) then
      var r := DigitRun(s);
      assert |r.0| >= 1;
      10 <= |r.0| <= 19 || HasAccountNumber(r.1)
    else HasAccountNumber(s[1..])
  }

  predicate Obscure(s: string) {
    '@' !in s && !HasAccountNumber(s)
  }

  function NoteKeys(): seq<string> { ["merchant_order_id", "recovery_case_id"] }

  function RequestKeys(): seq<string> {
    ["amount_minor", "currency", "description", "expire_by_epoch", "notes", "reference_id"]
  }

  predicate ControllerKey(key: string) {
    key == NoteKeys()[0] || key == NoteKeys()[1]
  }

  /** Notes are exactly the two controller identifiers. */
  function CheckNotes(notes: seq<Note>): Result<(), CodecError> {
    var _ :- Need(forall i | 0 <= i < |notes| :: ControllerKey(notes[i].key), PrivacyFault);
    var _ :- Need(|notes| == 2 && notes[0].key == NoteKeys()[0] && notes[1].key == NoteKeys()[1], SchemaFault);
    Need(IsIdentifier(notes[0].text) && IsIdentifier(notes[1].text), PrivacyFault)
  }

  function CheckDescription(description: string, orderId: string): Result<(), CodecError> {
    Need(Obscure(description) && description == DESCRIPTION_PREFIX + orderId, PrivacyFault)
  }

  function RequestPrimitive(r: Request): Result<Json, CodecError> {
    var _ :- Need(r.customer.None? && Obscure(r.description), PrivacyFault);
    var _ :- CheckNotes(r.notes);
    var _ :- CheckDescription(r.description, r.notes[0].text);
    Ok(RequestJson(r))
  }

  function RequestJson(r: Request): Json
    requires |r.notes| == 2
  {
    Record(RequestKeys(), [Int(r.amountMinor), Str(r.currency), Str(r.description), Int(r.expireBy),
                           NotesOf(r.notes), Str(r.referenceId)])
  }

  function NotesOf(notes: seq<Note>): Json
    requires |notes| == 2
  {
    Record(NoteKeys(), [Str(notes[0].text), Str(notes[1].text)])
  }

  function ReadNotes(j: Json): Result<seq<Note>, CodecError> {
    if !j.Obj? then Err(SchemaFault)
    else if exists i | 0 <= i < |j.fields| :: !ControllerKey(j.fields[i].key) then Err(PrivacyFault)
    else
      match ExactObject(j, NoteKeys())
      case None => Err(SchemaFault)
      case Some(v) =>
        var _ :- Need(v[0].Str? && v[1].Str?, SchemaFault);
        var notes := [Note(NoteKeys()[0], v[0].s), Note(NoteKeys()[1], v[1].s)];
        var _ :- CheckNotes(notes);
        Ok(notes)
  }

  function ReadRequest(j: Json): Result<Request, CodecError> {
    match ExactObject(j, RequestKeys())
    case None => Err(SchemaFault)
    case Some(v) =>
      var _ :- Need(v[2].Str?, SchemaFault);
      var _ :- Need(Obscure(v[2].s), PrivacyFault);
      var notes :- ReadNotes(v[4]);
      var _ :- Need(|notes| == 2, SchemaFault);
      var _ :- CheckDescription(v[2].s, notes[0].text);
      var _ :- Need(v[0].Int? && v[1].Str? && v[3].Int? && v[5].Str?, SchemaFault);
      var r := Request(v[0].i, v[1].s, v[5].s, v[2].s, v[3].i, notes, None);
      if r.Valid() then Ok(r) else Err(SchemaFault)
  }

  /** A request that can be encoded is read back from its primitive. */
  lemma RequestRoundTrip(r: Request)
    requires r.Valid() && RequestPrimitive(r).Ok?
    ensures ReadRequest(RequestPrimitive(r).value) == Ok(r)
  {
    hide Request.Valid, Obscure, IsIdentifier, Record, ExactObject, NotesOf, ReadNotes, CheckNotes, CheckDescription;
    NotesRoundTrip(r.notes);
    ExactRecord(RequestKeys(), [Int(r.amountMinor), Str(r.currency), Str(r.description), Int(r.expireBy),
                                NotesOf(r.notes), Str(r.referenceId)]);
  }

  lemma NotesRoundTrip(notes: seq<Note>)
    requires CheckNotes(notes).Ok?
    ensures |notes| == 2 && ReadNotes(NotesOf(notes)) == Ok(notes)
  {
    hide IsIdentifier, ExactObject;
    var values := [Str(notes[0].text), Str(notes[1].text)];
    ExactRecord(NoteKeys(), values);
    assert notes == [Note(NoteKeys()[0], notes[0].text), Note(NoteKeys()[1], notes[1].text)];
  }

  // ---- The envelope ----

  function Fillers(): (s: string)
    ensures |s| == 26 && forall i | 0 <= i < 26 :: IsLower(s[i]) || IsDigit(s[i])
  {
    seq(26, _ => 'a')
  }

  /** Sixteen bytes in lower-case base 32, without padding. */
  type ReferenceText = s: string | |s| == 26 && forall i | 0 <= i < 26 :: IsLower(s[i]) || IsDigit(s[i]) witness Fillers()

  /** The first half of the SHA-256 of the account and the case, as text; nothing else is assumed about it. */
  const ReferenceDigest: (string, string) -> ReferenceText

  function LowerChar(c: char): char {
    if IsUpper(c) then (c as int + 32) as char else c
  }

  /** The letters and digits of an ASCII text, in lower case. */
  function Alphanumerics(s: string): string {
    if s == "" then ""
    else (if IsLower(LowerChar(s[0])) || IsDigit(s[0]) then [LowerChar(s[0])] else []) + Alphanumerics(s[1..])
  }

  function Slug(caseId: string): string {
    var text := Alphanumerics(caseId);
    if text == "" then "case" else if |text| <= 8 then text else text[..8]
  }

  /** The provider reference derived from the case and the account, both of them identifiers. */
  function ReferenceId(caseId: string, accountId: string): string {
    "rtw_" + Slug(caseId) + "_" + ReferenceDigest(accountId, caseId)
  }

  function CheckBinding(c: Command): Result<(), CodecError> {
    var p, d, r := c.proposal, c.plan, c.request;
    Need(&& IsIdentifier(c.accountId) && p.actionType.CreateLink? && d.stage.Policy? && d.Allowed()
         && d.proposalId == p.proposalId && d.actionKey == p.ActionKey() && d.proposalDigest == p.ProposalDigest()
         && d.caseId == p.caseId && d.decisionVersion == p.decisionVersion
         && p.amount == Some(Money(r.amountMinor, r.currency))
         && r.referenceId == ReferenceId(p.caseId, c.accountId)
         && |r.notes| == 2 && r.notes[1].text == p.caseId, BindingFault)
  }

  function BindingKeys(): seq<string> {
    ["action_key", "executor_payload_sha256", "prior_plan_sha256", "proposal_sha256", "provider_request_sha256"]
  }

  function Bindings(c: Command): Json {
    Record(BindingKeys(), [Str(c.proposal.ActionKey()), Str(c.PayloadDigest()), Str(c.plan.DecisionDigest()),
                           Str(c.proposal.ProposalDigest()), Str(c.RequestDigest())])
  }

  function CommandKeys(): seq<string> { ["prior_plan", "proposal", "provider_account_id", "request"] }

  function UnsignedKeys(): seq<string> { ["bindings", "command", "command_type", "schema", "version"] }

  function EnvelopeKeys(): seq<string> {
    ["bindings", "command", "command_type", "integrity", "schema", "version"]
  }

  function IntegrityKeys(): seq<string> { ["algorithm", "digest"] }

  const COMMAND_TYPE := Str("CREATE_STANDARD_PAYMENT_LINK")
  const SCHEMA := Str("retrywise.create-standard-payment-link-command")

  function CommandJson(c: Command, request: Json): Json {
    Record(CommandKeys(), [c.plan.ToJson(), c.proposal.ToJson(), Str(c.accountId), request])
  }

  function Unsigned(bindings: Json, command: Json): Json {
    Record(UnsignedKeys(), [bindings, command, COMMAND_TYPE, SCHEMA, Int(1)])
  }

  function Integrity(digest: string): Json {
    Record(IntegrityKeys(), [Str("sha256"), Str(digest)])
  }

  function Envelope(bindings: Json, command: Json, integrity: Json): Json {
    Record(EnvelopeKeys(), [bindings, command, COMMAND_TYPE, integrity, SCHEMA, Int(1)])
  }

  /** The closed envelope of a command, or why it may not be stored. */
  function Encode(c: Command): Result<Json, CodecError> {
    var request :- RequestPrimitive(c.request);
    var _ :- CheckBinding(c);
    var command := CommandJson(c, request);
    var signed :- Bounded(Unsigned(Bindings(c), command));
    var envelope := Envelope(Bindings(c), command, Integrity(Sha256Hex(signed)));
    var _ :- Bounded(envelope);
    Ok(envelope)
  }

  /** Its byte-for-byte canonical text. */
  function EncodeText(c: Command): Result<string, CodecError> {
    var j :- Encode(c);
    Bounded(j)
  }

  function Decode(p: Payload): Result<Command, CodecError> {
    var envelope :- Coerce(p);
    match ExactObject(envelope, EnvelopeKeys())
    case None => Err(SchemaFault)
    case Some(v) => DecodeEnvelope(envelope, v)
  }

  function DecodeEnvelope(envelope: Json, v: seq<Json>): Result<Command, CodecError>
    requires |v| == 6
  {
    var _ :- Need(v[4] == SCHEMA && v[5] == Int(1) && v[2] == COMMAND_TYPE, SchemaFault);
    var _ :- CheckIntegrity(v[3], Unsigned(v[0], v[1]));
    DecodeBody(envelope, v[0], v[1])
  }

  /** The embedded checksum is the digest of the envelope without it. */
  function CheckIntegrity(integrity: Json, unsigned: Json): Result<(), CodecError> {
    match ExactObject(integrity, IntegrityKeys())
    case None => Err(SchemaFault)
    case Some(v) =>
      var _ :- Need(v[0] == Str("sha256") && v[1].Str? && IsHexDigest(v[1].s), SchemaFault);
      var signed :- Bounded(unsigned);
      Need(v[1].s == Sha256Hex(signed), IntegrityFault)
  }

  /** The command, accepted only if its bindings and its whole re-encoding are what was read. */
  function DecodeBody(envelope: Json, bindings: Json, command: Json): Result<Command, CodecError> {
    var c :- DecodeCommand(command);
    var _ :- CheckBinding(c);
    var _ :- Need(bindings == Bindings(c), IntegrityFault);
    var rebuilt :- Encode(c);
    if Print(envelope) == Print(rebuilt) then Ok(c) else Err(IntegrityFault)
  }

  function DecodeCommand(j: Json): Result<Command, CodecError> {
    match ExactObject(j, CommandKeys())
    case None => Err(SchemaFault)
    case Some(v) =>
      match (ReadProposal(v[1]), ReadPlan(v[0]))
      case (Some(proposal), Some(plan)) =>
        var request :- ReadRequest(v[3]);
        if v[2].Str? && IsCleanText(v[2].s, 128) then Ok(Command(proposal, plan, request, v[2].s)) else Err(SchemaFault)
      case _ => Err(SchemaFault)
  }

  // ---- Round trips ----

  /** What is decoded re-encodes to exactly what was read: no two texts decode to one command. */
  lemma DecodeThenEncode(text: string, c: Command)
    requires Decode(Text(text)) == Ok(c)
    ensures EncodeText(c) == Ok(text)
  {
    hide Bytes, Parse, Print, DecodeCommand, CheckBinding, RequestPrimitive, Envelope, Unsigned, Bindings, CommandJson,
         Walk, ExactObject, CheckIntegrity;
  }

  /** A stored mapping decodes only to the command whose envelope has the mapping's canonical text. */
  lemma DecodeMappingThenEncode(j: Json, c: Command)
    requires Canonical(j) && Decode(Mapping(j)) == Ok(c)
    ensures Encode(c).Ok? && Print(Encode(c).value) == Print(j)
  {
    hide Bytes, Parse, Print, Canonical, DecodeCommand, CheckBinding, RequestPrimitive, Envelope, Unsigned, Bindings,
         CommandJson, Walk, ExactObject, CheckIntegrity;
    ParsePrint(j, Plain);
  }

  /** A command as its constructors admit it. */
  predicate WellFormed(c: Command) {
    c.proposal.Valid() && c.request.Valid()
  }

  /** The decoder checks more of the plan than the encoder does. */
  predicate PlanSurvives(c: Command) {
    IsIdentifier(c.plan.policyVersion) && c.plan.aggregateVersion >= 0
  }

  lemma BoundPlanDecodable(c: Command)
    requires WellFormed(c) && CheckBinding(c).Ok?
    ensures Decodable(c.plan) <==> PlanSurvives(c)
    ensures c.plan.Allowed() && IsCleanText(c.accountId, 128)
  {
    hide Request.Valid, ActionProposal.ActionKey;
    IdentifierIsClean(c.accountId);
  }

  lemma IdentifierIsClean(s: string)
    requires IsIdentifier(s)
    ensures IsCleanText(s, 128)
  {
    assert IsIdentifierChar(s[|s| - 1]);
    forall i | 0 <= i < |s| ensures s[i] >= ' ' && s[i] != '\U{7f}' {
      assert IsIdentifierChar(s[i]);
    }
  }

  lemma CommandRoundTrip(c: Command)
    requires WellFormed(c) && RequestPrimitive(c.request).Ok? && CheckBinding(c).Ok?
    ensures DecodeCommand(CommandJson(c, RequestPrimitive(c.request).value))
         == if PlanSurvives(c) then Ok(c) else Err(SchemaFault)
  {
    hide ActionProposal.ToJson, GateDecision.ToJson, ReadProposal, ReadPlan, ReadRequest, RequestPrimitive, CheckBinding,
         ActionProposal.Valid, Request.Valid, Record, ExactObject, IsCleanText, Decodable, PlanSurvives;
    BoundPlanDecodable(c);
    ProposalRoundTrip(c.proposal);
    PlanRoundTrip(c.plan);
    RequestRoundTrip(c.request);
    ExactRecord(CommandKeys(), [c.plan.ToJson(), c.proposal.ToJson(), Str(c.accountId),
                                RequestPrimitive(c.request).value]);
  }

  lemma IntegrityHolds(unsigned: Json, digest: Digest)
    requires Bounded(unsigned).Ok? && digest == Sha256Hex(Bounded(unsigned).value)
    ensures CheckIntegrity(Integrity(digest), unsigned) == Ok(())
  {
    hide Bounded, Record, ExactObject;
    ExactRecord(IntegrityKeys(), [Str("sha256"), Str(digest)]);
  }

  lemma EnvelopeRoundTrip(c: Command)
    requires WellFormed(c) && Encode(c).Ok?
    ensures var j := Encode(c).value;
      && ExactObject(j, EnvelopeKeys()).Some?
      && DecodeEnvelope(j, ExactObject(j, EnvelopeKeys()).value) == if PlanSurvives(c) then Ok(c) else Err(SchemaFault)
  {
    hide WellFormed, RequestPrimitive, CheckBinding, Bindings, CommandJson, Unsigned, Bounded, DecodeCommand, Print,
         Record, ExactObject, PlanSurvives, CheckIntegrity;
    var command := CommandJson(c, RequestPrimitive(c.request).value);
    var digest := Sha256Hex(Bounded(Unsigned(Bindings(c), command)).value);
    CommandRoundTrip(c);
    IntegrityHolds(Unsigned(Bindings(c), command), digest);
    ExactRecord(EnvelopeKeys(), [Bindings(c), command, COMMAND_TYPE, Integrity(digest), SCHEMA, Int(1)]);
  }

  // ---- The envelope is canonical ----

  lemma RequestCanonical(r: Request)
    requires |r.notes| == 2
    ensures Canonical(RequestJson(r))
  {
    hide Canonical, Record, Less;
    LessAt("merchant_order_id", "recovery_case_id", 0);
    var texts := [Str(r.notes[0].text), Str(r.notes[1].text)];
    forall j | j in texts ensures Canonical(j) { ScalarIsCanonical(j); }
    RecordCanonical(NoteKeys(), texts);
    RequestKeysAscend();
    var v := [Int(r.amountMinor), Str(r.currency), Str(r.description), Int(r.expireBy), NotesOf(r.notes),
              Str(r.referenceId)];
    forall j | j in v ensures Canonical(j) { ScalarIsCanonical(j); }
    RecordCanonical(RequestKeys(), v);
  }

  lemma RequestKeysAscend()
    ensures AscendingKeys(RequestKeys())
  {
    hide Less;
    LessAt("amount_minor", "currency", 0);
    LessAt("currency", "description", 0);
    LessAt("description", "expire_by_epoch", 0);
    LessAt("expire_by_epoch", "notes", 0);
    LessAt("notes", "reference_id", 0);
  }

  lemma BindingsCanonical(c: Command)
    ensures Canonical(Bindings(c))
  {
    hide Canonical, Record, Less, ActionProposal.ActionKey, Command.PayloadDigest, GateDecision.DecisionDigest,
         ActionProposal.ProposalDigest, Command.RequestDigest;
    LessAt("action_key", "executor_payload_sha256", 0);
    LessAt("executor_payload_sha256", "prior_plan_sha256", 0);
    LessAt("prior_plan_sha256", "proposal_sha256", 2);
    LessAt("proposal_sha256", "provider_request_sha256", 3);
    var v := [Str(c.proposal.ActionKey()), Str(c.PayloadDigest()), Str(c.plan.DecisionDigest()),
              Str(c.proposal.ProposalDigest()), Str(c.RequestDigest())];
    forall j | j in v ensures Canonical(j) { ScalarIsCanonical(j); }
    RecordCanonical(BindingKeys(), v);
  }

  lemma CommandCanonical(c: Command, request: Json)
    requires c.plan.Allowed() && Canonical(request)
    ensures Canonical(CommandJson(c, request))
  {
    hide Canonical, Record, Less, ActionProposal.ToJson, GateDecision.ToJson;
    LessAt("prior_plan", "proposal", 2);
    LessAt("proposal", "provider_account_id", 3);
    LessAt("provider_account_id", "request", 0);
    PlanCanonical(c.plan);
    ProposalCanonical(c.proposal);
    var v := [c.plan.ToJson(), c.proposal.ToJson(), Str(c.accountId), request];
    forall j | j in v ensures Canonical(j) { ScalarIsCanonical(j); }
    RecordCanonical(CommandKeys(), v);
  }

  lemma IntegrityCanonical(digest: string)
    ensures Canonical(Integrity(digest))
  {
    hide Canonical, Record, Less;
    LessAt("algorithm", "digest", 0);
    var v := [Str("sha256"), Str(digest)];
    forall j | j in v ensures Canonical(j) { ScalarIsCanonical(j); }
    RecordCanonical(IntegrityKeys(), v);
  }

  lemma EnvelopeKeysAscend()
    ensures AscendingKeys(EnvelopeKeys())
  {
    hide Less;
    LessAt("bindings", "command", 0);
    LessAt("command", "command_type", 7);
    LessAt("command_type", "integrity", 0);
    LessAt("integrity", "schema", 0);
    LessAt("schema", "version", 0);
  }

  lemma EnvelopeCanonical(bindings: Json, command: Json, integrity: Json)
    requires Canonical(bindings) && Canonical(command) && Canonical(integrity)
    ensures Canonical(Envelope(bindings, command, integrity))
  {
    hide Canonical, Record, Less;
    EnvelopeKeysAscend();
    var v := [bindings, command, COMMAND_TYPE, integrity, SCHEMA, Int(1)];
    forall j | j in v ensures Canonical(j) { ScalarIsCanonical(j); }
    RecordCanonical(EnvelopeKeys(), v);
  }

  lemma EncodedIsReadable(c: Command)
    requires Encode(c).Ok?
    ensures Canonical(Encode(c).value) && Within64(Encode(c).value)
  {
    hide Canonical, Within64, Walk, Bindings, CommandJson, Unsigned, Envelope, Integrity, RequestJson, CheckDescription,
         Obscure, ActionProposal.ActionKey, ActionProposal.ProposalDigest, IsIdentifier, Print;
    var command := CommandJson(c, RequestPrimitive(c.request).value);
    var digest := Sha256Hex(Bounded(Unsigned(Bindings(c), command)).value);
    RequestCanonical(c.request);
    CommandCanonical(c, RequestJson(c.request));
    BindingsCanonical(c);
    IntegrityCanonical(digest);
    EnvelopeCanonical(Bindings(c), command, Integrity(digest));
    WalkedIsWithin64(Encode(c).value, 0);
  }

  /**
   Every encodable command is decoded back to itself, from the stored mapping and
   from its text alike, exactly when its plan survives the decoder's extra checks;
   otherwise the decoder refuses it.
   */
  lemma EncodeThenDecode(c: Command)
    requires WellFormed(c) && Encode(c).Ok?
    ensures var j := Encode(c).value;
      var expected := if PlanSurvives(c) then Ok(c) else Err(SchemaFault);
      Decode(Mapping(j)) == expected && EncodeText(c) == Ok(Print(j)) && Decode(Text(Print(j))) == expected
  {
    hide WellFormed, Canonical, Within64, Parse, Print, Walk, Bytes, ExactObject, DecodeEnvelope, PlanSurvives,
         RequestPrimitive, CheckBinding, CommandJson, Bindings, Unsigned, Envelope;
    var j := Encode(c).value;
    EncodedIsReadable(c);
    ParsePrint(j, Plain);
    ParsePrint(j, Strict);
    EnvelopeRoundTrip(c);
    EnvelopeIsObject(c);
  }

  lemma EnvelopeIsObject(c: Command)
    requires Encode(c).Ok?
    ensures Encode(c).value.Obj? && Bounded(Encode(c).value) == Ok(Print(Encode(c).value))
  {
    hide RequestPrimitive, CheckBinding, CommandJson, Bindings, Unsigned, Print, Walk, Bytes, Record;
  }
}
