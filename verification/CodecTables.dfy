/**
 What the command codec accepts, stated without its own checks: the values it can store, the
 commands it encodes, and every key and value of the envelope it writes.
 */
module CodecTables {
  import opened Outcomes
  import opened Text
  import opened Json
  import opened Hashing
  import opened Actions
  import opened Gate
  import opened PaymentLinks
  import opened Executor
  import opened ProposalCodec
  import opened CommandCodec
  import EncodableCommands

  // ---- The walk ----

  /** At most `n` containers deep below its own level. */
  predicate Shallow(j: Json, n: int) {
    n >= 0
    && match j
       case Arr(items) => forall x | x in items :: Shallow(x, n - 1)
       case Obj(fields) => forall f: Member | f in fields :: Shallow(f.value, n - 1)
       case _ => true
  }

  /** The estimated size: what the pieces need and a separator each. */
  function Size(j: Json): nat
    decreases j, 1
  {
    match j
    case Null => 4
    case Bool(_) => 4
    case Int(i) => |RenderInt(i)|
    case Float(_) => 0
    case Str(s) => Bytes(s) + 2
    case Arr(items) => 2 + ItemSizes(items, |items|)
    case Obj(fields) => 2 + MemberSizes(fields, |fields|)
  }

  function ItemSizes(items: seq<Json>, n: nat): nat
    requires n <= |items|
    decreases items, 0, n
  {
    if n == 0 then 0 else ItemSizes(items, n - 1) + 1 + Size(items[n - 1])
  }

  function MemberSizes(fields: seq<Member>, n: nat): nat
    requires n <= |fields|
    decreases fields, 0, n
  {
    if n == 0 then 0 else MemberSizes(fields, n - 1) + Bytes(fields[n - 1].key) + 3 + Size(fields[n - 1].value)
  }

  /** Nothing a store could not hold, nested no deeper than `n`. */
  predicate Plainly(j: Json, n: int) {
    Shallow(j, n) && Within64(j) && NoFloats(j)
  }

  /** The walk accepts exactly what is shallow, storable and small, and then its answer is the size. */
  lemma {:induction false} WalkExactly(j: Json, depth: nat)
    ensures Walk(j, depth).Ok? <==> Plainly(j, 12 - depth) && Size(j) <= 16384
    ensures Walk(j, depth).Ok? ==> Walk(j, depth).value == Size(j)
    decreases j, 1
  {
    hide Bytes, RenderInt, EncodableCommands.Simple;
    match j
    case Int(i) => if MIN_64 <= i <= MAX_64 { EncodableCommands.IntText(i); }
    case Arr(items) =>
      ItemsExactly(items, |items|, depth);
      if depth <= 12 { ItemsPlainly(items, 12 - depth); }
    case Obj(fields) =>
      FieldsExactly(fields, |fields|, depth);
      if depth <= 12 { FieldsPlainly(fields, 12 - depth); }
    case _ =>
  }

  lemma ItemsPlainly(items: seq<Json>, n: int)
    requires n >= 0
    ensures Plainly(Arr(items), n) <==> forall k | 0 <= k < |items| :: Plainly(items[k], n - 1)
  {
    assert forall k | 0 <= k < |items| :: items[k] in items;
  }

  lemma FieldsPlainly(fields: seq<Member>, n: int)
    requires n >= 0
    ensures Plainly(Obj(fields), n) <==> forall k | 0 <= k < |fields| :: Plainly(fields[k].value, n - 1)
  {
    assert forall k | 0 <= k < |fields| :: fields[k] in fields;
  }

  lemma {:induction false} ItemsExactly(items: seq<Json>, n: nat, depth: nat)
    requires n <= |items|
    ensures WalkItems(items, n, depth).Ok?
       <==> (forall k | 0 <= k < n :: Plainly(items[k], 11 - depth)) && 2 + ItemSizes(items, n) <= 16384
    ensures WalkItems(items, n, depth).Ok? ==> WalkItems(items, n, depth).value == 2 + ItemSizes(items, n)
    decreases items, 0, n
  {
    hide Plainly;
    if n > 0 {
      ItemsExactly(items, n - 1, depth);
      WalkExactly(items[n - 1], depth + 1);
    }
  }

  lemma {:induction false} FieldsExactly(fields: seq<Member>, n: nat, depth: nat)
    requires n <= |fields|
    ensures WalkFields(fields, n, depth).Ok?
       <==> (forall k | 0 <= k < n :: Plainly(fields[k].value, 11 - depth)) && 2 + MemberSizes(fields, n) <= 16384
    ensures WalkFields(fields, n, depth).Ok? ==> WalkFields(fields, n, depth).value == 2 + MemberSizes(fields, n)
    decreases fields, 0, n
  {
    hide Plainly, Bytes;
    if n > 0 {
      FieldsExactly(fields, n - 1, depth);
      WalkExactly(fields[n - 1].value, depth + 1);
    }
  }

  /** A value the codec stores: at most twelve levels, 64-bit integers, no floats, and small both ways. */
  predicate Storable(j: Json) {
    Plainly(j, 12) && Size(j) <= 16384 && Bytes(Print(j)) <= 16384
  }

  lemma BoundedExactly(j: Json)
    ensures Bounded(j) == (if Storable(j) then Ok(Print(j)) else Err(SizeFault))
         || (!Storable(j) && Bounded(j) == Err(SchemaFault))
  {
    hide Bytes, Print, Plainly, Walk, Size;
    WalkExactly(j, 0);
    WalkFaults(j, 0);
  }

  lemma {:induction false} WalkFaults(j: Json, depth: nat)
    ensures Walk(j, depth).Err? ==> Walk(j, depth).error == SizeFault || Walk(j, depth).error == SchemaFault
    decreases j, 1
  {
    hide Bytes, RenderInt;
    match j
    case Arr(items) => ItemsFault(items, |items|, depth);
    case Obj(fields) => FieldsFault(fields, |fields|, depth);
    case _ =>
  }

  lemma {:induction false} ItemsFault(items: seq<Json>, n: nat, depth: nat)
    requires n <= |items|
    ensures var r := WalkItems(items, n, depth); r.Err? ==> r.error == SizeFault || r.error == SchemaFault
    decreases items, 0, n
  {
    if n > 0 {
      ItemsFault(items, n - 1, depth);
      WalkFaults(items[n - 1], depth + 1);
    }
  }

  lemma {:induction false} FieldsFault(fields: seq<Member>, n: nat, depth: nat)
    requires n <= |fields|
    ensures var r := WalkFields(fields, n, depth); r.Err? ==> r.error == SizeFault || r.error == SchemaFault
    decreases fields, 0, n
  {
    hide Bytes;
    if n > 0 {
      FieldsFault(fields, n - 1, depth);
      WalkFaults(fields[n - 1].value, depth + 1);
    }
  }

  // ---- Account numbers ----

  /** A run of ten to nineteen digits with no digit on either side. */
  predicate AccountRun(s: string, i: nat, k: nat) {
    && k <= |s| && 10 <= k - i <= 19 && (forall m | i <= m < k :: IsDigit(s[m]))
    && (i > 0 ==> !IsDigit(s[i - 1])) && (k < |s| ==> !IsDigit(s[k]))
  }

  ghost predicate ShowsAccount(s: string) {
    exists i: nat, k: nat :: AccountRun(s, i, k)
  }

  lemma {:induction false} RunIsMaximal(s: string)
    ensures DigitRun(s).1 == "" || !IsDigit(DigitRun(s).1[0])
    decreases |s|
  {
    if s != "" && IsDigit(s[0]) { RunIsMaximal(s[1..]); }
  }

  /** A run further on in `s`, seen from `t`, what follows a boundary. */
  lemma RunMoves(s: string, t: string, n: nat, i: nat, k: nat)
    requires n <= |s| && t == s[n..] && n <= i <= k
    requires n == 0 || !IsDigit(s[n - 1]) || i > n
    ensures AccountRun(s, i, k) <==> AccountRun(t, i - n, k - n)
  {
    if k <= |s| {
      assert forall m | i <= m < k :: s[m] == t[m - n];
      assert i > n ==> s[i - 1] == t[i - n - 1];
      assert k < |s| ==> s[k] == t[k - n];
    }
    if AccountRun(t, i - n, k - n) {
      forall m | i <= m < k ensures IsDigit(s[m]) { assert IsDigit(t[m - n]); }
    }
  }

  lemma RunIsLong(s: string, i: nat, k: nat)
    requires AccountRun(s, i, k)
    ensures i < k <= |s|
  {}

  lemma PlainStart(s: string)
    requires s != "" && !IsDigit(s[0])
    ensures ShowsAccount(s) <==> ShowsAccount(s[1..])
  {
    hide AccountRun;
    if ShowsAccount(s) {
      var i: nat, k: nat :| AccountRun(s, i, k);
      NotAtPlain(s, i, k);
      RunMoves(s, s[1..], 1, i, k);
    }
    if ShowsAccount(s[1..]) {
      var i: nat, k: nat :| AccountRun(s[1..], i, k);
      RunIsLong(s[1..], i, k);
      RunMoves(s, s[1..], 1, i + 1, k + 1);
    }
  }

  lemma NotAtPlain(s: string, i: nat, k: nat)
    requires s != "" && !IsDigit(s[0]) && AccountRun(s, i, k)
    ensures 1 <= i <= k
  {}

  lemma DigitStart(s: string)
    requires s != "" && IsDigit(s[0])
    ensures ShowsAccount(s) <==> 10 <= |DigitRun(s).0| <= 19 || ShowsAccount(DigitRun(s).1)
  {
    hide AccountRun, DigitRun;
    RunIsMaximal(s);
    var r := DigitRun(s);
    var n := |r.0|;
    assert r.1 == s[n..];
    WholeRun(s, n);
    if ShowsAccount(s) {
      var i: nat, k: nat :| AccountRun(s, i, k);
      FirstOrLater(s, n, i, k);
      if i > n { RunMoves(s, r.1, n, i, k); }
    }
    if ShowsAccount(r.1) {
      var i: nat, k: nat :| AccountRun(r.1, i, k);
      RunIsLong(r.1, i, k);
      NotAtPlain(r.1, i, k);
      RunMoves(s, r.1, n, i + n, k + n);
    }
  }

  lemma WholeRun(s: string, n: nat)
    requires n <= |s| && (forall m | 0 <= m < n :: IsDigit(s[m])) && (n < |s| ==> !IsDigit(s[n]))
    ensures 10 <= n <= 19 ==> AccountRun(s, 0, n)
  {}

  lemma FirstOrLater(s: string, n: nat, i: nat, k: nat)
    requires n <= |s| && (forall m | 0 <= m < n :: IsDigit(s[m])) && (n < |s| ==> !IsDigit(s[n]))
    requires AccountRun(s, i, k)
    ensures (i == 0 && k == n && 10 <= n <= 19) || n < i <= k
  {}

  /** The privacy scan finds exactly the isolated runs of ten to nineteen digits. */
  lemma {:induction false} AccountsExactly(s: string)
    ensures HasAccountNumber(s) <==> ShowsAccount(s)
    decreases |s|
  {
    hide ShowsAccount, DigitRun;
    if s == "" {
      NothingShows();
    } else if IsDigit(s[0]) {
      DigitStart(s);
      FirstRunIsSome(s);
      AccountsExactly(DigitRun(s).1);
    } else {
      PlainStart(s);
      AccountsExactly(s[1..]);
    }
  }

  lemma NothingShows()
    ensures !ShowsAccount("")
  {}

  lemma FirstRunIsSome(s: string)
    requires s != "" && IsDigit(s[0])
    ensures |DigitRun(s).0| >= 1 && |DigitRun(s).1| < |s|
  {}

  // ---- Commands ----

  /** A description and notes that name the order and the case and nothing about the customer. */
  predicate Controlled(r: Request, orderId: string, caseId: string) {
    && r.customer == None
    && r.description == "Retry payment for order " + orderId
    && r.notes == [Note("merchant_order_id", orderId), Note("recovery_case_id", caseId)]
    && IsIdentifier(orderId) && IsIdentifier(caseId)
  }

  /** Every part of the command speaks of one proposal, its allowed plan, its money and its reference. */
  predicate Consistent(c: Command) {
    && IsIdentifier(c.accountId)
    && c.proposal.actionType == CreateLink
    && c.plan.stage == Policy && c.plan.reasons == []
    && c.plan.proposalId == c.proposal.proposalId && c.plan.actionKey == c.proposal.ActionKey()
    && c.plan.proposalDigest == c.proposal.ProposalDigest() && c.plan.caseId == c.proposal.caseId
    && c.plan.decisionVersion == c.proposal.decisionVersion
    && c.proposal.amount == Some(Money(c.request.amountMinor, c.request.currency))
    && c.request.referenceId == ReferenceId(c.proposal.caseId, c.accountId)
  }

  ghost predicate Private(r: Request) {
    '@' !in r.description && !ShowsAccount(r.description)
  }

  lemma RequestExactly(r: Request)
    ensures RequestPrimitive(r).Ok? <==> && Private(r) && |r.notes| == 2
                                         && Controlled(r, r.notes[0].text, r.notes[1].text)
  {
    hide ShowsAccount, HasAccountNumber, IsIdentifier;
    AccountsExactly(r.description);
    if |r.notes| == 2 {
      var first, second := r.notes[0], r.notes[1];
      assert r.notes == [first, second];
      assert first == Note(first.key, first.text) && second == Note(second.key, second.text);
    }
  }

  lemma BindingExactly(c: Command)
    requires |c.request.notes| == 2
    ensures CheckBinding(c).Ok? <==> Consistent(c) && c.request.notes[1].text == c.proposal.caseId
  {
    hide ReferenceId, ActionProposal.ActionKey, ActionProposal.ProposalDigest, IsIdentifier;
  }

  // ---- The envelope ----

  /** The provider request as it is stored: no customer, no mode, no notification. */
  function StoredRequest(r: Request, orderId: string, caseId: string): Json {
    Obj([Member("amount_minor", Int(r.amountMinor)), Member("currency", Str(r.currency)),
         Member("description", Str(r.description)), Member("expire_by_epoch", Int(r.expireBy)),
         Member("notes", Obj([Member("merchant_order_id", Str(orderId)), Member("recovery_case_id", Str(caseId))])),
         Member("reference_id", Str(r.referenceId))])
  }

  function StoredBindings(c: Command): Json {
    Obj([Member("action_key", Str(c.proposal.ActionKey())), Member("executor_payload_sha256", Str(c.PayloadDigest())),
         Member("prior_plan_sha256", Str(c.plan.DecisionDigest())),
         Member("proposal_sha256", Str(c.proposal.ProposalDigest())),
         Member("provider_request_sha256", Str(c.RequestDigest()))])
  }

  function StoredCommand(c: Command, request: Json): Json {
    Obj([Member("prior_plan", c.plan.ToJson()), Member("proposal", c.proposal.ToJson()),
         Member("provider_account_id", Str(c.accountId)), Member("request", request)])
  }

  /** What the checksum is taken over. */
  function Body(bindings: Json, command: Json): Json {
    Obj([Member("bindings", bindings), Member("command", command),
         Member("command_type", Str("CREATE_STANDARD_PAYMENT_LINK")),
         Member("schema", Str("retrywise.create-standard-payment-link-command")), Member("version", Int(1))])
  }

  /** The whole stored mapping: the body and its checksum. */
  function Sealed(bindings: Json, command: Json): Json {
    Obj([Member("bindings", bindings), Member("command", command),
         Member("command_type", Str("CREATE_STANDARD_PAYMENT_LINK")),
         Member("integrity", Obj([Member("algorithm", Str("sha256")),
                                  Member("digest", Str(Sha256Hex(Print(Body(bindings, command)))))])),
         Member("schema", Str("retrywise.create-standard-payment-link-command")), Member("version", Int(1))])
  }

  lemma RequestStored(r: Request)
    requires |r.notes| == 2
    ensures RequestJson(r) == StoredRequest(r, r.notes[0].text, r.notes[1].text)
  {
    assert NotesOf(r.notes) == Obj([Member("merchant_order_id", Str(r.notes[0].text)),
                                    Member("recovery_case_id", Str(r.notes[1].text))]);
  }

  lemma BindingsStored(c: Command)
    ensures Bindings(c) == StoredBindings(c)
  {
    hide ActionProposal.ActionKey, Command.PayloadDigest, GateDecision.DecisionDigest, ActionProposal.ProposalDigest,
         Command.RequestDigest;
  }

  lemma CommandStored(c: Command, request: Json)
    ensures CommandJson(c, request) == StoredCommand(c, request)
  {
    hide ActionProposal.ToJson, GateDecision.ToJson;
  }

  lemma BodyStored(bindings: Json, command: Json)
    ensures Unsigned(bindings, command) == Body(bindings, command)
  {}

  lemma EnvelopeStored(bindings: Json, command: Json, digest: Digest)
    requires digest == Sha256Hex(Print(Body(bindings, command)))
    ensures Envelope(bindings, command, Integrity(digest)) == Sealed(bindings, command)
  {
    hide Body, Print;
    assert Integrity(digest) == Obj([Member("algorithm", Str("sha256")), Member("digest", Str(digest))]);
  }

  /** The stored form of a command with its two notes. */
  function Written(c: Command): Json
    requires |c.request.notes| == 2
  {
    Sealed(StoredBindings(c),
           StoredCommand(c, StoredRequest(c.request, c.request.notes[0].text, c.request.notes[1].text)))
  }

  function WrittenBody(c: Command): Json
    requires |c.request.notes| == 2
  {
    Body(StoredBindings(c),
         StoredCommand(c, StoredRequest(c.request, c.request.notes[0].text, c.request.notes[1].text)))
  }

  /**
   A command is encoded exactly when its request is private and controlled, its parts are
   consistent, and its body and envelope can be stored; what is written is that envelope.
   */
  lemma EncodeExactly(c: Command)
    ensures Encode(c).Ok? <==>
      && Private(c.request) && |c.request.notes| == 2
      && Controlled(c.request, c.request.notes[0].text, c.proposal.caseId)
      && Consistent(c) && Storable(WrittenBody(c)) && Storable(Written(c))
    ensures Encode(c).Ok? ==> Encode(c).value == Written(c)
  {
    hide RequestPrimitive, CheckBinding, Private, Controlled, Consistent, Storable, Bounded, RequestJson, Bindings,
         CommandJson, Unsigned, Envelope, Integrity, StoredBindings, StoredCommand, StoredRequest, Sealed, Body, Print;
    RequestExactly(c.request);
    if |c.request.notes| == 2 {
      ControlledCase(c);
      BindingExactly(c);
      RequestStored(c.request);
      BindingsStored(c);
      CommandStored(c, RequestJson(c.request));
      BodyStored(Bindings(c), CommandJson(c, RequestJson(c.request)));
      BoundedExactly(WrittenBody(c));
      EnvelopeStored(StoredBindings(c), StoredCommand(c, StoredRequest(c.request, c.request.notes[0].text,
                                                                       c.request.notes[1].text)),
                     Sha256Hex(Print(WrittenBody(c))));
      BoundedExactly(Written(c));
      if RequestPrimitive(c.request).Ok? { PrimitiveIsJson(c.request); }
    }
  }

  lemma PrimitiveIsJson(r: Request)
    requires RequestPrimitive(r).Ok?
    ensures |r.notes| == 2 && RequestPrimitive(r).value == RequestJson(r)
  {
    hide Obscure, IsIdentifier, RequestJson;
  }

  lemma ControlledCase(c: Command)
    requires |c.request.notes| == 2
    ensures Controlled(c.request, c.request.notes[0].text, c.proposal.caseId)
       <==> Controlled(c.request, c.request.notes[0].text, c.request.notes[1].text)
            && c.request.notes[1].text == c.proposal.caseId
  {
    hide IsIdentifier;
  }

  // ---- The decoder ----

  lemma DecodedIsWellFormed(p: Payload, c: Command)
    requires Decode(p) == Ok(c)
    ensures c.proposal.Valid() && c.request.Valid()
  {
    hide Coerce, ExactObject, CheckIntegrity, CheckBinding, Encode, ReadProposal, ReadPlan, ReadRequest, IsCleanText,
         Bindings, Print;
    var v := ExactObject(Coerce(p).value, EnvelopeKeys()).value;
    var w := ExactObject(v[1], CommandKeys()).value;
    ReadProposalIsValid(w[1]);
    ReadRequestIsValid(w[3]);
  }

  lemma ReadProposalIsValid(j: Json)
    ensures ReadProposal(j).Some? ==> ReadProposal(j).value.Valid()
  {
    hide FromFields, ActionProposal.Valid, ActionProposal.ToJson, ExactObject;
  }

  lemma ReadRequestIsValid(j: Json)
    ensures ReadRequest(j).Ok? ==> ReadRequest(j).value.Valid()
  {
    hide Request.Valid, Obscure, ReadNotes, CheckDescription, ExactObject;
  }

  /** A text decodes to a command exactly when it is the encoding of that command, and its plan survives. */
  lemma DecodeExactly(text: string, c: Command)
    ensures Decode(Text(text)) == Ok(c)
       <==> && c.proposal.Valid() && c.request.Valid() && EncodeText(c) == Ok(text)
            && IsIdentifier(c.plan.policyVersion) && c.plan.aggregateVersion >= 0
  {
    hide Decode, Encode, Bounded, Print, ActionProposal.Valid, Request.Valid, IsIdentifier;
    if Decode(Text(text)) == Ok(c) {
      DecodedIsWellFormed(Text(text), c);
      DecodeThenEncode(text, c);
      EncodeThenDecode(c);
    }
    if c.proposal.Valid() && c.request.Valid() && EncodeText(c) == Ok(text) { EncodeThenDecode(c); }
  }
}
