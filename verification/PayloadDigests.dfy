/**
 What the digests of a create command pin down: two commands with one payload digest are the
 same command, proposal, plan, request and account, or two different texts have one digest.
 */
module PayloadDigests {
  import opened Outcomes
  import opened Text
  import opened Json
  import opened Hashing
  import opened Actions
  import opened Gate
  import opened PaymentLinks
  import opened Executor
  import opened ProposalCodec
  import CaseRuns
  import C = Cancellation

  /** Two different texts with one digest have been found. */
  ghost predicate CollisionFound() { exists a, b :: Collides(a, b) }

  lemma EqualDigests(a: string, b: string)
    requires Sha256Hex(a) == Sha256Hex(b)
    ensures a == b || CollisionFound()
  {
    if a != b { assert Collides(a, b); }
  }

  // ---- Requests ----

  function EarlyRequestKeys(): seq<string> { ["accept_partial", "amount", "currency"] }

  function LateRequestKeys(): seq<string> {
    ["description", "expire_by", "notes", "notify", "reference_id", "reminder_enable", "upi_link"]
  }

  /** The keys of a create body, with or without a customer. */
  function BodyKeys(customer: bool): (keys: seq<string>)
    ensures |keys| == if customer then 11 else 10
  {
    EarlyRequestKeys() + (if customer then ["customer"] else []) + LateRequestKeys()
  }

  function Silent(): Json { Record(["email", "sms"], [Bool(false), Bool(false)]) }

  function BodyValues(r: Request): (v: seq<Json>)
    ensures |v| == if r.customer.Some? then 11 else 10
  {
    [Bool(false), Int(r.amountMinor), Str(r.currency)]
    + (if r.customer.Some? then [r.customer.value.ToJson()] else [])
    + [Str(r.description), Int(r.expireBy), NotesJson(r.notes), Silent(), Str(r.referenceId), Bool(false), Bool(false)]
  }

  lemma BodyIsRecord(r: Request)
    ensures r.ToJson() == Record(BodyKeys(r.customer.Some?), BodyValues(r))
  {
    hide Customer.ToJson, NotesJson;
    var keys, v := BodyKeys(r.customer.Some?), BodyValues(r);
    assert Silent() == Obj([Member("email", Bool(false)), Member("sms", Bool(false))]);
    assert r.ToJson().fields == Record(keys, v).fields;
  }

  lemma BodyKeysAscend(customer: bool)
    ensures AscendingKeys(BodyKeys(customer))
  {
    hide Less;
    LessAt("accept_partial", "amount", 1);
    LessAt("amount", "currency", 0);
    LessAt("currency", "customer", 2);
    LessAt("currency", "description", 0);
    LessAt("customer", "description", 0);
    LateKeysAscend();
    AscendingJoin(EarlyRequestKeys(), LateRequestKeys());
    AscendingJoin(EarlyRequestKeys(), ["customer"]);
    AscendingJoin(EarlyRequestKeys() + ["customer"], LateRequestKeys());
    assert EarlyRequestKeys() + [] == EarlyRequestKeys();
  }

  lemma LateKeysAscend()
    ensures AscendingKeys(LateRequestKeys())
  {
    hide Less;
    LessAt("description", "expire_by", 0);
    LessAt("expire_by", "notes", 0);
    LessAt("notes", "notify", 3);
    LessAt("notify", "reference_id", 0);
    LessAt("reference_id", "reminder_enable", 2);
    LessAt("reminder_enable", "upi_link", 0);
  }

  lemma NotesCanonical(notes: seq<Note>)
    requires AscendingNotes(notes)
    ensures Canonical(NotesJson(notes))
  {
    hide Less;
  }

  lemma CustomerCanonical(c: Customer)
    ensures Canonical(c.ToJson())
  {
    hide Less;
    LessAt("contact", "email", 0);
    LessAt("contact", "name", 0);
    LessAt("email", "name", 0);
  }

  lemma RequestBodyCanonical(r: Request)
    requires r.Valid()
    ensures Canonical(r.ToJson())
  {
    hide Canonical, Record, AscendingKeys, BodyKeys, Customer.ToJson, NotesJson, Request.ToJson, Customer.Valid, Less;
    BodyIsRecord(r);
    BodyKeysAscend(r.customer.Some?);
    NotesCanonical(r.notes);
    SilentCanonical();
    if r.customer.Some? { CustomerCanonical(r.customer.value); }
    forall j | j in BodyValues(r) ensures Canonical(j) { ScalarIsCanonical(j); }
    RecordCanonical(BodyKeys(r.customer.Some?), BodyValues(r));
  }

  lemma SilentCanonical()
    ensures Canonical(Silent())
  {
    hide Less;
    LessAt("email", "sms", 0);
  }

  lemma NotesInjective(a: seq<Note>, b: seq<Note>)
    requires NotesJson(a) == NotesJson(b)
    ensures a == b
  {
    assert |NotesJson(a).fields| == |a| && |NotesJson(b).fields| == |b|;
    forall i | 0 <= i < |a| ensures a[i] == b[i] {
      assert NotesJson(a).fields[i] == Member(a[i].key, Str(a[i].text));
      assert NotesJson(b).fields[i] == Member(b[i].key, Str(b[i].text));
    }
  }

  lemma CustomerInjective(a: Customer, b: Customer)
    requires a.ToJson() == b.ToJson()
    ensures a == b
  {
    var x, y := a.ToJson().fields, b.ToJson().fields;
    assert x[|x| - 1] == Member("name", Str(a.name)) && y[|y| - 1] == Member("name", Str(b.name));
    assert (a.contact.Some? <==> x[0].key == "contact") && (b.contact.Some? <==> y[0].key == "contact");
    assert a.contact.Some? ==> x[0] == Member("contact", Str(a.contact.value));
    assert b.contact.Some? ==> y[0] == Member("contact", Str(b.contact.value));
    var i := if a.contact.Some? then 1 else 0;
    assert a.email.Some? ==> x[i] == Member("email", Str(a.email.value));
    assert b.email.Some? && a.contact == b.contact ==> y[i] == Member("email", Str(b.email.value));
  }

  lemma BodyInjective(r: Request, s: Request)
    requires r.ToJson() == s.ToJson()
    ensures r == s
  {
    hide Record, Customer.ToJson, NotesJson, Request.ToJson, ExactObject, BodyKeys;
    BodyIsRecord(r);
    BodyIsRecord(s);
    ExactRecord(BodyKeys(r.customer.Some?), BodyValues(r));
    ExactRecord(BodyKeys(s.customer.Some?), BodyValues(s));
    SameShape(r, s);
    var v, w := BodyValues(r), BodyValues(s);
    var k := if r.customer.Some? then 4 else 3;
    assert v[1] == w[1] && v[2] == w[2] && v[k] == w[k] && v[k + 1] == w[k + 1] && v[k + 2] == w[k + 2]
        && v[k + 4] == w[k + 4];
    NotesInjective(r.notes, s.notes);
    if r.customer.Some? {
      assert v[3] == w[3];
      CustomerInjective(r.customer.value, s.customer.value);
    }
  }

  lemma SameShape(r: Request, s: Request)
    requires r.ToJson() == s.ToJson()
    ensures r.customer.Some? == s.customer.Some?
  {
    hide Customer.ToJson, NotesJson;
    assert |r.ToJson().fields| == (if r.customer.Some? then 11 else 10);
    assert |s.ToJson().fields| == (if s.customer.Some? then 11 else 10);
  }

  /** The request digest determines the request. */
  lemma SameRequestDigest(c: Command, d: Command)
    requires c.request.Valid() && d.request.Valid() && c.RequestDigest() == d.RequestDigest()
    ensures c.request == d.request || CollisionFound()
  {
    hide Request.ToJson, Request.Valid, Print, Canonical;
    EqualDigests(Print(c.request.ToJson()), Print(d.request.ToJson()));
    if Print(c.request.ToJson()) == Print(d.request.ToJson()) {
      RequestBodyCanonical(c.request);
      RequestBodyCanonical(d.request);
      PrintInjective(c.request.ToJson(), d.request.ToJson());
      BodyInjective(c.request, d.request);
    }
  }

  // ---- Plans and proposals ----

  lemma SamePlanDigest(a: GateDecision, b: GateDecision)
    requires a.Allowed() && b.Allowed() && a.DecisionDigest() == b.DecisionDigest()
    ensures a == b || CollisionFound()
  {
    hide GateDecision.ToJson, Print, Canonical;
    EqualDigests(Print(a.ToJson()), Print(b.ToJson()));
    if Print(a.ToJson()) == Print(b.ToJson()) {
      PlanCanonical(a);
      PlanCanonical(b);
      PrintInjective(a.ToJson(), b.ToJson());
      PlanInjective(a, b);
    }
  }

  lemma PlanInjective(a: GateDecision, b: GateDecision)
    requires a.Allowed() && b.Allowed() && a.ToJson() == b.ToJson()
    ensures a == b
  {
    hide GateDecision.Fields, PlanFromFields, Record, PlanKeys, ExactObject;
    ExactRecord(PlanKeys(), a.Fields());
    ExactRecord(PlanKeys(), b.Fields());
    PlanFieldsInverse(a);
    PlanFieldsInverse(b);
  }

  lemma SameProposalDigest(p: ActionProposal, q: ActionProposal)
    requires p.Valid() && q.Valid() && p.ProposalDigest() == q.ProposalDigest()
    ensures p == q || CollisionFound()
  {
    hide ActionProposal.Valid, ActionProposal.ProposalDigest;
    CaseRuns.SameDigestSameProposal(p, q);
  }

  // ---- The payload ----

  function PayloadValues(c: Command): (v: seq<Json>)
    ensures |v| == 8
  {
    [Str(c.proposal.ActionKey()), Str(c.proposal.merchantId), Str(c.plan.DecisionDigest()),
     Str(c.proposal.ProposalDigest()), Str(c.accountId), Str(c.request.referenceId), Str(c.RequestDigest()),
     Str("retrywise-create-payment-link-command-v1")]
  }

  lemma PayloadKeysAscend()
    ensures AscendingKeys(PayloadKeys())
  {
    hide Less;
    LessAt("action_key", "merchant_id", 0);
    LessAt("merchant_id", "prior_plan_digest", 0);
    LessAt("prior_plan_digest", "proposal_digest", 2);
    LessAt("proposal_digest", "provider_account_id", 3);
    LessAt("provider_account_id", "reference_id", 0);
    LessAt("reference_id", "request_digest", 2);
    LessAt("request_digest", "schema", 0);
  }

  lemma PayloadCanonical(c: Command)
    ensures Canonical(Record(PayloadKeys(), PayloadValues(c)))
  {
    hide Canonical, Record, AscendingKeys, ActionProposal.ActionKey, ActionProposal.ProposalDigest,
         GateDecision.DecisionDigest, Command.RequestDigest;
    PayloadKeysAscend();
    forall j | j in PayloadValues(c) ensures Canonical(j) { ScalarIsCanonical(j); }
    RecordCanonical(PayloadKeys(), PayloadValues(c));
  }

  lemma PayloadIsValues(c: Command)
    ensures c.PayloadDigest() == Sha256Hex(Print(Record(PayloadKeys(), PayloadValues(c))))
  {
    hide ActionProposal.ActionKey, ActionProposal.ProposalDigest, GateDecision.DecisionDigest, Command.RequestDigest,
         Print, Record;
  }

  lemma SameValues(c: Command, d: Command)
    requires c.PayloadDigest() == d.PayloadDigest()
    ensures PayloadValues(c) == PayloadValues(d) || CollisionFound()
  {
    hide Print, Record, Canonical, PayloadValues, ExactObject, Command.PayloadDigest;
    var a, b := Record(PayloadKeys(), PayloadValues(c)), Record(PayloadKeys(), PayloadValues(d));
    PayloadIsValues(c);
    PayloadIsValues(d);
    EqualDigests(Print(a), Print(b));
    if Print(a) == Print(b) {
      PayloadCanonical(c);
      PayloadCanonical(d);
      PrintInjective(a, b);
      ExactRecord(PayloadKeys(), PayloadValues(c));
      ExactRecord(PayloadKeys(), PayloadValues(d));
    }
  }

  /** The digest a job carries determines the whole command behind it. */
  lemma SamePayloadSameCommand(c: Command, d: Command)
    requires c.proposal.Valid() && d.proposal.Valid() && c.request.Valid() && d.request.Valid()
    requires c.plan.Allowed() && d.plan.Allowed() && c.PayloadDigest() == d.PayloadDigest()
    ensures c == d || CollisionFound()
  {
    hide ActionProposal.Valid, Request.Valid, Command.PayloadDigest, Command.RequestDigest, ActionProposal.ActionKey,
         ActionProposal.ProposalDigest, GateDecision.DecisionDigest, CollisionFound;
    SameValues(c, d);
    if PayloadValues(c) == PayloadValues(d) {
      ValuesDecide(c, d);
      SameProposalDigest(c.proposal, d.proposal);
      SamePlanDigest(c.plan, d.plan);
      SameRequestDigest(c, d);
    }
  }

  lemma ValuesDecide(c: Command, d: Command)
    requires PayloadValues(c) == PayloadValues(d)
    ensures c.proposal.ProposalDigest() == d.proposal.ProposalDigest() && c.accountId == d.accountId
    ensures c.plan.DecisionDigest() == d.plan.DecisionDigest() && c.RequestDigest() == d.RequestDigest()
  {
    hide ActionProposal.ActionKey, ActionProposal.ProposalDigest, GateDecision.DecisionDigest, Command.RequestDigest;
    var v, w := PayloadValues(c), PayloadValues(d);
    assert v[2] == w[2] && v[3] == w[3] && v[4] == w[4] && v[6] == w[6];
  }

  // ---- Cancellations ----

  function TargetValues(t: C.Target): (v: seq<Json>)
    ensures |v| == 10
  {
    [Str(t.actionId), Str(t.actionKey), Int(t.amountMinor), Str(t.caseId), Str(t.currency), Str(t.instrumentId),
     Str(t.merchantId), Str(t.linkId), Str(t.accountId), Str(t.referenceId)]
  }

  lemma TargetKeysAscend()
    ensures AscendingKeys(C.TargetKeys())
  {
    hide Less;
    LessAt("action_id", "action_key", 7);
    LessAt("action_key", "amount_minor", 1);
    LessAt("amount_minor", "case_id", 0);
    LessAt("case_id", "currency", 1);
    LessAt("currency", "instrument_id", 0);
    LessAt("instrument_id", "merchant_id", 0);
    LessAt("merchant_id", "payment_link_id", 0);
    LessAt("payment_link_id", "provider_account_id", 1);
    LessAt("provider_account_id", "reference_id", 0);
  }

  lemma TargetCanonical(t: C.Target)
    ensures Canonical(t.ToJson())
  {
    hide Canonical, Record, AscendingKeys;
    TargetKeysAscend();
    forall j | j in TargetValues(t) ensures Canonical(j) { ScalarIsCanonical(j); }
    RecordCanonical(C.TargetKeys(), TargetValues(t));
  }

  lemma TargetInjective(t: C.Target, u: C.Target)
    requires t.ToJson() == u.ToJson()
    ensures t == u
  {
    hide Record, ExactObject;
    ExactRecord(C.TargetKeys(), TargetValues(t));
    ExactRecord(C.TargetKeys(), TargetValues(u));
    var v, w := TargetValues(t), TargetValues(u);
    assert v[0] == w[0] && v[1] == w[1] && v[2] == w[2] && v[3] == w[3] && v[4] == w[4] && v[5] == w[5] && v[6] == w[6]
        && v[7] == w[7] && v[8] == w[8] && v[9] == w[9];
  }

  lemma EnclosedCanonical(t: C.Target)
    ensures Canonical(Enclosed(t))
  {
    hide Canonical, Record, Less, C.Target.ToJson;
    LessAt("schema", "target", 0);
    TargetCanonical(t);
    var v := [Str("retrywise-cancellation-target-v1"), t.ToJson()];
    forall j | j in v ensures Canonical(j) { ScalarIsCanonical(j); }
    RecordCanonical(["schema", "target"], v);
  }

  function Enclosed(t: C.Target): Json {
    Record(["schema", "target"], [Str("retrywise-cancellation-target-v1"), t.ToJson()])
  }

  lemma EnclosedInjective(t: C.Target, u: C.Target)
    requires Enclosed(t) == Enclosed(u)
    ensures t.ToJson() == u.ToJson()
  {
    hide C.Target.ToJson, Record, ExactObject;
    var v := [Str("retrywise-cancellation-target-v1"), t.ToJson()];
    var w := [Str("retrywise-cancellation-target-v1"), u.ToJson()];
    ExactRecord(["schema", "target"], v);
    ExactRecord(["schema", "target"], w);
    assert v[1] == w[1];
  }

  /** The target digest determines the link to cancel. */
  lemma SameTargetDigest(t: C.Target, u: C.Target)
    requires t.TargetDigest() == u.TargetDigest()
    ensures t == u || CollisionFound()
  {
    hide C.Target.ToJson, Print, Canonical, Record;
    EqualDigests(Print(Enclosed(t)), Print(Enclosed(u)));
    if Print(Enclosed(t)) == Print(Enclosed(u)) {
      EnclosedCanonical(t);
      EnclosedCanonical(u);
      PrintInjective(Enclosed(t), Enclosed(u));
      EnclosedInjective(t, u);
      TargetInjective(t, u);
    }
  }

  function CancelValues(c: C.Command): (v: seq<Json>)
    ensures |v| == 5
  {
    [Str(c.proposal.ActionKey()), Str(c.plan.DecisionDigest()), Str(c.proposal.ProposalDigest()),
     Str("retrywise-cancel-payment-link-command-v1"), Str(c.target.TargetDigest())]
  }

  lemma CancelCanonical(c: C.Command)
    ensures Canonical(Record(C.PayloadKeys(), CancelValues(c)))
  {
    hide Canonical, Record, Less, ActionProposal.ActionKey, ActionProposal.ProposalDigest, GateDecision.DecisionDigest,
         C.Target.TargetDigest;
    LessAt("action_key", "prior_plan_digest", 0);
    LessAt("prior_plan_digest", "proposal_digest", 2);
    LessAt("proposal_digest", "schema", 0);
    LessAt("schema", "target_digest", 0);
    forall j | j in CancelValues(c) ensures Canonical(j) { ScalarIsCanonical(j); }
    RecordCanonical(C.PayloadKeys(), CancelValues(c));
  }

  lemma CancelPayload(c: C.Command)
    ensures c.PayloadDigest() == Sha256Hex(Print(Record(C.PayloadKeys(), CancelValues(c))))
  {
    hide ActionProposal.ActionKey, ActionProposal.ProposalDigest, GateDecision.DecisionDigest, C.Target.TargetDigest,
         Print, Record;
  }

  lemma SameCancelValues(c: C.Command, d: C.Command)
    requires c.PayloadDigest() == d.PayloadDigest()
    ensures CancelValues(c) == CancelValues(d) || CollisionFound()
  {
    hide Print, Record, Canonical, CancelValues, ExactObject, C.Command.PayloadDigest;
    var a, b := Record(C.PayloadKeys(), CancelValues(c)), Record(C.PayloadKeys(), CancelValues(d));
    CancelPayload(c);
    CancelPayload(d);
    EqualDigests(Print(a), Print(b));
    if Print(a) == Print(b) {
      CancelCanonical(c);
      CancelCanonical(d);
      PrintInjective(a, b);
      ExactRecord(C.PayloadKeys(), CancelValues(c));
      ExactRecord(C.PayloadKeys(), CancelValues(d));
    }
  }

  lemma CancelValuesDecide(c: C.Command, d: C.Command)
    requires CancelValues(c) == CancelValues(d)
    ensures c.proposal.ProposalDigest() == d.proposal.ProposalDigest()
    ensures c.plan.DecisionDigest() == d.plan.DecisionDigest() && c.target.TargetDigest() == d.target.TargetDigest()
  {
    hide ActionProposal.ActionKey, ActionProposal.ProposalDigest, GateDecision.DecisionDigest, C.Target.TargetDigest;
    var v, w := CancelValues(c), CancelValues(d);
    assert v[1] == w[1] && v[2] == w[2] && v[4] == w[4];
  }

  /** The digest a cancellation job carries determines its whole command. */
  lemma SameCancelSameCommand(c: C.Command, d: C.Command)
    requires c.proposal.Valid() && d.proposal.Valid() && c.plan.Allowed() && d.plan.Allowed()
    requires c.PayloadDigest() == d.PayloadDigest()
    ensures c == d || CollisionFound()
  {
    hide ActionProposal.Valid, C.Command.PayloadDigest, ActionProposal.ActionKey, ActionProposal.ProposalDigest,
         GateDecision.DecisionDigest, C.Target.TargetDigest, CollisionFound;
    SameCancelValues(c, d);
    if CancelValues(c) == CancelValues(d) {
      CancelValuesDecide(c, d);
      SameProposalDigest(c.proposal, d.proposal);
      SamePlanDigest(c.plan, d.plan);
      SameTargetDigest(c.target, d.target);
    }
  }
}
