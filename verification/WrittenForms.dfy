/**
 The JSON each hashed or stored value is written as, key by key: no two values of one record
 can trade places.
 */
module WrittenForms {
  import opened Outcomes
  import opened Text
  import opened Calendar
  import opened Json
  import opened Hashing
  import opened Actions
  import opened Gate
  import PL = PaymentLinks
  import E = Executor
  import C = Cancellation

  function Optional(t: Option<string>): Json {
    match t
    case None => Null
    case Some(s) => Str(s)
  }

  function Amount(m: Option<Money>): Json {
    match m
    case None => Null
    case Some(money) => Obj([Member("currency", Str(money.currency)), Member("minor_units", Int(money.minorUnits))])
  }

  lemma MoneyWritten(m: Money)
    ensures m.ToJson() == Amount(Some(m))
  {}

  /** A proposal, in the order of its keys. */
  lemma ProposalWritten(p: ActionProposal)
    ensures p.ToJson() == Obj([
      Member("action_key", Str(p.ActionKey())), Member("action_type", Str(ActionName(p.actionType))),
      Member("amount", Amount(p.amount)), Member("attempt_ordinal", Int(p.attemptOrdinal)),
      Member("case_id", Str(p.caseId)), Member("created_at", Str(FormatTimestamp(p.createdAt))),
      Member("decision_version", Int(p.decisionVersion)),
      Member("expected_value_minor", if p.expectedValueMinor.None? then Null else Int(p.expectedValueMinor.value)),
      Member("expires_at", Str(FormatTimestamp(p.expiresAt))),
      Member("instrument_reference", Optional(p.instrumentReference)), Member("merchant_id", Str(p.merchantId)),
      Member("model_confidence", if p.modelConfidence.None? then Null else Str(p.modelConfidence.value.Render())),
      Member("payment_method", Optional(p.paymentMethod)), Member("proposal_id", Str(p.proposalId)),
      Member("requires_approval", Bool(p.requiresApproval))])
  {
    hide ActionProposal.ActionKey, FormatTimestamp, Probability.Render, ActionName, Money.ToJson;
    if p.amount.Some? { MoneyWritten(p.amount.value); }
  }

  /** What an action key is taken over. */
  lemma KeyWritten(p: ActionProposal)
    ensures p.ActionKey() == "act_" + Sha256Hex(Print(Obj([
      Member("action_type", Str(ActionName(p.actionType))), Member("attempt_ordinal", Int(p.attemptOrdinal)),
      Member("case_id", Str(p.caseId)), Member("decision_version", Int(p.decisionVersion)),
      Member("merchant_id", Str(p.merchantId)), Member("schema", Str("retrywise-action-key-v1"))])))
  {
    hide Print, ActionName;
    assert p.KeyJson() == Obj([
      Member("action_type", Str(ActionName(p.actionType))), Member("attempt_ordinal", Int(p.attemptOrdinal)),
      Member("case_id", Str(p.caseId)), Member("decision_version", Int(p.decisionVersion)),
      Member("merchant_id", Str(p.merchantId)), Member("schema", Str("retrywise-action-key-v1"))]);
  }

  function ReasonTexts(reasons: seq<Reason>): Json {
    Arr(seq(|reasons|, i requires 0 <= i < |reasons| => Str(ReasonName(reasons[i]))))
  }

  /** A decision, in the order of its keys. */
  lemma DecisionWritten(d: GateDecision)
    ensures d.ToJson() == Obj([
      Member("action_key", Str(d.actionKey)), Member("aggregate_version", Int(d.aggregateVersion)),
      Member("allowed", Bool(d.reasons == [])), Member("case_id", Str(d.caseId)),
      Member("decision_version", Int(d.decisionVersion)), Member("evaluated_at", Str(FormatTimestamp(d.evaluatedAt))),
      Member("policy_version", Str(d.policyVersion)), Member("proposal_digest", Str(d.proposalDigest)),
      Member("proposal_id", Str(d.proposalId)), Member("reasons", ReasonTexts(d.reasons)),
      Member("stage", Str(if d.stage == Policy then "policy" else "effect"))])
  {
    hide FormatTimestamp, ReasonName;
    assert d.Fields()[9] == ReasonTexts(d.reasons);
  }

  /** What the job of a create carries: the digests of everything behind it. */
  lemma CreatePayloadWritten(c: E.Command)
    ensures c.PayloadDigest() == Sha256Hex(Print(Obj([
      Member("action_key", Str(c.proposal.ActionKey())), Member("merchant_id", Str(c.proposal.merchantId)),
      Member("prior_plan_digest", Str(c.plan.DecisionDigest())),
      Member("proposal_digest", Str(c.proposal.ProposalDigest())), Member("provider_account_id", Str(c.accountId)),
      Member("reference_id", Str(c.request.referenceId)), Member("request_digest", Str(c.RequestDigest())),
      Member("schema", Str("retrywise-create-payment-link-command-v1"))])))
  {
    hide Print, ActionProposal.ActionKey, ActionProposal.ProposalDigest, GateDecision.DecisionDigest,
         E.Command.RequestDigest;
    assert Record(E.PayloadKeys(), [
        Str(c.proposal.ActionKey()), Str(c.proposal.merchantId), Str(c.plan.DecisionDigest()),
        Str(c.proposal.ProposalDigest()), Str(c.accountId), Str(c.request.referenceId), Str(c.RequestDigest()),
        Str("retrywise-create-payment-link-command-v1")])
      == Obj([
        Member("action_key", Str(c.proposal.ActionKey())), Member("merchant_id", Str(c.proposal.merchantId)),
        Member("prior_plan_digest", Str(c.plan.DecisionDigest())),
        Member("proposal_digest", Str(c.proposal.ProposalDigest())), Member("provider_account_id", Str(c.accountId)),
        Member("reference_id", Str(c.request.referenceId)), Member("request_digest", Str(c.RequestDigest())),
        Member("schema", Str("retrywise-create-payment-link-command-v1"))]);
  }

  /** The create body without a customer: the money of the request, nothing partial, no UPI, no messages. */
  lemma RequestWritten(r: PL.Request)
    requires r.customer.None?
    ensures r.ToJson() == Obj([
      Member("accept_partial", Bool(false)), Member("amount", Int(r.amountMinor)), Member("currency", Str(r.currency)),
      Member("description", Str(r.description)), Member("expire_by", Int(r.expireBy)),
      Member("notes", PL.NotesJson(r.notes)),
      Member("notify", Obj([Member("email", Bool(false)), Member("sms", Bool(false))])),
      Member("reference_id", Str(r.referenceId)), Member("reminder_enable", Bool(false)),
      Member("upi_link", Bool(false))])
  {
    hide PL.NotesJson;
  }

  /** The link a cancellation is for. */
  lemma TargetWritten(t: C.Target)
    ensures t.ToJson() == Obj([
      Member("action_id", Str(t.actionId)), Member("action_key", Str(t.actionKey)),
      Member("amount_minor", Int(t.amountMinor)), Member("case_id", Str(t.caseId)), Member("currency", Str(t.currency)),
      Member("instrument_id", Str(t.instrumentId)), Member("merchant_id", Str(t.merchantId)),
      Member("payment_link_id", Str(t.linkId)), Member("provider_account_id", Str(t.accountId)),
      Member("reference_id", Str(t.referenceId))])
  {}

  /** What the job of a cancellation carries. */
  lemma CancelPayloadWritten(c: C.Command)
    ensures c.PayloadDigest() == Sha256Hex(Print(Obj([
      Member("action_key", Str(c.proposal.ActionKey())), Member("prior_plan_digest", Str(c.plan.DecisionDigest())),
      Member("proposal_digest", Str(c.proposal.ProposalDigest())),
      Member("schema", Str("retrywise-cancel-payment-link-command-v1")),
      Member("target_digest", Str(c.target.TargetDigest()))])))
  {
    hide Print, ActionProposal.ActionKey, ActionProposal.ProposalDigest, GateDecision.DecisionDigest,
         C.Target.TargetDigest;
    assert Record(C.PayloadKeys(), [
        Str(c.proposal.ActionKey()), Str(c.plan.DecisionDigest()), Str(c.proposal.ProposalDigest()),
        Str("retrywise-cancel-payment-link-command-v1"), Str(c.target.TargetDigest())])
      == Obj([
        Member("action_key", Str(c.proposal.ActionKey())), Member("prior_plan_digest", Str(c.plan.DecisionDigest())),
        Member("proposal_digest", Str(c.proposal.ProposalDigest())),
        Member("schema", Str("retrywise-cancel-payment-link-command-v1")),
        Member("target_digest", Str(c.target.TargetDigest()))]);
  }

  lemma TargetDigestWritten(t: C.Target)
    ensures t.TargetDigest() == Sha256Hex(Print(Obj([
      Member("schema", Str("retrywise-cancellation-target-v1")), Member("target", t.ToJson())])))
  {
    hide Print, C.Target.ToJson;
    assert Record(["schema", "target"], [Str("retrywise-cancellation-target-v1"), t.ToJson()])
        == Obj([Member("schema", Str("retrywise-cancellation-target-v1")), Member("target", t.ToJson())]);
  }
}
