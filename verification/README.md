# RetryWise in Dafny

RetryWise turns a failed payment into at most one recovery Payment Link. This project models its
deterministic core and proves what the rest of the system relies on: a leased outbox, a two-stage
authorization gate, a versioned case, the create and cancel executors with the rows they update, a
strict command codec down to JSON text, a hash-chained ledger, the incident detector, the
probability normalization and the offline simulator.

Run `dafny verify dfyconfig.toml` to check everything.

## How the model is laid out

| files | what they hold |
|---|---|
| `Outcomes`, `Text`, `Calendar`, `Hashing` | result types, validated text and numerals, the proleptic Gregorian calendar in microseconds, SHA-256 as an unknown function |
| `Json`, `Evidence` | a printer and a reader for the canonical JSON profile; normalization of domain values into it |
| `States`, `Actions`, `Gate`, `GateReasons` | the transition graphs, proposals, the gate with its ordered reasons, and the condition behind each of them |
| `Aggregate`, `CaseRuns`, `CaseTable` | the nineteen case commands, what every run of them keeps, and the guard and the whole next case of each |
| `Backoff`, `Outbox`, `JobTransitions` | the retry schedule, the job's transitions, the store that keeps a result only under compare-and-swap, every transition as a whole value, and the fence between leases |
| `PaymentLinks`, `Executor`, `DeliveryOutcomes`, `EffectRows`, `CreateProtocol`, `DeliverySteps`, `CrashRecovery`, `Reconciliation` | link requests and expiry, one create delivery and its exact result for every answer, the row transactions, all deliveries interleaved, the executor as a run of that protocol, a run that must succeed, and when reconciliation can settle |
| `ProposalCodec`, `CommandCodec`, `EncodableCommands`, `CodecTables`, `WrittenForms`, `PayloadDigests` | reading proposals and plans back, the durable command envelope, which commands it admits and exactly what it writes, and what the digests of a command pin down |
| `Ledger`, `LedgerTables` | the decision ledger, and its verifier as an ordered list of checks |
| `Cancellation`, `CancelOutcomes` | the protective cancellation delivery, and its exact result for every answer |
| `Incidents`, `Normalization`, `VirtualClock`, `Simulator`, `SimulatorTables` | detector hysteresis, exact probability vectors, the event queue, the policy replay and what its parts mean |

Code that changes state in the source is imperative here (the gate's reason lists, the executors, the
row repository, the ledger, the virtual clock, the loops of the codec and the detector of violations);
each such method is proved equal to a function, and the properties are proved about the function. The
modules named tables, outcomes, reasons or transitions say what those functions decide in terms of the
fields they read, without the functions' own helpers.

## Assumptions that the theorems name

* A create call is sent while its delivery still holds the stored lease. The lease is last checked at
  `services/control_plane/executor.py:360`, before the call; `CreateProtocol.DoCreate` is where the
  model uses it. Lookups, persisting and settling need no such assumption.
* No other writer touches the case, action and instrument rows.
* "At most one link" also needs a truthful provider: certain failure makes no link, success names the
  link it made, and a completed lookup lists every link of the reference. "No blind retry" does not.
* SHA-256 is an unknown function to 64 hex digits. It is nowhere assumed injective: the results that
  would need it say "or these two texts collide".
* Which characters beyond ASCII are decimal digits depends on the interpreter's Unicode tables
  (`Calendar.ForeignDigit`); nothing is assumed about them.

## Where the code does less than one might hope

* Decoding undoes encoding exactly when the plan's policy version is an identifier and its aggregate
  version is not negative (`CommandCodec.EncodeThenDecode`). `GateDecision` validates neither, so the
  encoder accepts plans the decoder refuses: any ordinary command with its policy version emptied or
  its aggregate version made negative is one, and a concrete one is given
  (`EncodableCommands.EncodedButRefused`, `EncodableCommands.EncoderAcceptsMore`). Plans made by the
  gate always survive, because the policy and the context validate both
  (`EncodableCommands.GatePlansSurvive`).
* On the last attempt a requeue needs a reason of at most 489 characters, not 512: the 23-character
  prefix is added before the text is checked (`Outbox.LastRequeueNeedsShortReason`).
* The backoff loop exceeds the documented minimum by one microsecond exactly when the maximum is one
  more than a multiple of four and the doubled delay is one below it (`Backoff.DelayExact`).
* Six calendar months are not monotone in the start: two instants keep their order exactly unless
  clamping puts them on one day while the earlier has the later time of day
  (`PaymentLinks.SixMonthsOrder`).
* The expiry check never blocks a planned link exactly when the gate's clock skew is at most a day
  (`PaymentLinks.DayOfSkewIsTheLimit`).
* Timestamp parsing is nowhere injective: strptime ignores the case of the letters, so every instant
  has a second spelling (`Calendar.ParseNotInjective`). Among the spellings it accepts, exactly those
  of the canonical shape are the ones formatting writes, one per instant
  (`Calendar.CanonicalIsWritten`, `Calendar.OneCanonicalSpelling`).
* Reconciliation converges exactly from a persisted doubt: a reconcile-only delivery can still settle
  its job under the provider's link if and only if the case is ACTION_UNCERTAIN
  (`Reconciliation.ConvergesExactly`). Otherwise no continuation creates, begins a lookup or names a
  link, and the rows stay until a refusal closes them (`Reconciliation.AbandonedNeverConverges`). A
  worker that dies right after its claim leaves such rows still queued
  (`Reconciliation.EarlyDeathAbandons`), one that dies right after its recorded authorization leaves
  them executing (`Reconciliation.DeathAbandons`).
* A cancellation delivery that saw money buries its job for review exactly when it can return (its
  lease lasts and, after a cancel, the last row read answers) and its result is persisted; if it
  raises, the handler asks for another delivery, which may only reconcile and so never cancels
  (`Cancellation.HandledSafely`, `Cancellation.MoneyCanStayPending`).
* A confirmed incident whose evidence expired starts cooling even on a strongly degraded window, as
  long as no downtime is reported (`Incidents.ExpiryBeatsDegradation`).

## Model

| member | source | states |
|---|---|---|
| CreateProtocol.NoBlindRetry | services/control_plane/executor.py:426-489 | in every run of claims, deliveries, faults, crashes and reclaims, of any two create calls the earlier failed for certain or a completed lookup found nothing in between |
| CreateProtocol.AtMostOneLink | packages/razorpay/payment_links.py:225-268 | with a truthful provider every run makes at most one link; a completion as created or adopted names exactly it and leaves the case ACTIVE under it |
| CreateProtocol.RowsStayInStep | services/control_plane/create_effect_worker.py:908-1110 | over every run the case, action and instrument rows are one of the five matching triples |
| CreateProtocol.RunConsistent | services/control_plane/outbox.py:234-297 | the joint invariant of leases, rows and calls holds after every run from a fresh job |
| CreateProtocol.StepKeepsDeliveries | services/control_plane/outbox.py:254-297 | every step keeps each delivery's lease its own, and the stored lease belongs to the latest delivery |
| CreateProtocol.StepKeepsInLine | services/control_plane/create_effect_worker.py:871-895 | every step keeps the rows in step, and an authorized delivery's rows exactly as it authorized them |
| CreateProtocol.StepKeepsProven | services/control_plane/create_effect_worker.py:1183-1212 | every step keeps the rule that a create may only follow with nothing unresolved before it |
| CreateProtocol.CleanMeansNoBlindRetry | services/control_plane/executor.py:447-489 | a trace whose creates each start resolved has proof of absence between any two of them |
| CreateProtocol.HonestRunKeeps | packages/razorpay/payment_links.py:225-268 | with a truthful provider an existing link is always unresolved business, and every named link was made |
| CreateProtocol.StepKeepsLinked | services/control_plane/create_effect_worker.py:959-1005 | links that deliveries, rows and completions name were really made |
| CreateProtocol.LinkedRowsStay | services/control_plane/create_effect_worker.py:855-868 | rows that carry a link are never written again |
| DeliverySteps.ExecutorFollowsProtocol | services/control_plane/executor.py:328-489 | every delivery of the executor, in either mode, whatever its ports answer or raise and whether or not a raising recorder had committed, is a run of the protocol: it ends in the phase its result names or in a fault, with the rows its committed authorization left and its calls' links and events |
| CrashRecovery.DoubtIsAdopted | services/control_plane/executor.py:518-582 | a persisted doubt survives its worker's death: after the lease runs out a reconcile-only delivery adopts the link, with one create call in the run |
| Reconciliation.ConvergesExactly | services/control_plane/create_effect_worker.py:878-883 | a reconcile-only delivery that any run reaches can still settle its job under the one matching link exactly when the case is ACTION_UNCERTAIN |
| Reconciliation.AbandonedNeverConverges | services/control_plane/create_effect_worker.py:878-883 | without a persisted doubt no continuation of a reconcile-only job creates, begins a lookup, or makes, records or names a link; rows left executing only ever fail safe |
| Reconciliation.EarlyDeathAbandons | services/control_plane/outbox.py:256-297 | a worker that dies right after its claim leaves the next delivery in that state, over rows still queued |
| Reconciliation.DeathAbandons | services/control_plane/create_effect_worker.py:871-895 | a worker that dies right after its recorded authorization leaves it there too, over rows left executing |
| CrashRecovery.ClaimSucceeds | services/control_plane/outbox.py:234-297 | a ready or expired job with an attempt left is always granted, under a fresh token |
| Executor.CreateExecutor.Execute | services/control_plane/executor.py:328-489 | the ordered port calls and the result are those of the delivery's function, which the `DeliveryOutcomes` rows determine answer by answer |
| Executor.CreatesOnlyWhenRecorded | services/control_plane/executor.py:417-450 | at most one create, right after its recorded authorization, and none in a reconcile-only delivery |
| Executor.CreateRestsOnEvidence | services/control_plane/executor.py:328-450 | create is called exactly when both lease checks, the binding, the full effect evidence, the record and the expiry pass; the job, the intent and the money are then this command's |
| Executor.EffectExplained | services/control_plane/executor.py:447-582 | each disposition says what was called and answered: retry only on certain failure or a completed empty lookup, created and adopted name their link |
| DeliveryOutcomes.UnheardFails | services/control_plane/executor.py:328-360 | without a lasting lease, or when intent or context cannot be read, the delivery raises and has settled nothing |
| DeliveryOutcomes.UnboundEscalates | services/control_plane/executor.py:491-516 | the first of the eight bindings that does not hold escalates the delivery under its own name, with a dead-lettered job, before the verdict matters |
| DeliveryOutcomes.UnboundIsBroken | services/control_plane/executor.py:491-516 | a delivery that is not bound always has such a first binding |
| DeliveryOutcomes.DenialsAreSorted | services/control_plane/executor.py:373-415 | a bound delivery the gate denies escalates with a dead-lettered job exactly when the plan or the intent is at fault, and otherwise is suppressed with the job completed under the decision's digest, for fresh truth when that is among the reasons |
| DeliveryOutcomes.PaidOrderIsSuppressed | services/control_plane/executor.py:383-408 | in terms of the inputs: a bound delivery for an order that is not unpaid is suppressed for fresh truth exactly when its plan is an earlier allowed decision on this proposal, and escalated otherwise |
| DeliveryOutcomes.AllowedIsPerformed | services/control_plane/executor.py:417-489 | an allowed delivery records its authorization and then performs the effect: a reconcile-only one only looks up, any other creates unless the link's expiry is out of its window, each answer with its exact result and whole job |
| DeliveryOutcomes.LookupTable | services/control_plane/executor.py:518-616 | every answer of a lookup has one exact result: adopted under the matching link, retried, requeried after the backoff, dead-lettered on the last attempt, or escalated under its own reason |
| DeliverySteps.HandlerAgrees | services/control_plane/create_effect_worker.py:1183-1212 | whatever a delivery answers, the handler's instruction for its disposition settles the stored job as the executor settled its own copy |
| Executor.PlannedLinkIsNeverTooSoonOrLate | services/control_plane/assessment_intent.py:1048-1055 | a planner-built link passes its expiry check whenever the gate still allows the proposal, for any skew up to a day |
| Executor.RecordIntent | services/control_plane/executor.py:148-177 | a recorded intent matches its own command |
| EffectRows.EffectRepository.RecordEffectAuthorization | services/control_plane/create_effect_worker.py:801-906 | commits exactly the authorized rows, or changes nothing; which rows those are is in `EffectRows.AuthorizedRows` |
| EffectRows.EffectRepository.PersistResult | services/control_plane/create_effect_worker.py:908-1110 | commits every guarded update of a result, or rolls all of them back; which rows those are is in `EffectRows.CommittedRows` |
| EffectRows.AuthorizationInStep | services/control_plane/create_effect_worker.py:871-895 | authorization leaves exactly the triple of its mode |
| EffectRows.ResultInStep | services/control_plane/create_effect_worker.py:960-1100 | a persisted result moves a matching triple to the matching triple of its disposition |
| EffectRows.CommittedRows | services/control_plane/create_effect_worker.py:960-1100 | which results commit on which rows, and which result writes each state, action status, instrument status, version and link: a suppression closes the case as paid exactly when the order was paid, and as policy or escalated by whether the action had run |
| EffectRows.AuthorizedRows | services/control_plane/create_effect_worker.py:801-906 | which rows an authorization of either mode passes on, and the one step it takes them |
| EffectRows.SettledRowsRefuse | services/control_plane/create_effect_worker.py:855-868 | active and closed rows refuse every authorization and every result but a link |
| Outbox.StoredIsChain | services/control_plane/outbox.py:126-207 | every stored value is valid, versions count up from zero, and each follows by one real transition |
| Outbox.CreateIsFresh | services/control_plane/outbox.py:209-232 | a job is created exactly from clean names, a digest and an attempt to spend, and starts fresh |
| Outbox.StaleReadChangesNothing | services/control_plane/outbox.py:422-426 | a request computed from an older stored value changes nothing |
| Outbox.TerminalAbsorbs | services/control_plane/outbox.py:254-255 | completed and dead-lettered jobs never change again |
| Outbox.AttemptsAreGrants | services/control_plane/outbox.py:263-297 | attempts equal the deliveries granted, and transitions stay within two per delivery |
| Outbox.LifeIsBounded | services/control_plane/outbox.py:263-297 | at most max_attempts deliveries and twice as many stored transitions |
| Outbox.ClaimMoves | services/control_plane/outbox.py:234-297 | a claim leases with one more attempt, reclaim only after expiry and then reconcile-only, or dead-letters |
| Outbox.SettlementMoves | services/control_plane/outbox.py:299-409 | completing, requeueing and burying settle a live lease and release it |
| Outbox.LastRequeueNeedsShortReason | services/control_plane/outbox.py:331-377 | the last requeue succeeds exactly when the reason has at most 489 characters |
| Outbox.LongReasonWitness | services/control_plane/outbox.py:364 | a 490-character reason is valid text and still too long behind the prefix |
| JobTransitions.ClaimTable | services/control_plane/outbox.py:234-297 | when a valid job can be claimed, and the whole job a claim leaves: a lease on the next attempt under a token of its own grant, or the burial of a stale last lease |
| JobTransitions.CompleteTable | services/control_plane/outbox.py:299-329 | when completion is accepted, and the whole job it leaves; repeating it changes nothing |
| JobTransitions.RequeueTable | services/control_plane/outbox.py:331-377 | when a requeue is accepted, and the whole job it leaves: pending from now plus min(maximum, base * 2^(attempts-1)), but for the rounding family, or buried once its attempts are spent |
| JobTransitions.BuryTable | services/control_plane/outbox.py:379-409 | when a burial is accepted, and the whole job it leaves |
| JobTransitions.TokensDiffer | services/control_plane/outbox.py:277-283 | over every history of one job, two of its leases never share a token, or a collision of SHA-256 is exhibited |
| JobTransitions.IsoIsTimestamp | services/control_plane/outbox.py:279-283 | the lease end in a token is the timestamp with an explicit zero offset, without a zero fraction |
| Backoff.ComputeDelay | services/control_plane/outbox.py:90-100 | the early-exit loop computes the schedule's recursive form |
| Backoff.DelayExact | services/control_plane/outbox.py:93-100 | the delay is min(maximum, base * 2^(n-1)), one microsecond more exactly on the rounding family |
| Backoff.DelayBounds | services/control_plane/outbox.py:90-100 | the delay lies between base and maximum and never shrinks |
| Backoff.EvenMaximumIsExact | services/control_plane/outbox.py:93-100 | with an even maximum the documented formula is exact |
| Backoff.RoundingWitness | services/control_plane/outbox.py:97-98 | base 2, maximum 5, second attempt: 5 instead of 4 |
| PaymentLinks.SixMonthsHold181Days | packages/razorpay/payment_links.py:42-48 | any six calendar months with day clamping hold at least 181 days |
| PaymentLinks.ExpiryNeverBlocks | packages/razorpay/payment_links.py:106-116 | inside the proposal's life, up to a day of skew, both expiry bounds hold |
| PaymentLinks.DayOfSkewIsTheLimit | packages/razorpay/payment_links.py:106-116 | no planned link is ever refused while its proposal may still be allowed, if and only if the skew is at most a day |
| PaymentLinks.SixMonthsOrder | packages/razorpay/payment_links.py:42-48 | six months on, two instants keep their order exactly unless they are clamped to one day and the earlier has the later time of day |
| PaymentLinks.SixMonthsNotMonotone | packages/razorpay/payment_links.py:42-48 | two concrete instants of the failing family |
| Gate.DeterministicGate.Evaluate | packages/domain/gate.py:361-505 | the appended reasons are those of the gate's function, which `GateReasons.ReasonsExactly` and `GateReasons.ReasonsInOrder` determine |
| Gate.AllowedIffEvidence | packages/domain/gate.py:375-492 | an effect decision on a collection proposal is allowed exactly on the listed evidence: below the approval threshold, confident and unflagged or under a fitting approval, and planned by an earlier allowed decision on it |
| Gate.AllowedIsTimely | packages/domain/gate.py:379-382 | an allowed decision falls inside the proposal's life up to the skew |
| Gate.ApprovalChangesOnlyApprovalReasons | packages/domain/gate.py:464-484 | replacing the approval never changes the ordered list of the other reasons |
| Gate.ApprovalUnlocks | packages/domain/gate.py:507-527 | an approval makes a decision allowed exactly when only approval reasons stood and it is granted, in its window and bound to this proposal |
| GateReasons.ReasonsExactly | packages/domain/gate.py:280-545 | each of the forty-three reasons is in a decision of either stage exactly when its condition on the fields of proposal, context, policy and plan holds: among them the five causes that need an operator, the four faults of an approval, the actionable states and the binding of the plan |
| GateReasons.ReasonsInOrder | packages/domain/gate.py:361-505 | every decision lists its reasons in one fixed order, each at most once |
| GateReasons.ClearableReasons | packages/domain/gate.py:82-95 | an approval may clear the five causes and the five approval faults and nothing else |
| GateReasons.PolicyDecisionIsPlan | packages/domain/gate.py:529-545 | what the policy stage decided on a proposal binds as its plan at the effect stage exactly when it was allowed, under the same policy version, and neither later nor on a later case |
| CaseRuns.RunSound | packages/domain/aggregate.py:562-681 | in every reachable case PAID or OVERPAID means closed, OVERPAID means duplicate review, and a recovered case holds paid or exceptional truth |
| CaseRuns.CommandLawful | packages/domain/aggregate.py:769-819 | every accepted command takes graph edges only, raises one event exactly when it changes something, and only begin_execution enters EXECUTING; the exact next case is in `CaseTable.CommandTable` |
| CaseTable.CommandTable | packages/domain/aggregate.py:176-652 | a valid case accepts a command exactly when it names the current version and its guard holds in order of time, or nothing is left to do; the whole next case and the event of each of the nineteen commands |
| CaseRuns.RunOnward | packages/domain/states.py:64-219 | over runs versions and times ascend, settled truth stays settled, and terminal states only move to duplicate review |
| CaseRuns.OriginalPaidLands | packages/domain/aggregate.py:562-614 | from every reachable case an original payment is accepted exactly when the case is started, truth is not EXCEPTION and time does not run backwards, and then it closes collection |
| CaseRuns.DecisionsUsedOnce | packages/domain/aggregate.py:736-756 | no two accepted commands of a run use the same gate decision |
| CaseRuns.ExecutionSafety | packages/domain/aggregate.py:408-438 | every entry to EXECUTING, in every run, uses a fresh effect decision at the exact version, after the deadline, on unpaid truth; whatever evaluation produced it judged this very proposal on full effect evidence, or two texts behind one digest are exhibited |
| CaseRuns.PendingKeyWasProposed | packages/domain/aggregate.py:293-376 | in every run the pending action key was set by an earlier approval request or authorization of a collection proposal |
| CaseRuns.EntersExecuting | packages/domain/aggregate.py:408-438 | a valid case enters EXECUTING exactly by a begin_execution that the case clears, against its current version and in time order |
| CaseRuns.RecoveryIsReachable | packages/domain/aggregate.py:176-652 | an undisturbed recovery is never refused: from any fresh case its seven commands land and leave it RECOVERED and PAID under the instrument |
| Json.ParsePrint | packages/domain/canonical.py:86-99 | the reader undoes the printer on every canonical value, in both of the program's reading modes |
| Json.PrintInjective | packages/domain/canonical.py:86-99 | canonical text determines its value |
| Json.ParsedIsCanonical | services/control_plane/effect_command_codec.py:363-381 | whatever is read is canonical as soon as it holds no float |
| Evidence.ToCanonicalPrimitive | packages/domain/canonical.py:57-83 | the dictionary filled key by key and the list built item by item are the specified normal form |
| Evidence.NormalizedIsCanonical | packages/domain/canonical.py:57-83 | no float survives normalization and every object comes out sorted |
| Evidence.OrderDoesNotMatter | packages/domain/canonical.py:74-80 | the same entries in any order normalize to the same value |
| Evidence.NormalizesExactly | packages/domain/canonical.py:57-83 | exactly the values of text keys, finite decimals and no floats, bytes or foreign objects, all the way down, have a normal form |
| Evidence.NormalFormStands | packages/domain/canonical.py:57-83 | a normal form says what its value says: scalars as themselves, lists item by item, mappings key by key |
| Evidence.StrippedExactly | packages/domain/canonical.py:46-54 | stripping a decimal keeps its value and leaves no trailing zero |
| Calendar.FormatThenParse | packages/domain/canonical.py:30-43 | formatting then parsing a timestamp is the identity for every representable instant |
| Calendar.ParseNotInjective | packages/domain/canonical.py:36-43 | every representable instant has a second accepted spelling |
| Calendar.CanonicalIsWritten | packages/domain/canonical.py:30-43 | of the accepted texts, those of the canonical shape are exactly those formatting writes for their own instant |
| Calendar.OneCanonicalSpelling | packages/domain/canonical.py:30-43 | no two accepted texts of one instant both have the canonical shape |
| ProposalCodec.ProbabilityInverse | services/control_plane/effect_command_codec.py:395-405 | every normalized probability is read back from the one text it renders to |
| ProposalCodec.ProposalRoundTrip | services/control_plane/effect_command_codec.py:408-459 | every valid proposal is read back from its own JSON |
| ProposalCodec.ProposalTextInjective | packages/domain/actions.py:124-147 | equal canonical texts mean equal proposals |
| ProposalCodec.PlanRoundTrip | services/control_plane/effect_command_codec.py:468-516 | an allowed plan is read back exactly when it passes the decoder's field checks |
| ProposalCodec.SameKeySameAction | packages/domain/actions.py:112-123 | two proposals share an action key exactly when merchant, case, decision version, attempt and type agree, or their key texts collide |
| PayloadDigests.SamePayloadSameCommand | services/control_plane/executor.py:88-105 | one payload digest means one create command, its proposal, plan, request and account, or a collision is exhibited |
| PayloadDigests.SameCancelSameCommand | services/control_plane/cancellation.py:180-243 | one payload digest means one cancellation command, its proposal, plan and target, or a collision is exhibited |
| WrittenForms.ProposalWritten | packages/domain/actions.py:128-148 | the JSON of a proposal, each value under its own key |
| WrittenForms.DecisionWritten | packages/domain/gate.py:264-277 | the JSON of a decision, each value under its own key |
| WrittenForms.KeyWritten | packages/domain/actions.py:112-123 | what an action key is the digest of, each value under its own key |
| WrittenForms.CreatePayloadWritten | services/control_plane/executor.py:92-105 | what a create payload digest is taken over, each value under its own key |
| WrittenForms.RequestWritten | packages/razorpay/payment_links.py:118-135 | the create body of a request without customer: its money and reference, nothing partial, no UPI, no messages |
| WrittenForms.TargetWritten | services/control_plane/cancellation.py:166-179 | the JSON of a cancellation target, each value under its own key |
| WrittenForms.TargetDigestWritten | services/control_plane/cancellation.py:180-187 | what a target digest is taken over |
| WrittenForms.CancelPayloadWritten | services/control_plane/cancellation.py:233-243 | what a cancellation payload digest is taken over, each value under its own key |
| CommandCodec.WalkJson | services/control_plane/effect_command_codec.py:255-293 | the accumulating walk computes the running totals of the walk's function, which `CodecTables.WalkExactly` determines |
| CommandCodec.WalkedIsWithin64 | services/control_plane/effect_command_codec.py:262-265 | whatever the walk accepts holds only 64-bit integers |
| CodecTables.WalkExactly | services/control_plane/effect_command_codec.py:255-293 | the walk accepts exactly the values of at most twelve levels, 64-bit integers, no floats and an estimated size of at most 16384, and then answers that size |
| CodecTables.AccountsExactly | services/control_plane/effect_command_codec.py:519-523 | the privacy scan finds exactly the isolated runs of ten to nineteen digits |
| CodecTables.EncodeExactly | services/control_plane/effect_command_codec.py:582-689 | a command is encoded exactly when its request is private and names only order and case, its parts are consistent, and body and envelope can be stored; what is written is that envelope, value by value |
| CodecTables.DecodeExactly | services/control_plane/effect_command_codec.py:700-791 | a text decodes to a command exactly when it is the encoding of that valid command, the plan's policy version is an identifier and its aggregate version is not negative |
| CommandCodec.RequestRoundTrip | services/control_plane/effect_command_codec.py:534-596 | an encodable request is read back from its primitive |
| CommandCodec.EncodeThenDecode | services/control_plane/effect_command_codec.py:672-791 | every encodable command decodes to itself, from mapping and text alike, exactly when its plan survives the decoder's checks |
| EncodableCommands.OrdinaryIsEncodable | services/control_plane/effect_command_codec.py:672-697 | every bound command with 64-bit numbers and short texts is encoded |
| EncodableCommands.EncodedButRefused | services/control_plane/effect_command_codec.py:468-516 | any such command, its plan's policy version emptied or its aggregate version made negative, is encoded and then refused by the decoder |
| EncodableCommands.EncoderAcceptsMore | services/control_plane/effect_command_codec.py:468-516 | a concrete command of each kind |
| EncodableCommands.GatePlansSurvive | packages/domain/gate.py:110-111 | a command whose plan the gate made is decoded back whenever it is encoded |
| CommandCodec.DecodeThenEncode | services/control_plane/effect_command_codec.py:700-791 | every decoded text is the canonical encoding of the command it decodes to |
| CommandCodec.DecodeMappingThenEncode | services/control_plane/effect_command_codec.py:700-791 | every decoded mapping has the canonical text of the command's encoding |
| Ledger.VerifyLedger | packages/domain/ledger.py:88-210 | the one-pass verifier reports the first bad entry with its reason and hashes, or clears the chain; what makes an entry bad is in `LedgerTables.FaultTable` |
| Ledger.VerdictIsUnique | packages/domain/ledger.py:88-210 | a chain has exactly one verdict |
| LedgerTables.FaultTable | packages/domain/ledger.py:88-210 | an entry is at fault exactly under the first of ten ordered checks that fails, with expected and actual hash shown exactly for the two hash mismatches |
| LedgerTables.TimesAscend | packages/domain/ledger.py:155-162 | in a sound chain no entry is recorded before any earlier one |
| LedgerTables.AppendedEntry | packages/domain/ledger.py:235-270 | the entry an append adds, field by field |
| LedgerTables.RefusalTable | packages/domain/ledger.py:235-270 | an append is refused exactly for a bad type, a payload without canonical form, or an earlier time |
| Ledger.DecisionLedger.Load | packages/domain/ledger.py:216-221 | stored entries are loaded exactly when they verify, and then unchanged |
| Ledger.DecisionLedger.Append | packages/domain/ledger.py:235-270 | an accepted append adds exactly the specified entry and the chain still verifies; a refused one changes nothing |
| Ledger.DecisionLedger.Verify | packages/domain/ledger.py:272-273 | a ledger built by appends always verifies in full |
| Ledger.AppendKeepsSound | packages/domain/ledger.py:235-270 | every accepted append leaves a sound chain |
| Ledger.SameHashSameEntry | packages/domain/ledger.py:83-85 | entries with equal hashes are equal or exhibit a collision |
| Ledger.EqualHeadsEqualLedgers | packages/domain/ledger.py:83-210 | two sound ledgers of one case with equal heads are equal entry by entry, or exhibit a collision |
| Cancellation.CancelExecutor.Execute | services/control_plane/cancellation.py:506-729 | the ordered reads, decisions and calls and the result are those of the delivery's function, which the `CancelOutcomes` rows determine answer by answer |
| Cancellation.CancelIsCleared | services/control_plane/cancellation.py:519-692 | a cancel call follows two matching cancellable binding reads, two allowed decisions and a matching fetch that is created and unpaid; at most one, none when reconcile-only |
| Cancellation.CancelsExactly | services/control_plane/cancellation.py:506-692 | cancel is called exactly when lease, rows, provider truth, decisions and record all clear it |
| Cancellation.DeliverySettlesSafely | services/control_plane/cancellation.py:780-971 | a delivery that returns completes its job only on a last fetch that is matching and cancelled or expired, and after money leaves it neither completed nor pending |
| Cancellation.MoneyReturnsExactly | services/control_plane/cancellation.py:780-971 | a delivery that fetched money returns exactly when its lease lasts at settling and, after a cancel, its last row read answers |
| Cancellation.HandledSafely | services/control_plane/cancellation_worker.py:1092-1154 | returned or raised, a delivery succeeds only on a matching dead link; after money it is buried exactly when it returned and was persisted, and otherwise retried reconcile-only |
| Cancellation.MoneyCanStayPending | services/control_plane/cancellation_worker.py:1129-1138 | every delivery whose lease runs out between fetching money and settling is retried reconcile-only instead of buried |
| CancelOutcomes.UnheardFails | services/control_plane/cancellation.py:506-545 | without a lasting lease, or when rows or context cannot be read, the delivery raises and has done nothing |
| CancelOutcomes.UnboundEscalates | services/control_plane/cancellation.py:745-766 | rows that are not this command's escalate under the first binding that does not hold |
| CancelOutcomes.UnboundHasName | services/control_plane/cancellation.py:745-766 | rows that are not bound always have such a first binding |
| CancelOutcomes.DenialBlocks | services/control_plane/cancellation.py:506-600 | a denial blocks the delivery with a dead-lettered job that says whether the authorization itself was at fault |
| CancelOutcomes.ResolutionTable | services/control_plane/cancellation.py:780-862 | each pair of row status and provider status has one settlement, and only a created link under a cancellable row goes on |
| CancelOutcomes.AllowedDeliveryTable | services/control_plane/cancellation.py:506-971 | every answer of an allowed delivery leads to one exact result and whole job, with the events before it, up to and after the cancel call |
| Incidents.NeverAsksForMissingEdge | services/control_plane/incidents.py:147-265 | the detector never asks for an edge the graph lacks, and reports a change exactly when the state moves |
| Incidents.VersionCountsChanges | services/control_plane/incidents.py:228-251 | the version counts the state changes of a run |
| Incidents.ConfirmedNeedsTwo | services/control_plane/incidents.py:180-205 | a confirmed incident took at least two evaluations |
| Incidents.ConfirmedCoolsBeforeNormal | services/control_plane/incidents.py:206-226 | from CONFIRMED to NORMAL every run passes COOLING and takes the whole cooling period of evidence time |
| Incidents.TwoAlarmsConfirm | services/control_plane/incidents.py:180-198 | from NORMAL two alarming windows do confirm an incident |
| Incidents.CalmEndsWhenCooled | services/control_plane/incidents.py:206-226 | from CONFIRMED two calm windows end it exactly when a cooling period lies between them |
| Incidents.ExpiryBeatsDegradation | services/control_plane/incidents.py:206-213 | a confirmed incident cools on a strongly degraded window exactly when its evidence has expired |
| Incidents.EvaluationTable | services/control_plane/incidents.py:147-265 | when a window is refused, and otherwise the whole next projection: its state, version, times, expiry and cooling window |
| Incidents.OneBecoming | services/control_plane/incidents.py:147-226 | every window leads to exactly one state of the table |
| Normalization.UnnormalizedScores | packages/diagnosis/inference.py:186-206 | every running product is the smoothed score and is positive |
| Normalization.Normalize | packages/diagnosis/inference.py:209-225 | the result is the half-even rounding with the residual on the first largest, refused exactly without mass and so never for positive scores |
| Normalization.SumsToOne | packages/diagnosis/inference.py:222-225 | the published probabilities sum to exactly one |
| Normalization.InRange | packages/diagnosis/inference.py:209-225 | every published value is in [0, 1] whenever classes * (classes - 1) is at most twice the quanta in one; the taxonomy has six classes |
| Normalization.BoundIsNearlyNeeded | packages/diagnosis/inference.py:222-225 | that bound admits 1 414 214 classes, and with 1 414 220 the corrected winner can be negative |
| Normalization.NearExact | packages/diagnosis/inference.py:215-225 | non-winners are within half a quantum of their exact posterior, the winner within (n-1)/2 |
| Normalization.PredictionNearBest | packages/diagnosis/inference.py:159-160 | the predicted class is exactly within n/2 quanta of the most probable one |
| VirtualClock.Clock.Schedule | packages/simulator/engine.py:51-58 | adds exactly one item with the next sequence number, or refuses the past and changes nothing |
| VirtualClock.Clock.RunUntil | packages/simulator/engine.py:60-69 | emits exactly the due items in order, leaves the later ones, and never moves time back |
| VirtualClock.Clock.Drain | packages/simulator/engine.py:71-74 | empties the queue; everything emitted so far is the stable sort of everything scheduled |
| VirtualClock.EmittedIsSorted | packages/simulator/engine.py:43-74 | at every moment emitted items followed by the ordered queue are the stable sort of all that was scheduled |
| VirtualClock.StableSortOrders | packages/simulator/engine.py:28-33 | the reference sort is a strictly ordered permutation |
| VirtualClock.OrderedIsUnique | packages/simulator/engine.py:28-33 | a strictly ordered list is determined by its items |
| Simulator.AcceptEvents | packages/simulator/engine.py:353-376 | computes the intake's function, which `SimulatorTables.IntakeTable` determines |
| Simulator.ListViolations | packages/simulator/engine.py:441-479 | reports in the order of their names the rules that `SimulatorTables.RulesExactly` says are broken |
| SimulatorTables.IntakeTable | packages/simulator/engine.py:353-376 | intake keeps the first authentic delivery of every identity, in order, and counts repeats and distrusted deliveries |
| SimulatorTables.NothingIsLost | packages/simulator/engine.py:353-376 | every delivery that arrived is kept, a repeat or distrusted |
| SimulatorTables.OpensAtEarliest | packages/simulator/engine.py:101-128 | a case opens at the earliest failure accepted, and not at all without one |
| SimulatorTables.EventsAreOrdered | packages/simulator/generator.py:368-381 | sorting puts events in delivery order and neither loses nor invents one |
| SimulatorTables.RulesExactly | packages/simulator/engine.py:441-479 | the checker reports every broken rule once and nothing else, and nothing for a gated action |
| SimulatorTables.QuietIsAnArc | packages/simulator/engine.py:482-500 | quiet hours are an arc of the clock from their start, across midnight or not |
| SimulatorTables.ActTable | packages/simulator/engine.py:169-350 | whether a decision runs, when, whether it recovers, and exactly which violations it is charged with |
| SimulatorTables.OracleIsBest | packages/simulator/policies.py:273-316 | the oracle acts exactly where only an action recovers the order, and then takes the faster one |
| SimulatorTables.PolicyTable | packages/simulator/policies.py:74-137 | what each baseline acts on, when, and under which gates; the fixed ungated one is the only policy without them |
| Simulator.SortOrders | packages/simulator/engine.py:479 | sorting puts the violations in name order and changes none of them |
| Simulator.KeyedInt | packages/simulator/generator.py:78-81 | a keyed integer lies between its bounds whatever the hash |
| Simulator.GeneratedIsPlausible | packages/simulator/generator.py:151-156 | generated natural recoveries come between 25 and 105 seconds, whatever the hash |
| Simulator.ActsCleanly | packages/simulator/engine.py:218-287 | a settled policy's case records no violation and never acts on a naturally recovered order |
| Simulator.ZeroHardViolations | packages/simulator/engine.py:634-700 | B0, B2, B3, RetryWise and the oracle record no violation for any seed, case count, keyed hash and model |
| Simulator.GatedActionsPassTheChecker | packages/simulator/engine.py:405-479 | a gated executed action passes the ungated checker but for quiet hours, and then ran no earlier than their end |
| Simulator.UngatedViolates | packages/simulator/policies.py:89-103 | the ungated baseline contacts the customer in every opened case without consent |
| Simulator.GeneratedCaseOpens | packages/simulator/generator.py:186-260 | every generated case opens, whatever the seed, index and hash |
| Simulator.UngatedBaselineFails | packages/simulator/engine.py:634-700 | there is a hash under which, for every seed and count, each of the baseline's cases is a violation |
| EffectRows.ReconcileOnlyNeedsDoubt | services/control_plane/create_effect_worker.py:878-883 | a reconcile-only delivery passes exactly from ACTION_UNCERTAIN, never from EXECUTING |
| CreateProtocol.ReconcileOnlyNeverCreates | services/control_plane/executor.py:426-434 | a reconcile-only delivery never calls create |
| CreateProtocol.StaleDeliveryChangesNothing | services/control_plane/create_effect_worker.py:149-167 | a delivery whose lease was taken over changes neither job, rows nor links |
| PaymentLinks.DecisionIsSafe | packages/razorpay/payment_links.py:225-268 | a link is adopted exactly when a completed lookup lists it alone and its id, reference, money, modes and status are those of the request; a retry needs a completed empty lookup, and each other answer has its own escalation |
| PaymentLinks.FieldIsFirst | packages/razorpay/payment_links.py:187-205 | a field of a candidate is its first member of that name, and null without one |

## Left out

- HTTP, authentication, logging, the web console, SQL text, connections, TLS and secrets: transport and configuration.
- The create worker's other columns (lease copies, timestamps, provider metadata, audit rows): only the states, version and link that guards read are kept.
- The joined facts re-read by the authorization transaction (keys, references, order truth, merchant, account) are one boolean; the fence's clock comparison is another.
- Executor.CreateExecutor.Execute: the authorization recorder is always present, as the workers build their executors; the source's constructors of both executors also admit none.
- Liveness: nothing says that a delivery eventually settles; `CrashRecovery` only shows that particular runs succeed.
- CreateProtocol.AtMostOneLink: a suppressed completion may leave a link that an earlier ambiguous create made; the theorem bounds the number of links, it does not say that a suppressed case has none.
- UTF-8 encoding and lone surrogates: text is a sequence of Unicode scalar values, and sizes count their UTF-8 bytes; a lone surrogate escape is refused by the reader.
- JSON floats are kept as their source token; NaN and infinities are recognised only to be refused.
- The codec's filter on sensitive key names: every key outside the closed schema is refused anyway, so it changes which error is raised, not what is accepted. A plan with reasons is refused while it is read instead of right after.
- Values of a probability equal to minus zero, and decimals that are not in normal form: a probability is modelled by its normalized value.
- `strftime` pads years below 1000 to four digits here; some platforms do not.
- `datetime.timestamp()` is exact here; its binary rounding could matter only far beyond the year 2200.
- The provider reference's digest is an unknown text of 26 base 32 characters; its slug is computed for ASCII identifiers, where compatibility normalization changes nothing.
- Payloads of case events are left out; each event keeps its kind, version and time.
- Decimal contexts of 28 and 60 digits: rates, scores and posteriors are exact rationals, and only the final quantization rounds. The evidence ranking of a diagnosis is left out.
- The planner beyond its lifetimes, the approval and cancellation codecs, the assessment rows, the Gemini client, merchant and diagnosis switches, webhook normalization and operator reads.
- The simulator's audit entries, money metrics, percentiles and bootstrap; the learned policy is an arbitrary choice of action, which is all the safety result needs.
- VirtualClock.Clock.PopLeast: takes the least item by search; the heap's internal layout is a library matter.
- Provider events, prompt text and schema versions of a scenario that no guardrail reads.
