# Mail agents: a Dafny model of sending, billing, mail parsing and deployment

This project models the parts of the mail agent service whose correctness is hardest to see by reading one
function, and proves what they guarantee. Every operation that the service runs between two awaits is one step;
steps of different handlers interleave freely where the service lets them, an operation may throw, and a handler
may die anywhere. `dafny verify dfyconfig.toml` checks everything.

How the modules follow the service:

- `Jobs`, `OutboundProtocol`, `OutboundOutcome`, `OutboundAttempts`, `OutboundHandler`: one outbound job between the queue, any
  number of redelivered handlers and provider webhooks. `OutboundProtocol` is the state machine over steps,
  `OutboundHandler` the handler as the straight-line program it is, proved to go through the steps of that machine.
- `Billing`, `Credits`, `Interruptions`, `Receipts`, `Webhook`: credit accounts with their ledger, reservations over
  whole runs of any number of jobs and handlers, which interruptions harm them, payment receipts, terminal delivery
  events.
- `Enqueue`, `Idempotency`: putting a draft into the queue with its compensation, and the key protocol around it.
- `Text`, `Base64`, `TextDecoding`, `Mime`, `EmailParser`, `EntityRoundTrip`, `HeaderRoundTrip`, `PartRoundTrip`,
  `MimeRoundTrip`, `LeafRoundTrip`: the MIME printer, the parser, the proof that the second undoes the first, and what the
  parser makes of bodies and headers that the printer does not write.
- `InternalDelivery`, `Attachments`, `GetOrCreate`, `Routing`: delivery to own mailboxes, attachment rows, threads
  and tasks by key, recipient routing and what a send costs.
- `Deployments`, `ExecutionTarget`: rollout, rollback and activation of deployments; which agent acts for a mailbox.
- `ProofFingerprint`: the canonical form of payment proofs.

## What the proofs found

Some promises hold only under a condition. In each case the model keeps the code as it is, gives an input that
breaks the promise, and proves the condition.

- **At most one acceptance by the provider** holds in every run exactly when no exception hands the catch block to a
  handler that does not hold the claim and still has a retry to write (`OnceExactlyWhenHarmless`). The exceptions
  that do: a read or the claim statement before the claim, the unguarded status write of the in-doubt branch
  (src/handlers/queues.ts:347-352), and a dead letter that cannot be queued.
- **At most maxRetries + 1 attempts** holds in every run exactly when the catch block is left to the claim holder with a
  current retry count, or when there are no retries and the job is always read (`BoundedExactlyWhenTame`). Each other
  exception alone allows any number of attempts (`AttemptsUnbounded`): the reads right after a claim
  (src/repositories/mail.ts:3679, src/handlers/queues.ts:383) leave the catch block with the count from before the
  claim, and handlers without a claim write `retry` once for each of them that is waiting.
- **Credits.** Interruptions between a handler and its money fall into ten kinds (`Credits.Fault`). For each promise the
  kinds that break it are known exactly, each by a run of its own:
  every capture and release finds its credits exactly when no reservation can be used twice (`NeverMissesExactly`);
  available credits never go below zero exactly when nothing happens but lost releases, lost enqueues and late grants
  (`NeverNegativeExactly`); reserved credits are exactly what is due, whenever no handler stands before a capture or a
  release, exactly when nothing happens but early reconciles and late grants (`AccountedExactly`); available and reserved
  credits together are then the ledger exactly when nothing happens but lost releases and lost enqueues
  (`BalancedExactly`). So a crash between debit and capture, two overlapping settlements of one job, two deliveries that
  give up on one job, and a reconcile for one job between the debit and the capture of another each break a promise.
- **All-or-nothing enqueue** fails exactly in four places (`RefusedLeavesNothing`): the claim and the read that confirms
  it lie outside the compensated block, and creating a thread or reserving credits can take effect and then throw in
  the read-back, before the program has noted what it must undo.
- **Pending or failed receipts without ledger entry** holds, with up to k requests under way at a time, exactly when
  k is at most 1, the receipt carries no proof, or it is an upgrade without credits (`CleanExactlyWhenAlone`): an
  overlapping request can mark a receipt failed after it was settled and its credits granted. **No settlement requested
  again** after a successful one is stored holds exactly when k is at most 1 or there is no proof
  (`SettledOnceExactlyWhenAlone`).
- **At most one draft under an idempotency key** holds in every run exactly when no exception falls between the insert
  of the draft and the return of the function that inserts it (src/repositories/mail.ts:1551-1603), and **at most one
  hand-over to the queue** exactly when no `send` takes effect and then throws (`OnceExactly`).
- **A retried idempotent send** hands its job to the queue exactly when there is no job yet and the draft can still be
  sent (`RetryResumes`). A death between the claim of the draft and the insert of the job leaves a draft that nothing
  ever sends (`AbandonedForGood`); a death between that insert and `OUTBOUND_SEND_QUEUE.send` leaves a job that no retry
  hands over, although retries complete the key (`StrandedForGood`).
- **Rollout, rollback and activation** restore all statuses when a status write throws, but not when the read after the
  writes does: then the switch has happened although the call failed. A deployment that no longer fits its agent, version
  or target at that read is not rolled back either, because restoring begins with that very row and throws
  (`RestoreDeploymentStatuses`): a rollout then leaves its target without an active deployment
  (`UnfitRolloutLeavesNoneActive`), a rollback or activation leaves one that blocks every later rollout to the target
  (`UnfitBlocksTarget`).
- **Raw objects and inbound rows one to one**: the exact places where stopping breaks the correspondence are in
  `InternalDelivery.Leaky`; one is an exception in the read-back after the insert, which deletes the object of a row
  that stays.
- **Attachments come back from a printed message** exactly when no type is multipart and every file name is non-blank
  without quote or semicolon (`RoundTrip`).
- **Text and html come back as strings** exactly when they do not begin with a byte order mark, which the decoder drops
  (`TextsComeBack`).
- **One fingerprint per payment proof** holds exactly when the key comparison never ties two different keys
  (`CanonicalExactlyWhenKeysAreSeparated`); `localeCompare` does tie canonically equivalent strings.
- A delivery event that comes after a bounce captures credits reserved for other jobs (`LateDeliveryTakesForeignCredits`).

Documentation and code agree on the unique ledger keys: migrations/0009_billing_idempotency_guards.sql declares both,
and migrations/0003_agent_deployment_history.sql declares one active deployment per target.

## Model

| member | source | states |
|---|---|---|
| OutboundProtocol.AtMostOneAcceptance | src/handlers/queues.ts:164-568 | in every interleaving of redelivered handlers, webhooks, exceptions and deaths the provider accepts at most once, unless a harmful exception occurs |
| OutboundProtocol.OnceExactlyWhenHarmless | src/handlers/queues.ts:336-566 | the set of exceptions under which every run accepts at most once is exactly the harmless ones, with a run of two acceptances for each other one |
| OutboundProtocol.SecondSend | src/handlers/queues.ts:530-566 | a run from the start with a single harmful exception in which the provider accepts twice |
| OutboundProtocol.OnlyHolderWritesRetry | src/handlers/queues.ts:530-546 | a step that turns the job to retry is the catch block of the claim holder, before any acceptance |
| OutboundProtocol.ClosedStays | src/repositories/mail.ts:3651-3687 | a job that is not open and not being sent is never claimed or sent again, in any continuation |
| OutboundProtocol.ApplyKeeps | src/handlers/queues.ts:164-568 | every step keeps: one claim holder, no open job beside a claim or an acceptance |
| OutboundProtocol.ReadsOpen | src/handlers/queues.ts:172-189 | the four opening reads write nothing and lead to the branch of what they saw |
| OutboundProtocol.DeliverySends | src/handlers/queues.ts:378-476 | an undisturbed delivery of an open job claims it once and gets it accepted once |
| OutboundProtocol.InDoubtDetour | src/handlers/queues.ts:336-352 | after the grace period an unexplained sending job reaches the in-doubt write, whose exception leads to the catch block without a claim |
| OutboundOutcome.UndisturbedDelivery | src/handlers/queues.ts:164-529 | what an undisturbed delivery does to job, message and draft, for every state it can find |
| OutboundOutcome.FailedAttempt | src/handlers/queues.ts:530-566 | a throwing send costs one retry and leaves message and draft alone, or concludes everything as failed |
| OutboundAttempts.AttemptsBounded | src/handlers/queues.ts:378-386 | claims never exceed maxRetries + 1 |
| OutboundAttempts.BoundedExactlyWhenTame | src/handlers/queues.ts:530-566 | for every set of exceptions: all runs keep to maxRetries + 1 claims exactly when each exception in it is tame |
| OutboundAttempts.AttemptsUnbounded | src/handlers/queues.ts:530-541 | for each exception that is not tame and every n, a run from the start with that exception alone and at least n claims |
| OutboundAttempts.WorkEnds | src/handlers/queues.ts:530-566 | however many handlers take part, the job's status moves at most 3 * (maxRetries + 1) + 2 times other than between final statuses |
| OutboundAttempts.StepFalls | src/repositories/mail.ts:3617-3649 | (remaining retries, status rank) never grows and falls with each such move |
| OutboundAttempts.SentMeansEvidence | src/handlers/queues.ts:191-281 | job and draft are called sent, and a settlement is attempted, only after an acceptance or a provider event, whatever throws |
| OutboundHandler.Rows.HandleOutboundSend | src/handlers/queues.ts:164-568 | the handler as a program: its writes are the steps of one handler of the protocol to its end; undisturbed it concludes the rows as `Handled` tells; when it acknowledges is told exactly for every operation that may throw; and it does so only when the job is no longer open |
| OutboundHandler.UndisturbedAcknowledges | src/handlers/queues.ts:336-342 | when every operation works, exactly a young job in flight about which nothing is known is not acknowledged |
| OutboundHandler.FailedSendAcknowledges | src/handlers/queues.ts:530-566 | when only the send of an open job throws, the message is acknowledged exactly when no retry is left or the policy forbids the send |
| OutboundHandler.AcceptedAcknowledges | src/handlers/queues.ts:479-529 | once accepted, the message is acknowledged exactly when the settlement works or the first status write that throws has its dead letter queued, and otherwise as the catch block does |
| OutboundHandler.FailedReadAcknowledges | src/handlers/queues.ts:172-189 | an exception in an opening read is acknowledged exactly when the job is known and has no retry left |
| OutboundHandler.Rows.FinishSent | src/handlers/queues.ts:191-232 | the branch for a sent job, with its dead letters |
| OutboundHandler.Rows.RecoverSending | src/handlers/queues.ts:234-291 | the branch for a job in flight with evidence of acceptance: acknowledged only once the job is sent |
| OutboundHandler.Rows.RejectSending | src/handlers/queues.ts:293-334 | the branch for a job in flight that failed: acknowledged only once the job is failed |
| OutboundHandler.Rows.GiveUp | src/handlers/queues.ts:336-376 | the in-doubt branch: the status write may throw, the other writes swallow their exceptions |
| OutboundHandler.Rows.ClaimOutboundJob | src/repositories/mail.ts:3651-3687 | compare and set from queued or retry to sending; afterwards the job is not open |
| OutboundHandler.Rows.RecordSent | src/handlers/queues.ts:479-529 | status writes after the acceptance, each guarded, and exactly when they end in an acknowledgement, a retry or the catch block |
| OutboundHandler.Rows.CatchError | src/handlers/queues.ts:530-566 | the catch block ends the handler and acknowledges only an exhausted job, whose status is failed if the write worked |
| OutboundHandler.SoloIsRun | src/handlers/queues.ts:164-568 | what one handler does alone is a run of the protocol |
| Billing.TenantBilling.ReserveTenantAvailableCredits | src/repositories/billing.ts:660-685 | moves credits from available to reserved, or does nothing when there are too few |
| Billing.TenantBilling.ReleaseTenantReservedCredits | src/repositories/billing.ts:687-712 | moves credits back, or does nothing when fewer are reserved |
| Billing.TenantBilling.CaptureTenantReservedCredits | src/repositories/billing.ts:714-737 | takes reserved credits, or does nothing when fewer are reserved |
| Billing.TenantBilling.AppendLedgerEntry | src/repositories/billing.ts:908-945 | appends unless an entry with the same key exists |
| Billing.TenantBilling.ReconcileTenantAvailableCredits | src/repositories/billing.ts:629-658 | sums the ledger and sets available credits to what it leaves beside the reserved ones |
| Billing.TenantBilling.SettleOutboundUsageDebit | src/lib/outbound-billing.ts:12-69 | the settlement up to any number of its writes, with or without a working capture |
| Billing.SettlingAgainChangesNothing | src/lib/outbound-billing.ts:41-68 | settling a job any positive number of times equals settling it once, with one debit and the account equal to the ledger |
| Billing.CrashedSettlement | src/lib/outbound-billing.ts:41-68 | after a crash the account is ahead of the ledger by exactly what was appended and not captured; a reconcile closes the gap |
| Billing.Released | src/repositories/billing.ts:687-712 | a release changes neither the ledger nor the sum of available and reserved credits |
| Credits.ReservedIsWhatIsDue | src/handlers/queues.ts:336-566 | with any number of handlers for each job: unless a reservation is used twice, reserved credits are the cost of jobs being enqueued, queued, waiting, in flight or sent without a debit, plus exactly what crashes left stranded or unreleased |
| Credits.ApplyKeeps | src/handlers/queues.ts:164-568 | every step that does not use a reservation twice keeps: one owner for each reservation, reserved credits are the sum of those outstanding, the ledger covers them |
| Interruptions.NeverMissesExactly | src/lib/outbound-billing.ts:67-93 | every capture and release finds its credits in every run exactly when the interruptions allowed contain none of the five that use a reservation twice |
| Credits.AvailableAfterReconcile | src/repositories/billing.ts:629-658 | right after a reconcile, available credits are what the ledger leaves beside the reservations in use, less what is stranded |
| Interruptions.NeverNegativeExactly | src/lib/outbound-billing.ts:12-94 | available credits are never negative in any run exactly when the interruptions allowed are lost releases, lost enqueues and late grants |
| Interruptions.AccountedExactly | src/handlers/queues.ts:336-566 | at rest, reserved credits are exactly what is due in every run exactly when the interruptions allowed are early reconciles and late grants |
| Interruptions.BalancedExactly | src/repositories/billing.ts:629-737 | at rest, available + reserved is the ledger sum in every run exactly when the interruptions allowed are lost releases and lost enqueues |
| Interruptions.StaleReleasesTwice | src/handlers/queues.ts:336-366 | two deliveries find a job in doubt and both give up: its credit is released twice, the second time out of another job's reservation |
| Interruptions.LiveReleasesAndCaptures | src/handlers/queues.ts:336-366 | a delivery gives up while the sender is alive: the credit is released and then captured as well |
| Interruptions.StrayReleasesTwice | src/handlers/queues.ts:367-376 | the dead letter of giving up throws, and the exhausted catch block releases a second time |
| Interruptions.LostStatusReleasesTwice | src/handlers/queues.ts:293-313 | a catch block releases although its status write failed; the next delivery finds the message failed and the job in flight, and releases again |
| Interruptions.OverlapCapturesTwice | src/lib/outbound-billing.ts:41-68 | a run of two handlers that settle one job at the same time: one debit, two captures |
| Interruptions.DoublingEndsShort | src/lib/outbound-billing.ts:67-93 | each interruption that uses a reservation twice alone leads to an account with nothing reserved while a job waits |
| Interruptions.InterruptionGoesNegative | src/lib/outbound-billing.ts:41-68 | a death between debit and capture and a redelivery that only reconciles: available credits end at -1 with one credit reserved for good |
| Interruptions.SettleIsWork | src/lib/outbound-billing.ts:41-68 | a handler that is left alone before a settlement does, statement by statement, the whole settlement |
| Credits.EnqueueKeeps | src/repositories/mail.ts:2193-2199 | an enqueue reserves the cost of its job and keeps the invariant, also when credits do not suffice |
| Credits.UndoKeeps | src/repositories/mail.ts:2312-2314 | the compensation of an enqueue gives its reservation back, and its guard always holds |
| Receipts.GrantedAtMostOnce | src/repositories/billing.ts:804-906 | with requests overlapping and dying anywhere, a receipt has at most one ledger entry, for exactly its credits, and a settled receipt has it |
| Receipts.SequentialRequests | src/routes/api.ts:4814-5242 | with one request at a time, pending or failed receipts have no entry and a stored successful settlement is never requested again |
| Receipts.CleanExactlyWhenAlone | src/routes/api.ts:4856-4890 | with up to k requests under way, pending and failed receipts never have an entry exactly when k <= 1, there is no proof, or the receipt is an upgrade without credits |
| Receipts.SettledOnceExactlyWhenAlone | src/routes/api.ts:4900-4923 | with up to k requests under way, no settlement is requested after a successful one is stored exactly when k <= 1 or there is no proof |
| Receipts.OverlapSettlesAgain | src/routes/api.ts:4900-4923 | a run of two requests in which a settlement is requested again |
| Receipts.RetryConverges | src/routes/api.ts:4814-5242 | after any sequence of dying requests, one that is left alone ends with a settled receipt, one entry and a reconciled account |
| Receipts.LoneRequest | src/routes/api.ts:4814-5242 | for every receipt and every pair of answers: the receipt, the account and the settlement requests that a lone request leaves |
| Receipts.DeclinedStaysOpen | src/routes/api.ts:4920-4940 | a declined settlement leaves the receipt verified with the refusal stored, the account as it was, and the receipt settleable |
| Receipts.DeclinedThenSettles | src/routes/api.ts:4902-4968 | after a declined settlement a next request with an agreeing facilitator settles the receipt, with one entry |
| Receipts.RefusedFails | src/routes/api.ts:4861-4890 | a refused verification fails a pending receipt and grants nothing |
| Receipts.FailedOnlyIfRefused | src/routes/api.ts:4856-4890 | in every run, with any overlap, a receipt is failed only if some verification was refused |
| Receipts.CrashedFinalization | src/routes/api.ts:5205-5219 | between append and reconcile the account lags the ledger by exactly the credits granted; the reconcile closes the gap |
| Receipts.OverlapFailsSettledReceipt | src/routes/api.ts:4856-4890 | a run of two requests that ends with a failed receipt and its credits granted |
| Receipts.Confirmation.ConfirmPayment | src/routes/api.ts:1544-1596 | the request as a program: its writes are the operations of one request of the protocol, to its end, and what it leaves is told by the receipt it found and the two answers |
| Receipts.Confirmation.ConfirmWithFacilitator | src/routes/api.ts:4814-4972 | verification, settlement request and the three status writes; hands on the receipt it wrote |
| Receipts.Confirmation.FinalizeSettlement | src/routes/api.ts:5023-5242 | ledger lookup, append, reconcile and final status |
| Enqueue.Mail.EnqueueDraftSend | src/repositories/mail.ts:2052-2322 | for every place that can throw, before or after its effect: whether the draft is queued or where it is refused, the exact tables afterwards, and the queue |
| Enqueue.QueuedExactlyWhenSound | src/repositories/mail.ts:2052-2258 | when nothing throws a draft is queued exactly when it can be seen and sent, payload and attachments are in order, it has no visible job and its cost is available |
| Enqueue.RefusedLeavesNothing | src/repositories/mail.ts:2060-2079 | a refusal leaves every table unchanged exactly when it did not come from one of the leaky places |
| Enqueue.QueuedOnce | src/repositories/mail.ts:2193-2258 | after success the draft has exactly one visible job, other drafts keep theirs, and reserved credits grew by the cost exactly when it is positive |
| Enqueue.QueuedKeepsConversation | src/repositories/mail.ts:2164-2174 | a queued draft keeps its thread, or gets a new one exactly when its subject is not blank, and its message is in the same thread; other drafts and messages stay |
| Enqueue.Mail.Compensate | src/repositories/mail.ts:2297-2316 | the catch block restores every table from what the program noted |
| Enqueue.Mail.ClaimDraftForSend | src/repositories/mail.ts:2020-2050 | compare and set from draft or approved to queued |
| Enqueue.Mail.RestoreDraftSendState | src/repositories/mail.ts:1209-1252 | restores status and thread when the thread still exists |
| Enqueue.Mail.DeleteThreadIfUnreferenced | src/repositories/mail.ts:1254-1291 | deletes a thread that no visible message and no draft refers to |
| Enqueue.Mail.InsertOutboundJob | src/repositories/mail.ts:2220-2258 | inserts exactly when the draft has no visible job |
| Enqueue.Mail.ReserveCredits | src/repositories/mail.ts:2193-2199 | reserves when chargeable; says exactly when a reservation is left behind unnoted |
| Idempotency.OnceExactly | src/repositories/mail.ts:1510-1603 | every run creates at most one draft under a key exactly when no exception falls between the draft's insert and its return, and hands over at most one job exactly when no hand-over takes effect and throws |
| Idempotency.AtMostOne | src/routes/api.ts:4335-4520 | the same for one run: without such an exception at most one draft, without such a hand-over at most one hand-over |
| Idempotency.AtMostOneJob | src/repositories/mail.ts:2220-2258 | the key's draft never has more than one visible job, whatever throws or dies |
| Idempotency.SecondDraft | src/routes/api.ts:4514-4518 | a run in which a read after the insert throws, the key is given back, and the next request inserts a second draft |
| Idempotency.SecondHandOver | src/repositories/mail.ts:2296-2316 | a run in which `send` takes effect and throws, the job is deleted, and a retry hands over another one |
| Idempotency.OtherFingerprintChangesNothing | src/repositories/mail.ts:2435-2491 | while the key is taken a request with another fingerprint changes nothing, whatever becomes of it |
| Idempotency.RetryResumes | src/routes/api.ts:369-406 | a retry left alone creates no draft; it hands a job to the queue exactly when there is no job and the draft can still be sent, and completes the key exactly then or when it finds a job |
| Idempotency.FreshKeySends | src/routes/api.ts:4446-4512 | a lone request for a free key creates one draft, queues one job and completes the key |
| Idempotency.TakenKeyIsLeftAlone | src/repositories/mail.ts:2435-2491 | a request that finds the key completed, in use without a draft, or taken by another fingerprint changes nothing |
| Idempotency.FailedRequestReleasesKey | src/routes/api.ts:4514-4518 | an exception before the draft is returned gives the key back, and leaves a draft row behind exactly when it falls after the insert |
| Idempotency.AbandonedForGood | src/routes/api.ts:379-383 | after a death between draft claim and job insert no run ever creates a job |
| Idempotency.DeathBeforeJobAbandons | src/repositories/mail.ts:2060-2067 | that death leads there |
| Idempotency.StrandedForGood | src/routes/api.ts:369-406 | after a death between job insert and hand-over no run ever hands a job over |
| Idempotency.DeathBeforeSendStrands | src/repositories/mail.ts:2296 | that death leads there |
| Idempotency.AdvanceKeyKeeps | src/repositories/mail.ts:2435-2549 | reserve, bind, release and complete keep the key's invariant |
| Idempotency.AdvanceDraftKeeps | src/repositories/mail.ts:1510-1603 | so do the insert of the draft, its read-back and the release of the key after an exception |
| Idempotency.AdvanceEnqueueKeeps | src/routes/api.ts:369-406 | replay and enqueue steps keep it too |
| Webhook.StatusesTellDelivery | src/routes/api.ts:3818-3871 | after any non-empty sequence of terminal events the statuses are replied/sent/sent if one was a delivery, and all failed otherwise |
| Webhook.DebitedIfDelivered | src/routes/api.ts:3826-3838 | a chargeable job has exactly one debit if there was a delivery and none otherwise |
| Webhook.ReleasedAtMostOnce | src/routes/api.ts:3838-3846 | at most one release is triggered, exactly when the first event is no delivery and the job had not failed |
| Webhook.OrderDoesNotMatter | src/routes/api.ts:3818-3871 | permuting the events changes neither statuses nor debits |
| Webhook.LateDeliveryTakesForeignCredits | src/routes/api.ts:3828-3847 | bounce before delivery leaves the cost less reserved than delivery before bounce |
| Webhook.Events.HandleTerminalEvent | src/routes/api.ts:3793-3871 | one event from its record to its last status write |
| Base64.AtobUndoesEncode | src/lib/mime.ts:13-19 | decoding an encoding gives the bytes back, for every length |
| Base64.DecodeUndoesPrint | src/lib/email-parser.ts:107-112 | the parser's stripping and decoding undo the printer's encoding and folding |
| Base64.FoldIsRows | src/lib/mime.ts:9-11 | folding gives lines of at most 76 characters whose concatenation is the input (section 6.8 of RFC 2045) |
| Base64.ToBase64 | src/lib/mime.ts:13-19 | the byte loop computes the encoding |
| EmailParser.QpDecodeUndoesWritten | src/lib/email-parser.ts:26-51 | every text of the quoted-printable grammar decodes to what it means (section 6.7 of RFC 2045) |
| EmailParser.DecodeQuotedPrintableBytes | src/lib/email-parser.ts:26-51 | the index loop computes that decoding |
| EmailParser.ParseHeadersBlock | src/lib/email-parser.ts:134-150 | the line loop records the last value of each header |
| EmailParser.CollectContent | src/lib/email-parser.ts:222-265 | the recursion over parts fills the output with text, html and attachments in order |
| LeafRoundTrip.QuotedPrintableParses | src/lib/email-parser.ts:107-119 | an entity whose body is written in quoted-printable, named in any letter case, parses to text, html or one attachment with the bytes that its body means |
| LeafRoundTrip.QuotedPrintableTexts | src/lib/email-parser.ts:222-265 | in particular a text/plain message is its text and a text/html message its html |
| LeafRoundTrip.UnencodedParses | src/lib/email-parser.ts:107-119 | without a known encoding the bytes are the UTF-8 of the body |
| LeafRoundTrip.Base64Parses | src/lib/email-parser.ts:107-112 | a base64 body parses to the bytes that were encoded, however it is folded |
| LeafRoundTrip.BadBase64Throws | src/lib/email-parser.ts:107-112 | a body that is called base64 and is not makes the parse throw |
| LeafRoundTrip.BareAttributeIsFound | src/lib/email-parser.ts:169-181 | attributes are found without quotes and in any letter case, up to the next semicolon |
| LeafRoundTrip.FoldedLineIsOneLine | src/lib/email-parser.ts:134-136 | a folded header reads as the same header on one line |
| EmailParser.ParseRawEmail | src/lib/email-parser.ts:267-305 | splitting and collecting give the parsed message, or the exception of `atob` |
| EmailParser.Attribute | src/lib/email-parser.ts:169-181 | a header attribute never holds a quote or a semicolon and is never empty |
| Mime.BuildRawMimeMessage | src/lib/mime.ts:47-162 | the pushed lines spell the nested text of the message in all four layouts (section 5.1 of RFC 2046) |
| HeaderRoundTrip.ListComesBack | src/lib/mime.ts:68-82 | splitting a recorded list header gives the normalized values back |
| HeaderRoundTrip.PlainListComesBack | src/lib/mime.ts:68-82 | addresses without commas, and references without spaces, come back as they were given |
| HeaderRoundTrip.PlainValueStays | src/lib/mime.ts:5-7 | a value on one line without outer white space is printed as it is |
| EntityRoundTrip.SplitEntity | src/lib/email-parser.ts:152-167 | a printed entity splits into its header map and its body |
| EntityRoundTrip.FilenameComesBack | src/lib/email-parser.ts:174-181 | a printed file name is extracted as it was exactly when it is non-blank without quote and semicolon |
| MimeRoundTrip.ParsePrinted | src/lib/email-parser.ts:210-305 | what parsing returns for everything the printer can write, in each layout, nested parts included |
| MimeRoundTrip.AttachmentsComeBack | src/lib/mime.ts:151-158 | the attachment list comes back exactly when every attachment survives |
| MimeRoundTrip.RoundTrip | src/lib/mime.ts:47-162 | text and html bytes come back, and the attachments do exactly when every one survives |
| MimeRoundTrip.HeadersComeBack | src/lib/mime.ts:50-86 | every top header is found by its name and carries its own field of the input; message id and reply id are those of the input, present exactly when given |
| MimeRoundTrip.TextsComeBack | src/lib/email-parser.ts:121-132 | text and html come back as strings exactly when they do not begin with a byte order mark |
| TextDecoding.FromUtf8UndoesUtf8 | src/lib/email-parser.ts:121-132 | every text is what its UTF-8 bytes spell (section 4 of RFC 3629) |
| MimeRoundTrip.PrintAndParse | src/lib/internal-delivery.ts:78-96 | printing and then parsing as programs returns the content, the headers and the ids that were printed |
| InternalDelivery.MailStore.DeliverLocallyToMailboxes | src/lib/internal-delivery.ts:62-155 | whatever earlier runs left, a run that returns leaves each recipient mailbox exactly one copy, dispatched or ingested; it returns when nothing throws, and stops only at a fault; only open copies for recipients are dispatched; rows and objects stay one to one exactly unless it stopped in a leaky place |
| InternalDelivery.MailStore.DeliverOne | src/lib/internal-delivery.ts:73-153 | one recipient: exactly which exceptions and deaths stop it |
| InternalDelivery.MailStore.StoreInbound | src/lib/internal-delivery.ts:99-121 | object, row and read-back, with the cleanup of the catch block |
| InternalDelivery.MailStore.DispatchExisting | src/lib/internal-delivery.ts:123-135 | a mailbox that has the message gets no second one, and the one it has is dispatched while it is not ingested |
| InternalDelivery.MailStore.InsertInbound | src/repositories/mail.ts:567-603 | inserts exactly when the mailbox has no row with the message id |
| InternalDelivery.MessageIdsAreDistinct | src/lib/internal-delivery.ts:24-36 | jobs never share a message id, whatever the sender address |
| InternalDelivery.DomainIsTheSenders | src/lib/internal-delivery.ts:24-32 | the domain of the id is the sender's, behind the last at sign, or a fixed one |
| Attachments.AttachmentStore.InsertAttachments | src/repositories/mail.ts:2703-2782 | success gives the new rows and the keys only the old ones used; a failing insert gives the old rows back; other messages' rows are never touched |
| Attachments.AttachmentStore.InsertAll | src/repositories/mail.ts:2731-2747 | the insert loop, and where it throws |
| GetOrCreate.ReturnsAgree | src/repositories/mail.ts:942-1080 | callers of one key that return, at any moments of any interleaving, return the same id |
| GetOrCreate.CallersAgree | src/repositories/mail.ts:2942-3101 | at most one visible row at every moment, and once there it is never removed |
| GetOrCreate.LoneCallerSucceeds | src/repositories/mail.ts:942-1080 | a caller that is alone never ends with an exception, whatever invisible rows it meets |
| GetOrCreate.CallerAdvances | src/repositories/mail.ts:942-1080 | every step of a caller, in any interleaving, brings it nearer to its end |
| GetOrCreate.StepKeeps | src/repositories/mail.ts:2850-2895 | the clean-up of invisible rows removes no visible one |
| Routing.RouteOutboundRecipients | src/lib/local-recipient-routing.ts:46-123 | the routing of all three lists |
| Routing.SplitList | src/lib/local-recipient-routing.ts:76-93 | the splitting loop |
| Routing.SplitInterleaves | src/lib/local-recipient-routing.ts:76-93 | each list is the interleaving of its two parts, in order |
| Routing.SplitByMailbox | src/lib/local-recipient-routing.ts:54-74 | internal are exactly the addresses with an active mailbox |
| Routing.AddressIsNormalized | src/lib/local-recipient-routing.ts:25-27 | an address is what stands between its outer white space, with capitals made small |
| Routing.RoutingIsComplete | src/lib/local-recipient-routing.ts:95-122 | each list interleaves its own two parts, each side is counted, everybody non-blank once, and recipient domains are the union of both sides |
| Routing.DomainsAreOfTheirSide | src/lib/local-recipient-routing.ts:95-122 | a domain is listed for a side exactly when a recipient on that side has it |
| Routing.DomainFollowsLastAt | src/lib/local-recipient-routing.ts:33-40 | the domain is what follows the last at sign |
| Routing.UniqueDomains | src/lib/local-recipient-routing.ts:33-44 | every domain once, and no other |
| Routing.ValidatedSendHasExternalTo | src/lib/local-recipient-routing.ts:125-134 | no objection exactly when there is an external To recipient or no external one at all |
| Routing.SettlementCostsWhatWasReserved | src/lib/outbound-credits.ts:44-77 | the cost at settlement is the cost at enqueue while the directory is the same |
| Routing.ChargedForOutsiders | src/lib/outbound-credits.ts:44-77 | a send costs something exactly when it is not exempt and has a recipient without an active mailbox |
| Deployments.Registry.RolloutAgentDeployment | src/repositories/agents.ts:992-1047 | success makes the new deployment the only active one and rolls the displaced back; a throwing status write leaves the rows there before as they were; a throwing last read leaves the switch, an unfit deployment leaves the displaced rolled back and is deleted; without throwing writes it gets that far exactly when no hidden deployment is active |
| Deployments.Registry.RollbackAgentDeployment | src/repositories/agents.ts:1049-1095 | the same for an existing deployment, which stays active when it is unfit at the last read |
| Deployments.Registry.ActivateDeployment | src/repositories/agents.ts:784-845 | the same with displaced deployments paused |
| Deployments.Registry.ReadBack | src/repositories/agents.ts:1088-1094 | the last read, outside the try: neither an exception nor an unfit deployment undoes the switch |
| Deployments.UnfitRolloutLeavesNoneActive | src/repositories/agents.ts:1037-1044 | after a rollout whose deployment is unfit at the last read no deployment of the target is active |
| Deployments.UnfitBlocksTarget | src/repositories/agents.ts:1088-1094 | after such a rollback or activation a hidden deployment is active, which blocks every later rollout to the target |
| Deployments.Registry.RestoreDeploymentStatuses | src/repositories/agents.ts:935-943 | from any point of the loops, restoring gives every row its earlier status, under the unique index; it restores nothing when the chosen row is unfit |
| Deployments.Registry.SetDeploymentStatus | src/repositories/agents.ts:847-889 | one status write under the unique index; every state it leads to has at most one active deployment per target |
| Deployments.Registry.SetDeploymentsStatus | src/repositories/agents.ts:891-933 | the loop over several rows, stopped where it throws |
| Deployments.Registry.ListActiveDeploymentsForTarget | src/repositories/agents.ts:945-990 | exactly the valid active rows of the tenant on the target |
| Deployments.ReplacedIsOnlyActive | src/repositories/agents.ts:1023-1026 | after success no other deployment of the target is active, whatever its tenant |
| Deployments.ConflictIsHidden | migrations/0003_agent_deployment_history.sql:35-37 | the unique index stands in the way exactly when a hidden row is active |
| ExecutionTarget.ResolveAgentExecutionTarget | src/repositories/agents.ts:1164-1444 | the search, with its cache and its kept fallback, returns the best target, told by the indices of rows: which row is named, with its own agent, version and id, and which rows come before it |
| ExecutionTarget.OneBest | src/repositories/agents.ts:1164-1444 | that determines the answer: there is only one best target |
| ExecutionTarget.NeverNamesAnAgentWithoutTheRoles | src/repositories/agents.ts:1195-1210 | the agent is of the mailbox's tenant, is the requested one if any, and never one whose active bindings all lack the roles |
| ExecutionTarget.SearchDeployments | src/repositories/agents.ts:1264-1293 | the first deployment with a role, and the first without any binding |
| ExecutionTarget.HasActiveMailboxBinding | src/repositories/agents.ts:1446-1488 | whether some active binding of the agent has one of the roles |
| ExecutionTarget.First | src/repositories/agents.ts:1268-1284 | the first element with a property, or none |
| ProofFingerprint.NormalFormIsCanonical | src/lib/payments/receipt-metadata.ts:71-85 | two values have one normal form exactly when they are equal up to the order of entries at any depth |
| ProofFingerprint.CanonicalExactlyWhenKeysAreSeparated | src/lib/payments/receipt-metadata.ts:78-80 | normalization is canonical exactly when the comparison ties no two different keys |
| ProofFingerprint.NormalizeIsIdempotent | src/lib/payments/receipt-metadata.ts:71-85 | a normal form is its own normal form |
| ProofFingerprint.NormalizeKeepsMeaning | src/lib/payments/receipt-metadata.ts:71-85 | normalization only reorders entries |
| ProofFingerprint.ReorderedProofsShareAFingerprint | src/lib/payments/receipt-metadata.ts:202-208 | reordering the entries of a proof does not change what is hashed |
| ProofFingerprint.SortSorts | src/lib/payments/receipt-metadata.ts:78-80 | the stable sort orders the entries by key |

## Left out

- The provider, the facilitator, queues, object storage and clocks appear as answers, exceptions and parameters; what
  the provider does with a send whose call throws is not modelled, only calls that return count as accepted.
- The protocol modules `OutboundProtocol`, `Idempotency`, `GetOrCreate` and the run part of `Receipts` and `Credits` are state machines
  over values rather than classes: any number of handlers share the rows, and each row's update in place is one step.
- Jobs, messages and drafts are taken to stay visible while a job is being sent; rows that disappear in between,
  and pruning or releasing an idempotency key while its request runs, are not modelled.
- Credits: no webhooks, and a fixed mailbox directory. Retry counts and the grace period are left open, so a failing handler
  may be exhausted or not, and a job in flight may be given up at any time. Message and job are marked in one step. A claim
  holder whose catch block is entered before the recipients are known releases nothing, which appears as a lost release.
- Credits: the ledger sum and the write of a reconcile are one step; interleaving inside it can store a stale sum.
- Enqueue.Mail.EnqueueDraftSend: one enqueue at a time, with a compensation whose own statements work; concurrent enqueues
  of one draft are in `Idempotency`. The clean-up of invisible jobs cannot be reached then, because the insert only
  refuses when a visible job exists.
- Enqueue.Mail.EnqueueDraftSend: a queue message that is sent although `send` throws is kept in the queue of the model, but a handler that
  picks it up before the job is deleted is not.
- Idempotency: the stored response of a completed key is only its presence.
- Receipts.RetryConverges: the rerun inside one request after an exception (src/routes/api.ts:4986-5021) is a request that
  dies and another that arrives, whether or not the receipt or the ledger changed in between.
- Receipts.Confirmation.ConfirmPayment: the program runs without exceptions; one that throws is a request that dies in the
  state machine.
- Receipts.Confirmation.FinalizeSettlement: ledger entries of a wrong type, settlement references shared between receipts,
  and the account profile and send policy that an upgrade also writes.
- Webhook: events are handled one after the other, for a message with a job and a draft; signature checks, tag mismatches and storing the
  payload are left out.
- Deployments: a status update to anything but active is a single write and not modelled; statements of a restore throw only
  when their row is unfit; a row becomes unfit, if at all, before the last read; creation clean-up of invalid active rows only matters for deployments created active.
- ExecutionTarget: databases without the deployment table are left out.
- GetOrCreate: mailbox, source message and assigned agent stay what they are while callers run (a row whose parents vanish is
  removed by its creator); resetting a failed task changes no id.
- Attachments: an insert that violates the primary key is one that throws; the statements that put old rows back are taken to work; a message that disappears before the last read loses its rows.
- EmailParser.ParseRawEmail: text stays as bytes, and only well-formed UTF-8 is decoded (`TextDecoding`); encoded words in subjects, sender addresses, references, snippets and
  thread keys; lower-casing is ASCII, which decides the same comparisons because the names compared with are ASCII.
- MimeRoundTrip.RoundTrip: the random token of the mixed boundary must not occur in the attachment types and names; strings are sequences of
  Unicode scalar values, so lone surrogates cannot be written.
- ProofFingerprint: hashing; `Object.fromEntries` moves integer-like keys to the front, which is the same for every order of entries and
  does not affect whether two proofs agree.
- Outbound policy and quotas, suppression lists, SES and Resend calls, HTTP and MCP routing, tokens, admin tools, the
  client package and the second copy of the send protocol in src/routes/mcp.ts: wiring, flat checks or repetition.
