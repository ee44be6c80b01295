# Signal pipeline: models and proofs

A Dafny 4.11 model of the hard parts of the market-signal platform, with proofs of what they keep.
`dafny verify dfyconfig.toml` checks everything.

The platform collects signals from scheduled sources, classifies, scores and clusters them,
synthesises grounded summaries, writes decision briefs per tenant, and bills tenants. Five parts are
modelled:

1. **Source scheduler** (`Scheduler.dfy`, `SourceScheduler.dfy`). Any number of schedulers race
   through a Redis lease, a read-or-insert of a job row, a publish and a status update. One step is
   one Redis call, one deciding SQL statement, one commit or one publish, and a scheduler may stop
   between any two. The table has no unique key on source and minute, so uniqueness rests on the
   lease: it holds when inserts commit inside it, and a concrete run shows that it fails otherwise.
   Delivery is at least once, with a stable event id. The class performs the calls of `run_once` in
   order and every method is shown to be a run of the protocol.
2. **Checkout** (`Fx.dfy`, `Checkout.dfy`, `CheckoutOutcomes.dfy`, `BillingDatabase.dfy`). Checkout requests, browser
   verifications, duplicated and reordered webhooks, database failures and abandoned requests
   interleave. Starting a checkout is two steps, the read that picks a branch and the write that ends
   it, with the clock consulted anywhere in between. What concerns money holds on every interleaving.
   What concerns a checkout's progress assumes a monotone clock, a provider that confirms a payment
   only after INITIALIZED is committed, and that nothing commits to the row between the two halves of
   a retry: the EXPIRED update and the closing ones carry no status guard. `StatusMovesExactly`, `SucceededIsLeftIff`,
   `ExpiredIsLeftIff`, `SecondOwnerIff` and `SoleOwnersIff` say exactly what happens otherwise, and
   four concrete families of runs show that neither assumption can be dropped.
3. **Evidence** (`Text.dfy`, `Synthesis.dfy`, `Signals.dfy`, `Clusters.dfy`, `EmbeddingStore.dfy`,
   `Provenance.dfy`, `SynthesisOutcomes.dfy`). Evidence ids travel through similarity search, context assembly, citation or
   fallback, and de-duplication into briefs, and stay readable by the brief's tenant; so the page's
   integrity gate never fires on what the pipeline wrote. The deterministic fallback, stored
   unvalidated, would always validate. Canonical pointers and cluster counts form a second state
   machine over the same signals.
4. **Scores** (`Decimals.dfy`, `Relevance.dfy`, `Priorities.dfy`, `RelevanceOutcomes.dfy`, `Classifier.dfy`,
   `Scoring.dfy`).
   The relevance score runs in 28-digit half-even decimal arithmetic, modelled digit for digit on
   integers scaled by 10^32, and is shown equal to exact rational rounding. Monotonicity, order
   independence and band theorems build on that.
5. **Text and lists** (`Resolver.dfy`, `HtmlText.dfy`, `Discovery.dfy`). Phrase matching as word
   blocks, a streaming collector against the meaning of a document tree, a greedy bounded query and a
   rotating window.

The three `Outcomes` modules say what each operation answers and leaves behind in terms of the request
and the stored values.

`Seqs.dfy` holds what they share: de-duplication, filtering, stable sorting and contiguous blocks.

Python library behaviour enters as function parameters, with only the promises a proof needs:
case folding and Unicode classes (`Script`, `Lawful`), the value patterns, `ascii` normalisation,
JSON decoding and UUID parsing (`Env`), keyword search (`found`), case-folded containment
(`mentions`). Name-based UUIDs (section 5.5 of RFC 9562) are taken as injective. Network answers,
clocks and delivery order are arbitrary step arguments.

Where the code differs from what one would hope, the code is kept, with an input and the exact
condition: a paid checkout's SUCCEEDED can be overwritten by a late answer
(`Checkout.EarlySuccessIsOverwritten`) or a stale expiry (`Checkout.StaleExpiryOverwritesSuccess`),
exactly as `Checkout.SucceededIsLeftIff` says; an EXPIRED checkout can be reopened
(`Checkout.ExpiredIsReopened`, `Checkout.ExpiredIsLeftIff`) and a reference can have two owners
(`Checkout.TwoRequestsOwnOneReference`, `Checkout.SecondOwnerIff`); an overdue insert duplicates a job
(`SchedulerProtocol.LateInsertDuplicates`, exactly when `SchedulerProtocol.OneRowIffCollisionFree`
says); the older duplicate is then selected for recovery for ever without being published
(`SchedulerProtocol.SupersededRowIsReachable`, `SchedulerProtocol.StuckForever`, exactly when
`SchedulerProtocol.CanBePublishedIff` says); a heading that contains a titled icon loses its
text (`HtmlText.TitledIconHidesTheHeading`, exactly as `HtmlText.DocumentIsCollected` says). For
arbitrary decimals a score can leave the range of its components (`Scoring.AtMostIff`,
`Scoring.AtLeastIff`, `Scoring.EqualComponentsAreMissedIff`), but not for the rows the pipeline loads
(`Scoring.StoredScoresAreBetween`).

## Model

| member | source | states |
|---|---|---|
| SchedulerProtocol.PhaseChange | backend/app/workers/scheduler.py:87-101 | A step moves only the scheduler that takes it, and a lock is carried unchanged from the `SET NX` that won it, with a lease of 55 seconds, to its release. |
| SchedulerProtocol.LeaseInvStep | backend/app/workers/scheduler.py:91-101 | Every step keeps the lease invariant: tokens are unique and an unexpired holder is the one Redis records for its key. |
| SchedulerProtocol.MutualExclusion | backend/app/workers/scheduler.py:91-101 | Two schedulers never hold unexpired leases on one source and minute. |
| SchedulerProtocol.OthersLeaseSurvives | backend/app/workers/scheduler.py:80-101 | No step of one scheduler ends the lease another still holds in time. |
| SchedulerProtocol.ReleaseFreesOnlyItsOwn | backend/app/workers/scheduler.py:80-101 | After any run with any number of schedulers and crashes, the compare-and-delete release frees no unexpired lease of another scheduler, on any key. |
| SchedulerProtocol.RowInvStep | backend/app/workers/scheduler.py:180-226 | A step whose insert commits inside its lease keeps one SCHEDULED row per source and minute, and keeps the emptiness a scheduler has read. |
| SchedulerProtocol.AtMostOneJobPerMinute | backend/app/workers/scheduler.py:180-226 | Over every run in which inserts commit inside their lease, at most one SCHEDULED row exists per source and minute. |
| SchedulerProtocol.InitialStateIsGood | backend/app/workers/scheduler.py:137-240 | Empty tables and an empty Redis satisfy the row and job invariants, so the run theorems start from any fresh deployment. |
| SchedulerProtocol.StalledReaderIsOvertaken | backend/app/workers/scheduler.py:87-101 | A concrete run: a scheduler that stalls between its read and its insert for a whole lease leaves a second one with the same empty read. |
| SchedulerProtocol.LateInsertDuplicates | backend/app/workers/scheduler.py:183-220 | The 55 s deadline is needed: that run continues to two rows for one source and minute, from any initial state and key. |
| SchedulerProtocol.DuplicatesByCollision | backend/app/workers/scheduler.py:180-226 | A step makes a second row for some window exactly when it is an insert that finds a row of its window already there. |
| SchedulerProtocol.CollisionIsLate | backend/app/workers/scheduler.py:180-226 | While the invariant of in-time readers holds, such an insert is overdue: its lease has run out. |
| SchedulerProtocol.OneRowIffCollisionFree | backend/app/workers/scheduler.py:180-226 | The exact condition over whole runs, without any deadline: one row per source and minute at the end iff no insert along the way collided. |
| SchedulerProtocol.FirstLateInsert | backend/app/workers/scheduler.py:180-226 | Every run that ends with a duplicate has a first overdue insert, up to which all was in time. |
| SchedulerProtocol.JobInvStep | backend/app/workers/scheduler.py:228-239 | Every step keeps: a scheduled job that is not ENQUEUED has had its event published, and every event names the row of its own source and minute. |
| SchedulerProtocol.JobInvRun | backend/app/workers/scheduler.py:259-287 | The same over whole runs, with crashes between any two calls. |
| SchedulerProtocol.NeverBackToEnqueued | backend/app/workers/tasks/collection.py:95-105 | No step, neither `mark_dispatched` nor a collector on a redelivered event, returns a job to ENQUEUED, changes anything else in a row, or removes one. |
| SchedulerProtocol.EventsAreKept | backend/app/workers/scheduler.py:289-296 | Published events stay, and a publish adds one for its job. |
| SchedulerProtocol.StableEventIdentity | backend/app/workers/scheduler.py:298-310 | Every publish for one job carries the same event id, and different jobs never share one. |
| SchedulerProtocol.PendingIsOrdered | backend/app/workers/scheduler.py:137-160 | The recovery query returns exactly the ENQUEUED scheduled jobs of active sources, by minute and then age. |
| SchedulerProtocol.RecoverableJobsAre | backend/app/workers/scheduler.py:137-160 | The bounded list itself: at most the limit of ENQUEUED scheduled jobs of active sources with a URL, by minute and then age. |
| SchedulerProtocol.NoScheduledJobIsLost | backend/app/workers/scheduler.py:137-178 | In every reachable state a job of an active source has its event out or is recoverable, and the bounded query returns it unless it is full of jobs that sort no later. |
| SchedulerProtocol.StuckForever | backend/app/workers/scheduler.py:137-160 | A superseded, unpublished ENQUEUED row with no publish under way stays so through every run: it is never published, and whenever its source is active the recovery query selects it again. |
| SchedulerProtocol.CanBePublishedIff | backend/app/workers/scheduler.py:183-193 | An unpublished ENQUEUED row can be published by some continuation iff no newer row of its window has superseded it. |
| SchedulerProtocol.SupersededRowIsReachable | backend/app/workers/scheduler.py:183-220 | From every initial state with an active source, a run of two overdue readers ends with such a row, listed for recovery, its window free. |
| SourceSchedulerService.FindLatest | backend/app/workers/scheduler.py:183-199 | The read finds a newest row of the window, or there is none. |
| SourceSchedulerService.SourceScheduler.TryHold | backend/app/workers/scheduler.py:91-98 | Taking the lock is the protocol step, and succeeds iff no lease is live. |
| SourceSchedulerService.SourceScheduler.CreateOrRecoverJob | backend/app/workers/scheduler.py:180-226 | Read-or-insert is a run of protocol steps that leaves a newest row for the window, touches no other window, and asks for a publish iff that row is not DISPATCHED. |
| SourceSchedulerService.SourceScheduler.LeaveLock | backend/app/workers/scheduler.py:99-101 | Leaving the lock is the compare-and-delete step. |
| SourceSchedulerService.SourceScheduler.PublishAndMark | backend/app/workers/scheduler.py:289-296 | One event for the job goes out and its row alone becomes DISPATCHED; if the publish raises nothing happens, if the update raises the event is out and the row is as it was. |
| SourceSchedulerService.SourceScheduler.RunSection | backend/app/workers/scheduler.py:263-275 | A held section that does not raise ends with the newest row of its window DISPATCHED; it publishes at most one event, reports it unless the update raised, and touches no other window. |
| SourceSchedulerService.SourceScheduler.DispatchUnderLock | backend/app/workers/scheduler.py:279-286 | One lock block, raising or not, is a run of the protocol that ends without the lock; if nothing raised and no lease was live its window is covered. |
| SourceSchedulerService.SourceScheduler.RecoverPending | backend/app/workers/scheduler.py:262-275 | The recovery loop: every row and event it adds and every id it reports is of a listed job's window. If nothing raises, every listed window nobody else holds ends covered, and a listed job that is newest in it ends DISPATCHED and queued. |
| SourceSchedulerService.SourceScheduler.DispatchDue | backend/app/workers/scheduler.py:276-286 | Every row, event and reported id is of the window, at this minute, of a source that is due: active, with a cron expression that matches, with a URL, in the catalogue. If nothing raises, every such source whose window is free ends covered. |
| SourceSchedulerService.SourceScheduler.RunOnce | backend/app/workers/scheduler.py:259-287 | A tick as a whole, raising or not: a protocol run that touches only windows of listed jobs and of sources due at this minute, reports what it queued (one event less at most) and changes rows only by marking what it queued. If nothing raises, a listed job in a free window, untied with its siblings, ends DISPATCHED with its event out iff no newer row superseded it, and every due source with a free window ends covered. |
| Fx.HalfUpIsNearest | backend/app/billing/fx.py:78 | Half-up rounding picks the one integer within half a unit, ties upward. |
| Fx.SettlementIsFaithful | backend/app/billing/fx.py:59-81 | At an accepted rate the settlement is within 1..2147483647 kobo and within half a kobo of the exact product, ties upward, and is refused only for a non-positive price or an out-of-range result. |
| Checkout.ChargeIdentity | backend/app/api/v1/billing.py:41-51 | A charge event is filed under its type and checkout reference. |
| Checkout.ChargeIdentityIsTheReference | backend/app/api/v1/billing.py:41-51 | Two charge events share a ledger key iff they name the same reference, whatever else their bodies say. |
| Checkout.ChargeIdentityIsPrivate | backend/app/api/v1/billing.py:41-51 | No event of another type can occupy a charge's ledger key. |
| Checkout.ActivationKeepsOneLiveSubscription | backend/app/api/v1/billing.py:442-467 | The upsert reuses a tenant's live row, so activation cannot give a tenant two live subscriptions nor touch another tenant's. |
| Checkout.ActivateEffect | backend/app/api/v1/billing.py:422-499 | A committed activation keeps the billing invariant, only adds invoices, and leaves every locked column alone. |
| Checkout.ProviderStateKeepsRefs | backend/alembic/versions/0019_2026_08_24_phase4_pilot_operations.py:210-234 | The provider-state function changes exactly the Paystack rows with that reference. |
| Checkout.ProcessEffect | backend/app/api/v1/billing.py:392-419 | A committed webhook keeps the billing invariant and locked columns. |
| Checkout.BeginShape | backend/app/api/v1/billing.py:126-256 | Acting on the row that was read changes one checkout at most: to EXPIRED whatever its status is by now, from FAILED or EXPIRED to PENDING, or a new row priced by the quote. |
| Checkout.NewIntentIsFair | backend/app/api/v1/billing.py:193-241 | A new checkout's amount is the display price at its stored rate, rounded half up. |
| Checkout.VerifyShape | backend/app/api/v1/billing.py:314-321 | Browser verification changes one checkout at most, only to SUCCEEDED, and only on a provider success. |
| Checkout.ProcessShape | backend/app/api/v1/billing.py:392-419 | A webhook changes one checkout at most, the one its charge names, and only to SUCCEEDED. |
| Checkout.WebhookShape | backend/app/api/v1/billing.py:354-388 | The same for a whole delivery, whatever its ledger row becomes. |
| Checkout.SubscribeKeepsBilling | backend/app/api/v1/sso.py:265-275 | A subscription inserted by another endpoint under the two unique indexes keeps the billing invariant. |
| Checkout.BillingInvStep | backend/app/api/v1/billing.py:422-499 | Every step keeps the billing invariant, keeps all invoices and changes no amount, currency, display or FX column. |
| Checkout.BillingIsSafe | backend/app/api/v1/billing.py:331-499 | Over every interleaving of requests, duplicated or reordered webhooks, verifications and failures: one invoice per reference, each billing exactly the locked amount and currency the provider reported; one live subscription per tenant; locked columns never change. |
| Checkout.WebhookLedger | backend/app/api/v1/billing.py:371-388 | A delivery writes its ledger row only if absent, and books change only together with a PROCESSED row. |
| Checkout.EffectsCommitWithTheLedger | backend/app/api/v1/billing.py:354-388 | Any step that acts on the books through a webhook inserts that event's PROCESSED row in the same transaction; existing ledger rows never change. |
| Checkout.EachEventActsAtMostOnce | backend/app/api/v1/billing.py:357-373 | Over a whole run an event id takes effect at most once, however often it is delivered. |
| Checkout.BeginMoves | backend/app/api/v1/billing.py:137-162 | An undisturbed first stretch makes only allowed moves; EXPIRED does not return to PENDING although the update lists it. |
| Checkout.BeginProgress | backend/app/api/v1/billing.py:126-168 | Acting on a row read keeps single ownership and the progress invariant if the stretch was undisturbed. |
| Checkout.FinishProgress | backend/app/api/v1/billing.py:269-295 | Recording the provider's answer keeps the progress invariant. |
| Checkout.ProgressStep | backend/app/api/v1/billing.py:120-296 | With an honest provider and undisturbed stretches every step makes only the moves PENDING to INITIALIZED or FAILED, INITIALIZED to SUCCEEDED, FAILED to PENDING or EXPIRED. |
| Checkout.CheckoutProgress | backend/app/api/v1/billing.py:120-296 | Over whole such runs, for checkouts old and new: at most one request owns a reference and it is then PENDING; SUCCEEDED and EXPIRED are final. |
| Checkout.InitialStateIsGood | backend/alembic/versions/0009_2026_08_15_create_billing_tables.py:152-156 | Tables without payments satisfy both invariants, including checkouts from before FX quoting. |
| Checkout.PaidIffSucceeded | backend/app/api/v1/billing.py:468-499 | From initial tables: every run keeps the money invariant; runs with an honest provider and undisturbed stretches keep the progress invariant, and a checkout then has its invoice iff it is SUCCEEDED. |
| Checkout.StatusMovesExactly | backend/app/api/v1/billing.py:120-499 | Every status change there is, on every state and without any assumption: which step gives which status. |
| Checkout.SucceededIsLeftIff | backend/app/api/v1/billing.py:137-295 | SUCCEEDED is left exactly by one of the two unguarded updates: an owner returning from the provider, or a request that read the row FAILED or EXPIRED and found its quote run out. |
| Checkout.ExpiredIsLeftIff | backend/app/api/v1/billing.py:148-161 | EXPIRED returns to PENDING exactly by a retry that read the row before its quote ran out, and is left otherwise exactly by a returning owner or a confirmation. |
| Checkout.SecondOwnerIff | backend/app/api/v1/billing.py:148-168 | A second owner of a reference appears exactly when such a retry finds it FAILED or EXPIRED while somebody still owns it. |
| Checkout.SoleOwnersStepIff | backend/app/api/v1/billing.py:120-296 | The claim that an owned reference has one owner and is PENDING is lost exactly by a step that expires or confirms an owned reference. |
| Checkout.SoleOwnersIff | backend/app/api/v1/billing.py:120-296 | Over whole runs on every interleaving: that claim holds all along iff no owned reference is ever expired or confirmed. |
| Checkout.EarlySuccessIsOverwritten | backend/app/api/v1/billing.py:281-295 | From empty tables, for every request and quote, undisturbed: a confirmation that overtakes the answer to the request leaves a billed checkout INITIALIZED. |
| Checkout.StaleExpiryOverwritesSuccess | backend/app/api/v1/billing.py:137-142 | From empty tables, for every request and usable quote, with an honest provider: a retry that read the FAILED row before another one was paid leaves a billed checkout EXPIRED. |
| Checkout.ExpiredIsReopened | backend/app/api/v1/billing.py:137-168 | From empty tables, for every request and usable quote, with an honest provider: a stale retry reopens an EXPIRED checkout and proceeds on the quote that has run out. |
| Checkout.TwoRequestsOwnOneReference | backend/app/api/v1/billing.py:137-168 | In the same way a reference comes to have two owners. |
| BillingDatabaseService.BillingDatabase.UpsertLiveSubscription | backend/app/api/v1/billing.py:442-467 | The upsert under both unique indexes, by a search for the live row: new table and row id, or nothing changed. |
| BillingDatabaseService.BillingDatabase.RecordInvoice | backend/app/api/v1/billing.py:472-495 | Inserts the invoice unless its reference is billed. |
| BillingDatabaseService.BillingDatabase.ActivateCheckout | backend/app/api/v1/billing.py:422-499 | The row updates compute the activation, and a refusal or a database error leaves every table as it was. |
| BillingDatabaseService.BillingDatabase.DispatchEvent | backend/app/api/v1/billing.py:392-419 | The event dispatch computes the webhook's effect. |
| BillingDatabaseService.BillingDatabase.RunLedgerTransaction | backend/app/api/v1/billing.py:356-388 | Ledger row, effects and final ledger status are one transaction. |
| BillingDatabaseService.BillingDatabase.DeliverWebhook | backend/app/api/v1/billing.py:347-388 | A delivery is the webhook step; a duplicate changes no book. |
| BillingDatabaseService.BillingDatabase.ConfirmCheckout | backend/app/api/v1/billing.py:314-328 | Verification is the verify step; a failed activation changes no book. |
| BillingDatabaseService.BillingDatabase.ReadCheckout | backend/app/api/v1/billing.py:119-125 | The first SELECT is the look step: the tenant's own row as it is now, or none. |
| BillingDatabaseService.BillingDatabase.UpdateStatus | backend/app/api/v1/billing.py:148-161 | A guarded status update changes the tenant's own row iff its current status is allowed, and says whether it did. |
| BillingDatabaseService.BillingDatabase.OpenCheckout | backend/app/api/v1/billing.py:126-256 | The branches on the row as it was read, up to the first commit, are the begin step; only the request told to proceed owns the reference. |
| BillingDatabaseService.BillingDatabase.CloseCheckout | backend/app/api/v1/billing.py:257-296 | The rest is the finish step. |
| CheckoutOutcomes.EventIdentityIsRead | backend/app/api/v1/billing.py:41-51 | The ledger key is the event type and the first of reference, id and subscription code that says something, else the body hash, cut at 255; no usable type, no key. |
| CheckoutOutcomes.ValuesAreRead | backend/app/api/v1/billing.py:47-50 | What counts as saying something. |
| CheckoutOutcomes.AmountIsRead | backend/app/api/v1/billing.py:509-516 | An amount is an integer or the decimal text of one, read back exactly; booleans and other texts are none. |
| CheckoutOutcomes.ReferencesAreRead | backend/app/api/v1/billing.py:435-441 | Customer and subscription codes come from the nested objects, the latter else from the top level. |
| CheckoutOutcomes.ChargedTenantIsRead | backend/app/api/v1/billing.py:395-406 | The tenant of a charge is the id in its metadata, an object or JSON text. |
| CheckoutOutcomes.ActivationOutcome | backend/app/api/v1/billing.py:422-499 | Activation, case by case: nothing to do, refused, undone exactly on a clash of provider references, or the tenant's one live row on the plan, one invoice of the locked amount on it, and the checkout SUCCEEDED. |
| CheckoutOutcomes.DisableCancels | backend/app/api/v1/billing.py:412-419 | A first `subscription.disable` always commits: exactly the Paystack rows with that code become CANCELLED and flagged; nothing else changes but the ledger. |
| CheckoutOutcomes.NotRenewFlags | backend/app/api/v1/billing.py:412-419 | A first `subscription.not_renew` makes exactly those rows ACTIVE and flagged, and is undone whole iff that would give a tenant two live rows. |
| CheckoutOutcomes.OtherEventsAreRecorded | backend/app/api/v1/billing.py:392-419 | Every other first event, or one without usable data, leaves a PROCESSED ledger row and nothing else. |
| CheckoutOutcomes.ChargeOutcome | backend/app/api/v1/billing.py:374-411 | A first charge is recorded PROCESSED with its activation, or without one if it names no tenant; FAILED if the activation refuses it; not at all if it is undone. |
| CheckoutOutcomes.RepeatedDelivery | backend/app/api/v1/billing.py:371-373 | A repeated delivery, or one the database fails, changes no table. |
| CheckoutOutcomes.VerifyOutcome | backend/app/api/v1/billing.py:312-328 | Browser verification activates exactly on a provider success for the tenant's unpaid checkout. |
| CheckoutOutcomes.FirstReadSees | backend/app/api/v1/billing.py:120-125 | The first read sees the tenant's own row for the reference, if any. |
| CheckoutOutcomes.RetryAnswers | backend/app/api/v1/billing.py:126-191 | What a retry is told and writes, for each status it read, expiry, and state of the row at the update. |
| CheckoutOutcomes.FirstAnswers | backend/app/api/v1/billing.py:192-256 | What a first request is told and writes: no quote, a concurrent row, or a PENDING row on the converted price that expires in an hour. |
| CheckoutOutcomes.OwnerRecords | backend/app/api/v1/billing.py:257-296 | The owner of a reference records INITIALIZED with the URL, or FAILED, and nothing else. |
| Synthesis.FieldIsEvidence | backend/app/intelligence/synthesis/context.py:46-61 | Every present field of every item is literally part of the evidence text. |
| Synthesis.QuotedClaimIsSupported | backend/app/intelligence/synthesis/service.py:87-92 | A claim quoted from a field, or from its whitespace-collapsed form, has all its values supported. |
| Synthesis.ProseIsSupported | backend/app/intelligence/synthesis/service.py:88-92 | A sentence of plain prose contains no value to support. |
| Synthesis.FixedSentencesAreProse | backend/app/intelligence/synthesis/service.py:98-103 | The fallback's fixed sentences are such prose. |
| Synthesis.SummaryIsSupported | backend/app/intelligence/synthesis/service.py:97-98 | Every part of the collapsed, truncated summary is supported, from whichever of body, title or fixed sentence it came. |
| Synthesis.FallbackIsSupported | backend/app/intelligence/synthesis/service.py:95-120 | All four fallback claims are supported by the evidence. |
| Synthesis.FallbackValidatesIff | backend/app/intelligence/synthesis/service.py:71-120 | The fallback, which is stored without validation, passes the validator iff no later evidence item renames the first item's source. |
| Synthesis.StoredOutputIsGrounded | backend/app/intelligence/synthesis/service.py:57-68 | With distinct evidence ids the stored output passes the validator, whatever the language model answered; `SynthesisOutcomes.SynthesisOutcome` says which output it is. |
| SynthesisOutcomes.EvidenceWords | backend/app/intelligence/synthesis/context.py:46-61 | The words of the evidence text are those of the rows' fields, in order, and no others. |
| SynthesisOutcomes.AcceptableIff | backend/app/intelligence/synthesis/service.py:33-92 | Parsing bounds and validator in plain terms: every claim cited and nothing else, context rows under their own source name, and every stated value in the evidence up to case and spacing. |
| SynthesisOutcomes.FallbackIsTheSignal | backend/app/intelligence/synthesis/service.py:95-120 | The fallback spelled out: body, else title, else a fixed sentence; four citations of the signal under its source name. |
| SynthesisOutcomes.SynthesisOutcome | backend/app/workers/tasks/synthesis.py:21-37 | A run stores the model's answer, with its own citations and no failure flag, exactly when the answer is acceptable on the context rows; otherwise the fallback, flagged, if within its bounds. Nothing else changes. |
| Synthesis.FallbackFitsIff | backend/app/intelligence/synthesis/service.py:33-46 | Building the fallback raises exactly on a source name outside 1..255 or, with a blank body, a title over 3000 characters. |
| Text.CollapseIdempotent | backend/app/intelligence/synthesis/service.py:97 | Collapsing whitespace twice is collapsing once, and keeps the words. |
| Text.CollapseOfBlock | backend/app/intelligence/synthesis/service.py:123-124 | Collapsing maps contiguous parts of a text to contiguous parts of its collapsed form. |
| Text.WordsOfFold | backend/app/intelligence/synthesis/service.py:123-124 | Case folding commutes with splitting into words. |
| Text.NormalizeOfBlock | backend/app/intelligence/synthesis/service.py:123-124 | Normalising maps contiguous parts to contiguous parts. |
| Text.NormalizeIgnoresCollapse | backend/app/intelligence/synthesis/service.py:97-124 | Collapsing first makes no difference to the normal form. |
| Text.CollapsedIsTidy | backend/app/intelligence/synthesis/service.py:97 | Collapsing keeps the words and leaves single spaces between them and nothing else. |
| Text.NormalizedWords | backend/app/intelligence/synthesis/service.py:123-124 | The normal form has the words of the text, each folded, single spaces apart. |
| Text.FoldIsPerCharacter | backend/app/intelligence/synthesis/service.py:123-124 | Folding works character by character. |
| Signals.VisibleIsTransitive | backend/app/workers/tasks/synthesis.py:103-110 | Reading what a reader may read stays within the tenant rule. |
| Clusters.CanonicalInvStep | backend/app/workers/tasks/embedding.py:67-76 | An embedding transaction keeps every canonical pointer aimed at a readable signal that was embedded earlier. |
| Clusters.CanonicalChainsAreAcyclic | backend/app/workers/tasks/embedding.py:184-206 | Canonical pointers form no cycle: along any chain the embedding rank falls, and the start may read the end. |
| Clusters.JoinEffect | backend/app/workers/tasks/embedding.py:209-300 | Clustering moves exactly the new signal and, with a new cluster, its neighbour. |
| Clusters.StoredAndMarked | backend/app/workers/tasks/embedding.py:47-76 | Storing the vector and marking the duplicate keeps all counts and every other row. |
| Clusters.ClusterInvStep | backend/app/workers/tasks/embedding.py:67-86 | An embedding transaction keeps: each cluster's count is the number of signals in it, at least 2, and it is ACTIVE iff at least 3. |
| Clusters.EmbedEffect | backend/app/workers/tasks/embedding.py:43-88 | The whole transaction from the matches alone: the row points at a nearest match within the limit, or as before if there is none; it shares the cluster of, or opens one around, its nearest match of the same tenant; no other signal or cluster changes. |
| Clusters.JoinKeepsCounts | backend/app/workers/tasks/embedding.py:209-281 | Joining followed by the recount restores all counts. |
| Clusters.CountsAreConserved | backend/app/workers/tasks/embedding.py:209-281 | The counts add up to the number of clustered signals: none missed, none counted twice. |
| Clusters.ClustersAreSound | backend/app/workers/tasks/embedding.py:25-89 | Both invariants hold over every run in which each signal is embedded once. |
| EmbeddingStore.FindDuplicate | backend/app/workers/tasks/embedding.py:67-74 | The first match within the limit: it is there, every earlier one is beyond it; or none is within. |
| EmbeddingStore.FindRelated | backend/app/workers/tasks/embedding.py:218-225 | The first match of the same tenant within the threshold, every earlier one failing; or none qualifies. |
| EmbeddingStore.Store.Assign | backend/app/workers/tasks/embedding.py:209-281 | The statement sequence computes the cluster assignment. |
| EmbeddingStore.Store.RunEmbedding | backend/app/workers/tasks/embedding.py:43-88 | The whole transaction restores both invariants, has the effect of `EmbedEffect`, and reports the nearest duplicate and the cluster it stored. |
| Provenance.EvidenceIds | backend/app/workers/tasks/synthesis.py:91-93 | The candidate ids: the signal first, no repetition, at most seven. |
| Provenance.ContextIsReadable | backend/app/workers/tasks/synthesis.py:53-134 | Assembly succeeds iff the signal is scored and its own tenant's, the later first-row check never fires, and the rows are exactly the readable candidates, once each, the signal first. |
| Provenance.SearchedHistoryIsReadable | backend/app/intelligence/embeddings/repository.py:52-74 | Everything the similarity search proposes is readable by the tenant, and is not the signal itself. |
| Provenance.CitationsComeFromContext | backend/app/intelligence/synthesis/service.py:57-68 | Model answer or fallback, every citation is a row of the context. |
| Provenance.SynthesisKeepsProvenance | backend/app/workers/tasks/synthesis.py:21-37 | A synthesis run keeps every stored output citing only what its tenant may read. |
| Provenance.EvidenceIsSound | backend/app/workers/tasks/decision.py:414-420 | A brief's evidence starts with its own signal, repeats nothing and is readable by the brief's tenant. |
| Provenance.DecisionKeepsProvenance | backend/app/workers/tasks/decision.py:45-111 | Writing a tenant's briefs keeps that invariant. |
| Provenance.EveryBriefIsSound | backend/app/workers/tasks/decision.py:35-115 | Over every run of arrivals, revisions, syntheses and decisions, in any order and number, every brief and stored output stays sound. |
| Provenance.GatePassesIff | backend/app/api/v1/product.py:140-164 | The page's count comparison passes iff the list is non-empty and all of it is readable. |
| Provenance.GateNeverFires | backend/app/api/v1/product.py:157-164 | On any brief written by a run of the pipeline the integrity gate passes. |
| Provenance.DecisionWorker.BriefOneTenant | backend/app/workers/tasks/decision.py:45-111 | The loop writes exactly the tenant's briefs, and each emitted payload carries the evidence stored under its key. |
| SynthesisOutcomes.ContextInPlainTerms | backend/app/workers/tasks/synthesis.py:91-120 | The candidates are the first seven distinct ids of signal, corroborating ids and three historical ones; the rows are those the tenant may read, the signal first, the rest newest first. |
| SynthesisOutcomes.BriefsWritten | backend/app/workers/tasks/decision.py:45-111 | A decision run writes exactly the company brief and one per lens, with the signal and the citations, each once in order; nothing without a visible output. |
| SynthesisOutcomes.NoTenantSeesAnothers | backend/app/workers/tasks/decision.py:35-115 | Over every run no brief of a tenant holds another tenant's signal. |
| SynthesisOutcomes.OutputsCiteReadableSignals | backend/app/workers/tasks/synthesis.py:21-37 | Over every run no stored output cites a signal its own signal's tenant may not read. |
| Decimals.RoundNear | backend/app/decision/engine.py:103-118 | One rounding of the 28-digit context moves a value below ten by at most half a unit of its last digit. |
| Decimals.RoundExact | backend/app/decision/engine.py:103-118 | A value of few enough digits is not changed by the context. |
| Relevance.ObjectTerm | backend/app/decision/engine.py:103-114 | The 28-digit quotient by three, times 0.20, is within a unit of the 26th decimal of the exact term, and exact for none or three matches. |
| Relevance.SumNear | backend/app/decision/engine.py:112-118 | The decimal sum of five terms is that close to the exact rational sum. |
| Relevance.DecimalThirdsAreHarmless | backend/app/decision/engine.py:97-118 | For every match count, every urgency on the 0.001 grid and all flags, the decimal score equals exact half-up rounding, and the clamp is never active. |
| Relevance.MoreContextMatchesMore | backend/app/decision/engine.py:98-111 | More context keeps every match, type and flag of the old one. |
| Relevance.ScoreMonotone | backend/app/decision/engine.py:112-118 | The score rises with each of its inputs and never exceeds 0.950. |
| Relevance.DecisionIff | backend/app/decision/engine.py:119-137 | A decision is required iff some rule, in whatever order, fires and says so; `RelevanceOutcomes.RuleAppliesIff` says when a rule fires. |
| Relevance.AssessmentShape | backend/app/decision/engine.py:134-153 | The assessment fails exactly without rules or with mixed versions; otherwise score, band and decision agree. |
| Relevance.MoreContextNeverHurts | backend/app/decision/engine.py:97-148 | Adding objects, entities, region tags, markets or priorities never lowers score or band and never turns a decision off. |
| Relevance.DecisionIsUrgent | backend/app/decision/engine.py:138-148 | A required decision always reads HIGH or CRITICAL; scores stay within one. |
| Relevance.OrderDoesNotMatter | backend/app/decision/engine.py:119-137 | Permuting rules of distinct priorities changes nothing; permuting objects only permutes the list of matched objects. |
| Relevance.AssessmentLists | backend/app/decision/engine.py:126-137 | Exposures, stakes and owners are exactly those of the firing rules, without repetition, and the decision type is that of a firing decision rule of least priority. |
| RelevanceOutcomes.MatchedIff | backend/app/decision/engine.py:98-98 | The matched objects are, in order, those with a shared entity, a market name among the regions, or a mentioned name. |
| RelevanceOutcomes.RuleAppliesIff | backend/app/decision/engine.py:119-125 | A rule fires iff domain and event type are the signal's and its required context types are matched, `INFRASTRUCTURE_DEPENDENCY` meaning `DEPENDENCY`. |
| RelevanceOutcomes.ScoreInPlainTerms | backend/app/decision/engine.py:97-118 | The score is .40 applicability, .20 a third per object up to three, .15 urgency, .10 entity and .10 strategy, to the nearest thousandth. |
| RelevanceOutcomes.AssessmentInPlainTerms | backend/app/decision/engine.py:97-166 | The whole assessment: matched objects, codes of the applying rules by priority, what they say, the first decision among them, the score lifted to 700, bands from 850, 700 and 450; failing on no rules or mixed versions. |
| RelevanceOutcomes.InapplicableRuleIsInert | backend/app/decision/engine.py:119-125 | Inserting a rule of the same version that does not apply, anywhere, leaves the assessment unchanged in every field. |
| RelevanceOutcomes.ApplicableRuleCounts | backend/app/decision/engine.py:119-137 | Inserting one that applies adds exactly its code, exposures, stakes and owners, and turns the decision on if it requires one. |
| RelevanceOutcomes.ListsAreInOrder | backend/app/decision/engine.py:126-133 | Each list holds the firing rules' values in firing order, at their first occurrence. |
| RelevanceOutcomes.PriorityInPlainTerms | backend/app/decision/engine.py:169-201 | Personal priority is .55 relevance, .20 role, .10 domain, .05 responsibility and .10 the greatest matched focus weight, and reports exactly those matches. |
| Priorities.PriorityFollowsRelevance | backend/app/decision/engine.py:169-201 | Personal priority is within [0, 1], monotone in relevance, and its clamp is inactive for weights within one. |
| Priorities.MaxWeightIsGreatest | backend/app/decision/engine.py:190-193 | The focus term is the greatest weight among areas with a matched label, or zero. |
| Priorities.MoreContextNeverLowersPriority | backend/app/decision/engine.py:97-201 | Through assessment and priority together, more company context never lowers anybody's priority. |
| Classifier.ClassifySignal | backend/app/intelligence/classification/rule_classifier.py:176-217 | The nested loops, sort and head compute the choice over all hits. |
| Classifier.HitsAreComplete | backend/app/intelligence/classification/rule_classifier.py:183-187 | The collected hits are exactly the keyword rules all of whose expressions are found, in keyword order within a rule. |
| Classifier.ChoiceWins | backend/app/intelligence/classification/rule_classifier.py:188-202 | The head of the sorted hits is the winner defined without any rule order: highest confidence, least key, first keyword. |
| Classifier.WinnerIsUnique | backend/app/intelligence/classification/rule_classifier.py:188-202 | There is only one such winner when keys are distinct. |
| Classifier.ConflictIff | backend/app/intelligence/classification/rule_classifier.py:203-217 | A conflict is reported iff two different keys share the top confidence. |
| Classifier.OrderDoesNotMatter | backend/app/intelligence/classification/rule_classifier.py:176-217 | Permuting taxonomy rules with distinct keys leaves the whole result unchanged. |
| Classifier.LexLeIff | backend/app/intelligence/classification/rule_classifier.py:188 | The order of keys is Python's: a prefix, or smaller at the first difference. |
| Classifier.ClassificationInPlainTerms | backend/app/intelligence/classification/rule_classifier.py:176-217 | No firing keyword, no classification; else domain, event type, tags and confidence of the firing keyword that beats all others, and a conflict iff another key has its confidence. |
| Scoring.QuantizeIsNearest | backend/app/intelligence/scoring/confidence_urgency.py:151-152 | Rounding is to the nearest thousandth, ties upward, and keeps grid points. |
| Scoring.ScoreIsBetween | backend/app/intelligence/scoring/confidence_urgency.py:54-105 | Any bounds of the components, rounded, bound the score; on the 0.001 grid it lies between its least and greatest component. |
| Scoring.AtMostIff | backend/app/intelligence/scoring/confidence_urgency.py:54-105 | The score stays at or below a bound exactly when the exact average is below the middle between the grid points around the bound. |
| Scoring.AtLeastIff | backend/app/intelligence/scoring/confidence_urgency.py:54-105 | The score stays at or above a bound exactly when the exact average reaches the middle below the grid point over the bound. |
| Scoring.EqualComponentsAreMissedIff | backend/app/intelligence/scoring/confidence_urgency.py:151-152 | Five equal components off the grid are exceeded by their own score exactly from the middle between two grid points on, and undercut before it. |
| Scoring.AtMostGreatest | backend/app/intelligence/scoring/confidence_urgency.py:54-105 | With at most one component off the grid, of weight at most one half, the score is at most the greatest component. |
| Scoring.AtLeastLeast | backend/app/intelligence/scoring/confidence_urgency.py:54-105 | And at least the least one. |
| Scoring.StoredScoresAreBetween | backend/app/workers/tasks/scoring.py:27-56 | Every pair of scores the pipeline stores lies between its least and greatest component, although entity quality is an average off the grid. |
| Scoring.BandIff | backend/app/intelligence/scoring/confidence_urgency.py:70-104 | A band starts exactly half a thousandth below its cut, on the exact average. |
| Scoring.ScoringSucceedsIff | backend/app/workers/tasks/scoring.py:31-55 | Scoring succeeds iff the raw row is usable: the first stage's result always passes the second stage's validation. Both scores are on the grid in [0, 1]. |
| Scoring.BetterEvidenceNeverHurts | backend/app/workers/tasks/scoring.py:32-55 | Through both rounded stages, more reliable, corroborated, recent, resolved or classified evidence never lowers confidence, urgency or either band. |
| Scoring.ScoresInPlainTerms | backend/app/workers/tasks/scoring.py:31-56 | Both scores from the row: the weights, the corroboration and age steps, the incident test, rounding and band cuts spelled out. |
| Scoring.FailureInPlainTerms | backend/app/intelligence/scoring/confidence_urgency.py:108-124 | Which failure comes first: no source, a naive timestamp, an observation in the future. |
| Resolver.NormalizedIsCollapse | backend/app/intelligence/entities/resolver.py:75-77 | Substituting runs of other characters and stripping yields the words joined by single spaces. |
| Resolver.PhraseIsWordBlock | backend/app/intelligence/entities/resolver.py:80-81 | On normalised strings, phrase search holds iff the phrase's words are a contiguous block of the text's words. |
| Resolver.OccursIff | backend/app/intelligence/entities/resolver.py:48-49 | The inner guard holds iff the name has words and they are such a block. |
| Resolver.BestIsLongestOccurringName | backend/app/intelligence/entities/resolver.py:43-58 | An entity is resolved iff one of its names is in the text, by the longest one; among equals the canonical name, then the earliest alias. |
| Resolver.ReportedIsUnique | backend/app/intelligence/entities/resolver.py:47-58 | That description picks one candidate. |
| Resolver.ResolveEntities | backend/app/intelligence/entities/resolver.py:39-68 | The loops compute the resolutions and the unknown mentions. |
| Resolver.ResolvedIff | backend/app/intelligence/entities/resolver.py:41-58 | An id is resolved iff a record with it has a name in the text, and the result reports that record's best name. |
| Resolver.UnexplainedIff | backend/app/intelligence/entities/resolver.py:59-68 | No unknown mention contains a reported name or is an ignored acronym; with distinct ids these tests are also sufficient. |
| Resolver.NormalizedInPlainTerms | backend/app/intelligence/entities/resolver.py:75-77 | Normalising keeps letters, digits and words in order, single spaces apart. |
| Resolver.ResolutionInPlainTerms | backend/app/intelligence/entities/resolver.py:41-58 | For each id, the last record with a name in the text is reported under its canonical name, by its longest such name, with certainty 1 or, for an alias, 0.98. |
| Resolver.UnknownInPlainTerms | backend/app/intelligence/entities/resolver.py:59-68 | With distinct ids the unknown mentions are those that are no listed acronym and hold no reported name, stripped. |
| HtmlText.VisibleHtmlParser.Feed | backend/app/intelligence/normalization/parser.py:193-229 | Feeding a stream computes the scan of all its events. |
| HtmlText.StreamIsTree | backend/app/intelligence/normalization/parser.py:204-229 | For every balanced tree the collected text is exactly the data without a hidden ancestor, in order, and the depth returns to its start. |
| HtmlText.TitleOfNode | backend/app/intelligence/normalization/parser.py:218-229 | The title gets all heading text, or strictly less when some of it follows a nested heading. |
| HtmlText.DocumentIsCollected | backend/app/intelligence/normalization/parser.py:193-229 | From a fresh parser: text is the visible text, and title is the visible heading text iff none of it follows a heading nested in its heading. |
| HtmlText.TitledIconHidesTheHeading | backend/app/intelligence/normalization/parser.py:221-222 | A concrete document whose heading text is lost that way. |
| HtmlText.DepthIsLargestSurplus | backend/app/intelligence/normalization/parser.py:205-219 | On any stream the depth is the largest surplus of hidden start tags over end tags in a stretch up to here; it is never negative. |
| HtmlText.DataIsKeptIff | backend/app/intelligence/normalization/parser.py:224-227 | On any stream a piece of data is kept iff no stretch just before it opens more hidden elements than it closes. |
| HtmlText.TagsInPlainTerms | backend/app/intelligence/normalization/parser.py:206-222 | Which tags hide, which are headings, and that all others are as their children are. |
| HtmlText.SiblingsInTurn | backend/app/intelligence/normalization/parser.py:224-229 | Text and title of siblings are collected in order. |
| Discovery.BuildQuery | backend/app/ingestion/discovery.py:22-38 | The loop computes the query of the greedy selection. |
| Discovery.OmittedOverflow | backend/app/ingestion/discovery.py:30-37 | A term that was skipped would still overflow if appended to the final selection. |
| Discovery.QueryIsBoundedAndMaximal | backend/app/ingestion/discovery.py:22-38 | For every input: at most 220 characters, the three anchors first, no repetition, nothing invented, and no omitted term would still fit. |
| Discovery.TaxonomyHasPriority | backend/app/ingestion/discovery.py:27-28 | Entities never displace a taxonomy term. |
| Discovery.QueryInPlainTerms | backend/app/ingestion/discovery.py:17-38 | The query is a parenthesis of the quoted terms joined by OR, and the fixed tail. |
| Discovery.QuotedInPlainTerms | backend/app/ingestion/discovery.py:17-19 | A quoted term holds no quote of its own and the term's words, single spaces apart. |
| Discovery.SelectIsGreedy | backend/app/ingestion/discovery.py:28-37 | A term is selected iff with the selected terms before it the query still has at most 220 characters. |
| Discovery.WindowIsUnique | backend/app/ingestion/discovery.py:102-105 | A rotating window never repeats an index. |
| Discovery.OfferedIff | backend/app/ingestion/discovery.py:102-105 | An index is in the window iff it is fewer than `size` places after the offset. |
| Discovery.RotationIsFair | backend/app/ingestion/discovery.py:75-89 | Over any n consecutive offsets each index is offered by exactly min(size, n) windows. |
| Discovery.RoundOffersEveryValue | backend/app/ingestion/discovery.py:102-105 | Over such a round the slices together hold each value min(size, n) times as often as the registry. |
| Seqs.Distinct | backend/app/decision/engine.py:246-247 | Every value once, nothing else. |
| Seqs.FirstOfStableSort | backend/app/intelligence/entities/resolver.py:47-49 | Searching a stably sorted list finds the earliest of the least hits. |
| Seqs.FilterOfStableSort | backend/app/decision/engine.py:119-125 | Selecting after a stable sort is sorting the selection. |
| Seqs.FirstOfDistinct | backend/app/workers/tasks/synthesis.py:91-93 | Cutting a de-duplicated list gives the first distinct values in order of first occurrence. |

## Left out

- Steps finer than a statement: the row locks of the updates and of activation's SELECT FOR UPDATE are taken as given, so each of them is one step.
- SourceSchedulerService.SourceScheduler.RunOnce: other schedulers are quiet during the method; their interleavings are the subject of SchedulerProtocol.
- Checkout.CheckoutProgress: assumes the honest provider and the undisturbed stretches described above; the money theorems assume neither.
- Cron parsing, queue choice by priority, event fields other than id, job and window, and the collector's fetching, archiving and raw-signal rows; a collector appears only as the job statuses it writes.
- Timestamps other than expiry and column length limits of the billing tables; an insert the database refuses for another reason is the `databaseFails` case. The webhook status FAILED is called REJECTED here, because checkouts have a FAILED of their own.
- BillingDatabaseService.BillingDatabase.ActivateCheckout: the tenant status update and the subscription periods, which no modelled branch reads, are not modelled.
- Signature checks, request limits and reference format checks in front of the billing endpoints.
- Digits outside ASCII in a provider amount string.
- The rounding of a fetched exchange rate to six decimals: quotes start at the rounded rate.
- Vectors and the approximate index: a search may return any sublist of the qualifying rows, nearest first.
- Clusters.ClustersAreSound: each signal is embedded once and transactions commit one at a time; re-embedding a redelivered signal is not covered, and its counts can then be wrong.
- Signals without body text: the column is nullable, but normalisation refuses a document without text, so evidence bodies are strings here. Moving a signal between tenants, which no worker does.
- Exposure, stakes and prompt sentences of briefs, model-written narratives, and assessments' database rows.
- Relevance.DecimalThirdsAreHarmless: urgency is on the 0.001 grid within [0, 1], as scoring stores it.
- Decimal rounding in confidence and urgency: reliability, classification and weights have three decimals, entity quality is an SQL average of three-decimal values with at most about twenty, and a weight has two, so each product and sum stays below 28 digits and real arithmetic is exact.
- Taxonomy parsing, the taxonomy cache and keyword expressions as regular expressions.
- Resolver.ResolveEntities: results come as a map and a set; the display order of the two lists is not modelled, nor is the organisation-name expression, whose matches are an argument.
- EmbeddingStore.Store.Assign: titles, domains, dates and velocity of a cluster, and the deduplication status written beside the canonical pointer, are not modelled.
- HtmlText.VisibleHtmlParser.Feed: starts at tokenizer events; publication date, canonical URL and language are not collected.
- URL encoding of the discovery query and the two registry reads that feed it.
- Review cases, alerts, pilot endpoints, access control and the frontend.
