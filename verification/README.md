# Marketplace core: models and proofs

This project models the transactional core of a Django classifieds marketplace
and proves properties of every run of it. Each `@transaction.atomic` service is
one step that commits or changes nothing; only the delivery of an outbox event,
which is three transactions with a handler in between, is split.

Run `dafny verify dfyconfig.toml` to check everything.

## Layout

| file | what it holds |
|---|---|
| `OutboxRows.dfy`, `Outbox.dfy` | the event and attempt tables, and the outbox services as methods of a class |
| `OutboxSystem.dfy`, `OutboxTheorems.dfy`, `OutboxLeases.dfy`, `OutboxOverlaps.dfy`, `OutboxBounds.dfy`, `OutboxWork.dfy`, `OutboxClash.dfy` | any number of workers interleaving, and what holds in every run |
| `Ledger.dfy`, `Media.dfy` | orders and payment events; images, their orderings and reviews |
| `Listings.dfy` | one listing with its media, orders, events, history and outbox keys; each service as a function from record to outcome |
| `ListingFile.dfy` | the same services step by step over the tables, each proved equal to its function |
| `ReviewFacts.dfy`, `OrderFacts.dfy`, `SellerFacts.dfy` | what each service answers and stores, said of the record before and after without its function |
| `Lifecycle.dfy` | runs of a listing over all services and the invariant of every reachable record |
| `LifecycleTheorems.dfy`, `RunTheorems.dfy`, `StatusDiagram.dfy`, `PublicationDates.dfy` | what holds in every run |
| `Publication.dfy`, `RenewalLimits.dfy`, `PaymentLinks.dfy`, `TwoLineOrders.dfy` | what is public was approved; when a renewal breaks that; when a payment link can no longer be paid; when an approval aborts |
| `WitnessRuns.dfy`, `StrandedListings.dfy` | concrete runs with a clock that never goes back, and the failures they reach |
| `Marketplace.dfy` | all listings: what buyers see, and the expiry worker |
| `Reports.dfy` | report limits and triage |
| `ZipCounty.dfy`, `ZipFacts.dfy`, `ZipHeaders.dfy` | the ZIP/county import; what becomes of a line's cells; which delimiter a header is read with |
| `Browse.dfy`, `BrowseRules.dfy`, `PriceTexts.dfy`, `BrowseInputs.dfy` | the browse form; its rules, said of requests and filters; price texts on which it raises; single requests it raises on or refuses |
| `Wrappers.dfy`, `EventTypes.dfy`, `Sequences.dfy`, `Sums.dfy`, `Text.dfy`, `Digits.dfy` | shared small theories |

A listing service is written twice: once as a function on `Listings.Record`
(`Submit`, `Moderate`, `ProcessEvent`, ...), about which the run theorems are
proved, and once as a method of `ListingFile.Listing` that performs the steps of
the code, with rollback, and ensures it has exactly the function's effect
(`Commits`). The bookkeeping columns `content` and `approved` count changes of
text, facts and media and remember the content a moderator last approved.

A run is any sequence of calls with any arguments, permission outcomes, clocks
and handler results. Hypotheses are named predicates: `TimelyRun` (no handler
still runs after the lease of its claim), `QuietRun` (no event is replayed while
its handler runs), `NoReplay`, `NoCrash`, `PromptRun` (neither, and no lease is
overrun), `Regular` (no fixture publication, and an unpaid renewal is settled
only while the listing is PUBLISHED, AWAITING_PAYMENT, EXPIRED or SOLD),
`Decisive` (moderators do not answer PENDING), `Clocked` (the clock never goes
back) and `NotBefore` (no service reads a time before a given one).

## What the code does not do

Where a documented promise fails, the code is modelled as it is. Each item names
the theorems: the exact condition, and a run or an input that meets it.

- A renewal is said to restore only an unchanged listing
  (docs/features/LST-008-seller-management-favorites-renewal.md). The settlement
  checks the grace period and `last_material_edit_at`, not the status, and edits
  made as a draft leave that column alone. `RenewalLimits.RenewalSafeExactlyWhenLive`:
  for every stored status, settling a renewal never publishes unapproved content
  if and only if the status is PUBLISHED, AWAITING_PAYMENT, EXPIRED or SOLD, and
  a clock that never goes back changes nothing. `WitnessRuns.ReachUnapproved`
  reaches each other status.
- Leased events are said not to be processed concurrently
  (docs/features/OPS-009-expiration-notifications-outbox.md).
  `OutboxOverlaps.WhenDeliveriesOverlap`: in every run, two workers come to run
  one event by exactly one step, the check of one of them on the event the other
  runs. `OverlapWasTaken`: one of them has claimed it meanwhile.
  `OverlapsExactlyWhenLeaseIsOver`: an idle worker can claim an event that is
  being run, and then overlaps at once, if and only if the event is open and its
  lease is past, or its lock was cleared and it is available.
  `OutboxLeases.DeliveriesNeverOverlap` holds when deliveries end within their
  leases and no event is replayed during its delivery. Both are needed:
  `OutboxLeases.OverrunOverlaps` is an overlapping run without replays, for every
  configuration, and `TimelyDeliveriesOverlapExactlyWhen` has one without
  overruns, for every lease that is not negative.
- The last transaction of a delivery looks at neither the lock nor the terminal
  columns. `OutboxLeases.WhenTerminalStatesClash` is the exact step that makes an
  event both processed and failed, and `OutboxClash.EveryConfigurationClashes` a
  run that takes it, for every configuration; `OneOutcomePerEvent` holds under
  the two hypotheses above.
- A payment link for a listing whose first order is settled returns that order.
  `PaymentLinks.LinkStrandsExactlyWhen`: an approval with a link leaves the
  listing waiting forever, from a time on, if and only if before the call a first
  order is there but none is PENDING, and no unpaid renewal is in grace at that
  time. `WaitsForeverExactlyWhenUnpayable` is the same for any waiting listing.
  `StrandedListings.RelinkedWaitsForever` is a run that pays, edits and links
  again; `GraceDecides` one that links again with no edit and can be paid only in
  the seven days after expiry.
- `listing.payment_ready`, which every payment link enqueues
  (`PaymentLinks.LinkFacts`), has no handler. `OutboxTheorems.OnlyHandledAreProcessed`:
  in no run is an event without a handler processed. `Outbox.DrainOutbox`: when
  the queue is drained, an event is processed if one of its remaining attempts
  succeeds and failed otherwise. `StrandedListings.LinkEventHasNoHandler` is the
  run that enqueues one.
- Approving a listing again reads the duration of the order last paid from its
  only line (`lines.get()`). `TwoLineOrders.ManyLinesExactlyWhen`: the approval
  aborts for this if and only if it would have published and that order has two
  lines. `TwoLineOrders.ReapprovalAborts` is a run that gets there: paid with one
  additional county, edited, approved again.
- The moderation service stores a PENDING verdict as it is (only the view
  refuses it). `Publication.PendingAfterModeration`: media is pending afterwards
  exactly when a verdict was PENDING; `PendingImagePublished` is a run that
  publishes such an image.
- `clean_intent` says that an invalid `intent` becomes the default. The choice
  field refuses it first. `Browse.InvalidIntentIsAnError`: a request that is
  valid without an intent is valid with one if and only if it names a choice or
  is empty. `BrowseInputs.UnknownIntentIsRefused`: `intent=sell` is not.
- A header is recognised under commas or under tabs, and then read with the
  delimiter of its schema. `ZipHeaders.ReadAsRecognisedExactlyWhen`: it is read as
  it was recognised if and only if the two are the same. If not,
  `OneCellExactlyWhen`: it is read as one cell, unless it was recognised under
  commas and holds a tab. `ImportsExactlyWhen`: files with a recognised header can
  import if and only if it is read as two cells or more, and
  `MisreadNeverImports` has the exact error of every other file.
  `HudWithTabsIsMisread` is the header `zip<TAB>county`,
  `HarvardWithCommasIsMisread` the long header between commas, and
  `HarvardWithOneTabIsReadWrongly` one with a tab, whose file is read as two or
  more columns.
- A price may raise instead of being a form error. `Browse.BrowseForm.FullClean`
  completes if and only if no price is a text of `PriceTexts.Raising`: NaN with
  any sign and digits, or Infinity without a minus sign.
  `BrowseInputs.NaNAndInfinityRaise` and `NegativeInfinityIsAnError` are such
  requests.
- A vertical that is not a number raises. `Browse.BrowseForm.InstallFields`
  completes if and only if it is empty or an integer that can be read;
  `BrowseInputs.SlugIsUnreadable`: `vertical=autos` cannot.
- Printing a validated form raises on a price of more than 4300 digits, the most
  Python writes. `Browse.PrintingRaisesExactlyWhen`: if and only if there is one.
  `BrowseInputs.LongPriceRaises` is one of 4301 nines.

## Model

| member | source | states |
|---|---|---|
| OutboxServices.Outbox.EnqueueEvent | src/apps/core/outbox.py:23-40 | an event is stored, available from the given time or now, unless its idempotency key exists; no other row changes |
| OutboxServices.Outbox.SelectReady | src/apps/core/outbox.py:52-57 | the batch is the first batch_size open, available, unlocked or lease-expired rows nobody else holds, by availability then creation, without duplicates; a row left out comes no earlier and the batch is full |
| OutboxServices.Outbox.ClaimEvents | src/apps/core/outbox.py:47-68 | the table becomes the one in which exactly the batch is leased to the worker with one new attempt each; numbering, lock naming and key uniqueness are kept |
| OutboxServices.Outbox.BeginDelivery | src/apps/core/outbox.py:88-96 | skips exactly closed events and events locked by another worker |
| OutboxServices.Outbox.RecordFailure | src/apps/core/outbox.py:100-132 | the attempt lookup never fails; the row is failed at the limit or retried after the backoff, without rechecking the lock |
| OutboxServices.Outbox.RecordSuccess | src/apps/core/outbox.py:133-146 | the attempt lookup never fails; row and attempt are closed as processed and succeeded |
| OutboxServices.Outbox.DeliverEvent | src/apps/core/outbox.py:86-151 | an undisturbed delivery is the composition of check, handler and finalisation for any handler result |
| OutboxServices.Outbox.DeliverClaimed | src/apps/core/outbox.py:154-160 | every leased event of a batch is delivered, none is skipped, each row becomes what its own attempt made of it, and the counts are the numbers of rows processed and failed |
| OutboxServices.Outbox.ProcessBatch | src/apps/core/outbox.py:154-160 | claimed = processed + retry + failed with skipped = 0; each row of the batch changes independently, all others stay; the work left drops by at least one per claimed event |
| OutboxServices.Outbox.DrainOutbox | src/apps/core/outbox.py:113-118 | batches at any times that never go back and pass every bound, each attempt taking any time from its claim on, terminate; an open event ends processed exactly if one of its remaining attempts succeeds and failed exactly if none does, and closed events are untouched |
| OutboxServices.Outbox.ReplayFailedEvent | src/apps/core/outbox.py:163-177 | a processed event is left alone; any other is no longer failed, available now and unlocked, with its attempts, count, type and key as before |
| OutboxServices.WorkDrops | src/apps/core/outbox.py:113-118 | the sum of attempts left over open events falls by at least the number of rows that lost some |
| OutboxRows.ClaimAllRows | src/apps/core/outbox.py:58-67 | claiming a batch row by row is claiming each row once, independently; earlier attempts are untouched and the new ones are numbered attempt_count |
| OutboxRows.FinalisingKeepsConsistent | src/apps/core/models.py:54-58 | both finalising transactions find their attempt row and keep attempts numbered exactly 1..attempt_count |
| OutboxTheorems.AttemptsExactlyNumbered | src/apps/core/outbox.py:58-67 | in every state of every run, overrun leases and replays included, attempts are numbered exactly 1..attempt_count and the lookups of a running delivery succeed |
| OutboxTheorems.ProcessedIsFinal | src/apps/core/outbox.py:133-146 | once processed, an event stays processed and is never claimed again, in every run |
| OutboxTheorems.ReplayedCanBeClaimed | src/apps/core/outbox.py:163-177 | in every run an event not processed before its replay can be claimed right after it by any idle worker, whatever it had come to |
| OutboxTheorems.RetryCapNeverBinds | src/apps/core/outbox.py:43-44 | the retry delay is 2^min(n, 8) seconds, so the 300-second cap is never reached |
| OutboxTheorems.ClaimsAreSpaced | src/apps/core/outbox.py:49-62 | without replays the claim after the n-th one comes at least min(lease, 2^min(n, 8)) seconds later, even with overrun leases |
| OutboxTheorems.ClaimsAreDelayed | src/apps/core/outbox.py:110-118 | with a lease of 256 seconds or more, claim n+1 is no earlier than the sum of the n backoffs after the first claim |
| OutboxTheorems.OnlyHandledAreProcessed | src/apps/core/outbox.py:71-83 | in every run only events whose type has a handler are ever processed |
| OutboxLeases.DeliveriesNeverOverlap | src/apps/core/outbox.py:86-98 | when deliveries end within their leases and no replay hits a running event, two workers never run handlers of one event at the same time |
| OutboxOverlaps.WhenDeliveriesOverlap | src/apps/core/outbox.py:86-98 | in every run two workers come to run one event if and only if one of them passes its check on the event the other runs |
| OutboxOverlaps.OverlapWasTaken | src/apps/core/outbox.py:52-62 | in every run, two workers that run one event do so because one of them claimed it while the other was running it |
| OutboxOverlaps.OverlapsExactlyWhenLeaseIsOver | src/apps/core/outbox.py:49-62 | in every run, an idle worker can claim an event being run if and only if it is open and its lease is past, or its lock was cleared and it is available; the claim and its check then overlap at once |
| OutboxOverlaps.TimelyDeliveriesOverlapExactlyWhen | src/apps/core/outbox.py:163-177 | a run in which no lease is overrun but a replay during a delivery makes two workers run one event exists if and only if the lease is not negative |
| OutboxLeases.OneOutcomePerEvent | src/apps/core/outbox.py:99-146 | under the same hypotheses no event is both processed and failed, and exactly the last attempt of a processed event has succeeded |
| OutboxLeases.WhenTerminalStatesClash | src/apps/core/outbox.py:102-146 | in every run, a step makes an event both processed and failed if and only if it is the last transaction of a delivery whose event was already closed the other way (processed with its attempts used up, or failed) |
| OutboxLeases.OverrunOverlaps | src/apps/core/outbox.py:52-57 | for every configuration a run without replays in which a lease is overrun and two workers run one event |
| OutboxClash.EveryConfigurationClashes | src/apps/core/outbox.py:102-146 | for every lease and attempt limit a run without replays in which an overrun lease leaves an event both processed and failed |
| OutboxBounds.ClaimsAreBounded | src/apps/core/outbox.py:113-118 | without replays, crashes or overrun leases no event is claimed more than max(1, OUTBOX_MAX_ATTEMPTS) times, and a waiting event always has a claim left |
| OutboxWork.DeliveriesAreBounded | src/apps/core/outbox.py:113-118 | under the same hypotheses, for any interleaving, each finished delivery lowers what is left, only a new event raises it, and deliveries finished plus those left never exceed the attempts the enqueued events allow |
| OutboxWork.BatchAddsUp | src/apps/core/outbox.py:154-160 | in every run, whatever other workers do meanwhile and even with overrun leases, a worker's batch ends with claimed = processed + retry + failed + skipped |
| Media.CompactOrderings | src/apps/listings/models.py:1178-1182 | the invariant on images says that READY orderings are unique and are exactly 0..n-1 |
| Media.CompleteOrderIsPermutation | src/apps/listings/services.py:1849-1850 | set equality plus equal length makes the requested order a permutation of the READY images |
| Media.ReorderedFacts | src/apps/listings/services.py:1851-1854 | after a reorder the image at position k is the k-th requested, and only orderings changed |
| Media.ReorderWritesLegal | src/apps/listings/services.py:1851-1854 | each of the 2n single-row updates respects the non-deferred unique constraint |
| Media.DeletedFacts | src/apps/listings/services.py:1864-1875 | a delete removes one READY image, keeps the order of the others and closes the gap |
| Media.DeleteWritesLegal | src/apps/listings/services.py:1870-1875 | each single-row update of the compaction respects the unique constraint |
| Media.UploadedFacts | src/apps/listings/services.py:1815-1828 | an upload comes after all READY images and keeps orderings 0..n |
| Ledger.LatestPaidFacts | src/apps/listings/services.py:1159-1164 | the order that sets the expiry is a paid one that no other paid order was paid after, and is missing only when none is paid |
| Ledger.SettleKeepsBooks | src/apps/billing/services.py:256-303 | moving one matching event and its order forward together keeps every order settled by exactly its events and the ledger in balance |
| ListingFile.Listing.SubmitListing | src/apps/listings/services.py:896-935 | the two status writes, their history rows and the flag rows have the effect of Submit and keep the reachable invariant |
| ListingFile.Listing.ClaimListing | src/apps/listings/services.py:956-973 | a claim commits only on the observed revision, in review, unassigned or own |
| ListingFile.Listing.ApplyImageModeration | src/apps/listings/services.py:982-1031 | exactly the pending READY images take their verdicts, each as given with its reason stripped, with one history row each in display order that says what is stored; or it aborts for a missing decision or reason |
| ListingFile.Listing.ApplyVideoModeration | src/apps/listings/services.py:1034-1083 | the same for videos, in the order they were created |
| ReviewFacts.ImageVerdictsStored | src/apps/listings/services.py:982-1031 | a pass that does not abort has a verdict for exactly the pending READY images, stores each as given, leaves every other image alone and tells each in the history as stored |
| ReviewFacts.VideoVerdictsStored | src/apps/listings/services.py:1034-1083 | the same for videos |
| ReviewFacts.ModerationStores | src/apps/listings/services.py:1134-1143 | after a moderation every verdict is stored as given, the approved images are the old ones and those with an approving verdict, and the history is the image rows, the video rows and the outcome |
| ReviewFacts.ModerationRefusals | src/apps/listings/services.py:1118-1133 | who may ask for which outcome of a listing in which status, with a reason or without, and the error of each refusal in the order of the checks |
| ReviewFacts.ModerationDecides | src/apps/listings/services.py:1144-1215 | the status and the event of each outcome, an approval without the required approved images being a request for changes; revision, moderator and dates; no other column changes |
| ReviewFacts.SubmitAnswers | src/apps/listings/services.py:896-935 | a permitted draft or returned listing with its required READY images goes into review over SUBMITTED, with both history rows and one per flag; anything else is refused |
| ReviewFacts.ClaimAnswers | src/apps/listings/services.py:948-973 | a claim succeeds exactly for a permitted moderator who saw the current revision of a listing in review that nobody else has |
| ListingFile.Listing.MarkPublished | src/apps/listings/services.py:1155-1167 | publication dates, the write-once first publication, and the expiry from the latest paid order; aborts unless that order has one line |
| ListingFile.Listing.ModerateListing | src/apps/listings/services.py:1096-1216 | checks, verdicts, downgrade, status, payment link or refunds and notification have the effect of Moderate, and any abort restores every row |
| ListingFile.Listing.Conclude | src/apps/listings/services.py:1182-1215 | the payment link, the refunds of a rejection and the enqueued event follow the outcome |
| ListingFile.Listing.CreateGenericQuote | src/apps/billing/services.py:71-129 | one order per listing for the first publication: a new one charges the placement once and each additional county, in USD, for the configured days or 30; an existing one is returned whatever its status |
| OrderFacts.QuoteAnswers | src/apps/billing/services.py:84-129 | every answer of a quote, and what a new order charges: total, lines, unit prices, quantities, currency and days |
| OrderFacts.CheckoutAnswers | src/apps/billing/services.py:170-222 | every answer of a renewal's checkout, and the one line of a new order at the configured price, currency and days |
| OrderFacts.RefundAnswers | src/apps/billing/services.py:251-265 | a refund event settles only a paid order of its amount and currency, and is failed or ignored otherwise; the listing is left alone |
| OrderFacts.RefusedPaymentAnswers | src/apps/billing/services.py:268-297 | a payment that does not match, comes twice, meets a listing that is not waiting or lacks approved images closes its event with that reason and changes nothing else |
| OrderFacts.FirstPaymentAnswers | src/apps/billing/services.py:298-317 | a matching first payment of a waiting listing with its images pays the order and publishes it for its first line's days; a wanted listing gets no end |
| OrderFacts.RenewalPaymentAnswers | src/apps/billing/services.py:352-384 | a matching renewal payment publishes from any status within seven days of expiry and unedited, and rolls back otherwise |
| OrderFacts.ReceiveAnswers | src/apps/billing/models.py:122-128 | a provider's event is stored as it came, for an existing order and once per provider id |
| OrderFacts.LocalPaymentAnswers | src/apps/billing/services.py:387-402 | a local payment processes one event of the order in its full amount, stored before or new |
| ListingFile.Listing.CreateCheckoutOrder | src/apps/billing/services.py:157-222 | eligibility by status, one unpaid renewal at a time, the configured price and duration |
| ListingFile.Listing.CreateRenewalOrder | src/apps/billing/services.py:225-238 | renewals need an expiry not older than seven days and no material edit |
| ListingFile.Listing.ApplyPaidRenewal | src/apps/billing/services.py:352-384 | a renewal publishes whatever the current status, within grace and with one line |
| ListingFile.Listing.ProcessPaymentEvent | src/apps/billing/services.py:241-340 | every branch on duplicates, mismatches, disorder, renewals and first payments has the effect of ProcessEvent and keeps the invariant |
| ListingFile.Listing.ReceivePaymentEvent | src/apps/billing/models.py:122-128 | a provider event is stored once per provider id and only for an existing order |
| ListingFile.Listing.ProcessLocalEvent | src/apps/billing/services.py:391-402 | get or create the deterministic event, then process it, in one transaction |
| ListingFile.Listing.RecordPayment | src/apps/billing/services.py:387-402 | a local payment has the effect of RecordLocalPayment or rolls back |
| ListingFile.Listing.RefundRejectedListing | src/apps/billing/services.py:405-425 | the refund loop has the effect of one full refund per paid order |
| ListingFile.Listing.TransitionOwned | src/apps/listings/services.py:419-481 | sold, archive and restore with their dates, history row and event |
| SellerFacts.SoldAnswers | src/apps/listings/services.py:453-481 | only a published listing can be marked sold; it is then public for thirty days more, and its first publication is kept or fixed |
| ListingFile.Listing.EditDraft | src/apps/listings/services.py:1241-1265 | an edit counts as new content and takes a published listing back into review |
| SellerFacts.EditAnswers | src/apps/listings/services.py:1241-1265 | exactly drafts, returned and published listings can be edited; a published one goes back into review, undated, with the edit's time, and any other stays as it is |
| ListingFile.Listing.DepublishMaterialEdit | src/apps/listings/services.py:246-270 | only a published listing is taken back, with date, revision and history row |
| ListingFile.Listing.FinalizeImageUpload | src/apps/listings/services.py:1789-1837 | below the limit a new image is stored after all others and counts as an edit |
| SellerFacts.UploadAnswers | src/apps/listings/services.py:1789-1837 | below the limit the new image is pending and last; at the limit, or when the listing cannot be edited, it is refused |
| ListingFile.Listing.WriteOrdering | src/apps/listings/models.py:1178-1182 | a single-row update is possible only where the unique constraint allows it, and keeps it |
| ListingFile.Listing.NumberRows | src/apps/listings/services.py:1851-1854 | a numbering pass of legal writes leaves row k with number base + k and never breaks uniqueness in between |
| ListingFile.Listing.ReorderListingImages | src/apps/listings/services.py:1840-1855 | the two-phase reorder has the effect of Reordered, or refuses an incomplete order |
| SellerFacts.ReorderAnswers | src/apps/listings/services.py:1840-1855 | a reorder is accepted exactly if it names every READY image once, and puts the k-th named at place k |
| ListingFile.Listing.DeleteListingImage | src/apps/listings/services.py:1858-1876 | hiding and compacting has the effect of Deleted, or refuses an image that is not READY |
| SellerFacts.DeleteAnswers | src/apps/listings/services.py:1858-1876 | only a READY image can be deleted; it is hidden, images after it move up by one and those before it stay |
| ListingFile.Listing.UploadListingVideo | src/apps/listings/services.py:1899-1921 | a new pending video counts as an edit |
| ListingFile.Listing.DeleteListingVideo | src/apps/listings/services.py:1924-1935 | a READY video is hidden and counts as an edit |
| ListingFile.Listing.ExpireLocked | src/apps/listings/services.py:347-368 | expires exactly a due listing, and its event is never refused |
| ListingFile.Listing.PublishDemoListing | src/apps/listings/services.py:1587-1633 | publishes a draft, leaves a published listing alone, refuses the rest |
| ListingFile.Listing.Notify | src/apps/listings/services.py:338-344 | the event key is the type and the revision; an existing key aborts |
| ListingFile.Listing.Save | src/apps/listings/models.py:245-251 | the first save of a published row fixes its first publication |
| Lifecycle.RefundKeeps | src/apps/billing/services.py:408-424 | the refund loop always succeeds, refunds exactly the paid orders it has reached and leaves the others alone |
| Lifecycle.StepKeepsCore | src/apps/listings/services.py:246-481 | every service keeps the reachable invariant: history replay, dates, keys, books and image order |
| LifecycleTheorems.HistoryReplays | src/apps/listings/services.py:278-298 | in every run the history folds from DRAFT to the current status, and published_at is set exactly while PUBLISHED |
| LifecycleTheorems.ReplayIsChain | src/apps/listings/services.py:278-298 | folding succeeds exactly when the history starts at DRAFT and neighbouring rows agree |
| LifecycleTheorems.BooksBalance | src/apps/billing/services.py:241-340 | in every run and currency, settled payments less settled refunds are the totals of the paid orders |
| LifecycleTheorems.OrdersSettleOnce | src/apps/billing/services.py:247-303 | in every run an order is PENDING, PAID or REFUNDED with exactly one settled payment once paid and exactly one settled refund once refunded |
| LifecycleTheorems.OrdersAddUp | src/apps/billing/services.py:96-128 | in every run an order's total is the sum of its lines' unit amounts times quantities, with one line for a renewal and at most two for a first publication |
| LifecycleTheorems.RejectedHoldsNoPayment | src/apps/listings/services.py:1200-1202 | in every run a rejected listing has no paid order |
| LifecycleTheorems.ImagesStayOrdered | src/apps/listings/models.py:1178-1182 | in every run the READY orderings are unique and equal to 0..n-1 |
| LifecycleTheorems.StepForward | src/apps/listings/services.py:1171-1199 | no step takes back history, outbox, content, first publication, order status or a closed event, and the revision rises exactly when the history grows |
| RunTheorems.NothingIsTakenBack | src/apps/listings/models.py:245-251 | between any two points of a run the first publication is fixed, history and outbox are extended, and orders keep their snapshot and only advance |
| RunTheorems.OneReviewPerRevision | src/apps/listings/services.py:948-973 | of all claims and decisions of a run that observed one revision at most one commits |
| RunTheorems.OnlyProvidersDuplicate | src/apps/core/outbox.py:33-40 | the unique key never refuses an event of a service; only a stored provider id is refused, and always |
| RunTheorems.KeysAreDistinct | src/apps/listings/services.py:338-344 | all keys a run enqueues are different |
| RunTheorems.SettlementRaisesRevision | src/apps/billing/services.py:303-316 | processing an event raises the revision by one exactly when it settles the payment of one order, and of no other |
| StatusDiagram.HistoryFollowsDiagram | src/apps/listings/services.py:427-446 | every history row of every run is an edge of the status diagram under its own action |
| StatusDiagram.OnlyPaymentEndsWaiting | src/apps/billing/services.py:281-317 | AWAITING_PAYMENT is left only for PUBLISHED, and only by a step that pays one of its orders |
| StatusDiagram.SuspensionIsFinal | src/apps/listings/services.py:1118-1124 | no regular run leaves SUSPENDED |
| PublicationDates.PublicationsAreDated | src/apps/listings/services.py:1155-1167 | whatever step publishes, the publication starts then and the first one is remembered; it ends with the order last paid if a moderator publishes, with the very order paid if a payment does (a wanted listing's first payment sets no end), and otherwise as before |
| Publication.PublishedContentIsApproved | src/apps/listings/services.py:79-83 | in every regular run the content of a PUBLISHED, AWAITING_PAYMENT, EXPIRED or SOLD listing is the one a moderator last approved |
| Publication.PublishedMediaIsReviewed | src/apps/listings/services.py:1086-1093 | with decisive moderators such a listing also has no pending READY image or video and at least the required approved images |
| Publication.PendingAfterModeration | src/apps/listings/services.py:994-1009 | after a moderation media is pending exactly when a verdict said so |
| Publication.PendingImagePublished | src/apps/listings/services.py:1005-1009 | a regular run, with a PENDING verdict, that publishes an unreviewed image |
| RenewalLimits.RenewalSafeExactlyWhenLive | src/apps/billing/services.py:352-370 | settling a renewal in a reachable record of a given status keeps published content approved if and only if that status is live, over all runs and over those whose clock never goes back |
| WitnessRuns.ReachUnapproved | src/apps/billing/services.py:170-176 | for every other stored status a regular run whose clock never goes back reaches it with unapproved content and an unpaid renewal in grace |
| PaymentLinks.LocalPaymentPublishes | src/apps/billing/services.py:387-402 | the local payment of an unpaid eligible order always succeeds and publishes, also after earlier failed events |
| PaymentLinks.WaitsForeverExactlyWhenUnpayable | src/apps/billing/services.py:281-297 | from any time on, a waiting listing stays in AWAITING_PAYMENT in every run exactly when it has then neither an unpaid first order with its images approved nor an unpaid renewal in grace; the same over runs whose clock never goes back |
| PaymentLinks.LinkFacts | src/apps/listings/services.py:1182-1215 | an approval with a link keeps the dates, finds the first order or creates one that charges what is quoted, and enqueues exactly one event, for which there is no handler |
| PaymentLinks.LinkStrandsExactlyWhen | src/apps/billing/services.py:86-93 | an approval with a link leaves the listing waiting in every run from a time on if and only if, before the call, a first order is there but none is PENDING and no unpaid renewal is in grace at that time |
| PaymentLinks.SecondLinkNeverPaid | src/apps/billing/services.py:86-93 | in particular, after an edit of a published listing with a settled first order a second link leaves it waiting in every later run |
| StrandedListings.RelinkedWaitsForever | src/apps/billing/services.py:86-93 | a regular run whose clock never goes back reaches a listing that waits forever: paid, edited and approved with a link again |
| StrandedListings.GraceDecides | src/apps/billing/services.py:357-362 | another reaches, with no edit, a listing whose open renewal can still be paid, which waits forever from a time on exactly if that is later than seven days after expiry |
| StrandedListings.LinkEventHasNoHandler | src/apps/core/outbox.py:71-83 | a regular run enqueues an event that has no handler |
| TwoLineOrders.ManyLinesExactlyWhen | src/apps/listings/services.py:1159-1167 | an approval aborts over the lines of an order if and only if it would have published and the order last paid has two |
| TwoLineOrders.ReapprovalAborts | src/apps/listings/services.py:1159-1167 | a regular run whose clock never goes back reaches a paid and edited listing whose approval aborts so, at any time |
| Marketplace.Market.SelectDue | src/apps/listings/services.py:375-379 | the batch is the first batch_size due rows nobody else holds, by expiry |
| Marketplace.BatchIsSoonest | src/apps/listings/services.py:371-380 | the batch holds published listings whose expiry has come, earliest first; one left out expires no earlier and the batch is full |
| Marketplace.Market.ExpireLocked | src/apps/listings/services.py:347-368 | one row is expired exactly if due; all other listings stay |
| Marketplace.Market.ExpireDueListings | src/apps/listings/services.py:371-380 | exactly the batch is expired and counted, the due listings drop by the count, and what buyers and feeds show is the same then and ever after |
| Marketplace.Market.ExpireUntilIdle | src/apps/listings/services.py:371-380 | repeated runs expire all that was due and nothing else, with at most one run more than full batches need |
| Marketplace.ExpiryIsInvisible | src/apps/listings/selectors.py:218-230 | expiring any rows at a time changes no public listing or seller feed at that time or later |
| Marketplace.FeedWindow | src/apps/listings/selectors.py:251-280 | in every run a seller's feed shows a sold listing for exactly thirty days and a published one until it expires |
| Reports.ReportDesk.SubmitReport | src/apps/reports/services.py:65-118 | a report is stored exactly when the listing is visible and all four counts leave room; otherwise nothing changes |
| Reports.EveryWindowIsLimited | src/apps/reports/services.py:84-98 | every interval of the window's length, wherever it lies, holds at most the limit of reports per source, listing, reporter and fingerprint |
| Reports.EveryWindowByKind | src/apps/reports/services.py:84-98 | the same in the terms of the four limits: per source, listing and reporter, and one per fingerprint |
| Reports.RefusedExactlyWhenFull | src/apps/reports/services.py:84-99 | with no report later than the check, a submission is refused if and only if one of its windows is full, or it is anonymous and the user limit is not positive |
| Reports.ReportDesk.TransitionReport | src/apps/reports/services.py:129-155 | permission, action, existence and closedness in this order, closed being resolved or dismissed; otherwise each action leads to its own state and history row, with the actor as assignee |
| Reports.ClosedByItsLastAction | src/apps/reports/services.py:140-154 | a report's state is the target of its last action, and an action that closes it is its last |
| ZipCounty.ReadRows | src/apps/locations/zip_county.py:110-133 | all lines good, each giving its first cell as ZIP and its second as county, stripped and of five digits; or the error of the first line that is not, with its row, by what is wrong with which cell |
| ZipCounty.ReadingIsUnique | src/apps/locations/zip_county.py:110-133 | a file has exactly one reading |
| ZipCounty.ZipTable.ImportCrosswalk | src/apps/locations/zip_county.py:136-196 | checksum, format and row errors leave the table alone; otherwise counts and table are those of the file's pairs, and a dry run changes nothing |
| ZipCounty.ZipTable.ImportRows | src/apps/locations/zip_county.py:156-191 | the get-or-create loop reaches exactly the closed form, with duplicates, updates and the failing validation of an update |
| ZipFacts.ImportStores | src/apps/locations/zip_county.py:136-196 | a successful import stores exactly the first and second cells of the lines of known counties beside what was there, under its release, and counts the other lines as skipped |
| ZipFacts.ImportedLineIsFound | src/apps/locations/zip_county.py:53-67 | after it a lookup of a line's first cell finds the active county of its second cell |
| ZipCounty.CountsAddUp | src/apps/locations/zip_county.py:191-196 | rows read are skipped, created or matched, and the created ones are the growth of the table |
| ZipCounty.ImportIsIdempotent | src/apps/locations/zip_county.py:165-188 | importing again creates and changes nothing |
| ZipCounty.ImportIgnoresOrder | src/apps/locations/zip_county.py:150-163 | permuting the lines changes neither table nor counters |
| ZipCounty.DryRunPredicts | src/apps/locations/zip_county.py:180-191 | a dry run reports what the real run would, unless a stored row needs an update that fails validation |
| ZipHeaders.ReadAsRecognisedExactlyWhen | src/apps/locations/zip_county.py:82-108 | a recognised header without quotes is read as it was recognised if and only if its schema's delimiter is the one it was recognised under |
| ZipHeaders.OneCellExactlyWhen | src/apps/locations/zip_county.py:101-108 | it is read as fewer than two cells if and only if the delimiters differ and, if it was recognised under commas, it holds no tab |
| ZipHeaders.ImportsExactlyWhen | src/apps/locations/zip_county.py:108-133 | some file with a recognised header has a county to import if and only if the header is read as two cells or more |
| ZipHeaders.MisreadNeverImports | src/apps/locations/zip_county.py:108-133 | a file whose header is read as fewer than two cells never imports, with the exact error for every first line |
| ZipHeaders.HudWithTabsIsMisread | src/apps/locations/zip_county.py:103-108 | the header zip, tab, county is recognised and read as one cell |
| ZipHeaders.HarvardWithCommasIsMisread | src/apps/locations/zip_county.py:103-108 | the long schema's header between commas is recognised and read as one cell |
| ZipHeaders.HarvardWithOneTabIsReadWrongly | src/apps/locations/zip_county.py:103-108 | with a tab after its first name that header is read as two cells or more, but not as it was recognised |
| ZipCounty.ZipTable.LookUp | src/apps/locations/zip_county.py:53-67 | the list has exactly the candidates of the code, each once and ordered by name |
| ZipCounty.CandidatesAfterImport | src/apps/locations/zip_county.py:53-67 | a lookup finds what it found before plus the active counties of the state on the file's lines for that code |
| Browse.BrowseForm.InstallFields | src/apps/locations/forms.py:364-397 | the fields are the declared ones the request keeps, then the selected vertical's own; only a vertical that is no integer, or one of too many digits, is an uncaught error |
| Browse.BrowseForm.FullClean | src/apps/locations/forms.py:525-558 | field cleaning, price conversion and cross checks complete exactly if no price is a NaN text or an Infinity text without a minus sign, and then end without error exactly for a valid request, with its values |
| Browse.AcceptsExactlyValid | src/apps/locations/forms.py:525-558 | error-free cleaning is the same as having validated filters, which are unique |
| BrowseRules.FieldRules | src/apps/locations/forms.py:392-516 | which fields a form has: cars by year, make, model and mileage, every other vertical by its own subjects, scope and radius on a county page and a county elsewhere |
| BrowseRules.SelectionRules | src/apps/locations/forms.py:380-391 | an active vertical is selected by its number, nothing by an unknown number or none |
| BrowseRules.NumberRules | src/apps/locations/forms.py:189-201 | the bounds of each number field, and the number as its value |
| BrowseRules.PriceRules | src/apps/locations/forms.py:534-546 | a price in digits is kept in cents |
| BrowseRules.CategoryRules | src/apps/locations/forms.py:373-383 | a category is chosen by its number, and only from the chosen vertical |
| BrowseRules.RangesRunUpwards | src/apps/locations/forms.py:525-557 | validated ranges of prices, years and mileages run upwards, the radius goes in tens, and the category is of the vertical |
| BrowseRules.ValidExactlyWhen | src/apps/locations/forms.py:525-557 | a request is valid if and only if each field is, no minimum is above its maximum, the radius goes in tens and the category is of the vertical |
| BrowseRules.PriceRangeExactlyWhen | src/apps/locations/forms.py:547-557 | a request for prices between two amounts is valid if and only if the first is not above the second |
| BrowseRules.HundredToTwoHundred | src/apps/locations/forms.py:547-557 | from 100 to 200 is valid, and from 200 to 100 is not |
| BrowseRules.PrintRules | src/apps/locations/forms.py:269-291 | what is printed for each kind of value: prices in dollars, rows as numbers, no scope but county, no intent offer, newest only if asked for |
| BrowseRules.PrintedInOrder | src/apps/locations/forms.py:269-292 | parameters are printed in the order of the fields |
| Browse.RaisingIsNotValid | src/apps/locations/forms.py:534-548 | a request on which cleaning raises has no validated filters |
| Browse.InvalidIntentIsAnError | src/apps/locations/forms.py:519-523 | a request valid without an intent is valid with one if and only if it names a choice or is empty, and then differs in the intent alone |
| Browse.BrowseForm.QueryParameters | src/apps/locations/forms.py:260-292 | the loop completes exactly if no included number has more than 4300 digits, and then prints exactly the set, non-default filters that are not excluded, in field order |
| Browse.ParsingUndoesPrinting | src/apps/locations/forms.py:260-292 | where printing does not raise, parsing the printed parameters gives the same fields and filters, and printing again the same list |
| Browse.ParametersDetermineFilters | src/apps/locations/forms.py:260-292 | two validated forms that print the same parameters have the same fields and filters |
| Browse.PrintingRaisesExactlyWhen | src/apps/locations/forms.py:275-277 | printing a validated form raises if and only if a price has more than 4300 digits |
| BrowseInputs.LongPriceRaises | src/apps/locations/forms.py:275-277 | a price of 4301 nines is validated, and printing it raises |
| BrowseInputs.NaNAndInfinityRaise | src/apps/locations/forms.py:538-546 | cleaning a request with the price NaN, or Infinity, raises |
| BrowseInputs.NegativeInfinityIsAnError | src/apps/locations/forms.py:543-545 | the price -Infinity is a form error |
| BrowseInputs.UnknownIntentIsRefused | src/apps/locations/forms.py:519-523 | intent=sell makes a valid request invalid |
| BrowseInputs.SlugIsUnreadable | src/apps/locations/forms.py:380-386 | vertical=autos is an uncaught error |
| Digits.ShowReads | src/apps/locations/forms.py:276-278 | a printed number reads back as itself |
| Text.StripTrims | src/apps/locations/zip_county.py:117-118 | stripped text has no white space at its ends, and stripping again changes nothing |
| Text.StripCuts | src/apps/listings/services.py:1006-1009 | stripping cuts white space at both ends and nothing else, and text is blank exactly if it is all white space |

## Left out

- Handlers, e-mail, storage, image and video decoding, digests and the public search document: a handler is any function to success or an exception name, a digest is an opaque string.
- Permission, ownership, account, completeness and policy checks are one opaque boolean per call; the keyword scanner is the number of its flags.
- In-app notifications, favourites, reminders, upload sessions and advertising: rows no modelled service reads.
- Actors, notes and times of history rows, and the read of the clock between two statements of one transaction: a service reads the clock once.
- Typed detail forms, catalogues, seller profiles, migrations, views, templates and commands: data or single-branch logic.
- Database isolation: services on one listing are serial steps; report submissions are serial too, although the code locks only the listing row, so submissions on different listings can race for the source and reporter limits.
- Column widths: counters and amounts are unbounded, in particular attempt_count (16 bits).
- Failed and refund-pending order statuses exist in the schema but no modelled service writes them.
- Digits are ASCII in the ZIP reader and headers are folded as ASCII; the csv reader's splitting of lines is an input.
- ZipCounty.ZipTable.LookUp: the order of names is the database's, given as a rank of each county; counties of equal rank come in any order.
- OutboxServices.Outbox.DeliverEvent: one worker that no other writer interrupts; interleavings are the runs of OutboxSystem.
- OutboxServices.Outbox.DeliverClaimed: as DeliverEvent; nothing is skipped because nobody interferes. Skipped deliveries are counted in OutboxWork.BatchAddsUp.
- OutboxServices.Outbox.ProcessBatch: as DeliverClaimed.
- OutboxServices.Outbox.DrainOutbox: one worker alone as in DeliverClaimed, at any run times; other workers are in OutboxWork.DeliveriesAreBounded.
- Browse.ParsingUndoesPrinting: numbers in text beyond plain digits, which characters outside ASCII are decimal digits, and the canonical text of decimals are parameters of the form; text without a decimal digit is assumed to be no number, and the canonical text to read back as itself, and the order in which a set of typed fields is iterated is assumed fixed within a process.
- ListingFile.Listing.CreateRenewalOrder: the code checks grace and edits before the transaction that creates the order; here both are one step. `Lifecycle.DoCheckout` creates a renewal order without that check, so every run theorem covers a check that is out of date.
- Marketplace.FeedWindow: the command that clears `sold_public_until` once it has passed (management/commands/clear_expired_sold_publication.py) is not a step; `Marketplace.ClearingIsInvisible` says that it changes no feed.
- Memory and time: a price like 1e999999999999999999, too large to be converted, counts as any other.
- Query composition, text ranking and the distance query of the browse page.
- Outbox keys are the event type and revision of one listing; the listing id that makes them unique across listings is constant within a record.
