# A verified model of the billing projection

The service keeps a local projection of Stripe subscriptions correct although webhooks
arrive at least once, in any order, and concurrently. This project models the parts that
make that hard and proves what every run of them keeps:

* **The webhook ledger protocol** (`Ledger`, `Events`, `Protocol`, `Safety`, `Columns`,
  `Agreement`, `Outcomes`, `Exclusivity`, `RetryBudget`, `Service`, `Scenarios`): claim,
  dispatch, settle, redelivery, stale takeover, reclaim, bounded replay and payload purge, as
  one transition system. Steps are single SQL statements or transactions; any number of HTTP
  deliveries and sweepers interleave; a worker may die, lose a transaction, or lose only the
  news of its commit, anywhere; time may pass at any moment. `Service` holds the control flow
  of the service and the sweeper as methods over the repositories, and `ServiceRuns` proves
  that a call left undisturbed is a run of the protocol; calls that disturb each other are
  runs in which their steps alternate. `Scenarios` gives runs where the protocol stops short
  of what one might expect.
* **The subscription projection** (`Subscriptions`, `Convergence`, `Streams`, `Dunning`): two
  event streams fold into one row, each behind its own cursor.
* **Payload retention** (`Json`, `Retention`, `RetentionBudget`, `Configuration`).
* **Refresh-token rotation** (`RefreshTokens`), the pattern of section 4.14.2 of RFC 9700.
* **The rate limiter** (`RateLimit`, `RateLimitProofs`, `Pruning`), against an unbounded
  reference.
* **Byte and header kernels** (`Forwarded`, `Text`).

State the code updates in place is a class whose methods are proved against functions on
values (`TryClaim`, `UpdateStatus`, `Consume`, `AllowIn`, ...); the whole-run results are
lemmas about those functions. Each transaction is one atomic step, and a scan with a LIMIT may
pick any legal subset.

## What the proofs found

* Settle statements carry no owner token. A late worker can close its successor's claim
  (`LateWorkerSettlesSuccessor`), contrary to the comment above `MarkEventProcessed`, but it
  can never overwrite a recorded outcome (`OutcomesAreFinal`). Exclusivity holds exactly when
  the work bound exceeds neither stale window. Configuration compares only the sweeper's
  window with the request deadline, so acceptance alone does not give it
  (`AcceptedConfigExclusiveIff`).
* `validateRetention` multiplies int64 durations; it means what it says exactly when ten
  budgets fit an int64 (`RetentionCheckSoundIff`).
* A deletion that finds no row and loses the insert to another event copies its object's own
  status: it can succeed and leave the subscription active (`DeletedYetActive`). A row last
  written by a deletion is canceled exactly when the deletion found the row there or its object
  reports canceled (`StatusIsAskedIff`).
* `subscriptionFrom` does not write `latest_invoice_id` and `default_payment_method_id`. In a
  row the service inserted they hold the newest event's values exactly when that event was
  applied to a row that was there, which for the event that inserted it takes another handling
  after a lost settle (`LinksFilledIff`, with `NamedYetNull` for a run); a settled event is never handled again
  (`SettledIsNotHandledAgain`).
* An event is independent of the period columns the other stream writes exactly when it carries
  both ends of its period or neither, or does not use them (`PaymentBlindIffPaired`), or no row
  accepts it anyway (`ChangeBlindIffPaired`).
* A payment event handled again leaves the failure counter alone exactly when it has been
  overtaken or is a success (`ReplayIsNeutralIff`); a failure whose settle is lost is counted
  twice (`FailureCountedTwice`). In every reachable state the counter is the run of failures
  committed to the row since its last success (`LedgerAndProjectionAgree`).
* `Consume` accepts at the instant of expiry, `Usable` does not (`ConsumeVersusUsable`).
* Pruning rate-limit buckets goes unnoticed by a set of clients exactly when
  `Rate * TTL >= Burst` and all of them fit `MaxEntries`, or `MaxEntries` is one: otherwise a
  prune also decides whether the next newcomer resets the map (`PruneUnobservableIff`).

## Model

| member | source | states |
|---|---|---|
| `Agreement.LedgerAndProjectionAgree` | internal/service/webhook_service.go:106-254 | in every reachable state a succeeded event's row has a cursor no older than the event, and the event was committed or something strictly newer was; every column of every row holds the value of the last commit to the row that names it, read off the Stripe object of a delivered event or of an API answer, or what the run began with if none does; no commit to a row is newer than its stream's cursor; and the failure counter is the run of failures committed since the last success |
| `Agreement.StepKeepsAgreement` | internal/repository/postgres/subscription_repo.go:177-336 | every protocol step keeps the joint invariant of ledger, table, commit history and worker program points |
| `Agreement.HealthyEffectIsSound` | internal/service/webhook_service.go:405-578 | any worker transaction writes what its event says into its own stream's columns, moves only its own cursor, forwards, and heads for a successful settle only if the event is applied or overtaken |
| `Agreement.UpdateIsLawful` | internal/repository/postgres/subscription_repo.go:177-235 | a status update writes the status and columns of the object it was made from, canceled for a deletion's own update, or, when stale, finds the event already covered |
| `Agreement.PaymentIsLawful` | internal/repository/postgres/subscription_repo.go:253-336 | an invoice event writes its verdict, counts a failure or clears the counter, moves its own cursor and leaves every column of the subscription stream alone, or, when stale, is already covered |
| `Agreement.SettledByDone` | internal/repository/postgres/webhook_repo.go:202-216 | a row becomes succeeded only for an event its subscription row covers |
| `Agreement.InsertShowsObject` | internal/service/webhook_service.go:632-679 | an inserted row belongs to the resolved owner and the object's customer and shows the object's own status and columns, with the two link columns null |
| `Agreement.UpdateShowsObject` | internal/service/webhook_service.go:681-737 | an updated row shows the status, cancellation, trial, price, quantity and link columns of the object, whatever the row held |
| `Agreement.PaymentShowsInvoice` | internal/service/webhook_service.go:509-578 | a recorded payment shows the invoice's verdict, truncated decline reason, next attempt, paid period and invoice id, and counts one more failure or none |
| `Columns.InsertWritesNamed` | internal/service/webhook_service.go:632-679 | an insert names every column: the owner it was given, and the rest off the object, its first item and its price |
| `Columns.UpdateWritesNamed` | internal/repository/postgres/subscription_repo.go:193-218 | an update sets exactly the columns its object names a value for, and leaves every other as it was |
| `Columns.PaymentWritesNamed` | internal/repository/postgres/subscription_repo.go:287-318 | an invoice event sets the dunning columns and its cursor, the period if paid and given, the invoice id if given, and leaves every other column as it was |
| `Columns.HoldsAfterWrite` | internal/repository/postgres/subscription_repo.go:193-310 | after any commit each column still holds the value named last |
| `Outcomes.StatusIsAskedIff` | internal/service/webhook_service.go:405-498 | in every reachable state a row last written by a lifecycle event shows the status the event asks for if and only if it was written by the event's own update, or the event is no deletion, or the object reports canceled, and otherwise the object's own; after a checkout it shows the fetched object's status |
| `Outcomes.IdentityIsFixed` | internal/service/webhook_service.go:632-679 | in every reachable state a row's owner, customer, product, currency, amount and trial start are what the run began with, or the owner resolved for its insert and what the inserting object says; no later commit changes them |
| `Outcomes.CompleteRunsShowNewest` | internal/repository/postgres/subscription_repo.go:193-310 | in any reachable state of the concurrent system in which every event of a stream has succeeded, the stream's columns show the newest one, or are untouched because the row was newer from the start |
| `Outcomes.CompleteRunsAgree` | internal/repository/postgres/subscription_repo.go:193-218 | any two complete runs over the same events end with the same status, event id, cursor and every column of the stream the newest event's object sets, unless that event is a deletion whose object does not report canceled |
| `Outcomes.CompleteRunsAgreeOnPayments` | internal/repository/postgres/subscription_repo.go:269-327 | any two complete runs over the same invoice events end with the same failure flag, error text, next attempt and cursor, and with the counter at nought if the newest is a success |
| `Outcomes.LinksFilledIff` | internal/service/webhook_service.go:632-679 | after a complete run that inserted the row, the two columns an insert leaves null hold the newest event's values if and only if that event was committed other than as the insert, and are null otherwise |
| `Outcomes.SettledIsNotHandledAgain` | internal/repository/postgres/webhook_repo.go:163-194 | once an event is settled and no worker holds it, no run grants it another handling or adds a commit of it |
| `Outcomes.PurgedReplayWritesNothing` | internal/repository/postgres/webhook_repo.go:412-440 | in every reachable state a worker holding a purged payload writes nothing and is never about to settle it as succeeded |
| `Scenarios.DeletionLosesRace` | internal/service/webhook_service.go:465-498 | whenever a deletion and another event can both insert the row there is a run in which the deletion succeeds and the row shows the object's own status, canceled if and only if the object reports it |
| `Scenarios.DeletedYetActive` | internal/service/webhook_service.go:465-498 | a concrete run: the deletion has succeeded and the subscription is active |
| `Scenarios.OnlyEventLeavesLinksNull` | internal/service/webhook_service.go:632-679 | whenever a subscription's only event can insert the row there is a complete run that leaves both link columns null |
| `Scenarios.NamedYetNull` | internal/service/webhook_service.go:632-679 | a concrete complete run: the event names an invoice and a payment method, and the row has neither |
| `Scenarios.FailureCountedTwice` | internal/repository/postgres/subscription_repo.go:287-310 | for every applicable failed-payment event there is a run in which it succeeds and the counter has risen by two |
| `Safety.ReachableLedgerIsLegal` | migrations/00003_create_processed_webhooks_table.sql:74-88 | every reachable ledger row satisfies the attempts, processed_at, last_error and purge CHECKs, and every payload in the ledger, a listing or a worker is the delivered body or its skeleton |
| `Safety.StepTouches` | internal/repository/postgres/webhook_repo.go:163-260 | a step changes each row by at most one of the claim, settle, reclaim and purge statements, and only a delivery adds a row |
| `Safety.OutcomesAreFinal` | internal/repository/postgres/webhook_repo.go:195-260 | over any run succeeded and skipped are absorbing with attempts and processed_at frozen, purged payloads are never restored, and a payload only ever becomes its own skeleton |
| `Safety.RunKeepsRecorded` | internal/repository/postgres/webhook_repo.go:163-260 | over every run last_error is there exactly for failed and skipped rows, and every instant in a row lies between the event's arrival and now |
| `Safety.PurgedOnlyWhenDue` | internal/repository/postgres/webhook_repo.go:446-466 | only a purge takes a payload, of a settled row once it is older than SettledAfter and of a failed one once it is older than UnsettledAfter |
| `Safety.PurgeTakesPayloads` | internal/repository/postgres/webhook_repo.go:446-466 | a purge reduces exactly the payloads it picked, each to the skeleton of the body that was delivered, stamps them and changes no other row |
| `Safety.SettledPayloadIsKept` | internal/repository/postgres/webhook_repo.go:446-466 | over every run a settled event keeps its whole payload while its window is open, and may be purged exactly from then on |
| `Safety.ListedHasWaited` | internal/repository/postgres/webhook_repo.go:335-345 | an event enters a sweeper's listing only after it has failed, with budget left, and has waited out its backoff |
| `Safety.ListedIffWaited` | internal/repository/postgres/webhook_repo.go:335-345 | and may enter it exactly then |
| `Safety.SkeletonWorkerWritesNothing` | internal/repository/postgres/webhook_repo.go:412-440 | the transaction of a worker that starts on a purged payload writes nothing and goes on to skip or fail |
| `Exclusivity.ClaimsAreExclusive` | internal/repository/postgres/webhook_repo.go:163-194 | if every holder settles or dies within d and d exceeds neither window, at most one worker is active on an event and every active worker is the recorded holder |
| `Exclusivity.ExclusiveIffWithinBothWindows` | internal/repository/postgres/webhook_repo.go:291-306 | exclusivity over all timely runs holds if and only if d is within the HTTP window and within the sweeper's window |
| `Exclusivity.LateWorkerSettlesSuccessor` | internal/repository/postgres/webhook_repo.go:195-216 | a concrete reachable state in which a late worker's settle closes the row its successor holds |
| `Configuration.AcceptedConfigExclusiveIff` | internal/config/config.go:691-698 | an accepted configuration gives exclusive claims if and only if the request deadline is also within the HTTP window |
| `Configuration.RetentionCheckSoundIff` | internal/config/config.go:723-747 | the retention checks imply the inequality for every pair of windows they accept if and only if ten budgets fit an int64 |
| `Configuration.Wrap64` | internal/config/config.go:738-739 | the int64 value congruent to the product modulo 2^64, the product itself when it fits |
| `RetryBudget.AttemptsCountClaims` | internal/repository/postgres/webhook_repo.go:377-388 | over any run, with any sweepers and stale listings, attempts is the number of granted claims, and the sweeper's share is at most MaxAttempts - 1 |
| `RetryBudget.StepFalls` | internal/worker/webhook_sweeper.go:189-231 | without redelivery no step raises the remaining-work measure, and every granted retry, worker move and effective reclaim lowers it |
| `RetryBudget.ProductiveStepsAreBounded` | internal/worker/webhook_sweeper.go:164-231 | a redelivery-free run of any length makes at most the initial measure's number of productive steps |
| `RetryBudget.EveryEventEnds` | internal/worker/webhook_sweeper.go:164-231 | any reachable state runs on, without redelivery, to one with no worker and every event settled or dead-lettered |
| `RetentionBudget.RetentionNeverOutrunsRetries` | internal/config/config.go:733-747 | with UnsettledAfter at least 10 * MaxAttempts * MaxBackoff, for each event and every run that claims and settles it within nine MaxBackoff of its backoff while it has budget left: if it is unsettled and purgeable or purged, it has spent its retry budget, whatever happens to other events and to this one afterwards |
| `RetentionBudget.NotYetPurgeable` | internal/repository/postgres/webhook_repo.go:446-466 | a failed row within budget and on schedule is not yet past the retention bound |
| `Ledger.BackoffDoubles` | internal/repository/postgres/webhook_repo.go:335-345 | the wait before a retry starts at the base, doubles with each attempt and stops at the cap |
| `Ledger.StatementsKeepChecks` | migrations/00003_create_processed_webhooks_table.sql:74-88 | each ledger statement keeps every CHECK of the row |
| `Ledger.BatchesKeepChecks` | internal/repository/postgres/webhook_repo.go:291-306 | the batch statements keep them for the whole ledger |
| `Ledger.WebhookRepo.constructor` | internal/repository/postgres/webhook_repo.go:139-144 | a non-positive stale window selects five minutes |
| `Ledger.WebhookRepo.TryClaimEvent` | internal/repository/postgres/webhook_repo.go:163-194 | claims exactly absent, failed and stale rows, with no attempt limit; a refused claim changes nothing |
| `Ledger.WebhookRepo.ClaimEventForRetry` | internal/repository/postgres/webhook_repo.go:377-388 | claims exactly failed rows below the attempt limit |
| `Ledger.WebhookRepo.MarkEvent` | internal/repository/postgres/webhook_repo.go:202-269 | settles exactly rows that are processing, as processed, skipped or failed with the truncated reason; otherwise reports not-claimed and changes nothing |
| `Ledger.WebhookRepo.ReclaimAbandonedEvents` | internal/repository/postgres/webhook_repo.go:291-327 | moves min(limit, abandoned) distinct stale claims to failed, returns their ids, and touches no other row |
| `Ledger.WebhookRepo.PurgePayloads` | internal/repository/postgres/webhook_repo.go:446-491 | purges min(limit, due) due rows to their skeletons and reports their counts by status |
| `Ledger.CountReturned` | internal/repository/postgres/webhook_repo.go:472-486 | the loop over the returned statuses counts each row once, as settled or unsettled |
| `Ledger.TallyCountsAll` | internal/repository/postgres/webhook_repo.go:472-486 | those counts are the numbers of settled and of failed rows in the batch |
| `Retention.RetentionWorker.RunOnce` | internal/worker/retention.go:151-170 | a pass left to finish purges every due row in exactly the batches needed to come to a short one, with totals by status; stopped early it has purged and counted exactly a subset |
| `Retention.NeededIsFloor` | internal/worker/retention.go:151-170 | the batches needed are floor(due / batch) + 1 |
| `Retention.BatchExtends` | internal/worker/retention.go:151-170 | one more batch extends the rows done, and a short one finishes them |
| `Retention.FinishedPassIsOneShot` | internal/worker/retention.go:151-170 | a finished pass equals purging all due rows at once, nothing is due afterwards, and processing rows are untouched |
| `Json.SkeletonIdempotent` | internal/repository/postgres/webhook_repo.go:422-433 | purging a purged payload changes nothing, for every JSON tree |
| `Json.SkeletonKeepsAllowList` | internal/repository/postgres/webhook_repo.go:412-433 | at every path the skeleton holds the payload's value, nulls stripped, if the path is at or below id, object, type, created, livemode, api_version, data.object.id or data.object.object, and nothing otherwise, but for the root, data and data.object, which are always objects |
| `Json.SkeletonPassesPurgeCheck` | migrations/00005_payload_retention.sql:40-46 | every skeleton satisfies the CHECK on purged rows |
| `Json.PurgeCheckRefusesIff` | migrations/00005_payload_retention.sql:40-46 | the CHECK refuses exactly a purged object that still has customer_details, billing_details or customer_email |
| `Json.StrippedIsNullFree` | internal/repository/postgres/webhook_repo.go:422-433 | stripping leaves no null member at any depth, arrays included, and changes nothing that has none |
| `Events.SkeletonReplayIsInert` | internal/service/webhook_service.go:264-305 | dispatching a skeleton of any handled type ends in a skip or an error before any table is reached |
| `Events.ToInt32` | internal/service/webhook_service.go:649-655 | Go's int32 conversion of the quantity: the value congruent modulo 2^32, the identity within range |
| `Events.InvoiceDispatch` | internal/service/webhook_service.go:509-599 | an invoice event concerns the subscription its parent names, or else the first line that names one, is skipped if and only if none does, and is recorded with its type's verdict |
| `Events.CheckoutDispatch` | internal/service/webhook_service.go:287-305 | a checkout provisions the subscription it names if and only if it is a subscription checkout that names one, and is skipped otherwise |
| `Events.LifecycleDispatch` | internal/service/webhook_service.go:405-416 | a lifecycle event changes its own object's subscription if and only if the object has an id and an item and the status asked for exists, and fails otherwise |
| `Events.OtherDispatch` | internal/service/webhook_service.go:264-277 | types outside the list are skipped, and an object that does not decode fails |
| `Service.WebhookService.ProcessEvent` | internal/service/webhook_service.go:106-184 | a refused claim changes nothing; a granted one leaves the table as the worker's transactions make it and the row settled with their verdict |
| `Service.WebhookService.ReplayEvent` | internal/service/webhook_service.go:201-254 | replays a held claim's payload, or skips it if none is left, and settles the row with the verdict |
| `Service.WebhookService.HandleSubscriptionChanged` | internal/service/webhook_service.go:405-438 | updates the row, treats stale as done, and goes on to create a missing one |
| `Service.WebhookService.CreateFromEvent` | internal/service/webhook_service.go:442-461 | inserts a row for a known owner and skips an unknown one |
| `Service.WebhookService.UpsertSubscription` | internal/service/webhook_service.go:465-498 | inserts, and updates instead when a concurrent delivery won the insert |
| `Service.WebhookService.HandleInvoicePayment` | internal/service/webhook_service.go:509-578 | records the payment, treats stale as done and a missing row as nothing to do |
| `Service.WebhookService.HandleCheckoutCompleted` | internal/service/webhook_service.go:287-330 | resolves the owner, fetches the subscription and upserts it, in that order |
| `Service.WebhookService.DispatchEvent` | internal/service/webhook_service.go:264-277 | routes each event type to its handler and leaves the table and verdict the protocol's transactions leave |
| `ServiceRuns.ProcessEventIsRun` | internal/service/webhook_service.go:106-184 | a granted ProcessEvent call is the protocol run deliver, work, tick, settle, ending in the ledger and table its contract states |
| `ServiceRuns.ReplayIsRun` | internal/service/webhook_service.go:201-254 | a granted retry and its replay are a protocol run ending in the stated ledger and table |
| `ServiceRuns.RetryFailed` | internal/worker/webhook_sweeper.go:189-231 | the sweeper's loop over a possibly stale listing, with claims that error and time that passes, is a protocol run, with recovered at most attempted at most listed, and strands no claim |
| `ServiceRuns.RetryOne` | internal/worker/webhook_sweeper.go:206-229 | one turn claims exactly retryable rows below the limit and counts as recovered only rows it settled |
| `ServiceRuns.HandlingIsTheFoldStep` | internal/service/webhook_service.go:405-498 | a lifecycle event handled without interference does to its row exactly what the convergence results fold, and to no other row anything |
| `Subscriptions.SubscriptionRepo.UpdateSubscriptionStatus` | internal/repository/postgres/subscription_repo.go:177-235 | missing, stale, rejected by a CHECK, or overwritten column by column; only the named row changes |
| `Subscriptions.SubscriptionRepo.RecordInvoicePayment` | internal/repository/postgres/subscription_repo.go:253-336 | the same on the invoice cursor; a success clears the dunning columns, a failure sets them, with the truncated reason, and counts one more |
| `Subscriptions.SubscriptionRepo.CreateSubscription` | internal/repository/postgres/subscription_repo.go:99-128 | inserts a legal row that is not there yet for an owner who exists, otherwise reports rejection or conflict |
| `Subscriptions.InvoiceRejectedIff` | migrations/00002_create_subscriptions_table.sql:90-98 | a CHECK refuses a current invoice event if and only if it is a success whose period, against the stored ends it leaves alone, is not in order |
| `Subscriptions.StatusRejectedIff` | migrations/00002_create_subscriptions_table.sql:72-98 | the exact condition under which a CHECK refuses a current subscription event |
| `Subscriptions.InsertRejectedIff` | migrations/00002_create_subscriptions_table.sql:69-98 | the exact condition under which a CHECK refuses a new row, with the id and currency patterns spelled out |
| `Convergence.DeliveriesConverge` | internal/repository/postgres/subscription_repo.go:193-218 | any two sequences of handlings of the same distinct-time events, in any order with any repetition, from an existing or absent row, end with rows showing the same newest event: status, event id, cursor and every column it sets, the two link columns from an existing row |
| `Convergence.FoldShowsNewest` | internal/service/webhook_service.go:405-498 | after any history the row is legal and shows a newest event, its link columns too if the row existed, or is untouched if it was newer than all |
| `Convergence.DeletionBeforeRow` | internal/service/webhook_service.go:433-461 | handled alone, a deletion cancels a row it finds whatever its object says, but inserts a canceled row if and only if the object reports canceled |
| `Convergence.LinksConvergeIff` | internal/service/webhook_service.go:632-679 | over a sequence of handlings from an absent row, the two columns an insert leaves null show the newest event's values if and only if it is handled after the first handling |
| `Streams.StreamsDoNotInterfere` | internal/repository/postgres/subscription_repo.go:201-310 | for every interleaving, each stream's columns and cursor are what its own subsequence alone makes them |
| `Streams.PaymentBlindIffPaired` | internal/repository/postgres/subscription_repo.go:287-310 | an invoice event acts alike on all legal rows with equal payment columns if and only if it is a failure or carries both period ends or neither |
| `Streams.ChangeBlindIffPaired` | internal/repository/postgres/subscription_repo.go:201-217 | a subscription event acts alike on all legal rows with equal subscription columns if and only if it carries both period ends or neither, or no row accepts it |
| `Dunning.CounterIsTrailingRun` | internal/repository/postgres/subscription_repo.go:269-327 | flag and counter agree, and the counter is the trailing failure run of the record-setting deliveries |
| `Dunning.InOrderCountsEveryFailure` | internal/repository/postgres/subscription_repo.go:269-327 | delivered in order, the counter is the true number of consecutive failures |
| `Dunning.CursorIsNewest` | internal/repository/postgres/subscription_repo.go:269-285 | the invoice cursor is the newest instant delivered, the row's own included |
| `Dunning.FlagConverges` | migrations/00004_add_dunning_state.sql:50-60 | any order and repetition of the same distinct-time invoice events leaves the same failure flag, error text, next attempt and cursor |
| `Dunning.ReplayIsNeutralIff` | internal/repository/postgres/subscription_repo.go:269-310 | an event handled once more leaves the counter alone if and only if it has been overtaken or is a success, raises it by at most one, and changes no other column of its stream |
| `RefreshTokens.RotationInvariant` | internal/repository/postgres/refresh_token_repo.go:82-190 | every reachable family has one user, the one it logged in, at most one unused token, and is wholly revoked or wholly not; every token expires when it was asked to; no hash is exchanged twice |
| `RefreshTokens.StepKeepsInv` | internal/service/auth_service.go:191-311 | login, refresh, logout, revocation, pruning and time each keep that invariant |
| `RefreshTokens.RevokedFamilyIsFinished` | internal/repository/postgres/refresh_token_repo.go:97-120 | nothing is ever issued into a revoked family again |
| `RefreshTokens.SignOutRevokesExactly` | internal/repository/postgres/refresh_token_repo.go:145-190 | in every reachable state logout revokes every row of the presented token's family, family revocation every row of that family and sign-out-everywhere every row of that user, and no other row changes |
| `RefreshTokens.SignedOutForGood` | internal/service/auth_service.go:248-279 | after any of them reached a token's row, no later run exchanges any token of its family |
| `RefreshTokens.PrunedIsForgotten` | internal/repository/postgres/refresh_token_repo.go:199-215 | pruning deletes exactly the expired rows it picked, and a pruned token is unknown in every later run |
| `RefreshTokens.ReuseWithinGrace` | internal/repository/postgres/refresh_token_repo.go:97-115 | a spent token presented up to expiry plus grace is found, reported as reuse, and revokes its whole family and no other |
| `RefreshTokens.ConsumeVersusUsable` | internal/domain/models.go:344-346 | an exchange succeeds exactly for a usable token or one presented at its very expiry |
| `RefreshTokens.RefreshTokenRepo.CreateRefreshToken` | internal/repository/postgres/refresh_token_repo.go:57-69 | inserts a fresh hash that expires after its issue, otherwise nothing |
| `RefreshTokens.RefreshTokenRepo.ConsumeRefreshToken` | internal/repository/postgres/refresh_token_repo.go:82-143 | reuse revokes the family and stays committed; otherwise a live token is marked used and its successor issued |
| `RefreshTokens.RefreshTokenRepo.DeleteExpiredRefreshTokens` | internal/repository/postgres/refresh_token_repo.go:199-215 | deletes at most limit rows, only ones past expiry and grace, and all of them when the batch is short |
| `RateLimitProofs.BoundedDominatesReference` | internal/handler/middleware/ratelimit.go:109-156 | after any sequential history with any prunes and resets the limiter has granted a client at least what the unbounded reference has, and its map is within MaxEntries |
| `RateLimitProofs.GrantsAreBounded` | internal/handler/middleware/ratelimit.go:109-156 | with r discards of its bucket in a span of length d a client is granted at most (r + 1) * Burst + Rate * d |
| `RateLimitProofs.EnoughRoomMeansReference` | internal/handler/middleware/ratelimit.go:109-156 | when all clients fit and idle buckets refill, every client is granted exactly what the reference grants |
| `RateLimitProofs.DenialIsNeutral` | internal/handler/middleware/ratelimit.go:140-155 | a denial changes the client's level at no later instant |
| `RateLimitProofs.RetryAfterIsHonest` | internal/handler/middleware/ratelimit.go:145-155 | whatever happens before now + delay short of a discard, the client is denied; at or after it a request is granted |
| `RateLimitProofs.RetryAfterSeconds` | internal/handler/middleware/ratelimit.go:184-188 | the header is the least whole number of seconds that covers the delay and is at least one |
| `Pruning.PruneUnobservableIff` | internal/handler/middleware/ratelimit.go:109-138 | over all ordered histories of a set of clients, every client is granted the same with and without the prunes if and only if Rate * TTL is at least Burst and the clients fit MaxEntries or MaxEntries is one |
| `RateLimit.DecideIsTokenBucket` | internal/handler/middleware/ratelimit.go:140-155 | reserve-and-cancel grants exactly when a whole token is there, spends it only then, and reports the time until there is one |
| `RateLimit.RateLimiter.constructor` | internal/handler/middleware/ratelimit.go:41-55 | defaults replace non-positive settings |
| `RateLimit.RateLimiter.Allow` | internal/handler/middleware/ratelimit.go:121-156 | the answer and the new map, with the whole map reset when a new client arrives at capacity |
| `RateLimit.RateLimiter.Prune` | internal/handler/middleware/ratelimit.go:109-117 | removes exactly the buckets idle for longer than TTL |
| `Forwarded.TrimSpace` | internal/handler/middleware/ratelimit.go:257-265 | strips blanks and tabs from both ends |
| `Forwarded.TrimTakesBlanksOff` | internal/handler/middleware/ratelimit.go:257-265 | what is stripped is all the blanks and tabs at both ends and nothing else |
| `Forwarded.SplitAndTrim` | internal/handler/middleware/ratelimit.go:243-255 | the trimmed, non-empty comma-separated parts, in order |
| `Forwarded.ClientAddr` | internal/handler/middleware/ratelimit.go:218-241 | the entry trustedProxies places from the right over all header lines, or the direct peer |
| `Forwarded.EntriesOfJoined` | internal/handler/middleware/ratelimit.go:243-255 | splitting two comma-joined headers is splitting each |
| `Forwarded.EntriesInvertJoin` | internal/handler/middleware/ratelimit.go:243-255 | splitting inverts joining clean parts |
| `Forwarded.CallerCannotSteer` | internal/handler/middleware/ratelimit.go:218-241 | with N proxies each appending an entry, blanks and own lines allowed, the result is what the first of them saw, whatever the caller sent or did not send |
| `Forwarded.ShortChainFallsBack` | internal/handler/middleware/ratelimit.go:218-241 | with fewer entries and hops than trusted proxies the result is the direct peer |
| `Text.Truncate` | internal/repository/postgres/webhook_repo.go:273-283 | the loop cuts long text at the last rune start at or before byte 2000 and marks the cut |
| `Text.TruncatedIsBoundedAndValid` | internal/repository/postgres/webhook_repo.go:273-283 | text of up to 2000 bytes is kept; longer valid UTF-8 is cut between bytes 1997 and 2000, ends in an ellipsis and is valid UTF-8 of at most 2003 bytes |
| `Text.QuoteJson` | internal/handler/middleware/timeout.go:61-82 | the quoted, escaped bytes |
| `Text.QuotedReadsBack` | internal/handler/middleware/timeout.go:61-82 | the result is a legal JSON string that unescapes to the input without control bytes other than tab, LF and CR |
| `Text.QuotingKeepsUtf8` | internal/handler/middleware/timeout.go:61-82 | a message in UTF-8 is quoted in UTF-8 |

## Left out

- Signature verification, bcrypt, JWT, SHA-256 and random values: library cryptography. Delivered bodies are authentic, hashes and family ids fresh.
- User linking and the lookups inside owner resolution: the owner is an answer of the environment, free at each transaction.
- JSON decoding: any function from payload to event that leaves a field at its zero value when its member is missing. A stored body that no longer parses is not modelled.
- READ COMMITTED visibility, SKIP LOCKED and ORDER BY: each transaction is atomic and a limited scan picks any legal subset. `Consume` locks only the presented row, so atomicity of its family-wide update is an assumption.
- Clocks: application and database time are one clock.
- Overflow of the 32-bit attempts and failure counters, and rounding of floating-point rates and backoff intervals, which are reals and integers here. Bucket updates are sequential.
- RateLimit.RateLimiter.Allow: buckets are values in the map, so a request still holding a bucket discarded by a concurrent reset is not captured.
- Columns that only describe the envelope (event type, API version, livemode, request id, metadata), the event id format CHECK and the payload-is-an-object CHECK.
- Service.WebhookService.ProcessEvent: the error a handler failed with is one fixed text, processed and stale are one outcome, and a settle that itself fails to reach the database is the protocol's Die step.
- Service.WebhookService.ReplayEvent: does not model a stored body that no longer parses; every stored body was parsed before it was stored.
- Service.WebhookService.HandleCheckoutCompleted: does not model the user row that linking the customer writes.
- ServiceRuns.RetryFailed: interference between its turns is in the protocol, not in the method.
- `ListRetryableEvents` as a method: its condition is the protocol's List step.
- Text.QuotedReadsBack: reads the two-character escapes only, since no \u escape is ever written.
- The refresh-token prune loop, which repeats DeleteExpiredRefreshTokens until a short batch; ledger and retention statistics; logging and metrics.
- The operator's manual reset of attempts, which the attempts CHECK contradicts.
- IP normalisation, environment loading and the remaining configuration checks, HTTP handlers, the Stripe client and the React frontend.
