# A verified model of the learning platform's persistent state machines

Most of the platform moves requests between an HTTP gateway, TCP services and Prisma tables. Four parts of it
keep state whose guarantees are about whole runs, and these are modelled here, as the code is written, and proved.

1. **Webhook outbox.** A durable table of learning events is drained every ten seconds by a worker that takes
   the fifty earliest due rows, retries with capped exponential backoff and jitter, holds a circuit breaker per
   tenant, buries an event at its tenth attempt and lets an administrator requeue it.
   `Outbox.dfy` is the machine; `OutboxInvariant.dfy` what each of its steps keeps; `OutboxTheorems.dfy`,
   `OutboxBacklog.dfy`, `OutboxDeferral.dfy`, `OutboxBypass.dfy` and `OutboxReport.dfy` what holds of runs;
   `OutboxRecord.dfy` and `OutboxRequests.dfy` what every column owes to the history and to the requests;
   `OutboxService.dfy` the service itself as a class over its tables, proved to take exactly the machine's steps.
   `Backoff.dfy` is the schedule, `Paging.dfy` the listings.
2. **Sessions, invites and seats.** `Auth.dfy` is the machine, `AuthTheorems.dfy` has rotation, logout and
   single use, `AuthGc.dfy` the simulation that makes the cleanup jobs invisible, `AuthSeats.dfy` seat
   accounting against `SeatPolicy.dfy`, `AuthLife.dfy` and `AuthInvites.dfy` what the service owes to users and
   invited people, and `AuthService.dfy` the class.
3. **Stripe entitlements.** `Catalog.dfy` has the entitlement loop and its closed form, `Billing.dfy` the
   processed-once log and the handlers, `BillingTheorems.dfy` what holds of any log of deliveries with
   failures, retries and duplicates, `BillingOutcomes.dfy` what a delivery leaves behind in Stripe's terms, and
   `BillingService.dfy` the class.
4. **Courses and learning events.** `CourseStore.dfy` is the tenant-partitioned store, `CourseIsolation.dfy`
   its non-interference theorem, `CourseLimits.dfy` the course limit over runs, `CourseHistory.dfy` the rows as
   the accepted requests read back, `CourseAnswers.dfy` acceptance and answers, `CourseService.dfy` the class.
   `LearningKeys.dfy`, `LearningEvents.dfy` and `LearningTheorems.dfy` follow the difference an enrollment
   update makes through the gateway into the outbox; `LearningSameTime.dfy` is a run of them.

A machine step is an operation together with the time that passes before it, so clocks never run backwards.
HTTP outcomes, jitter, Stripe's answers, password and domain checks, fresh ids and the order of equally ranked
rows are inputs. Ghost histories (requests per event and tenant, the login a token descends from, completed
handlers) are written by the machines and read by none of their operations. In each class, a method's
postcondition equates its whole new state with the machine's step on the old one; in the webhook worker, other
callers' requests come in before each row and between the start of a request and the writing of its outcome.

## Where the code differs from what one would expect

- A tick serves exactly min(50, n) of n due events unless a waiting event is requeued during the tick: requeue
  neither looks at the event's status nor at whether a worker is about to take it, and moves its due time
  forward. `OutboxBacklog.WholeTick` has the exact condition, `OutboxBypass.RequeueBypassesBatch` the run.
- Requeue keeps the attempt count, so a requeued event gets one more request and is buried again on failure;
  the dead letter keeps its `requeuedAt` and no longer counts as open (`RequeueBuysOneRequest`,
  `DeadLettersMirrorFailures`).
- A page's `nextCursor` names the first row not shown, and the next page starts behind that row. Every row a
  cursor names is lost to the client (`Paging.WalkMisses`, `Paging.WalkComplete`; `Paging.SecondRowLost`).
- Cleaning up can change why an invite is refused (expired or unknown), never whether. `AuthGc.CleanupInvisible`
  has the exact condition, `AuthGc.CleanupChangesReason` the run.
- The grace period for seats runs from the tenant row's last update, so any write to the tenant restarts it
  (`AuthSeats.GraceRestarts`, with the exact condition for a refusal).
- When Stripe fails while a subscription named by its id is synced, the error is swallowed, the event counts as
  processed and no redelivery repairs it (`BillingTheorems.SwallowedFaultsAreLost`, with the exact condition;
  `BillingTheorems.UpdateLost`, an input).
- Two completions of one enrollment in the same millisecond are one event (`LearningTheorems.CompletionsShareRow`,
  with the exact condition; `LearningSameTime.TwoCompletionsOneRow`, the run).

## Model

| member | source | states |
|---|---|---|
| OutboxBacklog.BacklogDrains | apps/analytics-webhook-service/src/analytics-webhook-service.service.ts:353-607 | no starvation: with n events due at a cutoff and later arrivals interleaved anywhere, k started ticks leave at most n - 50k of them untaken, and after ceil(n/50) finished ticks none is due at the cutoff |
| OutboxBacklog.WholeTick | apps/analytics-webhook-service/src/analytics-webhook-service.service.ts:353-607 | a whole tick lowers the backlog by at least min(50, n), and by exactly that if and only if no waiting event outside the batch is requeued meanwhile |
| OutboxBypass.RequeueBypassesBatch | apps/analytics-webhook-service/src/analytics-webhook-service.service.ts:250-273 | a reachable outbox and a finished whole tick, with such a requeue in it, that leaves none of 51 due events due, where the exact count would leave one |
| OutboxBacklog.StepServes | apps/analytics-webhook-service/src/analytics-webhook-service.service.ts:353-607 | every step removes from the untaken backlog exactly the batch it reads and the event it requeues, and puts nothing back |
| OutboxBacklog.BatchTakesBacklog | apps/analytics-webhook-service/src/analytics-webhook-service.service.ts:354-369 | any answer of the ordered, limited query holds exactly min(50, n) of the n events due at an earlier cutoff, however ties fall |
| OutboxTheorems.EarliestDeadLetter | apps/analytics-webhook-service/src/analytics-webhook-service.service.ts:472-509 | in every run a dead letter is created at least 11,664,000 ms after its event, whatever the jitter, deferrals and requeues |
| OutboxTheorems.DeadLettersMirrorFailures | apps/analytics-webhook-service/src/analytics-webhook-service.service.ts:472-498 | FAILED events have a dead letter; a dead letter copies its event's tenant, type, key and payload, means ten or more attempts, and while never requeued means the event is FAILED |
| OutboxTheorems.AttemptsBounded | apps/analytics-webhook-service/src/analytics-webhook-service.service.ts:426-533 | the attempt counter is the number of requests made, at most 10 plus one per requeue (9 while pending); the two time columns are the last touch and the last delivery of the history |
| OutboxTheorems.RequeueBuysOneRequest | apps/analytics-webhook-service/src/analytics-webhook-service.service.ts:258-271 | over any run after the dead-lettering, each requeue pays for at most one further request |
| OutboxTheorems.ClosedForGood | apps/analytics-webhook-service/src/analytics-webhook-service.service.ts:386-396 | DELIVERED and SKIPPED rows without a dead letter are never changed again by any run |
| OutboxTheorems.CircuitRefinesHistory | apps/analytics-webhook-service/src/analytics-webhook-service.service.ts:451-471 | the failure counter is the length of the tenant's trailing run of failures, across upserts, and the circuit time is set exactly when that reaches the threshold, to the last failure's end plus the open time |
| OutboxTheorems.NoRequestWhileOpen | apps/analytics-webhook-service/src/analytics-webhook-service.service.ts:398-428 | at every moment of every run: a request to a tenant whose last requests failed at least threshold times in a row starts no sooner than the open time after the last of those failures ended |
| OutboxDeferral.DeferralsArePaidFor | apps/analytics-webhook-service/src/analytics-webhook-service.service.ts:398-414 | the breaker starves nobody: in every run an event is deferred at most once per failed request to its tenant and per requeue of the event |
| OutboxTheorems.CircuitRateBound | apps/analytics-webhook-service/src/analytics-webhook-service.service.ts:325-345 | in a stretch of failures the n-th ends at least (n - F) open times after the F-th |
| OutboxRecord.StatusIsHistory | apps/analytics-webhook-service/src/analytics-webhook-service.service.ts:386-606 | in every run an event's status is what happened to it last: DELIVERED if and only if that was a successful request, SKIPPED if and only if it was set aside for want of an active endpoint, FAILED if and only if that was a failed request with ten or more made, PENDING in every other case |
| OutboxRecord.ScheduleIsHistory | apps/analytics-webhook-service/src/analytics-webhook-service.service.ts:258-606 | so are its due time and its note: at once when new or requeued, within a fifth of the backoff for its number of requests after a failed one, 24 to 36 s past the end of the circuit after a deferral |
| OutboxRecord.DeadLetterIsHistory | apps/analytics-webhook-service/src/analytics-webhook-service.service.ts:250-271 | a dead letter exists exactly from the first burial on; created and last failed, reason and requeue time are those of the first burial, the last burial and the last requeue |
| OutboxRecord.RequestsKeepDistance | apps/analytics-webhook-service/src/analytics-webhook-service.service.ts:465-465 | no request comes early: over every run it follows its event's previous failed request, unless requeued in between, by at least four fifths of the backoff, and a deferral by 24 s |
| OutboxRequests.ClaimDecides | apps/analytics-webhook-service/src/analytics-webhook-service.service.ts:374-428 | what a worker does with a row follows from the requests and the history alone: skipped if and only if the tenant's last accepted upsert is missing or switched the endpoint off, sent if and only if it left it on and the breaker does not hold the tenant back, otherwise deferred |
| OutboxRequests.EndpointIsLastUpsert | apps/analytics-webhook-service/src/analytics-webhook-service.service.ts:68-98 | over every run an endpoint exists exactly after an upsert with url and secret, and has the url, the secret and the switch of the last one |
| OutboxRequests.EventIsFirstMessage | apps/analytics-webhook-service/src/analytics-webhook-service.service.ts:26-50 | over every run there is an event for a key exactly if a message with it came, with tenant, type, payload and time of the first |
| OutboxTheorems.NeverStuck | apps/analytics-webhook-service/src/analytics-webhook-service.service.ts:374-607 | in every reachable state no update hits a missing row: a requeue is always legal and a draining worker can always take a step, each of which shortens the tick |
| OutboxInvariant.StepKeeps | apps/analytics-webhook-service/src/analytics-webhook-service.service.ts:26-607 | one step of ingest, upsert, requeue, batch read, claim or settle keeps the invariant tying the three tables, the batch snapshot and the history together |
| OutboxReport.OpenCountsStuckEvents | apps/analytics-webhook-service/src/analytics-webhook-service.service.ts:275-313 | the summary's totals - requeued counts exactly the window's FAILED, never requeued events, and there is an oldest open letter if and only if such an event exists |
| Backoff.DelayRange | apps/analytics-webhook-service/src/analytics-webhook-service.service.ts:315-323 | every delay ever computed lies in [24000, 4320000] ms |
| Backoff.DelaysIncrease | apps/analytics-webhook-service/src/analytics-webhook-service.service.ts:315-323 | over attempts 0 to 7 a later delay is strictly longer, whatever both jitters are |
| Backoff.DelayNearNominal | apps/analytics-webhook-service/src/analytics-webhook-service.service.ts:315-323 | rounding included, a delay stays within a fifth of the capped exponential |
| Backoff.MinimumWaitTable | apps/analytics-webhook-service/src/analytics-webhook-service.service.ts:315-323 | closed form of the least total delay imposed by k failed attempts |
| Outbox.ConfigFromEnv | apps/analytics-webhook-service/src/analytics-webhook-service.service.ts:325-345 | readable limits at or above the floor are used as they are, lower ones become the floors 1 and 10000, absent or unreadable ones 5 and 180000 |
| OutboxService.FindBatch | apps/analytics-webhook-service/src/analytics-webhook-service.service.ts:353-372 | the selection loop returns the first fifty due rows by next attempt and creation time, and misses none |
| OutboxService.FirstDue | apps/analytics-webhook-service/src/analytics-webhook-service.service.ts:353-361 | the least due row not yet taken, or none exactly when all due rows are taken |
| OutboxService.AnalyticsWebhookService.AppendEvent | apps/analytics-webhook-service/src/analytics-webhook-service.service.ts:26-50 | upsert by idempotency key: the whole new state is the machine's ingest step; an existing row is untouched and its id returned |
| OutboxService.AnalyticsWebhookService.UpsertWebhookEndpoint | apps/analytics-webhook-service/src/analytics-webhook-service.service.ts:68-98 | the machine's upsert step: circuit fields of an existing endpoint survive |
| OutboxService.AnalyticsWebhookService.RequeueDeadLetter | apps/analytics-webhook-service/src/analytics-webhook-service.service.ts:250-273 | the machine's requeue step: event and dead letter change together, attempts and status are not looked at |
| OutboxService.AnalyticsWebhookService.ClaimRow | apps/analytics-webhook-service/src/analytics-webhook-service.service.ts:374-426 | skip, defer or send: exactly the machine's claim step, which `ClaimDecides` ties to the requests of the run |
| OutboxService.AnalyticsWebhookService.SettleRow | apps/analytics-webhook-service/src/analytics-webhook-service.service.ts:439-606 | success, retry or burial: exactly the machine's settle step on all three tables, whose columns `StatusIsHistory`, `ScheduleIsHistory`, `DeadLetterIsHistory` and `CircuitRefinesHistory` tie to the outcomes |
| OutboxService.AnalyticsWebhookService.HandleRow | apps/analytics-webhook-service/src/analytics-webhook-service.service.ts:374-607 | one row of the batch with other callers' requests before and during it is exactly a legal run of the machine |
| OutboxService.AnalyticsWebhookService.DeliverPendingWebhooks | apps/analytics-webhook-service/src/analytics-webhook-service.service.ts:351-608 | the cron job ends, leaves the worker idle, is exactly the run of the machine made of the batch read and the rows' steps, and takes at least min(50, n) off every backlog of n events due before it began |
| OutboxService.CronRunIsWholeTick | apps/analytics-webhook-service/src/analytics-webhook-service.service.ts:351-608 | for every cutoff before it, a cron run is a whole tick in the sense of the backlog theorems and takes at least min(50, n) of the n events due at the cutoff |
| Paging.WalkMisses | apps/analytics-webhook-service/src/analytics-webhook-service.service.ts:100-131 | following the cursors shows no row twice and shows the row at position i if and only if i mod (L + 1) is not L |
| Paging.WalkComplete | apps/analytics-webhook-service/src/analytics-webhook-service.service.ts:228-248 | the pages add up to the listing if and only if it fits on one page |
| Paging.WalkShows | apps/analytics-webhook-service/src/analytics-webhook-service.service.ts:106-130 | from any cursor, the walk is, in order, the listing without the row after each full page |
| Paging.PageSize | apps/analytics-webhook-service/src/analytics-webhook-service.service.ts:106-106 | a limit from 1 to 200 is used as it is, a lower one becomes 1, a higher one 200, and none 50 |
| Paging.SecondRowLost | apps/analytics-webhook-service/src/analytics-webhook-service.service.ts:111-130 | of two rows on pages of one, the walk shows the first only |
| AuthTheorems.OneTokenPerLogin | apps/auth-org-service/src/auth-org-service.service.ts:500-573 | in every run each login lineage has at most one unrevoked token |
| AuthTheorems.RefreshedOnce | apps/auth-org-service/src/auth-org-service.service.ts:536-573 | a token refreshed once is refused for ever |
| AuthTheorems.LogoutAllIsFinal | apps/auth-org-service/src/auth-org-service.service.ts:618-629 | after a logout of all sessions, in any later run, only tokens descended from later logins of that user refresh |
| AuthTheorems.LogoutEndsLogin | apps/auth-org-service/src/auth-org-service.service.ts:600-616 | logging out with the live token of a login ends the whole lineage |
| AuthLife.TokenLives | apps/auth-org-service/src/auth-org-service.service.ts:500-573 | a token issued by a login or a refresh, whatever happens next, jobs included, short of refreshing it, logging it out or logging out all of its user, refreshes if and only if less than the configured lifetime has passed since, and for the same user |
| AuthLife.LoginAccepts | apps/auth-org-service/src/auth-org-service.service.ts:472-488 | a login succeeds exactly with the right password of the tenant's user with that email, for that user, and otherwise changes nothing |
| AuthLife.ActivityIsLastLogin | apps/auth-org-service/src/auth-org-service.service.ts:490-498 | over every run people stay, with tenant, email, role and eligibility; their last login and last qualifying activity are the time of their last successful login |
| AuthInvites.InviteIsGood | apps/auth-org-service/src/auth-org-service.service.ts:390-460 | an invite nobody accepted, whatever happens meanwhile, can be accepted if and only if it has not expired, password and domain are acceptable, the email is new and there is room for the role; then exactly the invited person becomes a member with the invited role; a refusal changes nothing |
| AuthInvites.NobodyBecomesSuperAdmin | libs/common/src/auth/rbac.ts:4-12 | a tenant without a super admin, or an invite for one, never gets one in any run |
| AuthTheorems.InviteUsedOnce | apps/auth-org-service/src/auth-org-service.service.ts:390-460 | an accepted invite stays used through every run, cleanups included, and every further acceptance is refused without effect |
| AuthGc.CleanupInvisible | apps/auth-org-service/src/auth-org-service.service.ts:706-727 | with cleanup jobs inserted anywhere in a run, every request is accepted or refused as without them and yields the same tokens and users; the replies differ if and only if the request is to accept, with a valid password, an invite that is gone from the one table and still in the other, and then one says not found and the other expired |
| AuthGc.CleanupChangesReason | apps/auth-org-service/src/auth-org-service.service.ts:404-409 | a run from a start database in which that happens: an invite for a day, swept away and accepted on the second day |
| AuthGc.RunAgrees | apps/auth-org-service/src/auth-org-service.service.ts:706-727 | the simulation behind it, reply by reply: the collected tables lack only rows that no request will accept again |
| AuthSeats.QueryCountsPolicy | apps/auth-org-service/src/auth-org-service.service.ts:116-129 | the count query counts exactly the memberships the written policy calls active seats at that moment |
| AuthSeats.StepSeats | apps/auth-org-service/src/auth-org-service.service.ts:390-498 | at one instant an operation seats exactly the learner it lets in and the lapsed learner it brings back, and frees nobody; between operations seats only lapse |
| AuthSeats.StepSeatsBound | apps/auth-org-service/src/auth-org-service.service.ts:131-161 | a step exceeds the larger of the old count and the limit by at most one, and only by a lapsed learner's login or an acceptance on grace |
| AuthSeats.SeatLimitKept | apps/auth-org-service/src/auth-org-service.service.ts:113-161 | while the limit is not cut, a tenant within it exceeds it by at most the number of such steps in the run |
| AuthSeats.GraceRestarts | apps/auth-org-service/src/auth-org-service.service.ts:140-161 | until the next write to a tenant's row, the capacity check refuses if and only if the written plan's seats are used up and there is no subscription, no grace configured, or the grace counted from that write is over |
| Auth.StepKeeps | apps/auth-org-service/src/auth-org-service.service.ts:314-727 | every operation keeps: one live token per login, unique emails per tenant, memberships of their user's tenant, fresh ids |
| AuthService.AuthOrgService.LogIn | apps/auth-org-service/src/auth-org-service.service.ts:462-534 | the whole new state and reply of a login; `LoginAccepts`, `TokenLives` and `ActivityIsLastLogin` say what that is worth to the user |
| AuthService.AuthOrgService.RefreshSession | apps/auth-org-service/src/auth-org-service.service.ts:536-598 | rotation on the tables is the machine's step, whose successor token lives as `TokenLives` says |
| AuthService.AuthOrgService.LogoutSession | apps/auth-org-service/src/auth-org-service.service.ts:600-616 | revokes the token if it is live and succeeds either way |
| AuthService.AuthOrgService.LogoutAllSessions | apps/auth-org-service/src/auth-org-service.service.ts:618-629 | revokes every unrevoked token of that user and tenant and no other |
| AuthService.AuthOrgService.IssueInvite | apps/auth-org-service/src/auth-org-service.service.ts:314-388 | expiry range, taken email, inviter, role, tenant and domain are checked in the source's order, and the invite expires after the days asked for, seven if none |
| AuthService.AuthOrgService.AssertSeatCapacity | apps/auth-org-service/src/auth-org-service.service.ts:91-161 | free, on grace or full, with the seats in use, the limit and the end of the grace period, by the policy of the checked function |
| AuthService.AuthOrgService.RedeemInvite | apps/auth-org-service/src/auth-org-service.service.ts:390-460 | every refusal in the source's order without effect; otherwise user, membership and used invite together |
| AuthService.AuthOrgService.CleanupExpiredInvites | apps/auth-org-service/src/auth-org-service.service.ts:706-714 | deletes exactly the unused expired invites |
| AuthService.AuthOrgService.CleanupStaleRefreshTokens | apps/auth-org-service/src/auth-org-service.service.ts:716-727 | deletes exactly the expired tokens and those revoked over fourteen days ago |
| AuthService.AuthOrgService.Serve | apps/auth-org-service/src/auth-org-service.service.ts:314-727 | any sequence of requests and jobs, served one by one, is a run of the machine, with its replies; so the run theorems hold of the service |
| Catalog.ResolveSubscriptionEntitlements | libs/common/src/billing/stripe-catalog.ts:65-103 | the loop computes the closed form: the highest tier among matched lines, and the seats of exactly the lines of that tier |
| BillingOutcomes.EntitlementsAreWorth | libs/common/src/billing/stripe-catalog.ts:65-103 | with the environment's prices that is: ENTERPRISE and a hundred seats a unit if a line has the enterprise price, else PRO and ten a unit if one has the PRO price, else FREE; a line's units are its quantity, at least one |
| BillingOutcomes.SeatsLinear | libs/common/src/billing/stripe-catalog.ts:81-84 | seats are linear in a line's quantity |
| Catalog.OrderIrrelevant | libs/common/src/billing/stripe-catalog.ts:65-103 | permuting the lines changes nothing |
| Catalog.MoreLinesMoreSeats | libs/common/src/billing/stripe-catalog.ts:65-103 | inserting a line anywhere never lowers (tier, seats) lexicographically |
| Catalog.SeatsComeInBatches | libs/common/src/billing/stripe-catalog.ts:26-56 | with the environment's catalog PRO seats are multiples of 10 and ENTERPRISE seats of 100, positive when there is a line of that tier |
| Catalog.ParseCatalog | libs/common/src/billing/stripe-catalog.ts:32-56 | the pushed list, looked up by price, is the environment's price table; a price named twice is the enterprise one |
| BillingTheorems.ProcessedForGood | apps/auth-org-service/src/billing/stripe-billing.service.ts:214-253 | a processed event's handler completed exactly once, and its row is never unset, changed or marked failed |
| BillingTheorems.ReplayStruck | apps/auth-org-service/src/billing/stripe-billing.service.ts:218-225 | a delivery after its event's success can be struck from any log without changing accounts or events |
| BillingTheorems.AllReplaysStruck | apps/auth-org-service/src/billing/stripe-billing.service.ts:218-225 | striking all of them gives the same tables and a log in which every delivery finds its event unprocessed |
| BillingTheorems.EntitlementsConsistent | apps/auth-org-service/src/billing/stripe-billing.service.ts:91-151 | after any log: unlinked means FREE; FREE means no or the free limit of seats; PRO a positive multiple of 10; ENTERPRISE a positive multiple of 100 |
| BillingTheorems.SubscriptionEnds | apps/auth-org-service/src/billing/stripe-billing.service.ts:190-212 | after a deleted or paused event nobody is linked to the subscription, all other accounts are untouched, and it stays so until a delivery mentions it again |
| BillingOutcomes.DeliveryLeaves | apps/auth-org-service/src/billing/stripe-billing.service.ts:91-212 | what any delivery leaves of any account, from prices, quantities and Stripe's words alone: the plan an active or trialing subscription is worth, linked, or FREE and unlinked for another status or an ended subscription, or the plan it had; and the customer named last |
| BillingOutcomes.AccountReflectsSubscription | apps/auth-org-service/src/billing/stripe-billing.service.ts:119-150 | over any log, an account keeps the tier, seats and link of the subscription written down last until a delivery writes it down again or ends that subscription |
| BillingOutcomes.LogIsDeliveries | apps/auth-org-service/src/billing/stripe-billing.service.ts:214-253 | over any log, the event rows are the deliveries read back: type and time of the first, processed at the first that went well, until then the first thousand characters of what went wrong last |
| BillingTheorems.SwallowedFaultsAreLost | apps/auth-org-service/src/billing/stripe-billing.service.ts:167-178 | after Stripe fails to return a subscription or its customer, the event is processed if and only if it named the subscription by id, in an invoice or a checkout; then no redelivery, after whatever else, changes anything; otherwise a redelivery is handled in full; the failed delivery left only a checkout's customer link behind |
| BillingTheorems.ProcessedUnlessReported | apps/auth-org-service/src/billing/stripe-billing.service.ts:234-252 | an unprocessed event becomes processed if and only if Stripe does not fail or the failure is swallowed |
| BillingTheorems.UpdateLost | apps/auth-org-service/src/billing/stripe-billing.service.ts:167-178 | an input on which it matters: an invoice delivered twice leaves an account unlinked that the second delivery alone would have linked |
| BillingTheorems.SummaryConserves | apps/auth-org-service/src/auth-org-service.service.ts:644-683 | after any log and for every window, totals = processed + failed + pending |
| BillingService.StripeBillingService.constructor | apps/auth-org-service/src/billing/stripe-billing.service.ts:36-40 | the catalog built at start answers lookups as the configured prices |
| BillingService.StripeBillingService.SyncSubscriptionRecord | apps/auth-org-service/src/billing/stripe-billing.service.ts:66-138 | tenant resolution, downgrade and upgrade by the entitlement loop give exactly the machine's account, which `DeliveryLeaves` ties to lines and prices |
| BillingService.StripeBillingService.ClearSubscriptionByStripeId | apps/auth-org-service/src/billing/stripe-billing.service.ts:140-151 | exactly the accounts linked to the subscription go to the free tier |
| BillingService.StripeBillingService.SyncSubscriptionById | apps/auth-org-service/src/billing/stripe-billing.service.ts:167-178 | errors are swallowed: the handler never fails |
| BillingService.StripeBillingService.HandleSubscriptionLifecycleEvent | apps/auth-org-service/src/billing/stripe-billing.service.ts:190-212 | deleted and paused clear, all other kinds sync |
| BillingService.StripeBillingService.OnCheckoutSessionCompleted | apps/auth-org-service/src/billing/stripe-billing.service.ts:255-285 | links the customer first, then syncs an expanded or a retrieved subscription |
| BillingService.StripeBillingService.Dispatch | apps/auth-org-service/src/billing/stripe-billing.service.ts:389-421 | each event type reaches its handler |
| BillingService.StripeBillingService.ProcessWebhookEventOnce | apps/auth-org-service/src/billing/stripe-billing.service.ts:214-253 | skips exactly the processed events, records success or the clipped error, and reports an error exactly when an unprocessed event's handler fails |
| BillingService.StripeBillingService.ReceiveAll | apps/auth-org-service/src/billing/stripe-billing.service.ts:363-422 | any sequence of deliveries is a run of the machine, and the sender sees an error exactly for those that leave their event unprocessed |
| CourseIsolation.NonInterference | apps/course-service/src/course-service.service.ts:71-380 | whatever other tenants request in between, a tenant ends with the rows and gets the replies of its own requests run alone on an empty store |
| CourseIsolation.OwnSlice | apps/course-service/src/course-service.service.ts:71-380 | every operation's reply, and its effect on its tenant's rows, depend only on that tenant's rows |
| CourseIsolation.ElsewhereUntouched | apps/course-service/src/course-service.service.ts:71-380 | no operation, cascading delete included, changes a row of another tenant |
| CourseIsolation.RowsFollowCourses | apps/course-service/prisma/schema.prisma:23-59 | in every reachable store lessons and enrollments belong to a course of their own tenant, and nobody is enrolled twice in a course |
| CourseIsolation.StepKeeps | apps/course-service/src/course-service.service.ts:71-380 | each of the sixteen operations keeps that invariant |
| CourseHistory.EnrollmentIsItsUpdates | apps/course-service/src/course-service.service.ts:244-380 | over any run an enrollment exists exactly if created and neither it nor its course deleted since; tenant, course and user are those of its creation, progress and lessons those of the last accepted updates that carried them, completion what the last one that carried it said, last access its last update |
| CourseHistory.LessonIsItsPatches | apps/course-service/src/course-service.service.ts:184-242 | over any run a lesson likewise is its creation and the last accepted patches of title, body and order |
| CourseHistory.CourseIsItsTitle | apps/course-service/src/course-service.service.ts:113-156 | over any run a course exists exactly if created and not deleted since, under its last accepted title |
| CourseAnswers.AcceptedExactly | apps/course-service/src/course-service.service.ts:71-380 | the exact condition under which each operation accepts a request: inside its tenant, existing rows, no empty patch, learners only their own enrollment, room under the limit; a refusal changes nothing |
| CourseAnswers.AnswersAreTrue | apps/course-service/src/course-service.service.ts:71-380 | an answer shows rows of the store as it is after the request, and exactly those asked for |
| CourseLimits.CourseLimitKept | apps/course-service/src/course-service.service.ts:113-131 | over any run, a tenant that never creates a course above a tier never has more courses than that tier allows, whatever is deleted and whatever other tenants do |
| CourseService.CourseServiceService.AddCourse | apps/course-service/src/course-service.service.ts:113-131 | counts against the tier's limit, and keeps the invariant |
| CourseService.CourseServiceService.RenameCourse | apps/course-service/src/course-service.service.ts:133-145 | changes the title of a course of this tenant and nothing else |
| CourseService.CourseServiceService.RemoveCourse | apps/course-service/src/course-service.service.ts:147-156 | removes the course with its lessons and enrollments, and keeps the invariant |
| CourseService.CourseServiceService.AddLesson | apps/course-service/src/course-service.service.ts:184-203 | only under a course of the same tenant |
| CourseService.CourseServiceService.ChangeLesson | apps/course-service/src/course-service.service.ts:205-231 | field-by-field patch; a missing lesson is reported before an empty patch |
| CourseService.CourseServiceService.RemoveLesson | apps/course-service/src/course-service.service.ts:233-242 | removes the lesson of this course and tenant only |
| CourseService.CourseServiceService.Enroll | apps/course-service/src/course-service.service.ts:244-266 | a second enrollment of a user in a course is refused |
| CourseService.CourseServiceService.ReadEnrollment | apps/course-service/src/course-service.service.ts:297-310 | learners read only their own enrollment |
| CourseService.CourseServiceService.ChangeEnrollment | apps/course-service/src/course-service.service.ts:312-369 | field by field, as the machine does; an empty patch is reported before a missing row; `EnrollmentIsItsUpdates` says what becomes of each field over a run |
| CourseService.CourseServiceService.RemoveEnrollment | apps/course-service/src/course-service.service.ts:371-380 | removes the enrollment of this tenant only |
| CourseService.CourseServiceService.Serve | apps/course-service/src/course-service.service.ts:71-380 | any sequence of requests is a run of the store; each tenant ends with the rows, and is sent the replies, of its own requests served alone |
| LearningKeys.KeysInjective | apps/api-gateway/src/analytics/analytics-gateway.service.ts:130-172 | two events with the same key text are the same event of the same enrollment: kind, numbers and date included |
| LearningEvents.EmitLearningEventsFromEnrollmentUpdate | apps/api-gateway/src/analytics/analytics-gateway.service.ts:107-180 | the pushed messages are exactly those of the events that are due, each once, with the key, type and metadata of the event |
| LearningTheorems.StoredExactlyWhenItHappened | apps/api-gateway/src/analytics/analytics-gateway.service.ts:121-176 | in any run of requests and outbox traffic, with messages lost, delayed past any later requests, reordered or repeated, an event is stored if and only if some update was that event and a message of it arrived |
| LearningTheorems.RowsAreEvents | apps/analytics-webhook-service/src/analytics-webhook-service.service.ts:39-49 | every stored row is exactly one event of one enrollment, under that event's type and tenant, and no other row is the same event |
| LearningTheorems.LessonsCompletedAreRaises | apps/api-gateway/src/analytics/analytics-gateway.service.ts:140-153 | with every message arriving sooner or later, the lesson.completed events of an enrollment are exactly the values its lesson count was raised to |
| LearningTheorems.LessonsStartedAreActivity | apps/api-gateway/src/analytics/analytics-gateway.service.ts:126-139 | with every message arriving sooner or later, the lesson.started events are exactly the updates that touched the enrollment or raised its progress or lessons, with both numbers |
| LearningTheorems.CertificatesPairWithCompletions | apps/api-gateway/src/analytics/analytics-gateway.service.ts:154-176 | with every message arriving sooner or later, course.completed and certification.earned events pair up, one of each for every time at which an enrollment went from open to completed |
| LearningTheorems.CompletionsShareRow | apps/api-gateway/src/analytics/analytics-gateway.service.ts:154-168 | two completions of one enrollment are the same row of the outbox if and only if they happened at the same millisecond |
| LearningSameTime.TwoCompletionsOneRow | apps/api-gateway/src/analytics/analytics-gateway.service.ts:154-168 | a run in which they do: complete, reopen and complete at one time, two completions and one row |

## Left out

- Overlapping cron ticks, several workers, and concurrent calls of one handler: the code reads and then writes
  without locks, so attempt counts, single-use tokens, seat and course limits and at-most-once handling are
  claims about one worker and atomic handlers. The webhook worker is interrupted between rows and while a
  request is under way; reading a row's endpoint and acting on it (skip, defer or start the request) is one step.
- Database faults in the middle of a tick or of a handler.
- HTTP, TCP, HMAC signatures, JWTs and access tokens, bcrypt, SMTP, the Stripe SDK and its signature check.
- Tenant registration, checkout session creation, `assertSeatAvailable`'s reason text, health and readiness.
- Guards, payload validation, throttling, exception filters, route parsing, and the trimming and blank checks
  of ids and tokens: requests are taken after them.
- Completion, engagement and volume reports, failure rates, recent failures, ages in minutes: formatting over
  rows the invariants already describe.
- createdAt and updatedAt columns of course tables and the order they give listings: listings are modelled as
  the rows they hold.
- A refresh lifetime or an environment limit that is not a number where the code does not check for it.
- DelayNearNominal: computed over exact reals; binary floating point is not modelled.
- PageSize: a fractional limit is not modelled.
- WalkMisses: the listing is fixed while a client pages and strictly ordered; a cursor naming no row is only
  modelled as an empty page.
- IssueInvite: whether an email's domain is allowed is an input.
- SeatsComeInBatches: quantities of subscription lines are whole numbers.
- StoredExactlyWhenItHappened: speaks of the stored key, type and tenant, not of the stored payload. Ids are
  written without colons and neither ids nor dates share a text, which uuids and ISO dates satisfy. Reading and
  updating an enrollment is one step of the gateway.
- Dead letters are kept under their event's id, which the table's unique index allows; memberships under their
  user's id and refresh tokens under the token, likewise.
