# Verified model of PromoHub's stateful core

PromoHub relays WhatsApp offers between groups, bills its users through Asaas and shares WhatsApp sessions
between worker processes. This project models the parts of the API whose behaviour is more than one call deep,
and proves what they keep over every run.

| file | models |
|---|---|
| `BillingModel`, `BillingStore`, `BillingService`, `Referrals` | rows, webhooks, checkout, cancellation, expiry, registration, referral rewards |
| `BillingRuns` | runs of those operations, with crashed deliveries: two reachable-state invariants |
| `ReferralWaits` | what a promotion rests on when the eligibility job is interrupted |
| `BillingOrder`, `BillingRetry`, `BillingPeriods`, `BillingAccess` | delivery order, redelivery, paid time, access after a cancellation |
| `BillingOutcomes`, `ReferralOutcomes`, `ForwardingOutcomes`, `RouteOutcomes`, `CacheOutcomes` | what each operation leaves, kind by kind and field by field, apart from the functions that compute it |
| `RoutedGroupsCache`, `CacheRuns` | the routed-groups cache, interleaved with loads and route mutations |
| `MessageRoutes`, `PlanLimits`, `RouteMutations` | the route table and the plan caps; route calls as mutations of the cache runs |
| `Forwarding` | the forwarding loop, deduplication and the daily quota |
| `WorkerLease`, `SessionManager` | session leases across workers; boots and listeners inside one process |
| `JsonText`, `JsonScanner` | JSON texts (RFC 8259) and the balanced scanner of the Mercado Livre provider |
| `RateLimit`, `ZonedDay` | the fixed-window limiter; local midnights and days |
| `Rows`, `Wrappers` | table queries; `Option` and `Result` |

Services are classes whose methods are proved against functions on the stored values; the theorems are about
those functions. Clock readings, random tokens, hashes and what the network answers are parameters. Tables are
sequences in creation order (distinct creation times), so an index is an id.

How far operations interleave differs. Cache lookups, loads and route mutations, the boots of the session manager
and the eligibility job are cut at their awaits, and the pieces of different calls mix freely. Leases are one
conditional update each. A checkout is cut at the provider's answer, and so is a cancellation, of which the runs
contain the write that follows the answer. Every other operation, a webhook delivery above all, is one step; a
delivery may stop at any of its writes.

Some results say when the code does *not* do what one would expect, each with the exact condition and an input:

- A redelivery after a crash is idempotent exactly when `RetryChangesUser` does not hold. A webhook that writes a
  provider id on its row can lose the protection of a newer ACTIVE subscription without a provider id, because the
  query for "a different id" leaves out null ids; a reachable state where that moves the user is `RetryCanMoveTheUser`.
- Cache entries match the route table, now and after any load that has read the table returns, exactly as long as
  every step is `Harmless`: an update that another update of its route overtook can leave an entry that nothing will
  invalidate (`OvertakenCommitsLeaveStaleEntries`).
- A computed day begins where its date does exactly when the change of offset near that midnight satisfies
  `SameSide` or `HarmlessChange`; a zone that moves its clocks forward at local midnight fails (`SkippedMidnight`). The
  daily quota holds over every run exactly in zones whose days reach back.
- A promotion follows an unbroken waiting period exactly when no reset falls between the job's selection and its
  write, which asks for no status (`ResetIsOverwritten`).
- A payout or a rejection lasts exactly until a step takes it back. Two overlapping jobs can make a referral that was
  paid out ELIGIBLE again (`PayoutIsTakenBack`).
- An update accepts null for the invite link of a route, but passes it on as undefined, which the database client
  ignores: no call ever clears a link (`LinksAreNeverCleared`).
- Access after a cancellation lasts to the end of the period exactly when no other subscription of the user is
  scheduled to end earlier. The end of a scheduled subscription sets the user to FREE whatever else is ACTIVE
  (`OldExpiryEndsNewerPlan`).

## Model

| member | source | states |
|---|---|---|
| `JsonScanner.ExtractFirstJsonValue` | apps/api/src/modules/affiliate/providers/mercadolivre.provider.ts:1084-1123 | the loop over depth, string and escape state computes the specified slice |
| `JsonScanner.ExtractAssignedJson` | apps/api/src/modules/affiliate/providers/mercadolivre.provider.ts:1785-1844 | agrees with the first-value scanner on the text after the `=` that follows the marker |
| `JsonScanner.FirstValueIsTheJsonText` | apps/api/src/modules/affiliate/providers/mercadolivre.provider.ts:1084-1123 | for every JSON object or array, any bracket-free prefix and any suffix, the slice is exactly its text |
| `JsonScanner.TruncatedJsonHasNoValue` | apps/api/src/modules/affiliate/providers/mercadolivre.provider.ts:1098-1122 | a document cut short at any point yields no value |
| `JsonScanner.AssignedValueIsTheJsonText` | apps/api/src/modules/affiliate/providers/mercadolivre.provider.ts:1785-1844 | an assigned JSON value is found behind any marker, any text up to the `=` and any bracket-free gap |
| `JsonScanner.ValueIsInert` | apps/api/src/modules/affiliate/providers/mercadolivre.provider.ts:1098-1120 | a nested JSON value leaves the scanner's state as it was and never closes the outer bracket, though only one kind of bracket is counted |
| `JsonScanner.StringIsInert` | apps/api/src/modules/affiliate/providers/mercadolivre.provider.ts:1100-1111 | brackets, quotes and escapes inside a JSON string are never mistaken for structure |
| `RateLimit.RateLimitService.Increment` | apps/api/src/common/security/rate-limit.service.ts:65-73 | one request: the new memory and the count it is given |
| `RateLimit.RateLimitService.CanActivate` | apps/api/src/common/security/rate-limit.guard.ts:40-55 | a request passes when its count is within the limit |
| `RateLimit.AtMostTwoLimitsAnywhere` | apps/api/src/common/security/rate-limit.service.ts:65-73 | any stretch of one window length, ends included and wherever placed, lets at most twice the limit through, with other keys interleaved |
| `RateLimit.TwoLimitsIsReached` | apps/api/src/common/security/rate-limit.service.ts:65-73 | that bound is attained for every limit and window |
| `RateLimit.AtMostLimitPerWindow` | apps/api/src/common/security/rate-limit.service.ts:67-72 | a window lets at most the limit through |
| `RateLimit.CountsAreExact` | apps/api/src/common/security/rate-limit.service.ts:67-73 | inside a window the count is the number of requests of the key since it opened |
| `ZonedDay.ZonedMidnightToUtc` | apps/api/src/common/time/sao-paulo-day.ts:50-69 | the two-pass loop computes the specified instant |
| `ZonedDay.GetDayBounds` | apps/api/src/common/time/sao-paulo-day.ts:20-38 | the bounds are the midnights of the local date and of the next |
| `ZonedDay.MidnightIsFoundIffItExists` | apps/api/src/common/time/sao-paulo-day.ts:50-69 | with at most one change of offset nearby, forward or back by any amount, the result is local midnight if and only if the date has one |
| `ZonedDay.SeparatesIff` | apps/api/src/common/time/sao-paulo-day.ts:50-69 | with at most one change of offset nearby, the computed midnight separates the date from the one before if and only if the change neither skips nor repeats that midnight, or does so in one of two harmless ways |
| `ZonedDay.OccursOnceIff` | apps/api/src/common/time/sao-paulo-day.ts:50-69 | a midnight occurs exactly once if and only if the old and the new offset put it on the same side of the change |
| `ZonedDay.DaysPartitionIff` | apps/api/src/common/time/sao-paulo-day.ts:20-38 | days contain the instants they are computed from and are equal or disjoint if and only if every computed midnight separates its dates |
| `ZonedDay.DaysPartitionTime` | apps/api/src/common/time/sao-paulo-day.ts:20-38 | so they do in every zone whose local midnights each occur exactly once, whatever the offset does within a day |
| `ZonedDay.PartitionsReachBack` | apps/api/src/common/time/sao-paulo-day.ts:20-38 | days that partition time reach back: every instant of a day lies in the day computed from it, which begins no later |
| `ZonedDay.FixedDaysPartitionTime` | apps/api/src/common/time/sao-paulo-day.ts:20-38 | with a fixed offset days partition time and last 24 hours |
| `ZonedDay.SkippedMidnight` | apps/api/src/common/time/sao-paulo-day.ts:20-69 | a zone that moves from three to two hours behind at local midnight: the last hour of the date lies in the next computed day |
| `RoutedGroupsCache.RoutedGroupsCacheService.Invalidate` | apps/api/src/whatsapp/messages/routed-groups-cache.service.ts:29-32 | drops the entry and opens a new generation |
| `RoutedGroupsCache.RoutedGroupsCacheService.GetSourceGroupJids` | apps/api/src/whatsapp/messages/routed-groups-cache.service.ts:34-49 | a lookup up to its await: hit, join, or start a load |
| `RoutedGroupsCache.RoutedGroupsCacheService.FinishLoad` | apps/api/src/whatsapp/messages/routed-groups-cache.service.ts:74-85 | a returned load installs its entry in its own generation only |
| `RoutedGroupsCache.RoutedGroupsCacheService.ForgetLoad` | apps/api/src/whatsapp/messages/routed-groups-cache.service.ts:53-57 | the pending load is removed only by its own lookup |
| `CacheRuns.LookupsSeeInvalidations` | apps/api/src/whatsapp/messages/routed-groups-cache.service.ts:23-85 | under every interleaving a lookup answers from a table version no older than the latest invalidation before it began |
| `CacheRuns.OldLoadsInstallNothing` | apps/api/src/whatsapp/messages/routed-groups-cache.service.ts:78-83 | in every state of a run each entry is what a load of the session's current generation returned |
| `CacheRuns.HitsAreYoungAndValid` | apps/api/src/whatsapp/messages/routed-groups-cache.service.ts:29-85 | over every run a lookup is answered at once, with what the load saw, if and only if the latest load returned for the session came less than fifteen seconds ago and nothing has invalidated the session since |
| `CacheRuns.AtMostOneLoadPerGeneration` | apps/api/src/whatsapp/messages/routed-groups-cache.service.ts:41-57 | at most one load is in flight per session and generation |
| `CacheRuns.EntriesMatchTheTable` | apps/api/src/modules/routes/message-routes.service.ts:141-313 | over a run every entry, of a session without a mutation between its commit and its invalidation, equals the active sources of the table, now and after any load that has read the table returns, if and only if every step is harmless, as it is while no update is overtaken |
| `CacheRuns.CoherentIffMatches` | apps/api/src/whatsapp/messages/routed-groups-cache.service.ts:74-85 | the step-wise notion of coherence, on entries and loads, means exactly that entries match now and after any such load returns |
| `CacheRuns.StepKeepsCoherentIffHarmless` | apps/api/src/modules/routes/message-routes.service.ts:209-295 | the same for one step of any kind |
| `CacheRuns.OvertakenCommitsLeaveStaleEntries` | apps/api/src/modules/routes/message-routes.service.ts:209-295 | a run of nine steps with two updates of one route that ends with a stale entry and no mutation under way |
| `CacheOutcomes.LookupsJoinRunningLoads` | apps/api/src/whatsapp/messages/routed-groups-cache.service.ts:41-57 | over every run, a lookup that is not answered at once joins the load its session began last if and only if that load has not been forgotten, nor the session invalidated, since; otherwise it begins its own |
| `CacheOutcomes.LookupLeaves` | apps/api/src/whatsapp/messages/routed-groups-cache.service.ts:34-59 | what a hit, a join and a miss leave: nothing, a waiting lookup, or a new load of the current generation |
| `CacheOutcomes.LoadsAnswerTheirLookups` | apps/api/src/whatsapp/messages/routed-groups-cache.service.ts:60-85 | a load sees exactly the sources of the active routes of its session, and the lookups that wait for it are answered with them, or fail with it |
| `RouteMutations.CreateIsAMutation` | apps/api/src/modules/routes/message-routes.service.ts:118-165 | a successful creation is one commit and one invalidation of the cache runs |
| `RouteMutations.UpdateIsAMutation` | apps/api/src/modules/routes/message-routes.service.ts:209-298 | a successful update nothing overtakes is a commit, and the invalidations of its outcome |
| `RouteMutations.DeletionIsAMutation` | apps/api/src/modules/routes/message-routes.service.ts:300-313 | and so is a deletion |
| `MessageRoutes.MessageRoutesService.Create` | apps/api/src/modules/routes/message-routes.service.ts:93-178 | table, result and invalidations of creating or reactivating a route, with every refusal |
| `MessageRoutes.MessageRoutesService.Update` | apps/api/src/modules/routes/message-routes.service.ts:204-298 | the same for an update, which invalidates the previous and the new session |
| `MessageRoutes.MessageRoutesService.SoftDelete` | apps/api/src/modules/routes/message-routes.service.ts:300-313 | the same for a deletion |
| `MessageRoutes.RunsStayWithinPlan` | apps/api/src/modules/plans/plan-limits.service.ts:168-241 | over every sequence of calls the distinct active source and destination groups of every user stay within the plan, keys stay unique and no route feeds its own source |
| `MessageRoutes.CreateUndoesSoftDelete` | apps/api/src/modules/routes/message-routes.service.ts:118-153 | deleting a route and creating it again restores the same table and id |
| `RouteOutcomes.AdmissionIff` | apps/api/src/modules/plans/plan-limits.service.ts:168-241 | a route is admitted if and only if its user exists and, with it, the distinct active sources and destinations stay within 3 and 1, 10 and 5, or any number |
| `RouteOutcomes.CreateRefusals` | apps/api/src/modules/routes/message-routes.service.ts:93-150 | a creation is refused exactly for the first of its faults, an active row with the key, a missing user or the plan, and changes nothing then |
| `RouteOutcomes.CreateLeaves` | apps/api/src/modules/routes/message-routes.service.ts:118-178 | a successful creation makes the inactive row with the key active, with its link unless one is given, or adds the wanted row, trimmed and active, and invalidates its session |
| `RouteOutcomes.UpdateRefusals` | apps/api/src/modules/routes/message-routes.service.ts:204-295 | an update succeeds exactly if none of ten reasons stands against it, the first counting; a refused one changes nothing |
| `RouteOutcomes.UpdateLeaves` | apps/api/src/modules/routes/message-routes.service.ts:209-298 | a successful update leaves each given field trimmed, a blank link counting as not given, the others as they were, no other row changed, and invalidates the old and a new session |
| `RouteOutcomes.LinksAreNeverCleared` | apps/api/src/modules/routes/message-routes.service.ts:227-278 | over any calls, a row that once had an invite link has one ever after |
| `RouteOutcomes.DeletionLeaves` | apps/api/src/modules/routes/message-routes.service.ts:300-313 | a deletion of a route that is found makes it inactive, nothing else |
| `RouteOutcomes.TrimCutsSpaces` | apps/api/src/modules/routes/message-routes.service.ts:523-534 | trimming cuts the white space off both ends, all of it and nothing else |
| `RouteOutcomes.SpacesAre` | apps/api/src/modules/routes/message-routes.service.ts:523-534 | white space is exactly the twenty-five characters of ECMAScript |
| `Forwarding.MessageForwardingService.ForwardMessageById` | apps/api/src/modules/routes/message-forwarding.service.ts:69-563 | rows, sends and response or exception of one call |
| `Forwarding.MessageForwardingService.ForwardToRoutes` | apps/api/src/modules/routes/message-forwarding.service.ts:359-560 | the route loop |
| `Forwarding.MessageForwardingService.PersistSkippedForRoutes` | apps/api/src/modules/routes/message-forwarding.service.ts:587-630 | one SKIPPED row and result per route |
| `Forwarding.EveryRouteIsAccountedFor` | apps/api/src/modules/routes/message-forwarding.service.ts:359-585 | a call that reaches the loop leaves one row and one result per route in order; sent + failed + skipped is the number of routes, and sent + failed the number of sends |
| `Forwarding.SentMessagesAreNeverSentAgain` | apps/api/src/modules/routes/message-forwarding.service.ts:425-462 | after a SENT row no later call sends the message to that destination |
| `Forwarding.DailyQuotaIsNeverExceeded` | apps/api/src/modules/plans/plan-limits.service.ts:123-152 | in a zone whose days reach back, as they do when days partition time, no day of a user counts more forwards than the plan allows, even when a send crosses midnight |
| `Forwarding.FreeUsersStayUnderOneHundredIff` | apps/api/src/modules/plans/plan-limits.service.ts:42-49 | the hundred of the FREE plan holds over every run of calls if and only if the days of the zone reach back |
| `ForwardingOutcomes.RouteLeaves` | apps/api/src/modules/routes/message-forwarding.service.ts:361-558 | the row one route leaves: skipped at the quota, skipped as a duplicate, FAILED with SEND_FAILED and no time if the send throws, otherwise the provider's status, reason and time; it is sent in the last two cases only |
| `ForwardingOutcomes.FailedSendsCanBeRepeated` | apps/api/src/modules/routes/message-forwarding.service.ts:425-558 | a send that throws leaves every message as sent or unsent as it was |
| `ForwardingOutcomes.RowOfEachRoute` | apps/api/src/modules/routes/message-forwarding.service.ts:359-560 | after the loop every route has that row, on what the routes before it left |
| `ForwardingOutcomes.CountsAreSends` | apps/api/src/modules/routes/message-forwarding.service.ts:562-585 | the failed count is the number of sends that threw, the sent count that of the sends the provider took |
| `ForwardingOutcomes.RefusedCallsSkipAll` | apps/api/src/modules/routes/message-forwarding.service.ts:587-630 | a call over the quota, or refused by the affiliate rewrite, sends nothing and leaves and reports one SKIPPED row per route with its reason |
| `ForwardingOutcomes.DisconnectedSessionsSkipAll` | apps/api/src/modules/routes/message-forwarding.service.ts:335-350 | so does a disconnected session, but the call throws |
| `ForwardingOutcomes.ConnectedSessionsForward` | apps/api/src/modules/routes/message-forwarding.service.ts:318-359 | with a connected session, and nothing against the call before it, the routes are forwarded |
| `ForwardingOutcomes.ExceptionsBeforeTheLoop` | apps/api/src/modules/routes/message-forwarding.service.ts:69-357 | a rewriter that throws, a missing session and a missing socket write nothing |
| `ForwardingOutcomes.NothingToDo` | apps/api/src/modules/routes/message-forwarding.service.ts:69-130 | what a call answers for blank ids, a missing message or user, no links and no routes; it never writes or sends |
| `ForwardingOutcomes.CountIsCountedRows` | apps/api/src/modules/plans/plan-limits.service.ts:123-152 | the quota counts the rows of the user with a plain or text send inside the day |
| `WorkerLease.WorkerLeaseService.AcquireSessionLease` | apps/api/src/modules/workers/worker-lease.service.ts:22-67 | the conditional update that takes a free, expired or own lease |
| `WorkerLease.WorkerLeaseService.RenewSessionLease` | apps/api/src/modules/workers/worker-lease.service.ts:69-101 | extends the lease of the token's holder only |
| `WorkerLease.WorkerLeaseService.ReleaseSessionLease` | apps/api/src/modules/workers/worker-lease.service.ts:103-134 | clears the lease of the token's holder only |
| `WorkerLease.WorkerLeaseService.AssertLeaseOwner` | apps/api/src/modules/workers/worker-lease.service.ts:136-160 | true exactly for the unexpired token in an undeleted row |
| `WorkerLease.DeadTokensStayPowerless` | apps/api/src/modules/workers/worker-lease.service.ts:69-160 | a token once overwritten or released never passes renew, release or assert again, and such calls change nothing |
| `WorkerLease.TokensDieOnReleaseAndOverwrite` | apps/api/src/modules/workers/worker-lease.service.ts:29-125 | those are the only two ways a token dies |
| `WorkerLease.OwnershipWasUninterrupted` | apps/api/src/modules/workers/worker-lease.service.ts:136-160 | a token that passes the owner check was in the row throughout |
| `WorkerLease.RenewingHolderKeepsTheSession` | apps/api/src/modules/workers/worker-lease.service.ts:29-93 | a holder whose renewals are less than a lease apart is never displaced by a different worker |
| `WorkerLease.AbandonedLeasesAreTakenOver` | apps/api/src/modules/workers/worker-lease.service.ts:29-93 | after any run in which nobody took or renewed the lease within its length, whoever asks gets it and is the only owner for exactly one lease length |
| `WorkerLease.NothingIsLeasedAfterDeletion` | apps/api/src/modules/workers/worker-lease.service.ts:29-160 | after deletion no acquire, renewal or owner check succeeds |
| `WorkerLease.ReleaseFreesTheSession` | apps/api/src/modules/workers/worker-lease.service.ts:103-134 | after the owner's release no token is owned and every worker can acquire, at any time |
| `WorkerLease.AcquireLeaves` | apps/api/src/modules/workers/worker-lease.service.ts:22-67 | an undeleted row without a worker or an end, past its end or of the worker itself is taken for one lease length; any other stays as it is |
| `WorkerLease.RenewalLeaves` | apps/api/src/modules/workers/worker-lease.service.ts:69-101 | only the end and the heartbeat of the holder's undeleted row change |
| `WorkerLease.ReleaseLeaves` | apps/api/src/modules/workers/worker-lease.service.ts:103-134 | the four lease fields of the holder's row are cleared, deleted or not |
| `WorkerLease.PlausibleIff` | apps/api/src/modules/workers/worker-lease.service.ts:162-164 | the tokens the guard lets pass are exactly the hexadecimal texts of 32 bytes that an acquisition draws |
| `SessionManager.WhatsAppSessionManager.StartRuntime` | apps/api/src/whatsapp/session/whatsapp-session.manager.ts:329-346 | joins a pending start, reuses a running socket, or boots |
| `SessionManager.WhatsAppSessionManager.InstallSocket` | apps/api/src/whatsapp/session/whatsapp-session.manager.ts:395-404 | a boot installs its socket and its listener |
| `SessionManager.WhatsAppSessionManager.RegisterMessageListener` | apps/api/src/whatsapp/session/whatsapp-session.manager.ts:523-554 | registers once, on the current socket of the session |
| `SessionManager.WhatsAppSessionManager.FinishStart` | apps/api/src/whatsapp/session/whatsapp-session.manager.ts:348-352 | the `finally` of a start |
| `SessionManager.AtMostOneBootAndOneListener` | apps/api/src/whatsapp/session/whatsapp-session.manager.ts:329-554 | under every interleaving: one boot in flight per session, no installation over an existing entry, at most one message listener per socket |
| `SessionManager.InstalledSocketsListen` | apps/api/src/whatsapp/session/whatsapp-session.manager.ts:395-401 | every current socket carries its one listener |
| `SessionManager.StartRecordsItsBoot` | apps/api/src/whatsapp/session/whatsapp-session.manager.ts:329-352 | in a run a start that finds neither a pending one nor a socket records one boot under a new name and makes it pending |
| `SessionManager.OtherStartsRecordNothing` | apps/api/src/whatsapp/session/whatsapp-session.manager.ts:329-340 | a start that finds a pending one changes nothing, one that finds a socket adds its missing listener and nothing else |
| `SessionManager.StartsJoinUntilTheFinally` | apps/api/src/whatsapp/session/whatsapp-session.manager.ts:329-352 | under every interleaving, until the `finally` of a start its boot is the one every other start of the session joins |
| `SessionManager.FailedBootsLeaveNoTrace` | apps/api/src/whatsapp/session/whatsapp-session.manager.ts:329-352 | a boot that fails before its socket leaves the manager as it was, so that the next start boots again |
| `SessionManager.InstallLeaves` | apps/api/src/whatsapp/session/whatsapp-session.manager.ts:395-404 | the installed socket is the session's, with its token and one listener, and nothing else changes |
| `SessionManager.DropLeaves` | apps/api/src/whatsapp/session/whatsapp-session.manager.ts:568 | a dropped session is gone, and no other |
| `SessionManager.RegistrationLeaves` | apps/api/src/whatsapp/session/whatsapp-session.manager.ts:523-554 | exactly a registration on the current socket of a session without a listener adds one |
| `Referrals.ReferralsService.ProcessEligible` | apps/api/src/modules/referrals/referrals.service.ts:94-154 | for every order of the candidates, the same final referrals and the same count |
| `Referrals.ReferralsService.ReadAntifraudReason` | apps/api/src/modules/referrals/referrals.service.ts:318-371 | the reason read from live rows in mid-loop is the reason on the database before the job |
| `Referrals.ReferralsService.ConfirmPayment` | apps/api/src/modules/referrals/referrals.service.ts:62-92 | starts the waiting period unless rewarded or already confirmed |
| `Referrals.ReferralsService.ResetWaitingPeriod` | apps/api/src/modules/referrals/referrals.service.ts:156-170 | sends a waiting referral back to PENDING_PAYMENT |
| `Referrals.ReferralsService.MarkPaid` | apps/api/src/modules/referrals/referrals.service.ts:214-242 | only ELIGIBLE referrals are paid |
| `Referrals.ReferralsService.Reject` | apps/api/src/modules/referrals/referrals.service.ts:244-269 | every referral but a paid one can be rejected |
| `Referrals.JobKeepsRewardsUnique` | apps/api/src/modules/referrals/referrals.service.ts:357-370 | the job never rewards two referrals with one document |
| `Referrals.JobIsIdempotent` | apps/api/src/modules/referrals/referrals.service.ts:94-154 | a second run at the same time decides nothing and changes nothing |
| `Referrals.LiveQueryAgrees` | apps/api/src/modules/referrals/referrals.service.ts:361-370 | decisions made earlier in the batch cannot change a later one whose document nobody shares |
| `BillingService.BillingService.HandleAsaasWebhook` | apps/api/src/modules/billing/billing.service.ts:292-450 | token check, payload check, duplicate check and the whole effect of a webhook |
| `BillingService.BillingService.RunTransaction` | apps/api/src/modules/billing/billing.service.ts:347-414 | the two updates of the transaction |
| `BillingService.BillingService.FollowReferral` | apps/api/src/modules/billing/billing.service.ts:416-434 | document hash, confirmation and reset after the transaction |
| `BillingService.BillingService.BeginCheckout` | apps/api/src/modules/billing/billing.service.ts:174-227 | refusals, or hash and PENDING row |
| `BillingService.BillingService.FinishCheckout` | apps/api/src/modules/billing/billing.service.ts:247-267 | writes the provider's ids; the user becomes PENDING unless it was read ACTIVE |
| `BillingService.BillingService.FailCheckout` | apps/api/src/modules/billing/billing.service.ts:280-289 | cancels the row |
| `BillingService.BillingService.Cancel` | apps/api/src/modules/billing/billing.service.ts:452-522 | every outcome of a cancellation, the provider's refusal included |
| `BillingService.BillingService.ExpireCanceledSubscription` | apps/api/src/modules/billing/billing.service.ts:823-855 | ends the newest canceled subscription whose period is over |
| `BillingService.BillingService.Me` | apps/api/src/modules/billing/billing.service.ts:128-156 | expires, then shows plan, status and the newest subscription |
| `BillingService.AuthService.Register` | apps/api/src/modules/auth/auth.service.ts:53-84 | a FREE user and, with a foreign code, its referral |
| `BillingService.AuthService.Me` | apps/api/src/modules/auth/auth.service.ts:129-206 | expires in the same way, then shows an active user |
| `BillingRuns.ReachableBilling` | apps/api/src/modules/billing/billing.service.ts:364-414 | in every reachable state ACTIVE means a thirty-day period, no cancellation date and no scheduled cancellation; a paid plan means ACTIVE or PENDING |
| `BillingRuns.CancelAlwaysSchedules` | apps/api/src/modules/billing/billing.service.ts:481-498 | the missing-period error and the already-scheduled answer are unreachable |
| `BillingRuns.ReachableReferrals` | apps/api/src/modules/referrals/referrals.service.ts:62-92 | a waiting referral has its payment time, the exact end, a consistent link and a document hash; NEEDS_REVIEW only ever means a duplicate document |
| `ReferralWaits.PromotionFollowsAFullWait` | apps/api/src/modules/referrals/referrals.service.ts:94-154 | only the job's write promotes; at its selection the referred user was enabled and ACTIVE, and the referral had waited in full since a confirmation that no reset followed, and up to the write no reset followed if and only if none fell in between |
| `ReferralWaits.ResetIsOverwritten` | apps/api/src/modules/referrals/referrals.service.ts:134-148 | for every waiting period a run in which a reset falls in between and the referral becomes ELIGIBLE nevertheless |
| `ReferralWaits.WaitsBegan` | apps/api/src/modules/referrals/referrals.service.ts:62-92 | every running wait began with the confirmation it dates from, and no reset followed |
| `ReferralWaits.UninterruptedJobIsOneStep` | apps/api/src/modules/referrals/referrals.service.ts:94-154 | selection, checks and writes without interruption give, in any order of the candidates, the job as one step |
| `BillingRuns.VerdictsAreDuplicates` | apps/api/src/modules/referrals/referrals.service.ts:332-370 | whatever happens after its selection, the job can only object to a shared document |
| `ReferralWaits.DeliveryOnReferrals` | apps/api/src/modules/billing/billing.service.ts:416-434 | a delivery, wherever it stops, confirms one referral, resets one, or leaves all as they were |
| `ReferralWaits.DecisionsLastIff` | apps/api/src/modules/referrals/referrals.service.ts:72-148 | over a run a PAID or REJECTED referral keeps its status if and only if no verdict on it is written and, for REJECTED, no payment is confirmed while it has no payment time |
| `ReferralWaits.PayoutIsTakenBack` | apps/api/src/modules/referrals/referrals.service.ts:94-148 | for every waiting period a run with two overlapping jobs in which a referral paid out becomes ELIGIBLE again |
| `ReferralOutcomes.JobRewardsSubscribers` | apps/api/src/modules/referrals/referrals.service.ts:94-154 | a due referral of an enabled ACTIVE user becomes ELIGIBLE if nothing stands against it, NEEDS_REVIEW with the reason otherwise |
| `ReferralOutcomes.JobChangesOnlySubscribers` | apps/api/src/modules/referrals/referrals.service.ts:127-132 | whatever the job changes belongs to an enabled ACTIVE user and was due |
| `ReferralOutcomes.VerdictIsObjection` | apps/api/src/modules/referrals/referrals.service.ts:318-371 | the first of the five objections, and the shared document as the sixth, read from the selection and from the live table as the code reads them |
| `ReferralOutcomes.PayoutNeedsEligible` | apps/api/src/modules/referrals/referrals.service.ts:214-242 | a payout changes the status of an ELIGIBLE referral, and nothing otherwise |
| `ReferralOutcomes.RejectionSparesPaid` | apps/api/src/modules/referrals/referrals.service.ts:244-269 | a rejection changes the status of anything unpaid, and nothing otherwise |
| `BillingOrder.DeliveryOrderDoesNotMatter` | apps/api/src/modules/billing/billing.service.ts:777-799 | after activations in any order, at any times, with any repeats, the user is on the plan of the newest ACTIVE subscription |
| `BillingOrder.ProtectionMeansNewer` | apps/api/src/modules/billing/billing.service.ts:777-799 | with consistent provider ids the user is protected exactly by a newer ACTIVE subscription |
| `BillingOrder.GenuineResolves` | apps/api/src/modules/billing/billing.service.ts:524-564 | a webhook with the ids of a row, and its reference if the row has no provider id yet, resolves to that row |
| `BillingRetry.RepeatsCanBeDeleted` | apps/api/src/modules/billing/billing.service.ts:300-325 | a repeat of a processed event can be taken out of any sequence of deliveries |
| `BillingRetry.RedeliveryResolvesToTheSameRow` | apps/api/src/modules/billing/billing.service.ts:524-564 | a webhook still resolves to the row its transaction wrote |
| `BillingRetry.RetryAfterCrash` | apps/api/src/modules/billing/billing.service.ts:347-439 | a crash before `processedAt` and a redelivery give the state of one delivery if and only if the second check does not move the user |
| `BillingRetry.RetryIsHarmlessWithoutNewerActive` | apps/api/src/modules/billing/billing.service.ts:347-439 | which is so when the user has no newer ACTIVE subscription |
| `BillingRetry.RetryAfterTransaction` | apps/api/src/modules/billing/billing.service.ts:364-439 | after a crash behind the transaction, before or after the write of the document hash, the redelivery finishes the job |
| `BillingRetry.RetryAfterProcessed` | apps/api/src/modules/billing/billing.service.ts:436-443 | a crash behind `processedAt` leaves only the end of a deleted subscription to notice |
| `BillingRetry.RetryCanMoveTheUser` | apps/api/src/modules/billing/billing.service.ts:780-796 | a reachable database where one delivery leaves the user on PRO, and crash and redelivery on the older BASIC |
| `BillingPeriods.PaidTimeIsExact` | apps/api/src/modules/billing/billing.service.ts:801-821 | after n payments, each confirmed once and followed by any number of activating events of the same payment, the paid time ends at the maximum of tk + 30 days for each payment from the k-th on |
| `BillingPeriods.OnePaymentGrantsOnePeriod` | apps/api/src/modules/billing/billing.service.ts:352-361 | any number of activating events of one payment grant one period |
| `BillingAccess.CanceledAccessLastsToTheEnd` | apps/api/src/modules/billing/billing.service.ts:348-351 | after a cancellation, when no other subscription of the user is scheduled to end earlier or reported deleted, every read before the end of the period shows the plan, every read from the end on shows FREE, CANCELED |
| `BillingAccess.CanceledAccessLastsIff` | apps/api/src/modules/billing/billing.service.ts:452-522 | so it is for whatever reads and reports follow if and only if no other subscription of the user is scheduled to end earlier |
| `BillingAccess.ExpiryIgnoresOtherSubscriptions` | apps/api/src/modules/billing/billing.service.ts:823-855 | noticing the end leaves the user alone if and only if nothing is due or the user is FREE, CANCELED already |
| `BillingAccess.OldExpiryEndsNewerPlan` | apps/api/src/modules/billing/billing.service.ts:823-855 | a reachable user who canceled BASIC and bought PRO is set to FREE at the end of BASIC while PRO is ACTIVE |
| `BillingAccess.DeletionWinds` | apps/api/src/modules/billing/billing.service.ts:386-411 | a deletion report on the canceled row or on other users' rows neither shortens nor prolongs the access |
| `BillingOutcomes.FindsIff` | apps/api/src/modules/billing/billing.service.ts:524-564 | a webhook finds the newest row with its subscription id, otherwise the newest with its payment id, otherwise its reference |
| `BillingOutcomes.TakenBackPaymentsEndAccess` | apps/api/src/modules/billing/billing.service.ts:90-99 | each of the eight events that take a payment back leaves the row CANCELED now, the user, unless a newer ACTIVE subscription holds, FREE and CANCELED, and a waiting referral back before its payment |
| `BillingOutcomes.OverduePaymentsSuspend` | apps/api/src/modules/billing/billing.service.ts:347-434 | an overdue payment leaves row and user PAST_DUE, the user on FREE, and the referral likewise |
| `BillingOutcomes.RiskAnalysisOnlyWaits` | apps/api/src/modules/billing/billing.service.ts:347-434 | a risk analysis leaves row and user PENDING, and plan and referral as they were |
| `BillingOutcomes.ReceivedPaymentsActivate` | apps/api/src/modules/billing/billing.service.ts:347-434 | a received payment puts the user on the plan for thirty days from now, unless the row is ACTIVE on it already |
| `BillingOutcomes.ConfirmedPaymentsActivate` | apps/api/src/modules/billing/billing.service.ts:347-434 | a confirmed one adds thirty days to a running period, stores the document hash and begins the referral's wait |
| `BillingOutcomes.DeletionInPeriodSchedules` | apps/api/src/modules/billing/billing.service.ts:348-443 | a deletion report inside the period cancels the row for its end and leaves the user ACTIVE on the plan |
| `BillingOutcomes.DeletionBehindPeriodEnds` | apps/api/src/modules/billing/billing.service.ts:348-443 | one behind the period, or without one, ends plan and wait at once |
| `BillingOutcomes.OtherEventsOnlyProcess` | apps/api/src/modules/billing/billing.service.ts:336-345 | other kinds of events are marked processed and have no effect |
| `BillingOutcomes.UnknownAndRepeatedEvents` | apps/api/src/modules/billing/billing.service.ts:298-334 | an event about no row is stored and can come again; a processed one changes nothing |
| `BillingOutcomes.EffectsAreReported` | apps/api/src/modules/billing/billing.service.ts:436-449 | every event with an effect is answered as processed |
| `BillingOutcomes.ExpiryClosesTheNewestDue` | apps/api/src/modules/billing/billing.service.ts:823-855 | the newest due row is closed with its first cancellation date, and the user is FREE, CANCELED; without one nothing happens |
| `BillingOutcomes.CancelSchedulesIff` | apps/api/src/modules/billing/billing.service.ts:452-522 | a cancellation schedules a row if and only if nothing is due, the user is ACTIVE on BASIC or PRO, and the row is the newest ACTIVE one the provider knows, with a period and not scheduled |
| `BillingOutcomes.CancelRefusals` | apps/api/src/modules/billing/billing.service.ts:459-498 | when each of the four other answers is given |
| `BillingOutcomes.CancellationKeepsAccess` | apps/api/src/modules/billing/billing.service.ts:500-522 | a scheduled cancellation changes three fields of the row, and nothing of the user |
| `BillingOutcomes.CheckoutRefusals` | apps/api/src/modules/billing/billing.service.ts:174-198 | which of the four refusals a checkout meets, for every input |
| `BillingOutcomes.CheckoutLeaves` | apps/api/src/modules/billing/billing.service.ts:198-267 | a checkout adds one PENDING row with the provider's ids; only a user who was not ACTIVE becomes PENDING |
| `BillingOutcomes.LateAnswersLeave` | apps/api/src/modules/billing/billing.service.ts:247-267 | an answer keeps ids a webhook stored meanwhile and follows the user status read before the call |
| `BillingOutcomes.FailedCheckoutLeaves` | apps/api/src/modules/billing/billing.service.ts:280-289 | a failed one leaves a CANCELED row and the document |
| `BillingOutcomes.RegistrationLeaves` | apps/api/src/modules/auth/auth.service.ts:53-84 | a registration adds a FREE user without a status and, with somebody's code, a referral that waits for a payment |

## Left out

- Rate limiting through Redis, and its clock.
- Parsing: `JSON.parse` of the slice, the Asaas payload, cheerio and regular-expression mining of pages.
- Calendar arithmetic of `Date` and the time zone tables of `Intl`: a date is a day number, a zone an offset function.
- Document check digits, hashing and masking; a document is its hash.
- Payment method, prices, checkout links and provider customer ids.
- Interleaving inside a webhook, a checkout's first half, an expiry, and the read and write of an administrator's payout or rejection: each is one step that may stop but does not mix with others.
- BillingService.BillingService.HandleAsaasWebhook: one clock reading serves the whole delivery, where the code reads the clock at each use; a delivery is not interleaved with other operations.
- Failures of the database itself, other than a process that stops.
- Several processes sharing one routed-groups cache: the cache is per process, and mutations elsewhere only show after the time to live.
- Route calls that overlap in the plan check, and forwards that overlap in the quota or duplicate check: the checks are not atomic with the writes.
- Texts, media, invites and provider message ids of forwarded messages.
- Session rows beyond the lease, QR codes, the auth store and the socket's own events; handlers appear as arbitrary registrations and removals.
- Worker registration, heartbeats and session counts.
- Administrator edits of users, notes of referrals, dashboards and listings.
- Referrals.ReferralsService.ProcessEligible: is one uninterrupted call; what an interruption can change is said by the rows of `ReferralWaits`.
- Referrals.JobKeepsRewardsUnique: is about a job nothing interrupts; a document that changes, or a second job, between check and write is outside it.
