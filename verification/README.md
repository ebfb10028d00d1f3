# Verified model of the gateway's concurrent, billing and reconciliation logic

This project models, in Dafny, the parts of the API gateway whose correctness is hardest to see from
one function at a time, and proves what they keep over every input, every run or every interleaving.

- **Order lock and top-up orders** (`OrderLock`, `OrderLockSafety`, `OrderCredit`, `OrderRuns`): the map
  of reference-counted mutexes and all writers of top-up orders, those under the lock and those without
  it, are a state machine with one atomic step per access to shared state, for any number of threads.
  Database and gateway results are inputs of the steps.
- **Billing session** (`Billing`): reserve, settle and refund, in the strict form (one ledger
  transaction each) and the normal form (separate writes, asynchronous refund), as a class and as a
  state machine in which refunds, settlements and other requests interleave.
- **Relay** (`Routing`, `Relay`, `TaskRelay`): the retry loop, the channel selection loop inside it and the
  deferred refund; the same for task submissions.
- **Request bodies** (`BodyStorage`, `BodyCache`): memory and file storage against one abstract
  seekable reader, the choice between them, and the usage counters.
- **Rate limiter** (`RateLimit`): the in-memory sliding window with its background eviction, refining
  a limiter that remembers everything.
- **Upstream model update** (`ModelNames`, `UpstreamUpdate`): detection, applying a selection, and when
  detecting again finds nothing.
- **Multi-key channels** (`MultiKey`): key list and index-keyed maps as one list of rows.
- **Price synchronisation** (`RatioDiff`, `ModelsDev`): the difference table and its pruning pass, and
  the choice of one price per model.
- **Opus scanner** (`OpusScan`): the page walk over an Ogg container.

Clocks, randomness, upstream answers, channel selection and the success of every database or file
call are parameters, so each theorem holds for all of them.

## What does not hold

Some promises are false of the code. For each there is a concrete run or input and the exact condition.

- An order can be credited twice. A WeChat payment revives failed orders, and a Waffo failure notice or a
  refused checkout holds a pending row without the order lock and fails it after it was paid; a second
  notice of the payment credits again (`OrderRuns.TwiceCredited`, `OrderRuns.AtMostOnceIff`).
- A credited order can end as failed by the same unlocked writes (`OrderRuns.FailedThoughCredited`,
  `OrderRuns.FailedIsUncreditedIff`), or as expired, because the expiry handler logs a wrong status and
  writes anyway (`OrderRuns.ExpiredThoughCredited`, `OrderRuns.StatusAlwaysShowsIff`).
- A relay that reports success need not have settled: realtime relays ask for no settlement, and a
  refused one is only logged. The reservation then stays charged (`Relay.RealtimeKeepsReservation`,
  `Relay.RefusedSettlementKeepsReservation`, `Relay.ReservationResolvedIff`). A negative number of retries
  skips the loop with the same result (`Relay.NegativeRetriesKeepReservation`).
- A task submission that panics after reserving leaves its reservation neither settled nor refunded,
  unless an earlier submission had failed (`TaskRelay.StrandedAtInput`, `TaskRelay.StrandedIff`); with a
  negative number of retries the missing result is dereferenced (`TaskRelay.LoopIsJustified`).
- A normal settlement whose token write fails is marked settled, and the token stays charged the reservation
  (`Billing.TokenStaysCharged`, `Billing.TokenIsChargedIff`).
- A normal settlement does not look at the refund flag; beside a refund that is done or due it charges the
  difference only (`Billing.LateSettlementUndercharges`, `Billing.PendingRefundUndercharges`,
  `Billing.SettlementIsExactIff`). The relay never calls it in that order.
- A strict refund leaves the session's lock before its transaction, so a settlement that starts and fails in
  between does not keep the reservation charged (`Billing.DueRefundReleasesFailedSettlement`,
  `Billing.FailedSettlementStaysChargedIff`).
- The rate limiter with its background eviction is exact only if no window exceeds the expiration time by more
  than a second (`RateLimit.OverfilledAfterSweep`, `RateLimit.ExactIffWindowsFit`).
- Detecting again after applying everything finds something if a name contains a comma or is itself an
  ignore rule (`UpstreamUpdate.CommaIsFoundAgain`, `UpstreamUpdate.RuleIsDroppedAtInput`,
  `UpstreamUpdate.FixpointIff`).
- Deleting the automatically disabled keys of a channel that has no others deletes none and enables all,
  because the save skips the empty key column (`MultiKey.PurgeShowsFilteredIff`).
- The pruning pass can delete a row that was included, if an upstream sends null or the text "same"
  (`RatioDiff.HiddenRowIsPruned`, `RatioDiff.RowKeptIff`).
- A zero-length read at the end is end-of-file in memory and nothing on disk
  (`BodyStorage.SameAnswersIff`).
- The disk limit is checked before a file is counted, so overlapping creations can exceed it, k of them by
  a factor of k (`BodyCache.OverlappingCreationsExceed`, `BodyCache.DiskUsageIsBounded`), and so can a body
  longer than it declared (`BodyCache.OverlongBodyExceeds`, `BodyCache.StreamsKeepBoundIff`).

## Model

| member | source | states |
|---|---|---|
| OrderLockSafety.KeepLockInv | controller/topup.go:234-273 | every step of every thread keeps the invariant: each mutex's count is the number of threads registered on it, its lock bit is whether one holds it, and each entry is needed |
| OrderLockSafety.InitialLockInv | controller/topup.go:234-241 | the invariant holds at the start, for any threads and jobs |
| OrderLockSafety.LockInvHoldsAfterEveryRun | controller/topup.go:244-273 | so it holds after every interleaving |
| OrderLockSafety.MutualExclusion | controller/topup.go:244-273 | two threads in the critical section of one trade number are the same thread |
| OrderLockSafety.MutualExclusionInEveryRun | controller/topup.go:244-273 | from any start, in every interleaving: mutual exclusion, and no mutex is unlocked while not locked |
| OrderLockSafety.UnlockFindsOwnMutex | controller/topup.go:259-265 | the unlocking thread reads the map without the create-lock and still finds the very mutex it locked |
| OrderLockSafety.EntryExistsIffRegistered | controller/topup.go:244-273 | while the create-lock is free, an entry exists exactly when a thread is registered on it, with that many references |
| OrderLockSafety.SomeThreadCanStep | controller/topup.go:244-273 | no deadlock: if a thread is unfinished, some thread can step |
| OrderLockSafety.EveryRunIsBounded | controller/topup.go:244-273 | no livelock: a run is no longer than the work it starts with |
| OrderLockSafety.EveryMaximalRunFinishes | controller/topup.go:244-273 | a run that cannot go on has finished every job and emptied the lock map |
| OrderLockSafety.NothingLeftBehind | controller/topup.go:266-272 | when all threads are done nothing is locked or counted |
| OrderCredit.KeepThreadsOk | controller/topup_stripe.go:220-330 | every step keeps each handler on its path and each row to be written back of the stored payment method |
| OrderCredit.KeepOnce | model/topup.go:446-510 | every database step keeps the credits at one unless a WeChat payment and an unlocked failure write are both queued |
| OrderCredit.OnceInEveryRun | model/topup.go:73-510 | so in every interleaving of all writers of top-up orders |
| OrderCredit.KeepQuiet | controller/topup_stripe.go:229-252 | a delayed failure is written before any credit, by mutual exclusion, whatever the other threads do |
| OrderCredit.QuietInEveryRun | controller/topup_waffo.go:340-358 | a failed order was never credited, in every interleaving without an unlocked failure write beside a payment |
| OrderCredit.ShownInEveryRun | controller/topup_stripe.go:289-330 | success and credit coincide, in every interleaving without such a write or an expiry beside a payment |
| OrderCredit.PaymentsAreConsistent | model/topup.go:73-649 | from any start state and over every run: the three results by the handlers queued for the order |
| OrderCredit.SubscriptionsAreNotCredited | model/subscription.go:509-629 | in every run a subscription order has a row exactly once it is completed, and that row carries no credit |
| OrderRuns.AtMostOnceIff | model/topup.go:446-510 | at most one credit in every run exactly when no WeChat payment is queued beside a Waffo failure notice or the opening of a WeChat order |
| OrderRuns.FailedIsUncreditedIff | service/mujian/wallet.go:200-273 | failed means uncredited in every run exactly when no payment is queued beside an unlocked failure write of its method |
| OrderRuns.StatusAlwaysShowsIff | controller/topup_stripe.go:289-330 | the status shows the credit in every run exactly when, beside a payment, neither such a write nor an expiry is queued |
| OrderRuns.TwiceCredited | model/topup.go:468-483 | for each such pair and every trade number, a run from a start state with two credits |
| OrderRuns.FailedThoughCredited | controller/topup_waffo.go:189-252 | for each unlocked write and each payment of its method, a run that ends failed and credited |
| OrderRuns.ExpiredThoughCredited | controller/topup_stripe.go:303-328 | for each payment, a run that ends expired and credited |
| Billing.BillingSession.PreConsume | service/billing_session.go:229-322 | success leaves both accounts charged the reservation (nothing for a trusted wallet); failure charges nothing, except the token if giving it back fails, and exactly then |
| Billing.BillingSession.Settle | service/billing_session.go:46-109 | the session and its rows become what the settlement step says |
| Billing.BillingSession.SettleStrictBillingWithRetry | service/billing_session.go:111-130 | the loop makes up to three attempts and stops at the first success |
| Billing.BillingSession.Refund | service/billing_session.go:134-155 | a refund is due exactly when the session needs one; only the normal form marks it at once |
| Billing.BillingSession.RefundWork | service/billing_session.go:156-193 | the database part: one ledger transaction, or the funding and the token apart |
| Billing.RetriedKeepsLedger | model/strict_billing.go:133-198 | settling keeps charges equal to the ledger, writes the actual quota on success and nothing otherwise |
| Billing.KeepStrictInv | model/strict_billing.go:133-263 | every step of strict billing keeps charges and flags in line with the ledger, and never changes a closed ledger row |
| Billing.StrictChargesFollowLedger | model/strict_billing.go:133-263 | in every interleaving both accounts are charged the reservation, the actual quota or nothing, as the ledger says, and the session is never both settled and refunded |
| Billing.StrictOutcomeIsFinal | model/strict_billing.go:149-158 | once settled or refunded, no later step of any run changes the ledger row or the charges |
| Billing.FailedSettlementStaysCharged | service/billing_session.go:54-71 | after a failed strict settlement no new refund begins; only one already due can release the reservation |
| Billing.FailedSettlementStaysChargedIff | service/billing_session.go:134-175 | once due refunds are done, the reservation is still charged exactly if none was due when the settlement failed |
| Billing.DueRefundReleasesFailedSettlement | service/billing_session.go:134-175 | a run in which it is released after the settlement started |
| Billing.StrictNeverOverdraws | model/strict_billing.go:362-399 | without overdraft no run takes a limited balance below zero that other requests do not |
| Billing.KeepNormalInv | service/billing_session.go:46-109 | every step of normal billing keeps the sum: reservation or actual quota, less what was given back |
| Billing.NormalChargesAddUp | service/billing_session.go:134-193 | so in every interleaving, and the reservation is given back at most once |
| Billing.SettledXorRefunded | service/billing_session.go:134-138 | if no settlement follows a refund, the session is never both; settled pays the actual quota, refunded pays nothing |
| Billing.SettlementIsExactIff | service/billing_session.go:46-109 | whatever follows, once refund work is done a settlement has charged the actual quota exactly when no refund was done or due before it, or nothing was reserved |
| Billing.FlagWouldBeEnough | service/billing_session.go:46-52 | over runs without failing refunds that condition is the session's own refund flag |
| Billing.LateSettlementUndercharges | service/billing_session.go:46-52 | a run in which a cost of 10 is charged as 3 |
| Billing.TokenIsChargedIff | service/billing_session.go:85-108 | after a normal settlement of a session not refunded the funding is charged the actual quota, and the token exactly when nothing was to adjust or its write went through |
| Billing.TokenStaysCharged | service/billing_session.go:85-108 | from every start with a reservation of 7, a cost of 10 of which the token is charged 7 |
| Billing.PendingRefundUndercharges | service/billing_session.go:46-52 | another, with the refund carried out after the settlement |
| Routing.SelectionIsJustified | controller/relay.go:451-501 | for every world the recorded channels equal the retry counter again when a channel is returned and exceed it by at most one otherwise; all selections before the last were rejected on price; no channel is returned only for one of three stated reasons |
| Routing.RetryContext.GetChannel | controller/relay.go:451-501 | the loop returns the channel and leaves the counters that this selection gives |
| Relay.LoopIsJustified | controller/relay.go:253-303 | for every world: at most one more channel than retries is used, all attempts but the last failed without output, a channel is asked for once per attempt, and the loop stops only for a reason, never early |
| Relay.RoutedAttempts | controller/relay.go:253-303 | with channels and bodies to be had, every attempt that may be retried is followed by another until the retries are used up, and no more are made |
| Relay.RoutedSucceedsIff | controller/relay.go:253-303 | then the relay succeeds exactly when some attempt within the retries does, after ones that may be retried |
| Relay.PerformAttempt | controller/relay.go:276-289 | an attempt's settlements reach the session in order, and none does when the model is free |
| Relay.TryOnce | controller/relay.go:253-303 | one iteration: its outcome or the next loop head, and the session after its settlements |
| Relay.TryChannels | controller/relay.go:253-303 | the loop terminates with the outcome of which the lemmas above speak, and the session has made the settlements of all attempts |
| Relay.Relay | controller/relay.go:216-303 | no refund is due after success, after a failed reservation or for a free model; after an error or panic one is due exactly when the session still needs it; the session is where that run of billing steps leads |
| Relay.SettledThroughIsRun | controller/relay.go:276-289 | the settlements of all attempts are a run of the billing state machine |
| Relay.RelayChargesOnce | controller/relay.go:225-243 | for every relay and background run: settled pays the actual quota, failed and unsettled pays nothing, never both settled and refunded |
| Relay.StrictRelayChargesOnce | controller/relay.go:225-243 | for strict billing: refunded exactly when it failed and no settlement was asked for, settled exactly when a settlement call was effective, charged for reconciliation otherwise |
| Relay.ReservationResolvedIff | controller/relay.go:216-303 | for every relay: settled exactly when some attempt made an effective settlement call, resolved exactly when that or a failure happened |
| Relay.RealtimeKeepsReservation | relay/websocket.go:38-46 | a success without a settlement call leaves the reservation charged |
| Relay.RefusedSettlementKeepsReservation | relay/billing_settlement.go:19-28 | so does a success whose settlement the database refused |
| Relay.NegativeRetriesKeepReservation | controller/relay.go:253-303 | so does a negative number of retries |
| TaskRelay.LoopIsJustified | controller/relay.go:694-770 | for every world: at most one reservation, settled exactly on success, refunded exactly on a reported error or a panic after an earlier one, never both; a locked channel submits at most once; the loop stops only for a reason |
| TaskRelay.StrandedIff | controller/relay.go:696-700 | the reservation is neither settled nor refunded exactly when the first submission is reached, reserves and panics |
| TaskRelay.RelayTask | controller/relay.go:678-803 | the loop and its end give the outcome of which the lemmas above speak |
| TaskRelay.SubmitOnce | controller/relay.go:711-765 | one iteration: its outcome or the next loop head |
| TaskRelay.StrandedAtInput | controller/relay.go:696-700 | an input at which the reservation is stranded |
| BodyStorage.MemoryStorage.constructor | common/body_storage.go:37-45 | a new memory storage reads from offset 0 and is counted |
| BodyStorage.MemoryStorage.Read | common/body_storage.go:47-54 | reads as the abstract reader does, and leaves the rest of the buffer alone |
| BodyStorage.MemoryStorage.Seek | common/body_storage.go:56-63 | seeks as the abstract reader does, with its errors |
| BodyStorage.MemoryStorage.Bytes | common/body_storage.go:74-81 | the whole body, position unchanged |
| BodyStorage.MemoryStorage.Close | common/body_storage.go:65-72 | closed; uncounted once, however often it is called |
| BodyStorage.DiskStorage.constructor | common/body_storage.go:100-130 | a new file storage is counted with its size |
| BodyStorage.DiskStorage.Read | common/body_storage.go:169-176 | reads as the abstract reader does |
| BodyStorage.DiskStorage.Seek | common/body_storage.go:178-185 | seeks as the abstract reader does, with its errors |
| BodyStorage.DiskStorage.Bytes | common/body_storage.go:198-230 | gives the whole body although it moves the file, and restores the position |
| BodyStorage.DiskStorage.Close | common/body_storage.go:187-196 | closed; uncounted once, however often it is called |
| BodyStorage.CacheStats.DecrementDiskFiles | common/disk_cache_config.go:115-122 | both counters go down and are clamped at zero |
| BodyStorage.SameAnswersIff | common/body_storage.go:47-230 | memory and file storage answer every operation sequence alike exactly when it has no zero-length read at the end |
| BodyStorage.ReadsGiveTheBody | common/body_storage.go:47-54 | from the start, reads of any sizes give the body's beginning, and enough of them all of it |
| BodyCache.CreateBodyStorage | common/body_storage.go:241-259 | the data is stored whole, on disk exactly when it is large, fits and can be written, and counted |
| BodyCache.CreateBodyStorageFromReader | common/body_storage.go:262-303 | the content is stored whole or refused for the stated reason; a refusal counts nothing |
| BodyCache.RequestBody.GetBodyStorage | common/gin.go:36-96 | success hands out the original body at offset 0; a stored body is reused, a closed one is an error |
| BodyCache.EveryAttemptReadsTheWholeBody | common/gin.go:36-45 | whatever earlier attempts did short of closing, the next one can read the complete original body |
| BodyCache.KeepExact | common/disk_cache_config.go:109-134 | one creation or close keeps the counters exact |
| BodyCache.CountersAreExact | common/disk_cache_config.go:109-134 | after every interleaving, with double closes and failed creations, each counter is the number or size of open storages |
| BodyCache.ClampNeverFires | common/disk_cache_config.go:115-122 | so the clamp never changes a counter |
| BodyCache.DiskUsageIsBounded | common/disk_cache_config.go:170-177 | in every interleaving in which at most k creations overlap and bodies are no longer than declared, disk usage stays within k times the maximum; sequentially within the maximum |
| BodyCache.StreamsKeepBoundIff | common/body_storage.go:262-280 | in every sequential run disk usage stays within the maximum exactly when every body that goes to disk on its declared length fits at its turn |
| BodyCache.TurnsAreRun | common/body_storage.go:241-303 | a sequential run is one in which each creation finishes before anything else happens |
| BodyCache.OverlongBodyExceeds | common/body_storage.go:262-280 | a body that declares one byte and exceeds the maximum, for every enabled cache that puts bodies of one byte on disk |
| BodyCache.OverlappingCreationsExceed | common/body_storage.go:241-259 | the bound is met for every k: k overlapping creations that each fit use k times the maximum |
| RateLimit.InMemoryRateLimiter.Request | common/rate-limit.go:45-70 | answer and queues are those of the step that is proved to refine the ideal limiter, panics included |
| RateLimit.InMemoryRateLimiter.ClearExpiredItems | common/rate-limit.go:28-42 | one sweep drops exactly the empty queues and those whose newest entry expired |
| RateLimit.QueueDecides | common/rate-limit.go:49-60 | the length and oldest entry of the queue decide as counting all accepted requests of the window would |
| RateLimit.SameAnswer | common/rate-limit.go:45-70 | one answer equals the ideal limiter's |
| RateLimit.KeepCoupled | common/rate-limit.go:28-70 | requests and sweeps keep the queue a suffix of the history whose missing part no longer matters |
| RateLimit.Refines | common/rate-limit.go:28-70 | the limiter and the ideal one make the same decisions over every run |
| RateLimit.NoWindowExceedsCapacity | common/rate-limit.go:45-70 | no window, wherever it is placed, holds more accepted requests than allowed |
| RateLimit.LimitIsNeverExceeded | common/rate-limit.go:45-70 | the same for every run of the real limiter with sweeps |
| RateLimit.OverfilledAfterSweep | common/rate-limit.go:28-42 | for every window longer than that and every expiration time that is not negative, a run whose decisions differ |
| RateLimit.ExactIffWindowsFit | common/rate-limit.go:14-42 | the limiter is exact on all runs exactly when nothing is swept or no window exceeds the expiration plus one second |
| ModelNames.NormalizedIsClean | controller/channel_upstream_update.go:77-82 | normalising gives trimmed, non-blank, distinct names and leaves such lists alone |
| ModelNames.MergeModelNames | controller/channel_upstream_update.go:84-98 | the loop appends exactly the missing names |
| ModelNames.ApplySelectedShape | controller/channel_upstream_update.go:122-127 | survivors keep their order and come first, new names follow, nothing is doubled |
| ModelNames.UnchangedIffSameSet | controller/channel_upstream_update.go:122-127 | the list changes exactly when its set of names does |
| UpstreamUpdate.StoredListRoundTrip | model/channel.go:196-201 | a stored list without commas in its names reads back as itself |
| UpstreamUpdate.DetectMembers | controller/channel_upstream_update.go:156-215 | exactly the uncovered, unignored upstream names are to be added and exactly the unexplained local ones to be removed |
| UpstreamUpdate.Channel.ApplyUpdates | controller/channel_upstream_update.go:766-814 | the channel's models and settings, and the reply, for every success or failure of the two writes |
| UpstreamUpdate.SelectionPartitionsPending | controller/channel_upstream_update.go:766-814 | the selection splits pending changes into applied, ignored and remaining, without overlap or loss |
| UpstreamUpdate.AddedIsNeverIgnored | controller/channel_upstream_update.go:794-797 | afterwards a name is ignored exactly if it was not added and was ignored before or selected to be |
| UpstreamUpdate.NextModels | controller/channel_upstream_update.go:787-792 | the new list in its order, and the change flag exactly when the set changed |
| UpstreamUpdate.SecondDetection | controller/channel_upstream_update.go:156-215 | what a second detection finds, in terms of the first |
| UpstreamUpdate.FixpointIff | controller/channel_upstream_update.go:862-872 | detecting after applying everything finds nothing exactly when no added name has a comma and the ignored names stay ignored |
| UpstreamUpdate.NoRegexNamesStayIgnored | controller/channel_upstream_update.go:156-215 | they do if no upstream name is a regular-expression rule |
| UpstreamUpdate.CommaIsFoundAgain | model/channel.go:196-201 | an input for the first failure: the second detection finds the name again |
| UpstreamUpdate.RuleIsDropped | controller/channel_upstream_update.go:794-797 | a family of inputs for the second failure: a rule that is added as a name no longer ignores |
| UpstreamUpdate.RuleIsDroppedAtInput | controller/channel_upstream_update.go:794-797 | an input for it: the second detection finds a name that was ignored |
| MultiKey.MultiKeyChannel.DisableKey | controller/channel.go:1505-1546 | exactly the row at the index becomes disabled, with every error case |
| MultiKey.MultiKeyChannel.EnableKey | controller/channel.go:1548-1588 | exactly the row at the index becomes enabled and loses time and reason |
| MultiKey.MultiKeyChannel.EnableAllKeys | controller/channel.go:1590-1612 | every row becomes enabled, its key kept |
| MultiKey.MultiKeyChannel.DisableAllKeys | controller/channel.go:1614-1659 | exactly the enabled rows become disabled; nothing to do exactly when there is none |
| MultiKey.MultiKeyChannel.DeleteKey | controller/channel.go:1661-1739 | the row list without that row, all index maps shifted; the last key is kept |
| MultiKey.MultiKeyChannel.DeleteDisabledKeys | controller/channel.go:1741-1808 | the surviving rows re-indexed, or all keys enabled if none survives; the reported count |
| MultiKey.MultiKeyChannel.Manage | controller/channel.go:1505-1808 | every request acts on the list of rows or not at all, also when an error is replied after the row was stored, and keeps indices and sizes consistent |
| MultiKey.ManagingNeverEmpties | controller/channel.go:1505-1808 | over every sequence of requests a channel keeps a key and never gets one it did not have |
| MultiKey.DeleteCommutesWithView | controller/channel.go:1661-1739 | deleting then listing is listing then dropping the row and re-indexing |
| MultiKey.DeleteDisabledCommutesWithView | controller/channel.go:1741-1808 | the same for the surviving keys and the status filter |
| MultiKey.PurgeShowsFilteredIff | model/channel.go:458-505 | the saved channel shows that filter exactly when some key survives |
| MultiKey.GetKeyStatus | controller/channel.go:1391-1503 | the page of the filtered view, the clamped page number and the three counts |
| MultiKey.CountsAddUp | controller/channel.go:1405-1430 | the three counts add up to the number of keys |
| MultiKey.PagesCoverTheList | controller/channel.go:1466-1490 | for every page size the pages one after the other are the filtered list |
| RatioDiff.AllModels | controller/ratio_sync.go:413-433 | exactly the models that some local or upstream table names |
| RatioDiff.Confidence | controller/ratio_sync.go:435-470 | the lookup by channel and model says untrusted exactly for the 37.5 and 1 pair |
| RatioDiff.BuildCell | controller/ratio_sync.go:488-512 | one cell, and whether the channel has a value and differs |
| RatioDiff.BuildRow | controller/ratio_sync.go:472-538 | one row of all channels, wanted exactly when some channel offers something new |
| RatioDiff.BuildDifferences | controller/ratio_sync.go:407-581 | what is left after both passes: rows pruned to the channels that show a difference somewhere |
| RatioDiff.RowIffDiffers | controller/ratio_sync.go:407-581 | for numeric data and distinct names a row exists exactly when some channel differs by epsilon or more or local is absent, and pruning deletes none |
| RatioDiff.RowContents | controller/ratio_sync.go:407-581 | where a channel differs, the row keeps exactly the channels that differ somewhere, with the right cell and confidence each |
| RatioDiff.RowKeptIff | controller/ratio_sync.go:541-578 | for any data with distinct names: an included row outlives the pruning exactly when a channel offers a value there, or one that offers a value elsewhere has none there while local does |
| RatioDiff.HiddenRowIsPruned | controller/ratio_sync.go:541-578 | inputs whose included row is deleted: null, and the text "same" |
| RatioDiff.NullRowIsPruned | controller/ratio_sync.go:541-578 | for null nothing of the table is left |
| ModelsDev.Select | controller/ratio_sync.go:791-829 | the sorted double loop selects, for each model, the fold over the sorted providers |
| ModelsDev.ChosenIsEarlier | controller/ratio_sync.go:766-778 | in sorted order the tie-break never replaces |
| ModelsDev.SelectsNearMinimum | controller/ratio_sync.go:730-829 | a price is selected exactly when a usable one exists, non-zero whenever one is, and less than epsilon above every non-zero one |
| ModelsDev.BuiltIsPriced | controller/ratio_sync.go:730-764 | what is accepted as a candidate has no negative price, and no output price without an input price |
| ModelsDev.RatiosRecoverPrices | controller/ratio_sync.go:835-857 | the prices can be computed back from the rounded ratios, within a millionth |
| ModelsDev.UnsortedDrifts | controller/ratio_sync.go:766-778 | against the order, the choice climbs above the minimum by more than epsilon |
| OpusScan.GetOpusDuration | common/audio.go:196-254 | the loop terminates with the largest granule position of the recognised pages over 48000 |
| OpusScan.ScanOnce | common/audio.go:207-249 | one iteration recognises a page or moves one byte on |
| OpusScan.GranuleRoundTrip | common/audio.go:229-232 | every signed 64-bit granule position is read back from its bytes |
| OpusScan.RecognisesExactlyThePages | common/audio.go:196-254 | on every mix of pages and junk without markers, exactly the pages are recognised, at their boundaries |
| OpusScan.DurationOfStream | common/audio.go:196-254 | so the result is the largest of 0 and their granule positions |
| OpusScan.NoPageIsMissed | common/audio.go:207-249 | on any input no marker starts between the end of one recognised page and the start of the next, nor before the first |
| OpusScan.NoPageIsLeft | common/audio.go:207-249 | nor after the last one where a header could stand, unless that page breaks off in its segment table |
| OpusScan.PagesAreSound | common/audio.go:196-254 | on any input, recognised pages carry the marker and their granule position, and none begins before the previous one ends |

## Left out

- Prices and quotas: reservations are non-negative; how they are computed is not modelled.
- The choice between wallet and subscription, and its fallback: one funding source per session.
- A subscription whose period is reset between reservation and refund, where the refund is cut off at zero.
- Billing without a session (the older post-consumption path, by which realtime relays charge while they run) and violation fees.
- Channel selection, affinity, automatic disabling and error messages: outcomes of selection and pricing are inputs. Refusals for want of a channel, its setup or a body are one error, whatever status the source gives them.
- Integer widths: counters, times and quotas are unbounded. Granule positions are 64-bit.
- Floating point: prices are real numbers; NaN and infinities are one separate value.
- Strings are sequences of characters; byte-level encoding is not modelled, except that channel keys are byte strings.
- Regular expressions: whether a pattern matches a name is a parameter.
- The text of a key list: keys are a list, and empty keys or keys with line breaks are not modelled. The channel editor, which appends or replaces keys and keeps the status maps, is not modelled.
- Other writers of a channel's status maps, such as automatic disabling during a relay.
- File system failures after a storage was created, reads of more than a gibibyte at once, and the Linux-only seek modes.
- The two counters that one creation or close changes are changed in one step.
- Cleanup that removes or recounts live cache files.
- Signature checks, amounts and currencies of payment notices, which only decide whether a handler runs; redemption codes, which do not touch top-up orders; and when subscription orders are created: they exist from the start.
- Rows read inside a crediting transaction are taken as locked. Where the source does not lock them, an unlocked write that is overtaken has the effect of one that failed.
- Durations of other audio formats, and the controllers that no section above names.
- MultiKey.PagesCoverTheList: total and page size together stay below 2^63; the source's sum wraps beyond that, and the model's integers do not.
- MultiKey.MultiKeyChannel.Manage: one request at a time. The source reads the channel before it takes the channel's lock, so of two concurrent requests the later one writes back rows it read before the other changed them.
- The order lock is that of one process. With several processes, and rows that the Stripe, Creem and Waffo transactions do not lock, two of them can credit one order.
