# Stroy backend: verified protocols

Dafny models of the parts of the Stroy API in which money, limits or deletions depend on many short
transactions running in any order, with proofs about every run of them. `dafny verify dfyconfig.toml`
checks everything.

Each protocol has a state, a function `Step` that takes one transaction (or, where transactions
overlap inside, one statement, object-store call or journal write) and a function `Run`. An invariant
is kept by every step, and the results about runs follow from it. Beside it stands the imperative form:
a class with the tables as fields whose methods follow the handlers branch by branch, with their loops
and rollbacks, and whose contracts tie them to `Step`. The `Rows` and `Numbers` modules state, apart
from the functions that the transactions share, what each of them answers and writes in the columns
of the tables, with the limits and times as numbers.

| files | what they model |
|---|---|
| `Calendar`, `PeriodLaws` | the Gregorian calendar, Go's date normalisation, adding a billing period |
| `Payments`, `PaymentLaws`, `PaymentRuns`, `PaymentRows`, `ExpiryRaces`, `PaymentStore` | subscriptions, checkout orders, bank results, expiring without a lock |
| `PlanCapacity`, `PlanCapacityLaws`, `CapacityRows`, `SplitInvites`, `CapacityStore` | project and member limits of the plans, invitations that overlap |
| `AuthLimiter`, `AuthLimiterLaws`, `LimiterNumbers`, `AttemptStore` | the sliding-window limiter with its advisory locks |
| `OneTimeCodes`, `Sessions`, `SessionRaces` | SMS codes with two consumers, refresh sessions, creations that overlap |
| `StorageDeletion`, `StorageLaws`, `StorageRows`, `BatchOrder`, `DeletionWorker`, `Restore` | the deletion outbox, its worker and goroutines, and restoring a backup |
| `DeletionJournal`, `DeletionBatches`, `StorageKeys` | the deletion ledger as files, the requests a restore derives from it, the keys that uploads generate |
| `ExpenseChunks`, `ExpenseSearch` | cutting expenses into prompts, and merging concurrent answers |
| `MultipartUpload`, `SigningKeys`, `RealtimeHub` | the S3 upload plan and loop, key screening, the event hub |
| `Options`, `Basics` | an optional value, bytes, and facts about sets and products |

Where the code does not have a property one might expect, the exact condition is proved instead:

- `PeriodLaws.AddPeriodOrder`: instants can swap when a short month clamps the day (`PeriodLaws.JanuaryEndSwaps`).
- `PeriodLaws.TwelveMonthsVersusYear`: twelve months can differ from a year (`PeriodLaws.JanuaryEndDrifts`).
- `PaymentRuns.RetriedKey`: a key answered with another key's open order can later be answered with a different one (`PaymentRuns.RetriedKeyMayMoveOn`).
- `ExpiryRaces.ExpiryIsSafe`: an unlocked expiry can overwrite a payment, and then two paid periods overlap (`ExpiryRaces.OverlapIsReached`).
- `SplitInvites.SplitInvitesExact`: invitations whose checks all run first can exceed the limit (`SplitInvites.OverflowIsReached`).
- `StorageKeys.GeneratedKeys` and `DeletionJournal.JournalRoundTrip`: the API records keys that the restore script rejects (`Restore.RefusalIsReached`).
- `DeletionBatches.BatchRoundTrip`: a millionth file no longer matches the name pattern it is read by.

## Model

| member | source | states |
|---|---|---|
| `Calendar.AddPeriodMovesDate` | backend/internal/httpapi/subscription_checkout.go:683-704 | the day arithmetic on instants (day 0 of the month after, time of day kept) lands in the next month, or the same month next year, on day min(day, last day) |
| `Calendar.LastDayIsDaysInMonth` | backend/internal/httpapi/subscription_checkout.go:686-703 | day 0 of the following month, as Go normalises it, is the last day of the Gregorian month |
| `Calendar.MonthTable` | backend/internal/httpapi/subscription_checkout.go:683-704 | the days before each month are those of the Gregorian table, with the leap day after February |
| `Calendar.YearFormula` | backend/internal/httpapi/subscription_checkout.go:683-704 | the days before year y are 365(y-1) and one for each leap year: (y-1)/4 - (y-1)/100 + (y-1)/400 |
| `Calendar.DateOfDayNumber` | backend/internal/httpapi/subscription_checkout.go:683-704 | calendar dates and day numbers convert into each other without loss |
| `Calendar.PeriodLength` | backend/internal/httpapi/subscription_checkout.go:683-704 | a monthly period lasts 28 to 31 days and a yearly one 365 or 366 |
| `Calendar.AddPeriodAdvances` | backend/internal/httpapi/subscription_checkout.go:683-704 | adding a period always moves forward |
| `PeriodLaws.NextDateMonotone` | backend/internal/httpapi/subscription_checkout.go:683-704 | adding a period never reorders dates |
| `PeriodLaws.AddPeriodOrder` | backend/internal/httpapi/subscription_checkout.go:683-704 | on instants the order is kept if and only if the two dates are not clamped to the same day with the later time of day on the earlier one |
| `PeriodLaws.JanuaryEndSwaps` | backend/internal/httpapi/subscription_checkout.go:683-704 | in every year 30 January 23:00 and 31 January 01:00 change places when a monthly period is added |
| `PeriodLaws.DayNeverRises` | backend/internal/httpapi/subscription_checkout.go:683-704 | repeated monthly periods never raise the day of the month |
| `PeriodLaws.TwelveMonthsVersusYear` | backend/internal/httpapi/subscription_checkout.go:683-704 | twelve monthly periods equal one yearly period exactly for days up to 28, for the 29th when the February in between has one, and for 29 February |
| `PeriodLaws.JanuaryEndDrifts` | backend/internal/httpapi/subscription_checkout.go:683-704 | from 31 January twelve monthly periods end on the 28th or 29th, a yearly one on the 31st |
| `PaymentLaws.StepKeepsValid` | backend/internal/httpapi/subscription_checkout.go:293-614 | every transaction keeps the invariant: unique keys and provider numbers, open orders of a user 24 hours apart, kopecks 100 times som, credits and paid orders in bijection, periods chained |
| `PaymentLaws.RunKeepsValid` | backend/internal/httpapi/subscription_checkout.go:293-614 | the invariant holds in every run of reservations, callbacks, polls, expiries and clock steps |
| `PaymentRuns.PaymentsAreCreditedOnce` | backend/internal/httpapi/subscription_checkout.go:474-600 | in every run an order is paid exactly when it has one credit, there are as many credits as paid orders, each credit is one billing period, and the periods of a user are disjoint in payment order |
| `PaymentRuns.OnlyPaymentsCredit` | backend/internal/httpapi/subscription_checkout.go:474-545 | only an accepted paid result that belongs to an open order adds a credit |
| `PaymentRuns.CreditStacksPeriods` | backend/internal/httpapi/subscription_checkout.go:561-600 | every step that adds a period, which starts now or, while the last one runs, at its end, leaves the subscription active with the plan and billing period of the paid order, started with the period, ending with it, its trial end as before; no other subscription changes |
| `PaymentRuns.OpenOrderCanBePaid` | backend/internal/httpapi/subscription_checkout.go:474-545 | a paid result that belongs to an open order is accepted unless another order has its provider number |
| `PaymentRuns.RunEvolves` | backend/internal/httpapi/subscription_checkout.go:474-614 | in every run paid and canceled are absorbing, identity, plan, period and amounts never change, a provider transaction number never changes once set, credits are never lost |
| `PaymentRuns.RejectedUnchanged` | backend/internal/httpapi/subscription_checkout.go:474-545 | a result that is not accepted changes nothing |
| `PaymentRuns.RedeliveryIsHarmless` | backend/internal/httpapi/subscription_checkout.go:474-545 | delivering an accepted result again, after any further run and at any time, changes at most one update timestamp |
| `PaymentRuns.AtMostOneOpenCheckout` | backend/internal/httpapi/subscription_checkout.go:293-363 | at any time a user has at most one open order younger than 24 hours and at most one order per idempotency key |
| `PaymentRuns.NewOrderIsReserved` | backend/internal/httpapi/subscription_checkout.go:293-363 | a new order is made exactly for a known user without an order under the key, without a young open order, and with a plan and price the table takes |
| `PaymentRuns.RetriedKey` | backend/internal/httpapi/subscription_checkout.go:293-363 | a retried key yields the order of its first answer if and only if that order carries the key, or no order does and it is still the latest young open one |
| `PaymentRuns.RetriedKeyMayMoveOn` | backend/internal/httpapi/subscription_checkout.go:320-329 | a concrete run in which a key answered with another key's order is later answered with a different order |
| `PaymentRuns.OneOpenOrderIsReached` | backend/internal/httpapi/subscription_checkout.go:293-363 | the open order that this run starts from is what a new user's first checkout leaves |
| `PaymentRows.StepsOfARun` | backend/internal/httpapi/subscription_checkout.go:293-614 | what the steps of a run are, and which time a transaction that began earlier sees as its start |
| `PaymentRows.SubscriptionRow` | backend/internal/httpapi/subscription_limits.go:108-167 | a missing row becomes a trial of 30 days from registration, a trial or paid period that has run out becomes expired, and nothing else changes |
| `PaymentRows.CheckoutIsAnswered` | backend/internal/httpapi/subscription_checkout.go:293-363 | exactly one answer is right and it is the one given: the order of the key, or else the latest young open one, if plan, period and amount are those asked for, refused if they differ or if the order of the key is canceled or unpaid for 24 hours; otherwise a new order with the fields of the checkout, when the table takes it |
| `PaymentRows.InvoiceIsSaved` | backend/internal/httpapi/subscription_checkout.go:459-472 | an open order takes the invoice number unless another order has it |
| `PaymentRows.PolledStatus` | backend/internal/httpapi/subscription_checkout.go:602-614 | polling moves an open order to processing or canceled, and does nothing else |
| `PaymentRows.BankResultIsApplied` | backend/internal/httpapi/subscription_checkout.go:474-600 | the outcome of every result by the first rule that applies, over the columns of the order and the result; accepted, it writes the order row and, when paid, the subscription row and the period in full, otherwise nothing |
| `PaymentStore.Database.Ensure` | backend/internal/httpapi/subscription_limits.go:108-167 | with the row locked: creates the trial row, expires a lapsed one and returns it |
| `PaymentStore.Database.InsertAndRead` | backend/internal/httpapi/subscription_limits.go:108-160 | without the lock: creates the trial row and tells whether the row read had lapsed, which means that every period credited so far has ended |
| `PaymentStore.Database.ExpireRow` | backend/internal/httpapi/subscription_limits.go:160-165 | without the lock, the write after that: the payment invariant survives it if and only if no period was paid since the read that has not ended |
| `ExpiryRaces.ExpiryIsSafe` | backend/internal/httpapi/subscription_limits.go:123-165 | expiring a row read as lapsed keeps the payment invariant if and only if no payment of the user was committed since the read whose period has not ended |
| `ExpiryRaces.DisjointUnlessLate` | backend/internal/httpapi/subscription_limits.go:108-167 | in every interleaving of unlocked reads, their writes and all payment transactions without such a late write, the periods of each user stay disjoint in payment order |
| `ExpiryRaces.LateMakesOverlap` | backend/internal/httpapi/subscription_checkout.go:561-600 | after a late write the next payment accepted while the paid period lasts starts inside it, so that two credited periods overlap |
| `ExpiryRaces.OverlapIsReached` | backend/internal/httpapi/subscription_limits.go:123-165 | a run from an empty database in which two paid periods of one user overlap |
| `PaymentStore.Database.FindOpen` | backend/internal/httpapi/subscription_checkout.go:380-393 | the latest open order younger than 24 hours, or none if there is none |
| `PaymentStore.Database.Reserve` | backend/internal/httpapi/subscription_checkout.go:293-363 | the transaction with its early returns and rollbacks gives the one right answer, an order with the plan, period and amount asked for or a refusal that changes nothing, and keeps the invariant |
| `PaymentStore.Database.SaveInvoice` | backend/internal/httpapi/subscription_checkout.go:459-472 | stores the invoice of an open order, or changes nothing |
| `PaymentStore.Database.UpdateStatus` | backend/internal/httpapi/subscription_checkout.go:602-614 | moves an open order to processing or canceled, and no other |
| `PaymentStore.Database.ActivateFromPayment` | backend/internal/httpapi/subscription_checkout.go:561-600 | marks the order paid and makes the subscription active for the plan and billing period of the order over the period credited, its trial end as before, or rolls back |
| `PaymentStore.Database.ApplyBankResult` | backend/internal/httpapi/subscription_checkout.go:474-545 | the branches of a bank result have the outcome of the rules, leave the rows of the result function and keep the invariant |
| `AuthLimiterLaws.StepKeepsValid` | backend/internal/httpapi/auth_abuse.go:104-174 | every statement of every transaction keeps exclusive locks, both window bounds, the cooldowns, and what transactions read |
| `AuthLimiterLaws.WindowsAreBounded` | backend/internal/httpapi/auth_abuse.go:104-174 | in every interleaving no window of the policy's length holds more admitted attempts of a phone or an address than its limit, although timestamps may disagree with commit order and old rows are pruned |
| `AuthLimiterLaws.CooldownHolds` | backend/internal/httpapi/auth_abuse.go:144-149 | an attempt is admitted only after the cooldown of every earlier attempt of its phone |
| `LimiterNumbers.AdmissionInNumbers` | backend/internal/httpapi/auth_abuse.go:128-163 | a code request is admitted if and only if the whole history has fewer than 6 of its phone and 30 of its address in the last hour and none of its phone in the last 45 seconds; a verification if and only if it has fewer than 10 and 30 in the last 15 minutes |
| `LimiterNumbers.LateIsRefused` | backend/internal/httpapi/auth_abuse.go:74-85 | three seconds after its begin a transaction is not admitted any more |
| `LimiterNumbers.WindowsInNumbers` | backend/internal/httpapi/auth_abuse.go:104-174 | in every run no hour has more than 6 requests of a phone or 30 of an address, and no 15 minutes more than 10 or 30 verifications |
| `LimiterNumbers.RequestsAreApart` | backend/internal/httpapi/auth_abuse.go:144-153 | in every run the requests of a phone are admitted at least 45 seconds after each earlier one |
| `LimiterNumbers.LockIsGranted` | backend/internal/httpapi/auth_abuse.go:120-129 | a lock is granted unless another transaction of the same kind and phone, or kind and address, has it |
| `LimiterNumbers.CommittedRow` | backend/internal/httpapi/auth_abuse.go:161-173 | the row that is inserted, with the time at which its transaction began |
| `LimiterNumbers.PrunedRows` | backend/internal/httpapi/auth_abuse.go:239-250 | pruning deletes nothing younger than seven days |
| `AuthLimiterLaws.PrunedRowsDoNotCount` | backend/internal/httpapi/auth_abuse.go:239-278 | what the counting query sees is unchanged by pruning, because retention exceeds window and deadline |
| `AuthLimiterLaws.NoDeadlock` | backend/internal/httpapi/auth_abuse.go:117-126 | with the two advisory locks taken in sorted order some open transaction can always proceed |
| `AuthLimiterLaws.PhoneLockSortsFirst` | backend/internal/httpapi/auth_abuse.go:117-121 | sorting the lock keys as byte strings puts the phone lock before the address lock for all values |
| `AttemptStore.AttemptTable.CountAttempts` | backend/internal/httpapi/auth_abuse.go:128-142 | the row-by-row counts are the numbers of rows of the address and of the phone in the last hour, or 15 minutes for verifications, and the latest of the phone is found |
| `AttemptStore.AttemptTable.CheckLimits` | backend/internal/httpapi/auth_abuse.go:144-163 | admits exactly when the limits allow, as one step of the protocol; otherwise the delay is the rest of the 45 seconds since the latest request of the phone, or else the whole window |
| `AttemptStore.AttemptTable.CommitAttempt` | backend/internal/httpapi/auth_abuse.go:160-173 | commits exactly the inserted row under a new identifier |
| `AttemptStore.AttemptTable.DeleteExpired` | backend/internal/httpapi/auth_abuse.go:265-278 | the batched pruning loop ends with exactly the rows older than seven days gone |
| `OneTimeCodes.StepKeepsValid` | backend/internal/httpapi/auth.go:203-341 | each statement of a sign-in or deletion verification keeps one lock holder per code and counters that agree with the history |
| `OneTimeCodes.CodeIsUsedOnce` | backend/internal/httpapi/auth.go:203-341 | in every interleaving of both kinds of verification a code succeeds at most once in total and collects at most five wrong attempts |
| `OneTimeCodes.OnlyFreshCodesAreTried` | backend/internal/httpapi/account_deletion_auth.go:48-105 | a verification is recorded only for an unconsumed code of its phone that was less than 300 seconds old when it began, without success and with fewer than five wrong attempts, and right exactly when the guess is the code |
| `OneTimeCodes.ExpiredCodesAreNotTried` | backend/internal/httpapi/auth.go:211-219 | in every interleaving no verification is recorded for a code that was 300 seconds old when it began |
| `OneTimeCodes.CodeRows` | backend/internal/httpapi/auth.go:203-248 | what issuing, choosing, locking and committing write, column by column |
| `OneTimeCodes.FinishedForever` | backend/internal/httpapi/auth.go:217-244 | after success, five wrong attempts, invalidation or removal nothing is ever recorded for the code again |
| `OneTimeCodes.CodeTable.Newest` | backend/internal/httpapi/auth.go:211-219 | the newest code of the phone that is neither consumed nor expired, or none if there is none |
| `OneTimeCodes.CodeTable.Verify` | backend/internal/httpapi/account_deletion_auth.go:48-105 | no code exactly when every unconsumed code of the phone has expired; otherwise, for the newest of the others, too many attempts from five on, success exactly for the right guess, and the row written; the table changes as one run of the protocol |
| `Sessions.TenSessionsAtMost` | backend/internal/httpapi/sessions.go:65-103 | in every serial run a user has at most ten sessions that are neither revoked nor expired |
| `SessionRaces.OverlappingCreations` | backend/internal/httpapi/sessions.go:65-106 | when creations overlap and none sees k others of its user commit between its choice and its own commit, the user has at most 9 + k active sessions |
| `Sessions.CreateKeepsNine` | backend/internal/httpapi/sessions.go:77-93 | a new session displaces nothing below ten, otherwise all but the nine most recently used |
| `Sessions.EvictionInColumns` | backend/internal/httpapi/sessions.go:77-93 | which sets of sessions a creation may revoke: none below ten, otherwise all but nine that were used, or created, last |
| `Sessions.CreatedRows` | backend/internal/httpapi/sessions.go:65-106 | all rows after a creation: those expired or revoked 30 days ago dropped, the evicted ones revoked, the new one lasting 60 days |
| `Sessions.RefreshedRows` | backend/internal/httpapi/sessions.go:147-167 | all rows after a refresh |
| `Sessions.LoggedOut` | backend/internal/httpapi/sessions.go:212-218 | logging out revokes exactly the session with the token, an earlier revocation stands, and the token finds no session from then on |
| `Sessions.ActionRows` | backend/internal/httpapi/sessions.go:65-218 | what the statements of overlapping requests write, column by column |
| `Sessions.RefreshRotates` | backend/internal/httpapi/sessions.go:137-168 | a refresh hands exactly the active session with the token over to the new token for sixty days, and does nothing for any other token |
| `Sessions.InactiveForever` | backend/internal/httpapi/sessions.go:65-218 | in a serial run an inactive session never becomes active again |
| `Sessions.TokenWorksOnce` | backend/internal/httpapi/sessions.go:137-183 | in every interleaving each refresh token is accepted at most once and then belongs to no session |
| `Sessions.RevokedIsFinal` | backend/internal/httpapi/sessions.go:137-168 | in every interleaving a revoked session is never rotated, not even by refreshes already under way: its row stays as it is until it is dropped, and does not come back |
| `Sessions.SessionTable.SessionsToRevoke` | backend/internal/httpapi/sessions.go:77-93 | the active sessions past the nine most recently used |
| `Sessions.SessionTable.CreateSession` | backend/internal/httpapi/sessions.go:65-106 | prunes, evicts and inserts as one serial step and keeps the bound |
| `Sessions.SessionTable.RefreshSession` | backend/internal/httpapi/sessions.go:137-183 | succeeds exactly for the token of an active session |
| `StorageLaws.StepKeepsValid` | backend/internal/storage/deletion_worker.go:55-187 | every transaction, object call and journal write, with crashes anywhere, keeps: live files have objects, only dead paths are queued or recorded, tombstones precede removal, leases exclude each other |
| `StorageLaws.RunKeepsValid` | backend/internal/storage/deletion_worker.go:55-187 | the invariant holds in every run |
| `Restore.DeletionIsDurable` | backend/internal/storage/deletion_worker.go:55-187 | in every run a path that lost its file row is still queued, or its object is gone with its tombstone recorded; a removed object stays removed and recorded |
| `Restore.OneWorkerPerRow` | backend/internal/storage/deletion_worker.go:123-136 | of two claims on one outbox row in any run, one is older than the 30 seconds that its work may take |
| `Restore.RowLeavesWhenGone` | backend/internal/storage/deletion_worker.go:160-168 | a row leaves the outbox only when its object is gone and recorded |
| `Restore.QueuedCanBeRemoved` | backend/internal/storage/deletion_worker.go:50-94 | from every state a queued object can still be removed and its row completed |
| `Restore.RunEvolves` | backend/internal/storage/s3.go:287-303 | ledgers and history only grow, and an object leaves the bucket only by a recorded removal |
| `Restore.RestoreIsSafe` | backend/scripts/restore.sh:210-292 | restoring a dump and a later upload copy and replaying the current ledger re-establishes the invariant, forgets nothing and removes exactly the journaled accounts and recorded paths from the rows, and from the copy exactly the objects recorded, queued or of rows removed |
| `Restore.RestoreAfterRun` | backend/scripts/restore.sh:210-292 | for every run, every earlier dump and every copy in between: when every upload named its project without braces the restore runs to its end and has all these properties |
| `Restore.AttemptIsSafe` | backend/scripts/restore.sh:210-292 | whatever the recorded keys are, a restore is refused and changes nothing, or stops with the right rows and the copied objects, or completes soundly |
| `Restore.AttemptRules` | backend/scripts/restore.sh:210-258 | a restore runs to its end exactly when every recorded key is accepted, at most 999999000 are recorded, and every path queued in the dump or lost by the replay is accepted; it is refused exactly when a recorded key is not |
| `Restore.RefusedForever` | backend/scripts/apply-deletion-tombstones.py:13-29 | once a key is recorded that the restore rejects, every later restore is refused |
| `Restore.RefusalIsReached` | backend/internal/httpapi/file_upload.go:139-164 | one failed upload that named its project in braces leads there |
| `Restore.RestoresAreSafe` | backend/scripts/restore.sh:210-292 | through any number of restores between any other steps the invariant holds, and no deleted account and no removed object is ever back |
| `DeletionWorker.RetryDelayGrows` | backend/internal/storage/deletion_worker.go:189-199 | the retry delay starts at five seconds, doubles, and is an hour from the eleventh attempt on |
| `StorageRows.DelayTable` | backend/internal/storage/deletion_worker.go:189-199 | the delay for each number of attempts |
| `StorageRows.SoftDeleted` | backend/internal/httpapi/files.go:258-306 | marking files deleted and queueing the paths of those not marked before: unlocked, due at once, never tried, and rows queued earlier as they were |
| `StorageRows.AccountDeleted` | backend/internal/httpapi/account.go:39-84 | an account takes the uploads of the user and all files of the user's projects with it and queues their paths, only once its deletion is in the ledger |
| `StorageRows.UploadRows` | backend/internal/httpapi/file_upload.go:81-118 | an object is put under a new path before its row is inserted; only a path that no undeleted row has is removed |
| `StorageRows.ClaimedRow` | backend/internal/storage/deletion_worker.go:121-136 | a row is claimed exactly when it is due and not locked, for 300 seconds |
| `StorageRows.RemovalSteps` | backend/internal/storage/s3.go:287-303 | tombstone first, then the object, within 30 seconds of a claim |
| `StorageRows.ClaimEnds` | backend/internal/storage/deletion_worker.go:160-187 | how a claim ends: the row removed, put off by the delay of its attempts so far with one attempt more, or given back as due |
| `StorageRows.RemovalEnds` | backend/internal/httpapi/files.go:308-347 | how a removal outside the worker ends: the path leaves the outbox, or is queued |
| `DeletionWorker.DueIsClaimable` | backend/internal/storage/deletion_worker.go:122-130 | the rows a worker looks for are exactly those that a claim takes |
| `DeletionWorker.FileStore.SoftDeleteFiles` | backend/internal/httpapi/files.go:258-306 | marks the rows and queues exactly the paths that were not deleted before, in one step |
| `DeletionWorker.FileStore.DeleteAccount` | backend/internal/httpapi/account.go:39-84 | the ledger is written before the commit: a failure there changes nothing, a failing commit leaves only the ledger entry |
| `DeletionWorker.FileStore.OldestDue` | backend/internal/storage/deletion_worker.go:122-131 | a due and unlocked row that has waited longest, or none if none is due |
| `DeletionWorker.FileStore.ClaimBatch` | backend/internal/storage/deletion_worker.go:113-158 | at most ten different due rows, fewer only when no due row is left, none of the remaining having waited longer; as a run of the protocol |
| `DeletionWorker.FileStore.Delete` | backend/internal/storage/s3.go:287-303 | the tombstone is written first; the object is gone and recorded exactly on success |
| `DeletionWorker.FileStore.Process` | backend/internal/storage/deletion_worker.go:74-90 | a worker on its row is a run of the protocol: complete success empties the row, a failed removal reschedules it with one more attempt, others are untouched |
| `DeletionWorker.FileStore.ProcessBatch` | backend/internal/storage/deletion_worker.go:55-94 | a whole pass is the run that claims the rows and then works with any failures or, after a stop in the middle, releases; every interleaving of the rows' goroutines ends in the same state; it asks for another pass exactly after a full, uninterrupted batch |
| `BatchOrder.OrderDoesNotMatter` | backend/internal/storage/deletion_worker.go:68-93 | workers with claims on different rows leave the same state however their statements, object calls and journal writes interleave |
| `DeletionJournal.Load` | backend/scripts/apply-deletion-tombstones.py:32-74 | succeeds exactly when every entry of the directory is a sound event or an expected directory, and then yields exactly the accounts and objects of the events |
| `DeletionJournal.DirectoriesDoNotMatter` | backend/scripts/apply-deletion-tombstones.py:36-44 | the directories that come with the event files do not change what is loaded |
| `DeletionJournal.JournalRoundTrip` | backend/scripts/apply-deletion-tombstones.py:32-74 | loading gives back exactly what the API recorded if and only if the restore accepts every recorded key and no two keys share a digest |
| `DeletionJournal.RejectedKeyFailsTheLoad` | backend/internal/storage/s3.go:345-362 | one recorded key that the restore does not accept fails the whole load |
| `DeletionJournal.AcceptedKeys` | backend/internal/storage/key.go:9-22 | the API's and the restore's key rules differ exactly in characters and length, and the rule for parts already excludes the empty key and a leading slash |
| `DeletionJournal.AccountIsRecorded` | backend/internal/storage/s3.go:343-352 | the API records exactly hyphenated UUIDs of either letter case, in lower case |
| `DeletionJournal.TombstoneRules` | backend/scripts/apply-deletion-tombstones.py:38-72 | a tombstone is taken exactly with version 1, an acceptable content and the path that the content determines |
| `StorageKeys.SegmentRules` | backend/internal/storage/key.go:16-20 | a key is cut at its slashes, and no part may be empty or one or two dots |
| `StorageKeys.GeneratedKeys` | backend/internal/httpapi/file_upload.go:163-164 | the API accepts every key an upload generates; the restore accepts it if and only if the project was named without braces |
| `StorageKeys.BracedUploadStopsRestores` | backend/internal/httpapi/file_upload.go:139-164 | an upload that names its project in braces is possible, and once its key is recorded the journal does not load |
| `DeletionJournal.ReplayStatements` | backend/scripts/apply-deletion-tombstones.py:77-84 | executing the generated SQL on any tables removes exactly the accounts, their uploads and projects' files, and the recorded paths |
| `DeletionBatches.BatchNameFits` | backend/scripts/apply-deletion-tombstones.py:119-123 | the six-digit name pattern matches exactly up to file 999999 |
| `DeletionBatches.BatchDirectory.Write` | backend/scripts/apply-deletion-tombstones.py:111-123 | fails exactly on a foreign file name, otherwise the directory holds exactly the requests for the sorted keys |
| `DeletionBatches.BatchDirectory.Read` | backend/scripts/apply-deletion-tombstones.py:90-108 | yields exactly the listed keys, or fails on any foreign name or unacceptable key |
| `DeletionBatches.BatchesHold` | backend/scripts/apply-deletion-tombstones.py:117-123 | the requests list exactly the keys, one to a thousand each |
| `DeletionBatches.BatchRoundTrip` | backend/scripts/apply-deletion-tombstones.py:90-123 | what was written reads back whole if and only if every key is acceptable and 999999 files suffice |
| `DeletionBatches.BatchDirectory.AddQueued` | backend/scripts/apply-deletion-tombstones.py:126-168 | rewrites the requests to the union with the queued paths, or fails |
| `DeletionBatches.PrepareRestore` | backend/scripts/apply-deletion-tombstones.py:77-168 | a whole preparation deletes exactly the union of journaled and queued objects, or stops, with the exact condition |
| `ExpenseChunks.Compact` | backend/internal/httpapi/expense_ai_providers.go:149-174 | keeps the encodable records before the first that would bring two or more above 16384 bytes; the list comes back whole exactly when all of it encodes and fits |
| `ExpenseChunks.EncodableInOrder` | backend/internal/httpapi/expense_ai_providers.go:163-166 | what is kept are exactly the records that encode, in their order |
| `ExpenseChunks.BytesInNumbers` | backend/internal/httpapi/expense_ai_providers.go:151-171 | the bytes counted are the two brackets, the records and a separator for each |
| `ExpenseChunks.Split` | backend/internal/httpapi/expense_ai.go:200-223 | the loop computes the greedy grouping |
| `ExpenseChunks.AcceptableInNumbers` | backend/internal/httpapi/expense_ai.go:207-216 | a chunk is one expense, or 2 to 100 that all encode and stay within 16384 bytes together |
| `ExpenseChunks.SplitIsOptimal` | backend/internal/httpapi/expense_ai.go:200-223 | the chunks concatenate to the input, each is acceptable, and no other cut into acceptable chunks has fewer |
| `ExpenseChunks.ChunksReachThePrompt` | backend/internal/httpapi/expense_ai_providers.go:185-189 | every chunk survives compaction whole, except a single expense that cannot be encoded; two or more records stay below the prompt limit |
| `ExpenseSearch.AskProviders` | backend/internal/httpapi/expense_ai_providers.go:111-132 | the answer is that of the first provider that replies, unless the search is cancelled before; otherwise a failure |
| `ExpenseSearch.SlotsAreRespected` | backend/internal/httpapi/expense_ai.go:242-264 | in every interleaving at most four chunks hold the semaphore |
| `ExpenseSearch.SlotIsGranted` | backend/internal/httpapi/expense_ai.go:248-249 | a waiting chunk gets a slot exactly when fewer than four have one |
| `ExpenseSearch.NeverStuck` | backend/internal/httpapi/expense_ai.go:242-264 | as long as a chunk is not done some goroutine can move |
| `ExpenseSearch.RunGoroutines` | backend/internal/httpapi/expense_ai.go:242-264 | counting free slots in the semaphore gives the interleaving of the schedule |
| `ExpenseSearch.ScheduleDoesNotMatter` | backend/internal/httpapi/expense_ai.go:234-265 | whatever the interleaving, a finished chunk has in its own slot the answer of the first of its providers that replies, and failed if none does or the search is cancelled first |
| `ExpenseSearch.Merge` | backend/internal/httpapi/expense_ai.go:267-316 | the loop yields the distinct identifiers, provider and model names in order of first appearance, the shortened summaries and the two counts |
| `ExpenseSearch.FirstSeenInOrder` | backend/internal/httpapi/expense_ai.go:282-303 | distinct names and identifiers stand in the order of their first appearance |
| `ExpenseSearch.PartsListed` | backend/internal/httpapi/expense_ai.go:282-306 | names and summaries are those of the answered chunks that have them, in chunk order |
| `ExpenseSearch.SummaryIsShort` | backend/internal/httpapi/expense_ai_providers.go:176-183 | a summary is trimmed, and cut at 300 characters |
| `ExpenseSearch.TrimmedOf` | backend/internal/httpapi/expense_ai_providers.go:176-177 | trimming takes off all blanks at both ends and nothing else |
| `ExpenseSearch.CountsAre` | backend/internal/httpapi/expense_ai.go:274-281 | the counts are the numbers of failed chunks and of expenses in the other chunks |
| `ExpenseSearch.SelectionIsUnion` | backend/internal/httpapi/expense_ai.go:296-305 | an identifier is wanted in the end exactly when some answered chunk mentions it, with or without blanks around it |
| `ExpenseSearch.RunChunks` | backend/internal/httpapi/expense_ai.go:225-316 | for every schedule that finishes, the merged answer is that of the chunks' own outcomes, and the error is absent exactly when every expense was analyzed |
| `ExpenseSearch.Search` | backend/internal/httpapi/expense_ai.go:104-140 | for every schedule that finishes, the returned expenses are exactly those, each at its place in the original order, that an answered chunk mentions or, after an error, that match locally; the search is complete exactly when all expenses were analyzed |
| `ExpenseSearch.ChosenInOrder` | backend/internal/httpapi/expense_ai.go:404-436 | the selection is exactly the wanted expenses, each at its place in the original order |
| `ExpenseSearch.ValidSelection` | backend/internal/httpapi/expense_ai.go:404-418 | the loops select exactly the expenses whose identifier is named |
| `ExpenseSearch.MergeSelections` | backend/internal/httpapi/expense_ai.go:420-436 | the loops select exactly the expenses whose identifier is in some selection and not empty |
| `PlanCapacityLaws.AddsStayWithinPlan` | backend/internal/httpapi/subscription_limits.go:182-244 | every step that activates a project or adds a member ends within the limit of the owner's current, paying plan |
| `PlanCapacityLaws.MostIsAttained` | backend/internal/httpapi/subscription_limits.go:24-50 | the highest limits are those of a plan the owner has held |
| `PlanCapacityLaws.LimitsHold` | backend/internal/httpapi/subscription_limits.go:182-244 | in every run and interleaving an owner's active projects and a project's non-owner members never exceed the highest limit among the plans the owner has held |
| `PlanCapacityLaws.PlacesHold` | backend/internal/httpapi/project_team.go:209-250 | when each invitation is sent in one piece, members and pending invitations together stay within that limit, with one pending invitation per phone |
| `SplitInvites.SplitInvitesExact` | backend/internal/httpapi/project_team.go:209-250 | when the checks of any number of invitations all pass before the first is inserted, the limit holds afterwards if and only if there were as many free places as distinct phones without a pending invitation |
| `SplitInvites.InsertionIsExact` | backend/internal/httpapi/project_team.go:240-250 | wherever it runs, an insertion takes one place and keeps the limit if and only if a place is free then |
| `SplitInvites.SendsCount` | backend/internal/httpapi/project_team.go:233-250 | closing and inserting for any number of invitations takes one place for each distinct phone that had none |
| `SplitInvites.OverflowIsReached` | backend/internal/httpapi/project_team.go:209-250 | a run that starts with nothing but a paying owner and ends with six pending invitations in a project for five members |
| `PlanCapacityLaws.InviteIsThreeSteps` | backend/internal/httpapi/project_team.go:209-250 | an invitation in one piece is check, closing earlier ones and inserting, in that order |
| `PlanCapacityLaws.ActivationIsExact` | backend/internal/httpapi/projects.go:463-475 | creating or restoring takes exactly one place if the plan has one, and changes nothing otherwise |
| `PlanCapacityLaws.AddingIsExact` | backend/internal/httpapi/project_team.go:144-185 | adding a known user takes exactly one place and ends the pending invitations of the phone, or changes nothing |
| `PlanCapacityLaws.InvitationIsSpent` | backend/internal/httpapi/project_team.go:297-341 | an invitation is good for one acceptance, by token or at sign-in: whatever happens in between, every later attempt changes nothing |
| `CapacityRows.ChecksInNumbers` | backend/internal/httpapi/subscription_limits.go:182-244 | both checks pass exactly in a running trial or paid period with fewer than 1, 5 or 20 active projects, or 0, 5 or 20 members and pending invitations of other phones |
| `CapacityRows.FirstProject` | backend/internal/httpapi/subscription_limits.go:182-205 | within 30 days of registration a user without a subscription row and without a project gets the first one |
| `CapacityRows.ProjectRows` | backend/internal/httpapi/projects.go:194-239 | creating, restoring and archiving in full, exactly with room |
| `CapacityRows.AddedRows` | backend/internal/httpapi/project_team.go:148-191 | adding a known user in full: only below owner, not twice, exactly with room, closing the invitations of the phone |
| `CapacityRows.AcceptedRows` | backend/internal/httpapi/project_team.go:297-343 | accepting by token and at sign-in in full: by whom, when, with which role, and what happens without room |
| `CapacityRows.InvitationRows` | backend/internal/httpapi/project_team.go:209-250 | the three commits of an invitation, which lasts seven days |
| `CapacityRows.RoleRows` | backend/internal/httpapi/project_team.go:395-418 | roles change and members leave, except the owner; nobody becomes owner |
| `CapacityStore.Tables.CountActiveProjects` | backend/internal/httpapi/subscription_limits.go:193-199 | the row-by-row count is the number of active projects of the owner |
| `CapacityStore.Tables.EnsureProjectCreationAllowed` | backend/internal/httpapi/subscription_limits.go:182-205 | expired exactly when the row left is expired, the limit reached exactly at 1, 5 or 20 active projects, allowed exactly with room for one more; then one more is within the highest limit of the plans held; the limits still hold |
| `CapacityStore.Tables.CountParticipants` | backend/internal/httpapi/subscription_limits.go:226-238 | the row-by-row count is the number of members without the owner and of other phones' pending invitations |
| `CapacityStore.Tables.EnsureProjectMemberCapacity` | backend/internal/httpapi/subscription_limits.go:207-244 | expired exactly when the row left is expired, the limit reached only from 0, 5 or 20 participants on, allowed exactly with room for one more; then one more is within the highest limit of the plans held; the limits still hold |
| `CapacityStore.Tables.CreateProject` | backend/internal/httpapi/projects.go:194-239 | one creating step, rolled back when refused, that keeps all limits |
| `CapacityStore.Tables.SetActive` | backend/internal/httpapi/projects.go:444-516 | one restoring or archiving step that keeps all limits |
| `CapacityStore.Tables.AddKnownUser` | backend/internal/httpapi/project_team.go:148-191 | one adding step that keeps all limits; a new member has no pending invitation left |
| `CapacityStore.Tables.InviteNewPhone` | backend/internal/httpapi/project_team.go:209-250 | the three commits with nothing in between: checked, earlier ones closed, inserted, within all limits |
| `CapacityStore.Tables.InsertInvitation` | backend/internal/httpapi/project_team.go:240-250 | the last commit by itself keeps the limit exactly when a place is free then |
| `CapacityStore.Tables.AcceptInvite` | backend/internal/httpapi/project_team.go:284-352 | one acceptance by token, rolled back when refused, that makes the user a member within all limits |
| `CapacityStore.Tables.AcceptPendingInvites` | backend/internal/httpapi/auth.go:302-330 | the sign-in loop is the run of one acceptance per pending invitation, refused ones skipped |
| `MultipartUpload.PlanIsSound` | backend/internal/storage/s3.go:202-229 | only the two size refusals ever happen, above 53687091200000 bytes and up to the threshold; otherwise the part size is whole mebibytes between 64 MiB and 5 GiB, at most 10000 parts, (count-1)*part < size <= count*part, and no smaller such part size would do |
| `MultipartUpload.PlanDoesNotOverflow` | backend/internal/storage/s3.go:202-229 | sizes stay within 64 bits and part counts within 32 |
| `MultipartUpload.Bucket.PutMultipart` | backend/internal/storage/s3.go:136-196 | succeeds exactly when everything goes well and the source is long enough; then the planned number of parts, numbered from one, concatenates to the first size bytes, which become the object; otherwise no object changes and the upload is aborted |
| `SigningKeys.HasLongSequentialRun` | backend/internal/config/config.go:686-721 | true exactly when some twelve consecutive characters are alphanumeric and step by +1 throughout or by -1 throughout |
| `SigningKeys.RunOfTwelve` | backend/internal/config/config.go:686-721 | what is looked for: twelve bytes whose ranks count up or down by one from the first |
| `SigningKeys.RankOfByte` | backend/internal/config/config.go:723-735 | the rank of each byte: digits, then letters of either case |
| `SigningKeys.HasRepeatedPattern` | backend/internal/config/config.go:670-684 | true exactly when for some period p in 1..16 with 2p at most the length every byte equals the one p places before |
| `RealtimeHub.RunKeepsValid` | backend/internal/httpapi/realtime.go:45-95 | in every run, with publications interleaving send by send, at most 256 subscribers and 8 per user, fresh identifiers, bounded queues, only open queues subscribed, and every call on record once at each queue it has sent to |
| `RealtimeHub.ReceivedInOrder` | backend/internal/httpapi/realtime.go:45-95 | what a client received and still has queued is, in order, part of what was offered to it, and all of it exactly when no offer found its queue full |
| `RealtimeHub.EnterTakesAll` | backend/internal/httpapi/realtime.go:79-88 | a publication is for exactly the open queues of its users that are for its project or for all when it takes the shared lock |
| `RealtimeHub.OfferedOnce` | backend/internal/httpapi/realtime.go:79-95 | a finished publication was offered exactly once to each of these queues and to no other |
| `RealtimeHub.SendsMeetOpenQueues` | backend/internal/httpapi/realtime.go:68-95 | while a publication is under way all its queues stay open, so that no send meets a closed one |
| `RealtimeHub.SendReaches` | backend/internal/httpapi/realtime.go:88-93 | a send reaches the end of its queue unless that holds 32, whatever else is under way |
| `RealtimeHub.QueueRows` | backend/internal/httpapi/realtime.go:68-76 | unsubscribing closes the queue with what it holds, and a client takes the oldest payload, also after that |
| `RealtimeHub.LaterCallsComeLater` | backend/internal/httpapi/realtime.go:79-95 | a publication that starts after another has finished comes after it in every queue |
| `RealtimeHub.OverlappingCallsMayCross` | backend/internal/httpapi/realtime.go:79-95 | a concrete run in which two overlapping publications reach two clients in opposite orders |
| `RealtimeHub.SubscribeIsAdmitted` | backend/internal/httpapi/realtime.go:45-67 | with the lock free, a subscription is refused exactly at a limit and otherwise gets a fresh identifier and an empty queue |
| `RealtimeHub.ClosedStaysClosed` | backend/internal/httpapi/realtime.go:68-76 | a closed queue is never sent to again in any run, and loses nothing it held |
| `RealtimeHub.Hub.CountConnections` | backend/internal/httpapi/realtime.go:52-57 | the loop counts exactly the subscribers of the user |
| `RealtimeHub.Hub.Subscribe` | backend/internal/httpapi/realtime.go:45-77 | subscribes exactly below both limits, as the step does |
| `RealtimeHub.Hub.Unsubscribe` | backend/internal/httpapi/realtime.go:68-76 | only the first call of the closure does anything |
| `RealtimeHub.Hub.Publish` | backend/internal/httpapi/realtime.go:79-95 | the loop enters, sends to exactly the open queues the event is for, each once and never to a closed one, and leaves |

## Left out

- HTTP decoding, authentication of requests, status codes, logging, audit rows, SMS, push and AI provider clients: input and output around the transactions.
- The SQL engine: a committed transaction is one step; where transactions overlap, row locks, advisory locks and the re-check of a row after waiting for its lock are steps of their own.
- Identifiers, phones, addresses, tokens and paths are numbers or strings that are only compared; generated ones are fresh, hashes and signatures do not collide (except that `DeletionJournal.JournalRoundTrip` says when digests matter).
- PaymentLaws.StepKeepsValid: `ensureSubscription` is one step, as it is with the row locked; without the lock (subscription_auth.go:29, subscriptions.go:82) it is split in `ExpiryRaces`.
- Deleting an account together with its orders and subscription: the payment model has no user deletion, the storage model does.
- `planPrice`, `safeIdempotencyKey`, payment links and the throttling of status polls (`status_checked_at`): a lookup, a character test, text and a timer; polling is modelled by the bank results and status changes it issues.
- The deadlock freedom of order and subscription row locks, which are taken in opposite orders: only the advisory locks are proved free of it.
- AuthLimiterLaws.WindowsAreBounded: a row counts at the time its transaction began, as the table records it.
- OneTimeCodes.StepKeepsValid: a verification may choose any usable code of the phone, which includes the newest one that the query prefers; creating the user and accepting invitations inside the same transaction is modelled in `PlanCapacity`.
- OneTimeCodes.ExpiredCodesAreNotTried: a code expires 300 seconds after its row is created; the API computes the expiry a moment before it inserts the row (auth.go:111-118), and new sessions likewise (sessions.go:96-99).
- Sessions.TenSessionsAtMost: holds for creations that do not overlap, because the handler takes no lock on the user; `SessionRaces.OverlappingCreations` bounds the others, with other sessions' requests serial.
- Restore.RestoreIsSafe: an upload in progress during the dump is not restored; an account whose deletion was journaled but not committed is deleted by a restore; the bucket is taken to be empty of anything the copy does not hold.
- DeletionWorker.FileStore.ProcessBatch: a batch takes no time; elapsed time, requests in between and crashes are in `StorageDeletion`, where expired contexts appear as failures.
- Restore.RestoresAreSafe: the restores in a history run to their end; what one leaves that stops in the middle is in `Restore.AttemptIsSafe`, and operation does not continue from there before one completes.
- CapacityStore.Tables.InviteNewPhone: nothing comes between its three commits; what may is in `SplitInvites`.
- SplitInvites.SplitInvitesExact: all checks come first and the clock stands still; any other order is covered insertion by insertion by `SplitInvites.InsertionIsExact`.
- RealtimeHub.Hub.Publish: sends of other calls come between its own in the runs of `Step`, not in the method.
- The development-only endpoint that stores file metadata for a path of the caller's choice, and the local file store.
- DeletionBatches.BatchDirectory.Write: takes the keys in sorted order; which order that is does not matter to the result. JSON and hexadecimal coding are taken as exact.
- The canonical-path check of the restore script (apply-deletion-tombstones.py:27-28), which the segment check before it already implies.
- ExpenseSearch.Merge: names and summaries are lists before they are joined to one text; amounts per currency are floating-point sums.
- ExpenseSearch.Search: the local matches are an input, and questions that ask for a total do not reach a provider.
- PlanCapacity: role checks of the caller and the two reads before the direct-add transaction, whose outcome the transaction checks again.
- MultipartUpload.Bucket.PutMultipart: the threshold is not negative, as its only caller passes a positive constant.
- RealtimeHub: subscriber numbers do not wrap around at 2^64.
- The entropy estimate and the other conditions of the configuration check: floating point and flat lists.
