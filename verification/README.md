# Verified model of the money and delivery protocols

This project models the parts of the SMS and number-lookup platform where several workers
change shared rows, and proves what those parts are there for: no money is lost or posted
twice, no message is sent again without cause, and every loop ends.

* **Prepaid wallet** (`Ledger`, `KeyTexts`, `Books`, `Transactions`, `Settlements`,
  `BillingService`, `Effects`). The books of one client: wallet, ledger, priced messages, lookup
  jobs and items. `Books` gives every database transaction as a function from books to books;
  `Transactions` proves that every run of them keeps one invariant; `Settlements` reads the
  money laws off that invariant; `Effects` says in numbers what each transaction does to the
  balances; `BillingService.Service` is the service itself, a class whose methods have the
  branches, checks, retries and error returns of the program and are proved to do exactly what
  the transactions say. Amounts are integers in micro-units.
* **Outbox** (`Outbox`, `OutboxRuns`, `OutboxSafety`, `OutboxFaults`). One send job, any number
  of workers, every SQL statement and provider call one step, workers stopping anywhere. A
  claim history records what each worker read, whether it sent, and how its claim ended.
* **Submit idempotency** (`Requests`, `Submit`, `SubmitRuns`, `SubmitSafety`). The in-memory
  request store as a class, and concurrent submitters stepping through find, save, HTTP and
  update.
* **One message end to end** (`SmsFlow`, `SmsSafety`, `SmsLocks`). A message, its send job and its hold
  under outbox workers, delivery reports, reconciliation and the reaper, composed from
  `Outbox`, `Messages` and `Books`.
* **Lookup items** (`ProviderMapping`, `LookupFlow`, `LookupSafety`, `LookupPolling`). Submit,
  poll, callback, stale-fail, reaper and enrichment racing on the items of the same books.
* **Client purge** (`Purge`, `PurgeService`), **token bucket** (`TokenBucket`, `RateLaws`),
  **segment counting** (`Segments`), **statistics matching** (`Statistics`), **message status**
  (`Messages`) and **phone numbers** (`Phones`).

Step relations are total functions: a step that is not enabled changes nothing, so a statement
about all step sequences covers every interleaving. Environment choices (provider answers,
failed reads and writes, lost locks, clock readings) are parameters of the steps.

## Where the code and its intent differ

* docs/architecture/QUEUES.md:28 says that a send answered with an HTTP 5xx is never sent
  again. The code can send again: `OutboxFaults.SendAfterFault` and
  `OutboxFaults.SendAfterFaultReadsOk` give the exact conditions, and
  `FirstFaultIsNotFinal` and `StaleWorkerSendsAfterFault` give runs. A failed read of the
  latest attempt counts as "no 5xx", a worker past its lock touch is never called back, and a
  late answer of the same attempt number is stored over the 5xx.
* Enrichment rewrites the result of a failed lookup item after it ended, so a release still
  owed by a worker can be overtaken by the reaper's capture, or a capture by a release.
  `LookupSafety.EnrichFlips` says exactly which enrichments do that to which items,
  `LookupSafety.SettledByCause` that without such an enrichment worker and reaper agree in
  every run, `LookupSafety.FlipMisjudges` that each of them makes the reaper misjudge, and
  `LookupSafety.EnrichmentOvertakesRelease` gives a run. Inside one provider update, an
  enrichment answer "unknown" over a provider failure turns the capture into a release;
  `LookupSafety.Verdict` is that rule.
* The hold of a message that is marked accepted can be released. It takes, while the hold is
  open, one of these: a lock taken from a worker that is still to hear from the provider
  (`SmsLocks.LostLockReleases`: nobody dies and every write succeeds); a lock taken after its
  holder, dead or alive, has noted the acceptance (`SmsLocks.DeadHolderReleases`: the worker
  died between the mark and the capture); or an acceptance written while its worker goes on as
  if it was not (`SmsLocks.HalfNotedReleases`, `SmsLocks.HalfAcceptedReleases`).
  `SmsLocks.NotReleasedUndisturbed` proves that without these it never happens, also when the
  jobs of dead workers are taken up again, and `SmsSafety.AcceptedMayBeReleased` says of every
  state whether it still can. `SmsLocks.ChargedIfAccepted` shows that the gap is between mark
  and capture: it could not happen, lost locks or not, if those two were one step.
* A submitter that dies between save and update blocks its key for ever in the in-memory store
  (`SubmitSafety.DeadSubmitterBlocks`; `SubmitSafety.DeadSubmitterExists` gives the run).
* The 120 s expiry of a token bucket is invisible for both workers at every rate the settings
  accept, but not for the send endpoint, whose burst is at least 20
  (internal/http/client/messages.go:124-133): `RateLaws.SendEndpointFillsInTime`.
* The transition table at internal/lookup/state.go:8-24 is not what the updates enforce.
  `LookupSafety.OffTheTable` says exactly which moves leave it, and
  `LookupSafety.CallbackCompletesQueued` gives a run in which a callback completes a queued
  item. What does hold is that the rank never falls.

## Model

| member | source | states |
|---|---|---|
| `Ledger.HeldIsOutstanding` | internal/billing/ledger.go:7-40 | replaying any ledger whose debits and releases name a hold, `held` is what the holds have open |
| `Ledger.MoneyIsConserved` | internal/billing/ledger.go:7-40 | available plus held is credits and signed adjustments less debits |
| `Ledger.OutstandingCovers` | internal/billing/lookup.go:49-55 | what one hold has open is part of what all holds have open |
| `KeyTexts.KeyTextInjective` | internal/billing/lookup.go:33-47 | no two key builders give the same idempotency text |
| `KeyTexts.KeyTextsWritten` | internal/billing/service.go:48-50 | the texts of the nine key builders, letter by letter |
| `Books.Conservation` | internal/billing/service.go:308-369 | in books in order held is what the holds have open, money is conserved, and every row's recorded balances are the fold of the ledger up to it |
| `Books.NoHoldOverdrawn` | internal/billing/lookup.go:49-55 | no hold is ever settled beyond its amount |
| `Transactions.StepKeepsInv` | internal/billing/service.go:52-253 | every transaction keeps wallet, index, rows, messages, items and jobs in order |
| `Transactions.RunKeepsInv` | internal/billing/lookup_billing.go:53-403 | so does every run of them |
| `Transactions.NoRemainder` | internal/billing/lookup_billing.go:312-403 | in books in order the remainder-release transaction, with all its branches, changes nothing |
| `Transactions.RunConserves` | internal/billing/service.go:52-369 | in every run from an empty wallet held is what the holds have open, money is conserved, and folding any prefix of the ledger gives the balances recorded there |
| `Effects.ReserveEffect` | internal/billing/service.go:52-127 | one row of price times segments moves that much from available to held, exactly when the message is priced, the client and wallet are there, nothing was held before and the money is available; else nothing changes |
| `Effects.SettleEffect` | internal/billing/service.go:137-253 | on an open hold a capture lowers held alone, a release moves the amount back to available, each with one row that names the hold, and nothing but the action of that message changes |
| `Effects.NothingToSettle` | internal/billing/service.go:162-190 | a message or item that is missing, settled or without a hold is left alone |
| `Effects.TopUpEffect` | internal/billing/service.go:263-369 | a top-up under a new key raises available by its amount and leaves held alone; a refused or repeated one changes nothing |
| `Effects.AdjustEffect` | internal/billing/service.go:287-369 | an adjustment under a new key lowers available if it is a debit and raises it otherwise, by its amount; it happens exactly when the result is not negative or that is allowed |
| `Effects.CreateJobEffect` | internal/lookup/create.go:208-259 | a new job lists one queued item per id and holds price times their number, or changes nothing |
| `Effects.SettleItemEffect` | internal/billing/lookup_billing.go:152-284 | an item is captured at its price, which becomes its cost, or released at its price; no other item changes |
| `Effects.RemainderEffect` | internal/billing/lookup_billing.go:312-403 | on any books, past all its checks the remainder release gives back exactly what the hold has left |
| `Effects.RemainderWaits` | internal/billing/lookup_billing.go:312-352 | it does nothing while one item is open or not posted |
| `Effects.DeletedClient` | internal/billing/service.go:137-161 | for a deleted client nothing is reserved, settled or released, and a new job is listed without a hold |
| `Effects.DeletedForGood` | internal/billing/service.go:52-253 | in every run, whatever came before, after the deletion of the client held never changes again and every further row is a credit or an adjustment |
| `Effects.ReaperJudges` | internal/billing/service.go:403-420 | an unsettled message is captured exactly if it was accepted, and released exactly if it was not, failed, and its job is dead |
| `Effects.ItemJudged` | internal/billing/lookup.go:69-93 | an unsettled item is captured exactly if it completed or its result is the provider's final word, released exactly if it failed otherwise |
| `Effects.SettledJudged` | internal/billing/lookup.go:69-93 | a settled message or item keeps its own action |
| `Settlements.SmsHoldClosedOnce` | internal/db/sqlc/billing.sql.go:242-254 | an SMS hold has at most one closing row, for its full amount; there is one exactly when billing_action is set, and it names that row |
| `Settlements.SmsSettlementIsFinal` | internal/billing/service.go:137-253 | sanity check of one step: repeating or contradicting a settlement changes nothing |
| `Settlements.SmsAmount` | internal/billing/service.go:52-127 | in every run from an empty wallet the hold of a message is for its price times its billed segments, and a captured message was debited, a released one given back, exactly that |
| `Settlements.SettledForever` | internal/billing/service.go:137-253 | over every run the ledger only grows, and no message or item ever loses or changes its billing action |
| `Settlements.ItemPostedOnce` | internal/billing/lookup_billing.go:171-203 | at most one DEBIT or RELEASE per lookup item, for exactly its share, as billing_action and actual cost say |
| `Settlements.ItemSettlementIsFinal` | internal/billing/lookup_billing.go:171-203 | sanity check of one step: a second settlement of an item changes nothing |
| `Settlements.JobHoldRemaining` | internal/billing/lookup_billing.go:205-224 | what a job's hold has left is its unit price times its items without a billing action, zero exactly when there are none; a job without a hold has nothing posted |
| `Settlements.JobHoldClosers` | internal/db/sqlc/lookup_billing.sql.go:320-325 | the rows that close a job's hold are, one for one, the rows of its posted items, each for the item's price and of the kind its action names |
| `Settlements.NeverOverdrawn` | internal/billing/ledger.go:31-40 | without an adjustment that allows it, available never becomes negative |
| `BillingService.OpenHoldIsTheHold` | internal/db/sqlc/billing.sql.go:242-254 | the open-hold query finds the message's one hold exactly while the message is not settled |
| `BillingService.SettleBranches` | internal/billing/service.go:163-212 | in books in order no error branch of settle can be taken on a held message |
| `BillingService.SettleItemBranches` | internal/billing/lookup_billing.go:171-240 | "settled exceeds hold", "remaining less than share" and "exceeds held" cannot happen for an unsettled item |
| `Transactions.RemainderBranches` | internal/billing/lookup_billing.go:312-352 | when nothing blocks the remainder, nothing remains |
| `BillingService.Service.ReserveForMessage` | internal/billing/service.go:52-127 | new books and outcome of a reservation: price times segments moved from available to held, and each refusal exactly when it applies |
| `BillingService.Service.Settle` | internal/billing/service.go:137-253 | new books of a settlement; invariant kept |
| `BillingService.Service.CreditWallet` | internal/billing/service.go:263-369 | new books of a top-up, once per key: available rises by the amount; each refusal exactly when it applies |
| `BillingService.Service.AdjustWallet` | internal/billing/service.go:287-369 | new books of an adjustment, once per key: available falls or rises by the amount as the direction says; each refusal, overdrawing among them, exactly when it applies |
| `BillingService.Service.BuildItems` | internal/lookup/create.go:232-250 | exactly one queued item per phone, at the job's price |
| `BillingService.Service.CreateLookupJob` | internal/lookup/create.go:208-259 | job, items and hold appear together or not at all; each refusal exactly when it applies |
| `BillingService.Service.SettleLookupItemOnce` | internal/billing/lookup_billing.go:152-284 | new books; the only failure of an existing item is that it was settled the other way |
| `BillingService.Service.SettleLookupItem` | internal/billing/lookup_billing.go:138-150 | the retry loop changes nothing about that |
| `BillingService.Service.ReleaseRemainderOnce` | internal/billing/lookup_billing.go:312-403 | on any books with an exact index it is the remainder transaction; on books in order a successful no-op |
| `BillingService.Service.ReleaseRemainder` | internal/billing/lookup_billing.go:301-310 | and so is its retry loop |
| `BillingService.Service.ReapOpenHolds` | internal/billing/service.go:371-420 | exactly the listed messages with an open hold that can be judged end settled, as judged; the count is of the listed messages that can be judged |
| `BillingService.Service.ListUnsettled` | internal/db/sqlc/lookup_billing.sql.go:236-243 | lists the job's terminal items without billing action, each once |
| `BillingService.Service.ReapItems` | internal/billing/lookup_billing.go:425-440 | every listed item is settled as its row said when listed |
| `BillingService.Service.ReapOpenLookupHolds` | internal/billing/lookup_billing.go:405-449 | every terminal item of the listed jobs ends settled as its own row said, no other item changes, and the count is of the items that were unsettled |
| `Outbox.Classify` | internal/outbox/worker.go:630-651 | which answers count as accepted, rate limited, rejected or timeout, by HTTP status |
| `OutboxRuns.StepKeepsInv` | internal/outbox/worker.go:117-408 | every step keeps locks, claims, worker positions, records, marks and attempts consistent |
| `OutboxRuns.RunKeepsInv` | internal/db/sqlc/outbox.sql.go:15-282 | so does every run |
| `OutboxSafety.SendsInDoubt` | internal/outbox/worker.go:143-229 | in every interleaving the sends left in doubt number at most two plus the lost locks |
| `OutboxSafety.SendsInDoubtIsTight` | internal/db/sqlc/outbox.sql.go:253-264 | for every number of lost locks some run reaches that bound |
| `OutboxSafety.OneLockOwner` | internal/db/sqlc/outbox.sql.go:15-65 | at most one claim is held, the last one, by the worker the row names |
| `OutboxSafety.LostLockIsPowerless` | internal/db/sqlc/outbox.sql.go:105-115 | a worker without the lock changes neither the row nor the end of any claim |
| `OutboxSafety.FinalIsAbsorbing` | internal/db/sqlc/outbox.sql.go:215-227 | done and dead rows never change again |
| `OutboxSafety.FailedOnce` | internal/outbox/worker.go:306-321 | the message is marked failed at most once, for the claim whose park made the job dead |
| `OutboxSafety.OnlyTheParkerMarks` | internal/outbox/worker.go:306-321 | only the worker whose own park moved the job to dead can mark it |
| `OutboxSafety.HolderFinishes` | internal/outbox/worker.go:207-278 | sanity check of one step: the row a lock holder leaves after an answer, by HTTP status, and which answers cost an attempt |
| `OutboxSafety.HolderChecks` | internal/outbox/worker.go:143-189 | sanity check of one step: the row a lock holder leaves after a look at the statistics, and when it sends again |
| `OutboxSafety.HolderThrottles` | internal/outbox/worker.go:231-261 | a local limit or a missing adapter leaves the job to be claimed again, unlocked, with its attempt and the given note |
| `OutboxSafety.HolderDrops` | internal/outbox/worker.go:117-141 | a message or client that is gone leaves the job dead at the same attempt, and marks nothing |
| `OutboxSafety.ParkerMarks` | internal/outbox/worker.go:306-321 | the worker that made the job dead marks the message once and is through |
| `OutboxSafety.ReclaimDoubts` | internal/db/sqlc/outbox.sql.go:253-264 | a lock taken back leaves the job uncertain, to be looked up, with at least one attempt counted |
| `OutboxSafety.FinalOnlyBy` | internal/outbox/worker.go:117-321 | the only steps that make a row dead are a drop, a refused answer, and a look that finds nothing for a job out of attempts or with a 5xx; the only ones that make it done are an accepted answer and a match, each with its mark |
| `OutboxSafety.FinalHasCause` | internal/outbox/worker.go:117-321 | in every run from a fresh job, a row that is dead or done was made so by one of those steps of the run |
| `OutboxFaults.QuietRun` | internal/outbox/worker.go:143-189 | from the quiet states no run sends again |
| `OutboxFaults.SendAfterFault` | internal/outbox/worker.go:168-189 | after a recorded 5xx some run sends again exactly when another worker is past its touch or at most one attempt was counted |
| `OutboxFaults.SendAfterFaultReadsOk` | internal/outbox/worker.go:168-189 | with all reads of the latest attempt successful, exactly when a worker is past its touch or a stale answer of attempt one is still out |
| `OutboxFaults.FirstFaultIsNotFinal` | internal/outbox/worker.go:172-175 | a reachable run in which a send follows the first, recorded 5xx |
| `OutboxFaults.StaleWorkerSendsAfterFault` | internal/outbox/worker.go:191-204 | a reachable run in which a stale worker sends after a 5xx although every read succeeds |
| `Requests.Latest` | internal/smsc/persist.go:155-167 | the newest SEND of a key: of that key, and not older than any other |
| `Requests.LatestAfterInsert` | internal/smsc/persist.go:87-95 | a stored SEND becomes the latest of its key and of no other |
| `Requests.LatestAfterUpdate` | internal/smsc/persist.go:98-131 | an update never changes which row is the latest |
| `Requests.SaveDecides` | internal/smsc/persist.go:72-96 | a save without a tenant is refused, one whose newest SEND succeeded reuses it, one whose newest is pending is refused, each exactly then; a request without a key is always stored |
| `Requests.PatchKeeps` | internal/smsc/persist.go:98-131 | a patch touches one row and of it only the fields it names |
| `Requests.Memory.LatestSend` | internal/smsc/persist.go:155-167 | the unordered scan finds the latest SEND |
| `Requests.Memory.FindLatestSend` | internal/smsc/persist.go:144-153 | its record, if any |
| `Requests.Memory.FindSucceededSend` | internal/smsc/persist.go:133-142 | the latest record exactly if it succeeded |
| `Requests.Memory.SaveRequest` | internal/smsc/persist.go:72-96 | new store and outcome: stored, reused, in flight, or no tenant |
| `Requests.Memory.UpdateRequest` | internal/smsc/persist.go:98-131 | new store; a missing id changes nothing |
| `SubmitRuns.StepKeepsInv` | internal/smsc/provider.go:389-524 | every step keeps each unfailed row the latest of its key and each working submitter on a row of its own |
| `SubmitRuns.RunKeepsInv` | internal/smsc/provider.go:389-524 | so does every run |
| `SubmitSafety.OneInFlight` | internal/smsc/provider.go:389-524 | at most one submitter of a key is between save and update |
| `SubmitSafety.OneRowPerSend` | internal/smsc/persist.go:72-96 | every SEND ever started had a row of its own |
| `SubmitSafety.AcceptedAgree` | internal/smsc/provider.go:526-566 | all submitters of a key that were told "accepted" were told about the same request |
| `SubmitSafety.DedupNeverSends` | internal/smsc/provider.go:450-458 | after a deduplicated save the code never falls through to a SEND |
| `SubmitSafety.SucceededForever` | internal/smsc/persist.go:72-96 | a succeeded row stays the latest of its key for ever and no SEND starts after it |
| `SubmitSafety.DeadSubmitterBlocks` | internal/smsc/provider.go:399-407 | a pending row without a living submitter stays the latest, and blocks every later SEND |
| `SubmitSafety.DeadSubmitterExists` | internal/smsc/provider.go:426-449 | a run that leaves such a row: the first submitter dies after its save |
| `SubmitSafety.MayStartExactly` | internal/smsc/provider.go:389-524 | in every reachable state, exactly when another SEND under a key can still start |
| `SubmitSafety.LatecomersReuse` | internal/smsc/provider.go:389-458 | in every state in order, once a SEND of a key succeeded each submitter of the key that goes on is told that request, at its first look or after its save |
| `SubmitSafety.KeysAreApart` | internal/smsc/mapper.go:441-452 | two SENDs share a key exactly if tenant, check type and item agree |
| `SubmitSafety.FirstLook` | internal/smsc/provider.go:389-408 | sanity check of one step: what a submitter meets at its first look, by the status of the newest SEND |
| `SubmitSafety.SecondLook` | internal/smsc/provider.go:426-458 | sanity check of one step: the same at its save |
| `SubmitSafety.HttpCall` | internal/smsc/provider.go:460-470 | sanity check of one step: a SEND is counted once, for its row, and its answer kept |
| `SubmitSafety.AnswerRecorded` | internal/smsc/provider.go:464-510 | sanity check of one step: the row ends as the answer went, and so does the report |
| `SubmitSafety.LostAndDead` | internal/smsc/provider.go:619-626 | sanity check of one step: a lost update changes no row, a death leaves no report |
| `SubmitSafety.OtherNumbers` | internal/smsc/persist.go:87-95 | sanity check of one step: other requests and callbacks draw a number each and touch no SEND |
| `ProviderMapping.MappedConsistently` | internal/smsc/mapper.go:206-312 | every answer maps to a consistent lifecycle/result pair; final results exactly with terminal lifecycles |
| `ProviderMapping.ReachableExactly` | internal/smsc/mapper.go:114-195 | exactly which codes mean reachable, and which unknown |
| `ProviderMapping.StatusExactly` | internal/smsc/mapper.go:114-195 | exactly which status, err and error text give each of the five results |
| `ProviderMapping.ResponseExactly` | internal/smsc/mapper.go:206-312 | exactly which answers fail outright, which only acknowledge, and which are judged by their codes |
| `ProviderMapping.ItemStatusExactly` | internal/lookup/state.go:56-72 | which item status each result leads to |
| `ProviderMapping.PreferExactly` | internal/lookup/apply.go:47-63 | a second answer wins, but for a pending one over anything that says more |
| `LookupFlow.BooksFollow` | internal/lookup/worker.go:699-733 | every run of item steps is, on the books, a run of billing transactions |
| `LookupSafety.RankNeverFalls` | internal/lookup/worker.go:517-697 | over every interleaving an item's rank never falls and a terminal status never changes |
| `LookupSafety.EndsOnce` | internal/db/sqlc/lookup.sql.go:2703-2727 | at most one step of a run makes an item terminal |
| `LookupSafety.PostedOnce` | internal/lookup/worker.go:699-733 | over every interleaving at most one DEBIT or RELEASE is posted for an item |
| `LookupSafety.TerminalRow` | internal/lookup/worker.go:353-382 | the row a step makes terminal, and the settlement asked for, agree with why it ended |
| `LookupSafety.PlainWrites` | internal/lookup/worker.go:669-697 | sanity check of one step: from which statuses claim, failure and rescheduling write, and what they leave alone |
| `LookupSafety.SubmitWrites` | internal/lookup/worker.go:247-382 | sanity check of one step: the row a submit answer leaves, by what the provider said |
| `LookupSafety.UpdateWrites` | internal/lookup/worker.go:517-590 | sanity check of one step: the row a poll or callback answer leaves, with and without a second look |
| `LookupSafety.EnrichWrites` | internal/lookup/worker.go:904-939 | sanity check of one step: what an enrichment writes, and when it writes nothing |
| `LookupSafety.EndOwes` | internal/lookup/worker.go:699-733 | the update that ends an item owes one settlement: a release if the worker gave up, else what the row says |
| `LookupSafety.ReapOwes` | internal/billing/lookup_billing.go:405-449 | the reaper owes a settlement for a terminal item without action, as judged, and for no other |
| `LookupSafety.SettledByCause` | internal/billing/lookup.go:69-93 | in every run in which no enrichment flips an unsettled item: open items hold no final result; what is posted, owed or chosen by the reaper is release for a forced failure and capture for a provider outcome, up to the "unknown" enrichment rule |
| `LookupSafety.EnrichFlips` | internal/lookup/worker.go:904-939 | an enrichment changes how a terminal item is judged exactly when the item failed, is unsettled, some field improved, and the answer, or what was read at the claim if the answer is pending, is final over a result that is not, or not final over one that is |
| `LookupSafety.FlipMisjudges` | internal/lookup/worker.go:904-939 | from every state in order, each such enrichment makes the reaper owe, and post, a settlement against the verdict |
| `LookupSafety.EnrichmentOvertakesRelease` | internal/lookup/worker.go:904-939 | a run in which a forced failure is captured while its release is still owed |
| `LookupSafety.OffTheTable` | internal/lookup/state.go:8-24 | exactly which updates leave the declared transition table: a submit answer other than a failure, or a completing update, on a queued item |
| `LookupSafety.CallbackCompletesQueued` | internal/lookup/worker.go:575-589 | a run in which a callback completes a queued item |
| `LookupPolling.PollProgress` | internal/lookup/worker.go:412-497 | one poll leaves a pending item terminal, or pending with one attempt more and at most 120; a poll whose writes are lost never takes an attempt back |
| `LookupPolling.PollDecides` | internal/lookup/worker.go:412-497 | an undisturbed poll fails the item exactly if it gives up or the provider says failed, completes it exactly if the provider says so, and else adds one attempt |
| `LookupPolling.PollingEnds` | internal/lookup/worker.go:412-497 | whatever the provider answers and others do, a pending item is terminal after at most one poll more than it has attempts left, not counting polls whose writes were lost |
| `Purge.LeftoverIsTarget` | internal/db/sqlc/client_purge.sql.go:56-121 | the leftover query asks for exactly the rows the statements delete |
| `Purge.ChildrenFirst` | internal/identity/purge.go:239-283 | whatever hangs on a table is dealt with before that table |
| `PurgeService.EraseKeepsProgress` | internal/db/sqlc/client_purge.sql.go:235-585 | a batch deletes doomed rows only, and none that something still hangs on |
| `PurgeService.SweptIsPurged` | internal/identity/purge.go:213-228 | when no statement finds anything, exactly the client's rows are gone, exactly the links to them are cut, and no leftover exists |
| `PurgeService.NoOrphans` | internal/identity/purge.go:239-293 | sanity check of the definition: nothing that hangs on a row of the client outlives it, but the audit entry of the deletion |
| `PurgeService.OthersUntouched` | internal/identity/purge.go:239-293 | rows that neither carry the client nor point at a row that does are as before |
| `PurgeService.NoDanglingLinks` | internal/db/sqlc/client_purge.sql.go:235-645 | table by table: after a purge no recipient, callback event or send job points at a deleted message, no direction job at a deleted assignment, no request or callback at a deleted item, no session, event or key at a deleted user or credential |
| `PurgeService.ClientRowsGone` | internal/db/sqlc/client_purge.sql.go:235-585 | in each table with a client column every row of the client is gone, but the audit entry of the deletion |
| `PurgeService.LinksCut` | internal/db/sqlc/client_purge.sql.go:617-645 | recipients and direction jobs are never deleted, and lose their link exactly if it points at the client's message or assignment |
| `PurgeService.AttemptsFollow` | internal/db/sqlc/client_purge.sql.go:449-463 | a send attempt goes exactly with its send job |
| `PurgeService.Pick` | internal/db/sqlc/client_purge.sql.go:346-353 | a batch is part of what was found, as large as the limit allows |
| `PurgeService.Purger.Execute` | internal/identity/purge.go:284-292 | one statement: rows and links decrease by what it reports |
| `PurgeService.Purger.Round` | internal/identity/purge.go:239-293 | a non-zero round decreases the measure, a zero round changes nothing and means nothing is left |
| `PurgeService.Purger.Batches` | internal/identity/purge.go:185-231 | up to eight rounds; a zero total means erased and marked |
| `PurgeService.Purger.PurgeClient` | internal/identity/purge.go:171-183 | the loop ends with the database purged, all at once by definition, and the client marked |
| `TokenBucket.Key.AllowRate` | internal/ratelimit/limiter.go:42-104 | decision, stored bucket and wait of one request; a denied caller waits at least a millisecond |
| `TokenBucket.Key.DrainTokens` | internal/ratelimit/limiter.go:141-151 | the bucket is empty as of now |
| `RateLaws.WindowBound` | internal/ratelimit/limiter.go:42-76 | a bucket that is never forgotten allows at most burst + rate x length in any window, drains or not |
| `RateLaws.ExpiryUnobservable` | internal/ratelimit/limiter.go:65-75 | if 120 x rate >= burst the expiring bucket makes the same decisions and has the same state on every request sequence |
| `RateLaws.WindowBoundExactly` | internal/ratelimit/limiter.go:42-76 | the bound holds of the expiring bucket exactly when 120 x rate >= burst |
| `RateLaws.WorkersFillInTime` | internal/outbox/worker.go:653-662 | both workers meet that at every rate the settings accept |
| `RateLaws.PublicApiFillsInTime` | internal/httpserver/apikey.go:18-19 | so do the fixed limits of API keys |
| `RateLaws.SendEndpointFillsInTime` | internal/http/client/messages.go:124-133 | the send endpoint meets it exactly from one request in six seconds up |
| `RateLaws.WaitSuffices` | internal/ratelimit/limiter.go:66-71 | after a denial the returned wait admits, if nobody else asks |
| `RateLaws.WaitIsNeeded` | internal/ratelimit/limiter.go:66-71 | one millisecond less admits exactly when the key has expired by then |
| `RateLaws.WaitIsExact` | internal/settings/service.go:407-412 | so for every accepted rate the wait is exact to the millisecond |
| `RateLaws.DrainDenies` | internal/ratelimit/limiter.go:141-151 | after a drain a request is allowed exactly when a whole token has dripped in, or the key has expired |
| `RateLaws.DrainPause` | internal/ratelimit/limiter.go:141-151 | for every accepted rate that is exactly 1 / rate seconds after the drain |
| `RateLaws.DrainedWindow` | internal/ratelimit/limiter.go:141-151 | in any window that starts at a drain at most rate x length requests are allowed |
| `RateLaws.BurstExactly` | internal/ratelimit/limiter.go:42-76 | of n requests at once an unused bucket allows all up to the whole part of its burst, at least one, and no more |
| `RateLaws.NoLimit` | internal/ratelimit/limiter.go:47-49 | without a positive rate everything is allowed |
| `RateLaws.CallersBursts` | internal/outbox/worker.go:653-662 | the bursts the two workers and the send endpoint ask for, by rate |
| `Segments.IsGsm7` | internal/billing/pdu.go:32-43 | whether every rune is in the default alphabet or its extension, which `Segments.Alphabet` lists |
| `Segments.Gsm7Septets` | internal/billing/pdu.go:45-55 | the septets, two for an extension character |
| `Segments.Alphabet` | internal/billing/pdu.go:9-30 | exactly which code points are basic and which nine are extension characters |
| `Segments.CountSegments` | internal/billing/pdu.go:62-78 | the loops compute the specified count |
| `Segments.LeastBlocks` | internal/billing/pdu.go:66-77 | the count is the least number of blocks that holds the text, one exactly up to the single limit |
| `Segments.SegmentLaw` | internal/billing/pdu.go:62-78 | for every text: one part exactly up to 160 septets or 70 units, then the least number of parts of 153 or 67 |
| `Segments.PlainTexts` | internal/billing/pdu.go:62-70 | a text of Latin letters, digits and spaces is one part exactly up to 160 runes, then 153 to a part |
| `Segments.CyrillicTexts` | internal/billing/pdu.go:71-77 | a text of the basic plane with a Cyrillic letter is one part exactly up to 70 runes, then 67 to a part |
| `Segments.SegmentsGrow` | internal/billing/pdu.go:62-78 | inserting text anywhere never lowers the count, also across the switch of alphabet |
| `Segments.AtMostThirty` | internal/messaging/service.go:75-77 | an accepted text counts for one to thirty parts, fourteen in the narrow alphabet |
| `Segments.ThirtyIsReached` | internal/messaging/service.go:75-77 | both limits are reached |
| `Statistics.MatchStatistic` | internal/messaging/match.go:10-49 | the loop computes the specified match |
| `Statistics.MatchAgrees` | internal/messaging/match.go:15-46 | a match is an untaken outgoing row between the same numbers, with the same text or none |
| `Statistics.FirstExactWins` | internal/messaging/match.go:41-43 | the earliest row with the text wins |
| `Statistics.NoMatchMeans` | internal/messaging/match.go:41-48 | no match means no row with the text and no single blank row with an id |
| `Statistics.MatchFound` | internal/messaging/match.go:15-43 | an untaken outgoing row between the same numbers with the same text is the match, if no earlier row has the text |
| `Statistics.BlankMatches` | internal/messaging/match.go:41-48 | without a row that has the text, a single blank row with an id is the match; two, or ones without an id, give none |
| `Statistics.BlankExactly` | internal/messaging/match.go:15-40 | exactly which rows count as blank |
| `Statistics.TrimExactly` | internal/messaging/match.go:13-34 | trimming takes all spaces off both ends and nothing else |
| `Statistics.DigitsOfParts` | internal/lookup/phone.go:175-184 | the digits of a text, one by one and in order |
| `Statistics.WorkAdds` | internal/outbox/worker.go:437-481 | one piece of work adds its match, if its query succeeded, and takes its id |
| `Statistics.HitsDistinct` | internal/outbox/worker.go:437-481 | over one Tick no provider id is matched twice, across jobs and reconciliation |
| `Statistics.HitsFresh` | internal/outbox/worker.go:610-618 | nor is an id that was noted before |
| `Statistics.HitsAgree` | internal/messaging/match.go:10-49 | every match of a Tick agrees with its message |
| `Statistics.Worker.NoteSmsId` | internal/outbox/worker.go:610-618 | notes a non-empty id |
| `Statistics.Worker.Process` | internal/outbox/worker.go:280-281 | one lookup or accepted send: the match made and the ids taken |
| `Statistics.Worker.Tick` | internal/outbox/worker.go:83-108 | the matches of a Tick, pairwise distinct |
| `Messages.RowsEvolve` | internal/db/sqlc/messages.sql.go:487-605 | each guarded update raises the rank, sets times once and keeps them in order |
| `Messages.UpdatesLand` | internal/db/sqlc/messages.sql.go:487-605 | from every status, where each update leads, which times and ids it sets and what it leaves alone |
| `Messages.NewMessages` | internal/db/sqlc/messages.sql.go:229-238 | an outbound message starts queued, an inbound one delivered unless its provider id is known |
| `Messages.ReportLands` | internal/ingress/worker.go:103-151 | a report on an open message leads to delivered with its time, failed with its time, sent, or the same status, as it says |
| `Messages.StatisticLands` | internal/outbox/worker.go:556-591 | so does a statistics row, also when its provider id is taken |
| `Messages.ReportStands` | internal/ingress/worker.go:103-151 | in every run, a message whose report said delivered or failed while it was open stays so, with that time |
| `Messages.StatisticStands` | internal/outbox/worker.go:556-591 | in every run, a message seen delivered in the statistics while it was open stays delivered, with that time |
| `Messages.StepKeeps` | internal/ingress/worker.go:103-151 | every step keeps all rows in order and provider ids unique |
| `Messages.RunKeeps` | internal/ingress/worker.go:103-151 | in every run ranks never fall, delivered and failed rows are frozen, times are set once and present for every status reached |
| `Messages.RetrySucceeds` | internal/outbox/worker.go:556-608 | dropping a taken provider id always lets the update through |
| `Messages.StatisticThenAccept` | internal/outbox/worker.go:280-304 | a statistic match leaves an open message accepted or further, with its time |
| `Messages.MessageTable.TryAccepted` | internal/db/sqlc/messages.sql.go:487-496 | new table and report of the accept update |
| `Messages.MessageTable.TryFailed` | internal/db/sqlc/messages.sql.go:536-543 | new table and report of the fail update |
| `Messages.MessageTable.TryStatistic` | internal/db/sqlc/messages.sql.go:583-605 | new table and report of the statistic update |
| `Messages.MessageTable.Accept` | internal/outbox/worker.go:593-608 | the accept update with its retry |
| `Messages.MessageTable.FromStatistic` | internal/outbox/worker.go:556-591 | the statistic update with its retry |
| `SmsSafety.RunKeepsBooks` | internal/billing/service.go:129-253 | whatever the message's workers do, the books stay in order |
| `SmsSafety.ReadyRun` | internal/db/sqlc/messages.sql.go:487-605 | every run keeps the hold, notes existing claims only, and stamps every status from accepted on |
| `SmsSafety.OpenJobReleases` | internal/outbox/worker.go:117-229 | from every job neither done nor dead some run fails the message marked accepted and releases its hold |
| `SmsSafety.AcceptedMayBeReleased` | internal/outbox/worker.go:263-321 | of every state with a hold: some run ends marked accepted and released exactly if the message was marked or can still be, and was released or can still be, each in terms of job, workers, owed settlements and billing action |
| `SmsSafety.ReaperSettles` | internal/billing/service.go:371-420 | the reaper captures the open hold of an accepted message, releases that of one failed unaccepted with its job dead, and leaves the others |
| `SmsSafety.ReaperLeaves` | internal/billing/service.go:371-401 | it leaves a settled message and a deleted client alone |
| `SmsSafety.WorkerNotes` | internal/outbox/worker.go:263-304 | sanity check of one step: what a worker that hears of the acceptance writes, and the capture it asks for |
| `SmsSafety.WorkerFails` | internal/outbox/worker.go:306-321 | sanity check of one step: what a worker that failed the job writes, and the release it asks for |
| `SmsSafety.NewsWrite` | internal/ingress/worker.go:103-151 | sanity check of one step: what later news of an accepted message write; each asks for the capture |
| `SmsSafety.BillingElsewhere` | internal/billing/service.go:52-369 | every run of other billing transactions goes through beside the message and changes nothing but the books |
| `SmsLocks.NotReleasedUndisturbed` | internal/outbox/worker.go:263-321 | in every run in which, while the hold is open, no lock is taken from a worker still to hear from the provider or from a claim whose acceptance is noted, and none is noted by half, the hold of a message marked accepted is never released, whoever dies and whoever takes up its job |
| `SmsLocks.LostLockReleases` | internal/db/sqlc/outbox.sql.go:253-264 | whatever the books, a run in which a worker at work loses its lock, nobody dies, and a message marked accepted is released |
| `SmsLocks.DeadHolderReleases` | internal/outbox/worker.go:268-275 | whatever the books, a run in which the worker dies between mark and capture, its lock is taken back, and the message is released |
| `SmsLocks.HalfNotedReleases` | internal/outbox/worker.go:280-301 | whatever the books, a run with no lock taken in which the mark after a statistics row fails, and the message is released |
| `SmsLocks.HalfAcceptedReleases` | internal/outbox/worker.go:268-273 | whatever the books, a run with no lock taken in which the mark takes effect and reports an error, and the message is released |
| `SmsLocks.ChargedIfAccepted` | internal/billing/service.go:403-420 | if mark and capture were one step, messages marked accepted would be charged in every interleaving and only ones that failed unaccepted released |
| `Phones.MobileInputs` | internal/lookup/phone.go:42-67 | exactly which inputs become a given Russian mobile number: noise is ignored, national forms only without a plus |
| `Phones.FormsAgree` | internal/lookup/phone.go:42-67 | the four ways to write a Russian mobile number give the same phone, a fixed point |
| `Phones.NormalizeAndDeduplicate` | internal/lookup/phone.go:69-97 | phones in order of first occurrence, and counts that add up to the input |
| `Phones.AppendUniqueToken` | internal/lookup/phone.go:99-108 | appends a token that is new and not empty |
| `Phones.RejectedAreRefused` | internal/lookup/phone.go:69-97 | exactly the refused inputs that say anything are reported, each once |
| `Phones.AcceptedIsAll` | internal/lookup/phone.go:69-97 | the phones are the normal forms of the inputs, each once |
| `Phones.ListedInOrder` | internal/lookup/phone.go:69-97 | phones and reported texts keep the order of first occurrence: more input only adds at the end |
| `Phones.RefusedExactly` | internal/lookup/phone.go:25-28 | exactly which inputs are refused |
| `Phones.NationalForms` | internal/lookup/phone.go:52-58 | exactly which digits gain the country code, and how |
| `Phones.E164Bounds` | internal/lookup/phone.go:186-203 | a number with a plus is valid exactly with eight to fifteen digits, the first not zero |
| `Phones.PreparePhones` | internal/lookup/phone.go:117-139 | accepted exactly when the list fits, then phones plus duplicates make up the input; rejected with the refused texts exactly when one is refused |
| `Phones.PreparedAreMobile` | internal/lookup/phone.go:117-139 | an accepted list is duplicate-free and holds +79 and nine digits only |
| `Phones.StoredIsCanonical` | internal/smsc/redact.go:53-70 | stored digits are a fixed point of the callback form |
| `Phones.CanonicalPhoneDigits` | internal/smsc/redact.go:53-70 | the loop computes the callback form |
| `Phones.CallbackNamesOne` | internal/lookup/callback.go:36-53 | a callback that names a phone matches at most one stored number |
| `Phones.CallbackExactly` | internal/lookup/callback.go:36-53 | a callback matches a stored number exactly if it names none or its last ten digits are the same |
| `Phones.StoredMatchExactly` | internal/lookup/callback.go:36-53 | between stored numbers matching is equality |

## Left out

- Interleaving inside one billing transaction: each is atomic here. The SMS settlement reads the open hold before it locks the wallet (internal/billing/service.go:184-192), so this is an assumption about the database.
- More than one client in the books: wallets do not interact, and every key carries its client.
- Amounts below a micro-unit, and currency.
- The Outbox, Submit, LookupFlow and SmsFlow step relations are modelled on values, so that steps of different workers can interleave; update in place and aliasing are not captured there.
- Time in the outbox: availability, pauses and the age of a lock are not modelled, so a claim or a reclaim may happen at any time; this only adds runs.
- A call of the provider's send operation counts as one POST, whatever requests and retries it makes inside; likewise for the HTTP call of a lookup SEND.
- SmsLocks.ChargedIfAccepted: assumes that mark and capture are one step, because the law is false of the two transactions the program runs; `SmsLocks.NotReleasedUndisturbed` is the law they do keep.
- LookupPolling.PollingEnds: for a client that is not deleted meanwhile and a single poller; with two, a late rescheduling writes an old attempt number.
- BillingService.Service.CreateLookupJob: assumes that the ids drawn for the job and its items are new.
- The Postgres variant of the request store (internal/lookup/persist.go), and callbacks stored in it.
- Job counters, finalisation, claim fairness, webhooks, CSV previews and CSV shell jobs.
- Result fields of a lookup item other than its result status.
- PurgeService.Purger.PurgeClient: context deadlines, the advisory lock held elsewhere, writers that run at the same time, and foreign-key errors and cascades of the database are not modelled.
- Rounding of floating-point numbers, a clock that goes back, and a limiter whose rate changes between requests.
- Splitting a text into parts so that no escape pair is torn; the program does not do it.
- Which runes beyond ASCII are digits or spaces is a parameter; `Phones.Standard` fixes it for ASCII.
- Bytes that are not valid UTF-8: a text is its runes.
- HTTP handlers, authentication, settings, audit, metrics, exports and the web applications.
