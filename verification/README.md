# Formal model of the image job backend

This project models, in Dafny, the parts of the image studio's backend whose correctness is hardest to see from one
function: how the credits of an image job are reserved, billed and refunded while other requests act on the same job,
how the job record is written by several writers, how callers are admitted, how accounts are chosen, and a handful of
algorithms with a real specification. `dafny verify dfyconfig.toml` checks everything.

| file | part of the program |
|---|---|
| `CreditLedger.dfy` | the transactions of the wallet store and the subscription store over one ledger |
| `RefundRoutines.dfy` | the worker's split refund, the cancel handler, the stale-job reconciler |
| `JobRecords.dfy` | the job row and all its writers |
| `Reservations.dfy` | one reservation over both ledgers, and what the split refund gives back of it |
| `Settlement.dfy` | one image job from its reservation to its end, with everybody else running in between: the run as a function, and its laws |
| `SettlementWorker.dfy` | the worker and its closures, which compute that function |
| `RefundNotes.dfy` | the refund total on the record at the end of a run |
| `SettlementRuns.dfy`, `CancelMoments.dfy` | runs that fall short; when exactly one cancel call does it |
| `AdmissionGate.dfy` | the admission controller and its gates, for any number of callers |
| `AccountRouting.dfy`, `RetryLoop.dfy` | choice, counting and leasing of accounts; the loop that drives it |
| `JobQueue.dfy` | the queue of stored jobs, its claims and the drain loop |
| `DispatchTags.dfy` | provider tags of a job, and what a requeue does to them |
| `ResponsesStream.dfy`, `ConversationGraph.dfy`, `ImageHeader.dfy` | event stream, conversation walk, image header scan |
| `LoginLimiter.dfy` | the login rate limiter |
| `Basics.dfy`, `Text.dfy` | shared vocabulary and string helpers |

How it is built:

- Code that works step by step is a class with methods; each method is proved against a function of the old state, and
  the laws are lemmas about those functions.
- A store call is one transaction. Both credit stores compute totals from the ledger inside their transactions, and so
  does the model; a failing database is an explicit input (`Fault`), including the case in which the transaction commits
  and the query after it fails.
- Concurrency is interleaving: `Run` functions over event lists for the gate, the ledger and the records, and scripts for
  the worker, the queue and the retry loop. A script has one turn for each store call (or attempt) of the program: what
  everybody else does before it, and how it fares. A run is then a function of state and script, and the laws are for
  all scripts. `AdmissionGate.Controller` takes any steps of others between its operations.
- In `Settlement`, `Trust` names what a run may rely on. Each item is a condition on the script or the books before the
  run: `reliable` (no totals read and no refund fails), `single` (the user has at most one subscription), `alone`
  (nobody else touches this job) and `calm` (nobody else acts and no credit store call fails). `outside` is what others
  refund to the generation during the run.

## Where the code does less than its names promise

Each of these is a theorem, with the exact condition where one side is not enough.

- A refund of subscription credits goes to the subscription of the newest reservation only, and is capped by what is used
  there: `RefundRoutines.SplitRefundExactIff`, `CreditLedger.RefundAllEmptiesIff`,
  `CreditLedger.TwoSubscriptionsLoseCredits`, `SettlementRuns.TwoSubscriptionsKeepCredits`, `Settlement.BillingFailureEmptiesIff`.
- Images can be delivered unpaid: a cancel after the reservation and before the first save, or after the last look and
  before the upstream mark, refunds the job, and the worker finishes it all the same; `CancelMoments.OneCancelIsUnpaidIff`
  says that these are the only moments. So does a reconciler pass before the last look
  (`SettlementRuns.ReconciledJobIsUnpaid`). `Settlement.PaidIffNobodyRefunded`, `Settlement.DeliveredImagesArePaid`.
- A requested cancel is forgotten by the worker's next save unless it looks first, even if that save has read the row:
  `JobRecords.CancelIsKeptIff`, `JobRecords.CancelIsNoticedIff`.
- The wallet store may commit and then report an error, because it reads a summary afterwards. A reservation then leaks
  (`Reservations.ReservingTakes`), and a refund is paid twice (`RefundRoutines.LateWalletErrorPaysTwice`).
- A reservation under a blank generation id is never given back: `CreditLedger.BlankGenerationIsNeverRefunded`.
- The refund for a partial answer also needs the setting for failures: `Settlement.ChargedForCharges`.
- The running save and the cancel handler's snapshot write without reading, and the merging save reads and writes in two
  steps, so a cancelled job can run on and a finished one can become unfinished:
  `JobRecords.RunningSaveRevivesCancelledJob`, `JobRecords.SnapshotRevivesFinishedJob`,
  `JobRecords.OvertakenSaveRevivesFailedJob`, and `JobRecords.WriteKeepsIff` for the exact condition.
- The reconciler's branch for requested cancels never refunds, a refund that failed is never tried again, and a stale
  running job is refunded even after its upstream call: `RefundRoutines.RequestedCancelIsNotReconciled`,
  `RefundRoutines.FirstRoutineDecides`, `RefundRoutines.StaleRunningJobIsRefunded`.
- The refund total on the record is not the ledgers': the cancel handler notes what it asked for
  (`RefundRoutines.CancelNotesRefunds`, and `RefundRoutines.CancelNotesLedgerIff` for when that is right), the reconciler notes
  nothing (`RefundRoutines.ReconciledRecordFallsBehind`), and a run that ends for want of credits does not read the ledger that
  shows its subscription's part as refunded (`RefundNotes.RefusedRecordFallsBehind`).
- A truncated answer can hold no usable image although usable ones followed: `Settlement.CutAnswerIsEmptyIff`.
- A change of the admission limits admits more callers than either limit: `AdmissionGate.SwapAdmitsBeyondEitherLimit`;
  exactly when: `AdmissionGate.WithinLimitIff`.
- The available count can exceed the potential count: `AccountRouting.AvailableExceedsPotentialIff`.
- A started job that waits for admission saves its own row as queued without a lease, so another pass can start it again:
  `JobQueue.WaitingJobIsClaimable`. A claim lost in a full batch ends a drain early: `JobQueue.LostClaimEndsTheDrain`.
- Level tags without a prefix are lost on a requeue: `DispatchTags.RequeueKeepsTagsIff`.
- White space at the ends of a data line is lost: `ResponsesStream.FramesUnchangedIff`.
- Fill bytes in a JPEG mislead the size scan: `ImageHeader.SizeIsFoundIffNoFill`.
- The end of `executeProviderImageGenerate` refunds when the credits are not settled; they always are by then, so that
  branch has no counterpart in the model.

## Model

| member | source | states |
|---|---|---|
| `SettlementWorker.Worker.Execute` | backend/api/image_provider_proxy.go:1185-1522 | For every state and every script of what others do before each store call and of how each credit store call fares, the method ends and computes the specified run: books, record, worker copy, outcome, images delivered, images charged |
| `Settlement.RunEnds` | backend/api/image_provider_proxy.go:1185-1522 | Every exit of that run. If reads and refunds work and either the user has at most one subscription or the run is calm: a cancel before upstream and, if failures are refunded, an upstream failure or empty answer leave max(0, what was held before less what others refunded), and a delivery or a cancel after upstream leaves the price of the images charged less what others refunded, at least 0. A failed reservation leaves what was held, a store error while extras are billed leaves 0 for a user with at most one subscription. Without these conditions bounds. Also the final status and figures of the record, and which provider results and rows lead to which exit |
| `Settlement.CalmRun` | backend/api/image_provider_proxy.go:1185-1516 | If nobody else acts and nothing fails, for any number of subscriptions: the balance, the first subscription with credits left and the provider result determine the outcome, the images charged, the items delivered (as slices of the answer) and the credits held |
| `Settlement.OneSubscriptionCalmRun` | backend/api/image_provider_proxy.go:1185-1516 | In closed form, for an answer of images only and a user with credits on one subscription at most: with less than the price on subscription and wallet together the run ends with nothing; otherwise the client gets the first min(kept, funds / unit) items, or all that are kept if no more than requested, and what is held grows by their price (or by that of the images requested, unless both settings refund the missing ones) |
| `Settlement.ImagesCalmRun` | backend/api/image_provider_proxy.go:1446-1516 | The same for any number of subscriptions: as many items as are kept, up to those requested and those that can be paid one by one beyond them |
| `RefundNotes.RecordTells` | backend/api/image_provider_proxy.go:1214-1230 | At every end after a totals read (cancelled before or after upstream, failed, delivered): whatever others do, if the ledgers can be read the record's refund total leaves no refund out; if nobody else touches the job it is exactly the ledgers' |
| `RefundNotes.RefusedRecordFallsBehind` | backend/api/image_provider_proxy.go:1185-1211 | A run that ends for want of credits leaves the record's refund total as it was, while the ledgers show the subscription's part as refunded |
| `Settlement.DeliveredImagesArePaid` | backend/api/image_provider_proxy.go:1495-1516 | If nobody else touches the job (a condition on the script) and the refunds work, delivered images are paid for, whatever other generations do and whichever reservations fail; exactly, unless a partial refund met several subscriptions |
| `Settlement.PaidIffNobodyRefunded` | backend/api/image_provider_proxy.go:1495-1516 | In general they are paid for exactly if others have refunded nothing during the run (or nothing is due) |
| `CancelMoments.OneCancelIsUnpaidIff` | backend/api/image_provider_proxy.go:1185-1516 | One cancel call in turn k (counted from 0) of an otherwise quiet first run that gets the images asked for: they are delivered unpaid if and only if the handler cannot stop the worker and k is 1 or 4, that is after the reservation and before the first save, or after the last look and before the upstream mark |
| `SettlementRuns.NewcomerIsAtStart` | backend/api/image_provider_proxy.go:1098-1170 | The start that these runs assume exists: a new user with just the price on the balance and a job that has been marked running |
| `SettlementRuns.ForgottenCancelIsUnpaid` | backend/api/image_provider_proxy.go:1334-1353 | For any answer: a cancel between the last look and the upstream mark leaves only the price of the extra images |
| `SettlementRuns.ReconciledJobIsUnpaid` | backend/api/image_provider_proxy.go:1497-1515 | A reconciler pass before the last look leaves nothing, although the call had been sent |
| `SettlementRuns.TwoSubscriptionsKeepCredits` | backend/api/image_provider_proxy.go:1474-1490 | A run for a user with two subscriptions in which the store fails while an extra image is billed: although no refund fails and failures are refunded, the price of all requested images stays behind |
| `Settlement.BillingFailureEmptiesIff` | backend/api/image_provider_proxy.go:1485-1490 | After a billing failure the refund leaves nothing exactly if the subscription it goes to covers the subscription part of everything reserved |
| `Settlement.AfterDispatchEnds` | backend/api/image_provider_proxy.go:1406-1516 | After the provider call: a cancel counts as before upstream exactly if the call never started, a delivery needs an answer, the credits are accounted for at each exit as in RunEnds, and in a calm run the provider result decides which exit it is |
| `Settlement.ResolvedEnds` | backend/api/image_provider_proxy.go:1417-1516 | Not cancelled: a job another writer finished keeps record and credits; no answer or an empty one returns the whole reservation (same conditions as RunEnds); an answer is billed and delivered |
| `Settlement.DispatchStoppedEnds` | backend/api/image_provider_proxy.go:1407-1416 | A cancel seen after dispatch returns the reservation if the upstream call had not started, and leaves it charged if it had |
| `Settlement.AnswerEnds` | backend/api/image_provider_proxy.go:1446-1516 | What an answer comes to: how many images are charged, that exactly the kept items are delivered, cut to the number charged if fewer are, and how the credits end; in a calm run the number charged is determined |
| `Settlement.CappedIs` | backend/api/image_provider_proxy.go:1446-1451 | What is kept: the first `maxCount` items if the answer holds more images than a positive `maxCount`, otherwise all of it |
| `Settlement.CountIs` | backend/api/image_provider_proxy.go:2470-2490 | The count is the number of items whose URL or data holds anything but white space |
| `Settlement.DeliveredIsPaid` | backend/api/image_provider_proxy.go:1470-1516 | What is delivered, as a slice of the answer: all that is kept, or its first items up to the number of images charged; it never holds more images than are charged; fewer than requested are charged only if both refund settings are on; charged equals delivered then if all items are usable |
| `Settlement.BilledUpCharges` | backend/api/image_provider_proxy.go:1474-1494 | One image at a time: the increments add up to the price of all images billed; in a calm run exactly as many extras are billed as the subscription and the wallet can pay one after another; if the undoing works a half-made increment leaves no net charge |
| `Settlement.ChargedForCharges` | backend/api/image_provider_proxy.go:1470-1494 | Fewer images than requested give back the difference of the prices only if both refund settings are on, exactly if the user has at most one subscription or the run is calm; more are charged one by one |
| `Settlement.ConcludedEnds` | backend/api/image_provider_proxy.go:1495-1516 | The last look decides between a delivery and a cancel; either way the credits stay as charged, and the record of a success has the count, the reserved total and every refund |
| `Settlement.UpstreamFailureEnds` | backend/api/image_provider_proxy.go:1431-1469 | Nothing usable came back: the reservation is returned if failures are refunded, and the failed record leaves no refund out |
| `Settlement.BillingFailureEnds` | backend/api/image_provider_proxy.go:1485-1490 | A store error while extras are billed: everything held is returned (for a user with at most one subscription) or nothing, and the failed record leaves no refund out |
| `Settlement.StoppedBeforeEnds` | backend/api/image_provider_proxy.go:1325-1341 | A cancel before the call: the reservation goes back whatever the settings say |
| `Settlement.StoppedAfterEnds` | backend/api/image_provider_proxy.go:1407-1416 | A cancel after the call: the images stay charged |
| `Settlement.ReservedLeads` | backend/api/image_provider_proxy.go:1185-1211 | The first reservation is on the books, or the job has failed with the matching outcome and, if the undoing works, nothing is held for it except what a wallet took without admitting it |
| `Settlement.RepaidPays` | backend/api/image_provider_proxy.go:1246-1284 | Never more than is held, whatever fails; at most min(max(amount, 0), held) if nothing fails, and exactly that, with what others give back meanwhile, for a user with at most one subscription or in a calm run after one reservation |
| `Settlement.RepaidOnFailurePays` | backend/api/image_provider_proxy.go:1285-1291 | The same, but nothing at all when failures are not refunded |
| `Settlement.RefundsInStep` | backend/api/image_provider_proxy.go:1214-1230 | The run's refund total never falls and, if the ledgers can be read, is the ledgers' |
| `Settlement.ReservedInStep` | backend/api/image_provider_proxy.go:1231-1245 | The record's reserved figure becomes the ledgers', if they can be read |
| `Settlement.ExtendedGrows` | backend/api/image_provider_proxy.go:1292-1314 | One more reservation, all or nothing if the undoing works, and the record's refund total follows the ledger |
| `Settlement.TurnGivesBack` | backend/api/image_provider_proxy.go:1406-1421 | Before any store call others can only give back: reserved is unchanged, refunded grows, held plus what others refunded is constant, and if nobody else touches the job nothing is given back |
| `Settlement.FinishedRow` | backend/api/image_provider_proxy.go:989-998 | A final status is written whatever the row held, with the larger of the two refund totals |
| `Settlement.RecordSays` | backend/api/image_provider_proxy.go:1185-1516 | Whatever others do and whatever fails, the record names the outcome of the run: status, stage and, except for a provider's own error, the error code |
| `Reservations.ReservingTakes` | backend/api/image_provider_proxy.go:1185-1211 | Whatever fails: all of the amount, in a way that can be given back, or, if the undoing works, none of it; the one exception (`leaked`) is a wallet that commits and reports an error |
| `Reservations.ReservingSplits` | backend/api/image_provider_proxy.go:1185-1211 | Subscription first: whatever fails, a reservation that is done has taken min(amount, left) from the first subscription with credits left, where left is its total less what is used, and only the rest from the wallet; the reserved totals, the balance and the usage of the subscriptions show exactly that |
| `Reservations.OneSubscriptionAffords` | backend/api/image_provider_proxy.go:1474-1494 | With credits on one subscription at most, the number of images that can be paid one after another is min(n, (left + balance) / unit) |
| `Reservations.ReservingFailsIff` | backend/api/image_provider_proxy.go:1185-1211 | Without faults it fails exactly if the balance is below the amount less min(amount, what the first subscription with credits left has left) |
| `Reservations.InsufficientIsUndone` | backend/api/image_provider_proxy.go:1195-1203 | What a failed reservation had drawn from the subscription is given back, and both totals of the ledger show it |
| `Reservations.RestTakes` | backend/api/image_provider_proxy.go:1195-1211 | The wallet's part is taken, or the subscription's part is undone exactly if the refund does not fail |
| `Reservations.ReservationIsReturned` | backend/api/image_provider_proxy.go:1246-1284 | A reservation that is given back before anything else happens comes back in full, for any number of subscriptions |
| `Reservations.SplitRefundGivesBack` | backend/api/image_provider_proxy.go:1246-1284 | A split refund never gives back more than is held, keeps the reserved total, and without faults is exact if and only if the subscription it goes to covers its share |
| `SettlementWorker.Worker.NextTurn` | backend/api/image_provider_proxy.go:1406-1421 | The others act as the script says, between any two store calls |
| `SettlementWorker.Worker.Reserve` | backend/api/image_provider_proxy.go:1185-1211 | The two store calls and the undoing compute the specified reservation |
| `SettlementWorker.Worker.RefundReserved` | backend/api/image_provider_proxy.go:1246-1284 | The closure computes the specified split refund and synchronises |
| `SettlementWorker.Worker.SyncReserved` | backend/api/image_provider_proxy.go:1231-1245 | The closure computes the specified synchronisation |
| `SettlementWorker.Worker.BillFrom` | backend/api/image_provider_proxy.go:1474-1494 | The over-delivery loop computes the specified charge |
| `SettlementWorker.Worker.Settle` | backend/api/image_provider_proxy.go:1446-1516 | Billing, cutting and concluding compute the specified end |
| `Settlement.LimitBounds` | backend/api/image_provider_proxy.go:2492-2510 | A cut answer is a prefix with at most `limit` usable images, and exactly `limit` if all items are usable |
| `Settlement.CutAnswerIsEmptyIff` | backend/api/image_provider_proxy.go:2492-2510 | A cut answer counts no image exactly when no item that was kept is usable, however many usable ones were cut off |
| `Settlement.CostMonotone` | backend/internal/businessmodels/store.go:527-539 | The price is non-negative and grows with the number of images |
| `Settlement.CostIs` | backend/internal/businessmodels/store.go:527-539 | The price is the unit price times the number of images, and that of one image for none |
| `CreditLedger.StepKeepsBooksSound` | backend/internal/businesscredits/store.go:265-447 | No transaction of either credit store, whatever its arguments and faults, makes a balance negative, overdraws a subscription, or refunds a generation more than it reserved |
| `CreditLedger.RunKeepsBooksSound` | backend/internal/businesscredits/store.go:265-447 | The same over every run of transactions of any users and generations in any order |
| `CreditLedger.StepConservesWallet` | backend/internal/businesscredits/store.go:420-447 | Balance minus the sum of the user's wallet rows never changes |
| `CreditLedger.StepConservesSubscriptions` | backend/internal/businesspayments/store.go:1911-2049 | Used credits plus the sum of the user's subscription rows changes only by draws without a generation |
| `CreditLedger.RunConserves` | backend/internal/businesscredits/store.go:265-447 | Both conservation laws over every run |
| `CreditLedger.BalanceIsTheLedgers` | backend/internal/businesscredits/store.go:420-447 | From empty books on, over every run a balance is the sum of the user's wallet rows |
| `CreditLedger.HeldByGeneration` | backend/internal/businesspayments/store.go:2051-2099 | The sum of a user's subscription rows is minus what all generations hold together; for the wallet rows the same plus the adjustments |
| `CreditLedger.OtherGenerationsUntouched` | backend/internal/businesscredits/store.go:317-366 | A transaction for one generation leaves every total of another one unchanged |
| `CreditLedger.ReserveWalletTakes` | backend/internal/businesscredits/store.go:261-263 | Takes exactly the amount or nothing; an error after the commit is the only reply that hides a debit |
| `CreditLedger.RefundWalletPays` | backend/internal/businesscredits/store.go:265-315 | Pays min(max(amount, 0), held in the wallet) and touches no other total |
| `CreditLedger.ReserveSubscriptionTakes` | backend/internal/businesspayments/store.go:1911-1975 | Takes what it reports, fails exactly when the store does and then takes nothing, and what it takes can be refunded to the subscription it drew on |
| `CreditLedger.ReserveSubscriptionDraws` | backend/internal/businesspayments/store.go:1911-1975 | Without faults it takes and reports min(max(amount, 0), left): the usage of the first live subscription of the user with credits left grows by that, no other subscription and no balance changes, and one ledger row is written for a generation |
| `CreditLedger.LeftIsNext` | backend/internal/businesspayments/store.go:1924-1945 | `left` is the total less the used credits of the first subscription of the user that is live and not used up, and 0 if there is none |
| `CreditLedger.AdjustMoves` | backend/internal/businesscredits/store.go:368-447 | Any other movement is posted in full unless it would overdraw the wallet, and changes no generation's totals |
| `CreditLedger.RefundSubscriptionPays` | backend/internal/businesspayments/store.go:1977-2049 | Pays the least of the amount, what is held, and what is used on the one subscription the refund goes to |
| `CreditLedger.LatestSourceIs` | backend/internal/businesspayments/store.go:1989-1996 | That subscription is the one of the newest reservation of the generation; without one there is none |
| `CreditLedger.RefundAllPays` | backend/api/business_job_handlers.go:540-576 | A full refund by the cancel handler or the reconciler: what remains held in each ledger, for every combination of faults |
| `CreditLedger.RefundAllEmptiesIff` | backend/api/business_job_reconcile.go:83-120 | Without faults it empties the generation exactly when the latest subscription covers the subscription part |
| `CreditLedger.SecondRefundPaysNothing` | backend/api/business_job_handlers.go:540-576 | After a full refund that met no fault a repetition pays nothing, whatever fails in it and even if the first was cut short |
| `CreditLedger.OneSubscriptionRunRefundsInFull` | backend/internal/businesspayments/store.go:1977-2049 | A user with at most one subscription always gets a full refund, after every run |
| `CreditLedger.RunKeepsSingle` | backend/internal/businesspayments/store.go:1911-2049 | Every run keeps a user's one subscription, and its usage backed by the ledger |
| `CreditLedger.TwoSubscriptionsLoseCredits` | backend/internal/businesspayments/store.go:1977-2049 | A generation that used up one subscription and drew on a second one gets back only what it drew on the second |
| `CreditLedger.BlankGenerationIsNeverRefunded` | backend/internal/businesscredits/store.go:317-366 | What is reserved for a blank generation is invisible to the totals and never comes back |
| `RefundRoutines.SplitRefundPays` | backend/api/image_provider_proxy.go:1246-1284 | For all faults: what each ledger pays; neither pays more than it held, and the books stay sound |
| `RefundRoutines.SplitRefundExactIff` | backend/api/image_provider_proxy.go:1246-1284 | Without faults the total refunded grows by exactly min(max(amount, 0), held) if and only if the latest subscription covers the part that is not the wallet's |
| `RefundRoutines.LateWalletErrorPaysTwice` | backend/api/image_provider_proxy.go:1269-1282 | A wallet refund that commits and then reports an error is paid again by the subscription |
| `RefundRoutines.CancelAfterUpstreamRefundsNothing` | backend/api/business_job_handlers.go:501-505 | A cancel after the upstream call leaves the books alone |
| `RefundRoutines.CancelBeforeUpstreamEmpties` | backend/api/business_job_handlers.go:482-530 | A cancel before it empties the generation exactly when the latest subscription covers its part |
| `RefundRoutines.CancelRefundsIff` | backend/api/business_job_handlers.go:482-520 | Told from the row's fields: when the handler refunds, which status the row gets, and that without a refund books and refund total stay as they are |
| `RefundRoutines.CancelNotesRefunds` | backend/api/business_job_handlers.go:540-576 | For every fault the refund total on the row is the refunds before plus all that was held in each ledger whose refund did not fail; it misses the ledgers' exactly by a wallet refund that went through and reported an error, and by what the latest subscription did not cover |
| `RefundRoutines.CancelNotesLedgerIff` | backend/api/business_job_handlers.go:540-576 | Without faults it is the ledgers' exactly if the latest subscription covers its part |
| `RefundRoutines.OnlyTheFirstRoutineRefunds` | backend/api/business_job_reconcile.go:83-138 | From a row that a cancel or a pass has settled, no number of further ones moves credits |
| `RefundRoutines.FirstRoutineDecides` | backend/api/business_job_reconcile.go:83-138 | Over any sequence of cancels and passes, with any faults, the books end as the first of them left them; so a failed refund is never tried again |
| `RefundRoutines.RequestedCancelIsNotReconciled` | backend/api/business_job_reconcile.go:122-127 | A running job whose cancel was requested is never refunded by the reconciler, because the request moved its stage on |
| `RefundRoutines.StaleRunningJobIsRefunded` | backend/api/business_job_reconcile.go:101-127 | A stale queued or running job fails and is refunded even if its upstream call was sent |
| `RefundRoutines.ReconcilerOutcome` | backend/api/business_job_reconcile.go:83-138 | Told from the row's fields: which stale jobs a pass refunds and which status they get; it never writes a refund total |
| `RefundRoutines.ReconciledRecordFallsBehind` | backend/api/business_job_reconcile.go:83-120 | So the record of a job refunded by a pass falls behind the ledgers by all that was held |
| `RefundRoutines.RoutinesOnlyGiveBack` | backend/api/business_job_reconcile.go:83-120 | Any sequence of cancels and passes keeps the books sound, reserves nothing and refunds at most what was reserved |
| `RefundRoutines.ForgottenCancelIsDelivered` | backend/api/image_provider_proxy.go:1334-1353 | A cancel between the last look and the upstream mark gives everything back; the next save makes the row running again, no later look finds the cancel, and the job succeeds unpaid |
| `RefundRoutines.ReconciledJobIsDelivered` | backend/api/image_provider_proxy.go:1497-1515 | A reconciler pass before the last look gives everything back; the failed row is not a cancelled one, so the job succeeds unpaid |
| `JobRecords.WriteKeepsIff` | backend/api/image_provider_proxy.go:945-988 | A write loses something settled (final status, refund total, attempts, upstream mark, claim, payload) exactly when it is a save from an old view (running save, cancel snapshot, overtaken merging save) that is behind the row |
| `JobRecords.WorkerSaveColumns` | backend/api/image_provider_proxy.go:945-976 | What a merging save makes of each column, from the copy, the row it has read and the row it meets: the copy's status and figures, the larger refund total and attempts, the first non-empty claim and payload, and an upstream mark that is never taken back |
| `JobRecords.ViewIsSafeIff` | backend/api/image_provider_proxy.go:945-976 | After a look at the row every possible save is safe exactly if the look saw the row final when it is and a refund total not behind it |
| `JobRecords.GuardedRunKeeps` | backend/api/image_provider_proxy.go:945-988 | Over every run in which no such save is behind the row, nothing settled is lost |
| `JobRecords.MergingRunKeeps` | backend/api/image_provider_proxy.go:945-976 | Any run of merging saves that are not overtaken, cancel requests, reconciler passes and claims keeps a final job final and every counter, claim and payload |
| `JobRecords.UpstreamMarkIsForever` | backend/internal/businessjobs/store.go:572-694 | Once the upstream call is on record no write of any kind makes the job pre-upstream again |
| `JobRecords.CancelIsKeptIff` | backend/api/image_provider_proxy.go:945-988 | A requested cancel is forgotten exactly by a save that carries another status and is not held back by a final view |
| `JobRecords.CancelIsNoticedIff` | backend/api/image_provider_proxy.go:1325-1353 | A running worker notices a requested cancel exactly if it looks before it saves, however fresh its save |
| `JobRecords.OvertakenSaveRevivesFailedJob` | backend/api/image_provider_proxy.go:951-975 | A merging save whose read is older than a reconciler pass makes the failed job run again; one that has seen the pass does not |
| `JobRecords.RunningSaveRevivesCancelledJob` | backend/api/image_provider_proxy.go:977-988 | A cancel during the wait for admission is undone by the unread running save |
| `JobRecords.SnapshotRevivesFinishedJob` | backend/api/business_job_handlers.go:578-589 | A cancel handler's late snapshot turns a finished job back into one whose cancel is requested |
| `JobRecords.FinalStatusOfLastWriterWins` | backend/api/business_job_cancel.go:53-68 | One final status may replace another; a non-final one never does through a reading writer |
| `AdmissionGate.TokensAreHolders` | backend/api/image_admission.go:104-157 | In every run of any number of callers with any configuration changes, each gate's tokens are exactly its holders, within its capacities |
| `AdmissionGate.StepKeepsInv` | backend/api/image_admission.go:42-157 | Every channel operation of anyone keeps that |
| `AdmissionGate.ReceivesNeverBlock` | backend/api/image_admission.go:119-150 | A receive of a held token is always enabled, and the clamp of the in-flight count is never needed |
| `AdmissionGate.RejectedIffQueueFull` | backend/api/image_admission.go:110-115 | A caller is rejected exactly when the queue's limit of callers are in it |
| `AdmissionGate.SlotIsFreeIff` | backend/api/image_admission.go:127-150 | A queued caller is admitted exactly if fewer callers than the limit hold a slot |
| `AdmissionGate.NewGateIff` | backend/api/image_admission.go:42-64 | A new gate is made exactly if the limits asked for, with the defaults for a missing queue limit and timeout, are not those of the current one; it is empty, has those limits, and the old gates stay |
| `AdmissionGate.StepMoves` | backend/api/image_admission.go:104-157 | Where each channel operation leads its caller; it stays at its gate, and nobody else moves |
| `AdmissionGate.ArrivalPicks` | backend/api/image_admission.go:42-64 | A newcomer picks the current gate, which then has the limits asked for; without a limit it passes by |
| `AdmissionGate.MeasureCounts` | backend/api/image_admission.go:127-150 | The in-flight figure a caller starts with is the number of others that hold a slot of its gate |
| `AdmissionGate.ReleaseReturnsToItsGate` | backend/api/image_admission.go:139-144 | A release returns the slot to the gate it came from and changes no other gate; a second release does nothing |
| `AdmissionGate.CallersKeepTheirGate` | backend/api/image_admission.go:42-64 | Over every run a caller never touches a gate other than the one it picked |
| `AdmissionGate.SnapshotInflight` | backend/api/image_admission.go:66-88 | The in-flight figure is at most the number of slot holders, and equal to it exactly when no retired gate has holders |
| `AdmissionGate.SwapAdmitsBeyondEitherLimit` | backend/api/image_admission.go:55-61 | A configuration change lets two callers run under limits of one |
| `AdmissionGate.WithinLimitIff` | backend/api/image_admission.go:42-64 | The number running is within the current limit exactly if the holders of retired gates fit into its free slots |
| `AdmissionGate.RunningWithinAllLimits` | backend/api/image_admission.go:42-157 | In every run at most as many callers run as the gates made so far admit together |
| `AdmissionGate.SteadyRunStaysWithinLimit` | backend/api/image_admission.go:42-157 | In every run in which the limits are not changed, never more than the limit |
| `AdmissionGate.Controller.Acquire` | backend/api/image_admission.go:42-157 | With others running between any two operations, every return leaves the caller with a slot of its gate and no queue token, or with neither |
| `AdmissionGate.Controller.Wait` | backend/api/image_admission.go:127-156 | The select ends, with a slot, a cancel or the timer |
| `AdmissionGate.Controller.ReleaseSlot` | backend/api/image_admission.go:139-144 | The release is idempotent |
| `AccountRouting.NormalizeGroups` | backend/internal/accounts/image_routing.go:43-81 | The enabled groups are the non-negative ones of the input, ascending and without repetition |
| `AccountRouting.AscendingIsUnique` | backend/internal/accounts/image_routing.go:43-81 | Which determines the normalized list, whatever the input order |
| `AccountRouting.Normalize` | backend/internal/accounts/image_routing.go:43-81 | Group size at least 1 with default 10, percentage within 0 to 100, known sort mode and reserve mode |
| `AccountRouting.BeforeIsTotal` | backend/internal/accounts/image_routing.go:623-656 | Every sort mode is irreflexive, asymmetric and total on distinct names |
| `AccountRouting.BeforeTrans` | backend/internal/accounts/image_routing.go:623-656 | and transitive |
| `AccountRouting.SortIsSorted` | backend/internal/accounts/image_routing.go:623-656 | The sorted list is strictly ordered and has the same accounts |
| `AccountRouting.SortOrder` | backend/internal/accounts/image_routing.go:623-656 | Mode by mode, of any two accounts in the sorted list: by quota the earlier has no less quota left; by import one with an import time comes before one without and the earlier time first; ties, and the mode by name, go by title and then by name |
| `AccountRouting.StringLessIff` | backend/internal/accounts/image_routing.go:623-656 | Strings are ordered by their first difference, a proper prefix first |
| `AccountRouting.RemainingIs` | backend/internal/accounts/image_routing.go:664-702 | The quota that counts is the image limit if there is one, else the plain figure, never below 0; the base of the reserve is today's first figure, or else the current one |
| `AccountRouting.ModeIsRead` | backend/internal/accounts/image_routing.go:43-81 | Sort mode and reserve mode are read without the white space around them, the sort mode in any case; unknown sort modes are by import, a blank reserve mode is the daily one |
| `AccountRouting.GroupingIsCanonical` | backend/internal/accounts/image_routing.go:324-343 | The sorted list and every group are the same for every order in which the accounts were loaded |
| `AccountRouting.AllGroupsHoldAll` | backend/internal/accounts/image_routing.go:326-343 | The groups one after another are the sorted accounts: each account once, none left out |
| `AccountRouting.CutByIndex` | backend/internal/accounts/image_routing.go:393-402 | Group g exists exactly if g * size is below the number of accounts, and is that slice |
| `AccountRouting.CutLength` | backend/internal/accounts/image_routing.go:326-329 | There are as many groups as the ceiling of the quotient |
| `AccountRouting.Store.CutGroups` | backend/internal/accounts/image_routing.go:393-402 | The program's slices are those groups |
| `AccountRouting.Store.Candidates` | backend/internal/accounts/image_routing.go:402-429 | The filter loop keeps exactly the eligible members |
| `AccountRouting.Store.SelectFromGroups` | backend/internal/accounts/image_routing.go:383-463 | It selects exactly if some group has an eligible member; then from the first such group, the member with the best claim as in `Store.Best`; only that account is leased |
| `AccountRouting.Store.Acquire` | backend/internal/accounts/image_routing.go:286-381 | It succeeds exactly if the request can be served from the selected groups or, for a filtering caller, from any; the account is eligible, from the first serving group, with the best claim in it as in `Store.Best`; its lease goes to the request, and the error tells which case failed |
| `AccountRouting.Store.AcquireLease` | backend/internal/accounts/store.go:1039-1064 | A lease is granted exactly if the token is not leased |
| `AccountRouting.Store.Count` | backend/internal/accounts/image_routing.go:106-284 | Each counting function counts the accounts that pass its filters, with the fall-back to all groups |
| `AccountRouting.Store.CountFromGroups` | backend/internal/accounts/image_routing.go:536-621 | Over the selected groups: the number of members that pass |
| `AccountRouting.ServableIffCounted` | backend/internal/accounts/image_routing.go:106-191 | The available count is positive exactly when a request can be served |
| `AccountRouting.CountThenAcquire` | backend/internal/accounts/image_routing.go:83-191 | So counting and then acquiring with nothing excluded succeeds exactly if the count was positive |
| `AccountRouting.CountBoth` | backend/internal/accounts/image_routing.go:106-284 | The two counts of one store: available implies potential, and the exact condition for the available count to be the larger one |
| `AccountRouting.AvailableImpliesPotential` | backend/internal/accounts/image_routing.go:193-284 | A positive available count implies a positive potential count |
| `AccountRouting.AvailableExceedsPotentialIff` | backend/internal/accounts/image_routing.go:106-284 | The available count is the larger one exactly when only it falls back to all groups and finds more accounts there |
| `AccountRouting.AvailableCanExceedPotential` | backend/internal/accounts/image_routing.go:106-284 | It happens in a store: three suitable accounts in groups of one, the first enabled and leased, a filtering caller; two are available and one is potential |
| `AccountRouting.ReserveBounds` | backend/internal/accounts/image_routing.go:670-694 | For a positive base the reserve is in [0, base), is the percentage rounded up unless capped, and grows with the percentage |
| `AccountRouting.DrainDay` | backend/internal/accounts/image_routing.go:658-702 | From a full day's quota exactly base minus reserve requests are accepted, one unit each, and the reserve is left |
| `AccountRouting.Store.Best` | backend/internal/accounts/image_routing.go:435-448 | Quality by quality: if a candidate is ready so is the one taken; no candidate of equal readiness has a higher priority; none of equal priority has fewer failures; none of equal failures was used earlier |
| `AccountRouting.UnbeatenIsJustified` | backend/internal/accounts/image_routing.go:435-448 | That is what the program's comparison decides, in both directions |
| `AccountRouting.SuitableIff` | backend/internal/accounts/image_routing.go:402-429 | Field by field, which accounts may serve: by filter, disabled flags and status, and with quota above the reserve or, if not ready, due for a refresh |
| `AccountRouting.GrantsPickBest` | backend/internal/accounts/image_routing.go:383-463 | So the account of every granted pick may serve, is free, and has the best claim in its group |
| `AccountRouting.GrantsLowestGroup` | backend/internal/accounts/image_routing.go:286-381 | The group is the lowest that can serve among the enabled ones (among all if no enabled one exists, or if a filtering caller falls back) |
| `AccountRouting.ServedIff` | backend/internal/accounts/image_routing.go:286-381 | A request is served exactly if an enabled group, or for a filtering caller any group, has a free account that may serve; otherwise the groups are reported as exhausted exactly if the policy names groups and there are accounts |
| `RetryLoop.RunRequest` | backend/api/server.go:1178-1205 | For every store and every script of what other requests do before and during each attempt, the loop ends after a run of the specification: each pick is one the policy grants in the store as it is then, with the earlier ones excluded and after a retryable failure; the answer is that of the last attempt, or follows from a rejection by the store as it is then; the store is left as that run leaves it |
| `RetryLoop.RejectionSays` | backend/api/server.go:1249-1263 | Which error a rejected request reports: that the groups are exhausted if the policy names groups and there are accounts, else the error of the last attempt, else that there is no account |
| `RetryLoop.NothingHeldBetween` | backend/api/server.go:1196-1204 | Every lease is given back before the next acquisition: whenever the store is asked, and at the end, the request holds nothing |
| `RetryLoop.AttemptHoldsOne` | backend/api/server.go:1387-1395 | During an attempt the request holds exactly the lease of its account, whatever others do |
| `RetryLoop.TokensDiffer` | backend/api/server.go:1196-1202 | No account is tried twice, and there are at most 64 attempts |
| `RetryLoop.RunOnce` | backend/api/server.go:1387-1395 | Others act during the attempt, and the lease is released on every path |
| `RetryLoop.AloneSeesTheSame` | backend/api/server.go:1178-1205 | A request that runs alone finds the same store at every acquisition |
| `RetryLoop.AloneIsServedIff` | backend/api/server.go:1178-1205 | and gets an account at all exactly if the available count is positive |
| `RetryLoop.AloneTriesAll` | backend/api/server.go:1178-1205 | If it is turned away it has tried every suitable free account of the selected groups, and, if it filters, of all groups |
| `RetryLoop.AcquireUntried` | backend/internal/accounts/image_routing.go:406-411 | An acquisition never returns an account already tried or leased, and records the request as the holder |
| `ConversationGraph.Walk.Visit` | backend/handler/client.go:993-1016 | The recursive walk, on any mapping with cycles, shared and dangling children, terminates and processes what the list form does, in the same order |
| `ConversationGraph.Walk.CollectFrom` | backend/handler/client.go:993-1021 | With a root: exactly the reachable nodes, each once |
| `ConversationGraph.WalkIsReachability` | backend/handler/client.go:993-1021 | A node is processed exactly if a path of present, non-empty ids leads to it from the root |
| `ConversationGraph.ReachableImages` | backend/handler/client.go:993-1021 | The images collected are those of the reachable nodes that carry a message, and no others |
| `ConversationGraph.Walk.CollectAll` | backend/handler/client.go:1023-1027 | Without a root: every non-empty key once, whatever the order of the map |
| `ConversationGraph.PreorderSplit` | backend/handler/client.go:993-1016 | Walking two lists is walking the first and then the second with what has been seen |
| `ImageHeader.DetectSize` | backend/handler/client.go:401-430 | In bounds and terminating on arbitrary bytes; the result is that of the scan |
| `ImageHeader.JpegSizeIsFound` | backend/handler/client.go:412-428 | For a start marker, any list of legal segments and a frame header (sections B.1.1.4 and B.2.2 of ITU-T T.81) the scan returns width and height |
| `ImageHeader.FrameMarkersAre` | backend/handler/client.go:416-424 | The markers taken for a frame header are the thirteen start-of-frame codes of table B.1 |
| `ImageHeader.SegmentsAreSkipped` | backend/handler/client.go:412-428 | The scan steps over any list of segments, whatever bytes they carry |
| `ImageHeader.StrayByteIsSkipped` | backend/handler/client.go:414-418 | A byte that begins no marker is stepped over, one at a time |
| `ImageHeader.ShortTailIsNotRead` | backend/handler/client.go:414 | A header of which less than ten bytes are left is not read |
| `ImageHeader.SizeIsFoundIffNoFill` | backend/handler/client.go:412-428 | In files of up to 48 KB the size is found exactly when no fill byte (section B.1.1.2) precedes any marker up to the frame header |
| `ImageHeader.PngSizeIsFound` | backend/handler/client.go:401-411 | Width and height of a PNG header come back |
| `ResponsesStream.StreamRoundTrip` | backend/handler/responses_client.go:335-354 | Any frames of one-line texts, printed as data lines and blank lines and read by the line scanner, come back in order, each line trimmed |
| `ResponsesStream.FramesRoundTrip` | backend/handler/responses_client.go:335-354 | The same from lines, for any frames |
| `ResponsesStream.FramesUnchangedIff` | backend/handler/responses_client.go:343-346 | They come back unchanged exactly if no line begins or ends with white space (section 9.2.6 of the WHATWG HTML standard would take away one leading space only) |
| `ResponsesStream.OtherLinesAreIgnored` | backend/handler/responses_client.go:335-347 | A line that is neither blank nor a data line makes no difference, wherever it stands |
| `ResponsesStream.SpacingIsIgnored` | backend/handler/responses_client.go:343-346 | Nor does the white space after the colon of a data line, or its absence |
| `ResponsesStream.TextRoundTrip` | backend/handler/responses_client.go:254-255 | Lines survive printing and scanning, except for one carriage return at their end |
| `ResponsesStream.Parser.Parse` | backend/handler/responses_client.go:253-365 | The first error event decides, then a read error, then an error in the unterminated last frame; otherwise, told from the frames, every image that a finished event carries, where it is first offered, or only if there is none the last partial image of each item, none twice; an empty result is an error |
| `ResponsesStream.Parser.ProcessFrame` | backend/handler/responses_client.go:277-333 | One frame changes the parser as the specification says, and reports its error event |
| `ResponsesStream.AnswersReads` | backend/handler/responses_client.go:253-365 | What the specification of the parser means for the frames: which message, and which images in which order |
| `ResponsesStream.GatherFinished` | backend/handler/responses_client.go:317-331 | Without an error event the finished images are those of all frames, one frame after the other |
| `ResponsesStream.GatherFirstError` | backend/handler/responses_client.go:308-312 | The first error event decides, with its message or, if that is blank, the default |
| `ResponsesStream.GatherPartials` | backend/handler/responses_client.go:313-316 | Of each item the last partial image is kept, and of no item without one |
| `ResponsesStream.Parser.Emit` | backend/handler/responses_client.go:262-275 | A blank or known image is skipped |
| `ResponsesStream.Parser.EmitPartials` | backend/handler/responses_client.go:356-360 | Every non-blank latest partial once, in whatever order the map is ranged over |
| `ResponsesStream.EmittingIsDeduplicating` | backend/handler/responses_client.go:262-275 | Skipping what was seen leaves exactly the first occurrences |
| `ResponsesStream.FirstOccurrencesAreAll` | backend/handler/responses_client.go:262-275 | Which name every non-blank image, and none twice |
| `ResponsesStream.FirstOccurrencesAt` | backend/handler/responses_client.go:262-275 | They are the offers that are made for the first time, in the order of the stream |
| `ResponsesStream.ErrorsStick` | backend/handler/responses_client.go:337-343 | Nothing after an error event is looked at |
| `LoginLimiter.Limiter.Allow` | backend/api/login_rate_limiter.go:40-58 | Refused exactly if the key's streak is full and its last failure is less than the lockout ago; forgetting an expired entry changes no later answer |
| `LoginLimiter.Limiter.RecordFailure` | backend/api/login_rate_limiter.go:60-79 | Keeps the entries in step with the history |
| `LoginLimiter.Limiter.RecordSuccess` | backend/api/login_rate_limiter.go:81-89 | Keeps the entries in step with the history |
| `LoginLimiter.Limiter.constructor` | backend/api/login_rate_limiter.go:25-38 | Defaults of five failures and a quarter of an hour |
| `LoginLimiter.StreakIsBounded` | backend/api/login_rate_limiter.go:60-79 | No lockout without that many failures since the last success, and the last one is a real failure of the key |
| `LoginLimiter.KeysAreIndependent` | backend/api/login_rate_limiter.go:40-89 | Other keys never matter |
| `LoginLimiter.FirstLockout` | backend/api/login_rate_limiter.go:60-79 | The maximum of failures in a row locks the key until the lockout has passed |
| `LoginLimiter.FailureCounts` | backend/api/login_rate_limiter.go:60-79 | A failure extends a streak, also one that is locked, and begins a new one exactly when a lockout has passed |
| `LoginLimiter.FreshStart` | backend/api/login_rate_limiter.go:60-89 | After a success, or a failure that comes when a lockout has passed, a key is judged as if the history began there |
| `LoginLimiter.LockoutIsForgotten` | backend/api/login_rate_limiter.go:60-79 | So a lockout that has passed leaves the key all its attempts again |
| `DispatchTags.MergeTags` | backend/api/business_dispatch_tags.go:144-161 | The loop with its seen set gives every non-blank normalized tag once, at its first occurrence |
| `DispatchTags.FilterTags` | backend/api/business_dispatch_tags.go:163-185 | Each filter gives the merged tags of its kind |
| `DispatchTags.FilterIsKeep` | backend/api/business_dispatch_tags.go:163-190 | Filtering and merging can be done in either order |
| `DispatchTags.FiltersPartition` | backend/api/business_dispatch_tags.go:144-190 | The two filters split the merged list without loss or overlap, and merging them back is concatenation |
| `DispatchTags.MergeIsProper` | backend/api/business_dispatch_tags.go:144-161 | A merged list has no repetition, only normalized tags, and is a fixed point of merging |
| `DispatchTags.TaggedPayload.Extract` | backend/api/image_provider_proxy.go:1641-1667 | The linear look-up gives the same as merging the stored tags with the field tags |
| `DispatchTags.TaggedPayload.Enrich` | backend/api/business_dispatch_tags.go:17-39 | The stored lists and the returned tags are those of the specification, trusted or not |
| `DispatchTags.ClientsCannotClaimLevels` | backend/api/business_dispatch_tags.go:17-39 | For a client's payload every level or role tag is one the user has, and all of those are there |
| `DispatchTags.SubmittedTagsIff` | backend/api/image_provider_proxy.go:1641-1667 | Which tags steer a submitted job: those of the user, and those that a tag of the payload or one of its seven fields asks for and that do not speak for a user |
| `DispatchTags.RequeueTrustsStoredUserTags` | backend/api/business_dispatch_tags.go:29-35 | A requeue uses the stored prefixed user tags, whatever the user has by then |
| `DispatchTags.RequeueKeepsTagsIff` | backend/api/business_dispatch_tags.go:17-39 | A requeued job keeps its dispatch tags exactly if no user tag is unprefixed and missing from the request, and, when the request had no tags, its fields give none |
| `DispatchTags.RequeueIsStable` | backend/api/business_dispatch_tags.go:17-39 | After one requeue further ones change nothing |
| `DispatchTags.UnprefixedLevelIsLost` | backend/api/business_dispatch_tags.go:163-190 | A user tag without a prefix steers the job at submission; after a requeue of a job with request tags it does so exactly if the request has it too |
| `DispatchTags.LevelIsLostOnRequeue` | backend/api/business_dispatch_tags.go:163-190 | An instance of that for every unprefixed level |
| `DispatchTags.CurrentTagsStartWithRole` | backend/api/business_dispatch_tags.go:41-59 | The first tag of a user is a normalized role tag, whatever the levels are called; the others are the levels that have a name, that of the subscription first |
| `DispatchTags.RolePartIs` | backend/api/business_dispatch_tags.go:286-309 | A role of letters, digits, underscores and inner dashes is its own tag, in lower case and without the white space around it |
| `DispatchTags.RolePart` | backend/api/business_dispatch_tags.go:286-309 | The role part is never empty and has only plain characters |
| `JobQueue.Worker.Drain` | backend/api/business_job_worker.go:81-97 | For every script of what others do and which calls fail, the drain ends and is the drain of the specification: passes follow each other exactly while the time is not up and batches are recovered in full |
| `JobQueue.DrainStartsOnce` | backend/api/business_job_worker.go:81-136 | Whatever others do, a drain starts a job at most once, plus once for each time somebody puts it up again |
| `JobQueue.UndisturbedDrainEmpties` | backend/api/business_job_worker.go:81-136 | If nobody else acts, no call fails and the time suffices: at the last listing nothing claimable is left, and exactly the jobs claimable by then have been started, each once |
| `JobQueue.QuietDrainEmpties` | backend/api/business_job_worker.go:81-136 | With time standing still: no row is claimable at the end, and the jobs started are those that were claimable, each once |
| `JobQueue.DrainLeavesOnlyOffers` | backend/api/business_job_worker.go:81-136 | Whatever others do, after a last pass that was short and met no error only what was put up meanwhile is left |
| `JobQueue.Worker.Recover` | backend/api/business_job_worker.go:110-136 | One pass: unlisted exactly if the listing fails or is late, else the listing and the claims of the specification |
| `JobQueue.Worker.Claim` | backend/internal/businessjobs/store.go:1075-1124 | The conditional update claims a claimable row and leaves any other alone; a failure before or after it starts nothing |
| `JobQueue.ClaimStartsIff` | backend/internal/businessjobs/store.go:1075-1124 | Told from the row's columns: when a claim starts a job, and the thirty-second lease it leaves; no other row changes |
| `JobQueue.SaveOpensIff` | backend/internal/businessjobs/store.go:572-694 | A save puts a job up for claiming exactly if it makes it queued, and not as claimed with a lease that lasts |
| `JobQueue.Worker.ListQueued` | backend/internal/businessjobs/store.go:985-1021 | The oldest claimable jobs, in order, at most a hundred, and all of them if fewer |
| `JobQueue.ClaimExcludesOthers` | backend/internal/businessjobs/store.go:1075-1124 | In every run in which nothing puts the job up again, nobody can claim it for thirty seconds after a claim |
| `JobQueue.WaitingJobIsClaimable` | backend/api/image_provider_proxy.go:1113-1115 | The save of a started worker before admission clears the lease of its own job, which can then be claimed and started again at any time |
| `JobQueue.LostClaimEndsTheDrain` | backend/api/business_job_worker.go:81-97 | A drain in which one claim of a full batch is lost to another worker ends after that pass, with the jobs behind it still claimable and no error met |

## Left out

- HTTP handlers, JSON and SQL text: requests, payloads and rows appear as values; a query is the function it computes.
- Steps of `executeProviderImageGenerate` before the reservation: validation, risk control, admission and the running save end the job without touching credits.
- Provider calls, retries, fallback and pool reporting: collapsed into one result of the provider (`Dispatch`).
- Tracker, image history and file persistence: they do not affect credits or job status.
- A job store that fails: the worker's saves and the cancel handler's writes are taken to succeed.
- The cancel handler and a reconciler pass as several steps: each is one step for a running worker; at the grain of single transactions every interleaving is covered by `CreditLedger.RunKeepsBooksSound` and `CreditLedger.RunConserves`.
- Steps of others inside one reservation, inside one split refund, or between a save and the totals read before it: each of these is one step of the worker in `Settlement`; `JobRecords.WriteKeepsIff` covers a save that is overtaken.
- Two workers on one generation: the figures of `Settlement.RunEnds` are for one worker, although `JobQueue.WaitingJobIsClaimable` shows that the queue does not rule a second one out; the ledger laws hold for any number.
- New subscriptions during a run, and the order by expiry: subscriptions are a list in spending order whose members may lapse and return.
- Settlement.RunEnds: for a user with several subscriptions refunds are exact in calm runs only and bounded otherwise, because other generations may use or refund the same subscription meanwhile; `Reservations.SplitRefundGivesBack` has the exact condition at the refund itself.
- CancelMoments.OneCancelIsUnpaidIff: for answers with exactly the images asked for, so that the store calls can be counted; `SettlementRuns.ForgottenCancelIsUnpaid` is for all answers.
- RefundNotes.RecordTells: while others act on the job the record shows at least the ledgers' refunds, and not exactly them, because a cancel handler may have noted more than it paid; only for a positive price, since a run that costs nothing reads no totals.
- A subscription transaction that commits and reports an error: its store reads nothing after the commit, so only a lost reply could do that.
- int64 overflow: amounts are unbounded integers.
- Timestamps, provider and lease columns of a job record in `JobRecords`; `JobQueue` has the lease and schedule columns instead.
- Textual comparison of timestamps in the queue's queries: times are integers, so the ordering of fractional seconds as text is not modelled.
- Routing without an enabled policy and by preferred account: `AccountRouting` models the policy path, and `RetryLoop` the loop over it; the token filter `strings.TrimSpace` at load is assumed done.
- Quota refresh within an attempt and the repeated policy check there: the result of an attempt is arbitrary.
- Floating point in the ceilings: exact integer ceilings, so rounding of very large quotients is not modelled.
- Order among equally good candidates: `sort.Slice` is not stable, and `AccountRouting.Store.Best` leaves the choice open.
- Lower-casing of non-ASCII letters: `Text.Lower` changes ASCII letters only.
- Payload tag lists given as comma-separated text: `DispatchTags` starts from the list of tags.
- Configured billing levels: which level tag a user has is an input of `DispatchTags.CurrentTags`.
- Hashing of images: SHA-256 is taken to be injective, so images are compared by their text; the data URL around them is not built.
- The scanner's line limit: a line that is too long is a read error like any other (`unreadable`).
- Downloads inside the conversation walk: the images of a node are data of the node.
- A clock that runs backwards: `LoginLimiter.Limiter.Allow` and `RecordFailure` require a non-decreasing one.
- Redis and PostgreSQL variants of dispatcher and claim: their conditional update is that of `JobQueue.Worker.Claim`.
- ImageHeader.SizeIsFoundIffNoFill: only for files of up to 48 KB and segments with non-reserved markers, because otherwise the misled scan may land on bytes that happen to look like a frame header.
- The front end, administration, payments, redeem codes, mail, updates and configuration: thin wrappers without a deep property.
