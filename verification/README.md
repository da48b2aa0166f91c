# Verification model of the payment ledger

A Dafny model of the service that credits on-chain token transfers to invoices, with proofs about it. The database is
one value (`Tables`), every SQL statement a function on it, every transaction of the matching service a function built
from those (`Matching`), and the service itself, the watchers, the allocator, the dispatcher, the listing client and the
request budget are classes and methods proved against them. Nothing here executes the service.

How the modules fit together:

- **State and steps.** `Domain` (status machine, credit window), `Tables` (rows, unique indexes, SQL statements),
  `Matching` (`Apply`, `credit`, `Settle`, `Revoke` and every other actor's step as one `Move`), `Query` (`ORDER BY …
  LIMIT`), `Arithmetic`.
- **Whole runs.** `Ledger` and `Interference` say what one step keeps, `Rows` what a transaction writes field by field;
  `Runs` is the machine of every interleaving, with `Apply`'s reads and its transaction as separate steps;
  `Notifications`, `Holds`, `Crediting`, `RowsDuringRuns`, `Windows` and `MixedBases` prove the properties that need a
  history.
- **Imperative code.** `Store` holds one method per SQL statement, `Service` the matching service and the expirer,
  `Allocation` the nonce walk and the insert retry, `Settling` the settle pass, `BscWatcher` and `TronWatcher` the two
  watchers, `Outbox` one dispatcher tick, `Listing` the page query and the client's walk, `RateBudget` the daily quota.
  `BscCursor`, `BscCatchUp`, `BscCoverage`, `BscReorg`, `TronFeed`, `Watching` and `Recording` hold what is proved about
  the watchers over many ticks; `Applying` and `Clearing` when a sequence of transfers goes through, `Stalling`, `TronStall`
  and `BscStall` how one transfer can hold a watcher up.
- **Timed machine.** `Dispatchers`, `Leases` and `Overlaps` model several dispatchers with claims, slots, timeouts,
  crashes and lost outcomes. `Backoff` is the retry delay in 64-bit arithmetic, `CryptoAmount` the decimal strings.

Assumptions the model makes, and where:

- One SQL statement or one transaction is atomic; a unique index aborts it. A `CreateInvoice` that violates several
  constraints reports primary key, CHECK and foreign key first, then the amount, then the external id.
- One watcher per network runs at a time. Every other actor may act before any statement of a watcher: the methods take
  these interferences as parameters, so their contracts hold for all of them.
- One clock: the service's `now` and the database's `NOW()` agree. `amount_hold` does not change during a run.
- Event ids are fresh where a theorem says so (`repeatedEventId` is false), and notifications are on.
- The endpoint answers exactly for the range asked. A log marked removed is modelled as the code handles it. The head
  plus one chunk stays below 2^64; `BscCursor.ChunkAcceptedIff` says what happens otherwise.
- In the dispatchers' machine, storing an outcome takes no time and a delivery ends by its timeout, which is not
  negative; a free slot is taken at once. A claim may take any due events, as it may while others hold row locks;
  `Overlaps.OverlapIff` is proved for such claims and for those of the longest overdue alike.
- A watcher's tick stops at the first transfer that is refused. `BscCatchUp.CatchUp` and `TronWatcher.Poll` say what
  happens when none is, and state a condition on tables and transfers under which none is; `Crediting.ApplyFailsIff` and
  `Applying.AppliedIff` say exactly which are.

Results that are false of the code as one might first state them, and the exact condition that holds instead:

- A detected invoice may have no live payment: `Crediting.DetectedWithPaymentIff`,
  `Crediting.RevivedInvoiceHasNoPayment`.
- Credit windows may overlap: `MixedBases.WindowsOverlapIff`; they do not on one grid: `Windows.WindowsStayDisjoint`.
- A repeated `Apply` may change something, when two claimants are equally new: `Crediting.ApplyIsIdempotent`,
  `Crediting.ARepeatCanCredit`.
- A detected invoice may never be confirmed. A second transfer into its window fails every tick before the settle pass,
  unless the first is read again before it (`TronStall.Alone`, `TronStall.ConfirmedIff`, `BscStall.ChunkAppliedIff`); it
  is not when the TRON cursor is past its stamp, or on BSC its block lies below the cursor and there is no reorg window:
  `TronStall.Stuck`, `BscStall.Stuck`, and for tables like that `TronStall.HeldUpHappens`, `BscStall.HeldUpHappens`.
- A payment may be withdrawn though the chain has its log: when its asset was disabled after the invoice was issued, for
  then its contract is not asked for: `BscReorg.WithdrawnIffDisabled`, `BscReorg.DisabledTokenIsWithdrawn`.
- Of two transfers in one TRON transaction the second may go on no record: `TronWatcher.SecondOfTransactionIsLost`.
- A due payment may not be settled though the pass runs: on BSC the oldest 500 are listed by age alone, so that many
  older ones that are not due keep it out: `Settling.ReachedByAge`, `BscStall.ADuePaymentIsKeptOut`. On TRON this
  cannot happen: `TronWatcher.TickSettlesTheOldest`.
- A BSC backlog may never be caught up with, and a restart may skip blocks: `BscCursor.CatchUpIff`,
  `BscCursor.RewindLeavesNoGapIff`, `BscCoverage.BeginsAnewIff`.
- A TRON feed may clog: `TronFeed.DrainsIff`.
- An event may be in flight at two dispatchers, by default: `Overlaps.OverlapIff`, `Overlaps.DefaultsOverlap`. The
  comment above `Lease` says it must outlast a delivery attempt; it would have to outlast the attempts queued before it
  as well.
- Retry delays may shrink, and may differ from the intended ones: `Backoff.DelayNeverDecreasesIff`,
  `Backoff.DelayIsIdealIff`.
- The daily quota may be exceeded: `RateBudget.QuotaIsExceededIff`, `RateBudget.BooksBalance`.
- A text whose digits an int32 cannot count may be read wrongly: `CryptoAmount.ParseIsExactIff`; for one, a fraction of
  2^31 ones is not refused: `CryptoAmount.LongFractionsAreNotRefused`.

## Model

| member | source | states |
|---|---|---|
| Domain.TerminalIsFinal | internal/domain/invoice.go:61-100 | along any status path a terminal status never changes, and after `detected` an invoice expires or is cancelled only after a return to `pending` |
| Domain.TerminalIffNoSuccessor | internal/domain/invoice.go:51-90 | a status is terminal if and only if the table offers no move out of it |
| Domain.WindowsMeetIffClose | internal/domain/invoice.go:160-181 | two half-open credit windows share a value if and only if their pay amounts differ by less than one step |
| Ledger.EveryStepKeeps | schema/schema.sql:65-200 | every step of every actor only evolves the rows (payments and orphans never vanish, a withdrawal is set once, statuses follow the table) and keeps the foreign keys and the uniqueness of held amounts |
| Ledger.EveryStepKeepsPaidOnce | schema/schema.sql:184-199 | every step keeps "at most one live payment per invoice, none on a pending one" |
| Ledger.CreditWrites | internal/service/matching/matching.go:218-292 | what a committed credit may have written: one new payment row or none, and at most one invoice row; a new payment never leaves its invoice pending |
| Ledger.RevokeWrites | internal/service/matching/matching.go:366-427 | a revocation of a live row withdraws exactly that row and returns exactly its invoice, if detected, to pending with zero confirmations; otherwise it changes nothing |
| Ledger.SettleWrites | internal/service/matching/matching.go:303-358 | settling touches no payment and at most confirms the one open invoice the payment names |
| Ledger.ReadIsSound | internal/service/matching/matching.go:144-195 | what `Apply` decided from exact lookups is consistent with the tables at that moment |
| Interference.OutsideStep | internal/service/matching/matching.go:158-195 | a step by anybody but the watcher of a network leaves that network's payments, and what a pending decision rests on, alone |
| Interference.OutsideRun | internal/service/matching/matching.go:158-195 | so does any sequence of such steps, which also keeps the ledger invariants |
| Interference.StaysSound | internal/service/matching/matching.go:218-274 | a decision taken from reads is still sound when its transaction starts, whatever cancel, expire, create or the other watcher did in between |
| Runs.EveryRunKeepsTheLedger | internal/service/matching/matching.go:144-427 | in every reachable state of every interleaving: foreign keys hold, at most one live payment per invoice, none on a pending one, every open invoice holds its amount, held amounts are unique, and every decision in flight is sound |
| Runs.EveryRunKeepsAssetKeys | schema/schema.sql:57 | over every run an asset is the only one of its network and contract, so a lookup by contract has one answer |
| Rows.CreditWritesRows | internal/service/matching/matching.go:209-292 | the whole effect of a credit on the tables, field by field, in terms of the rows it finds |
| Rows.CreditAnswers | internal/service/matching/matching.go:209-292 | what the caller of a credit is told: refused, credited, or unchanged, each with its exact condition |
| Rows.SettleWritesRows | internal/service/matching/matching.go:303-358 | the whole effect of settling a payment, and exactly when it fails |
| Rows.RevokeWritesRows | internal/service/matching/matching.go:366-427 | the whole effect of a revocation; with foreign keys holding it never fails |
| Rows.SeedWritesRows | internal/adapter/postgres/queries/asset.sql:1-22 | the start-up upsert: the row of that network and contract takes the configured step, nonce range and `enabled`, or is new; no other asset changes and none is ever removed |
| RowsDuringRuns.EveryRunPaysAtConfirmation | internal/service/matching/matching.go:253-264 | in every reachable state an invoice has a payment time if and only if it is confirmed, and it is the instant it ended |
| RowsDuringRuns.EveryRunKeepsNames | schema/schema.sql:121-273 | in every reachable state no two invoices share an external id, no two events an event id, and without a receiver nothing is queued |
| RowsDuringRuns.EveryInvoiceWasAskedFor | internal/adapter/postgres/invoice_repo.go:136-196 | whatever has happened since, an invoice has the terms of the request that created it, and the time of that step as its creation time |
| Notifications.EveryStepTells | internal/service/matching/matching.go:242-286 | one step changes a status if and only if it queues the one notice that tells the change, carrying the new status |
| Notifications.EveryRunKeepsHistory | internal/service/matching/matching.go:314-492 | over every run with notifications on and fresh event ids, the history of each invoice spells its status |
| Notifications.EventsTellTheStory | internal/service/matching/matching.go:464-492 | the events ever queued for an invoice form a word of (detected reverted)* detected? confirmed?, at most one is `confirmed`, and replaying them gives the current status |
| Holds.EveryStepHolds | internal/adapter/postgres/queries/invoice.sql:62-138 | no step frees an open invoice's amount, and a freed one was terminal with its hold over |
| Holds.OnlyCancelShortensAHold | internal/adapter/postgres/queries/invoice.sql:62-125 | a hold is brought forward only by cancelling that pending invoice, and exactly when the new hold is the shorter |
| Holds.ReleaseFreesWhatIsDue | internal/adapter/postgres/queries/invoice.sql:127-138 | after a release an amount is held if and only if it was, and its invoice is open or its hold still runs |
| Holds.AmountComesFreeIff | internal/adapter/postgres/queries/invoice.sql:127-138 | an ended invoice's amount is free for a new one, once that much time has passed and a release has run, if and only if its hold is over by then |
| Holds.EveryRunBooks | internal/adapter/postgres/queries/invoice.sql:83-138 | over every run each ended invoice is held for at least `amount_hold` beyond its end, although cancel overwrites the hold, and its amount is free only after that |
| Holds.ExpiryComesAfterTheDeadline | internal/adapter/postgres/queries/invoice.sql:113-125 | over every run an expired invoice ended strictly after its deadline |
| Holds.AmountsAreNotReusedEarly | internal/adapter/postgres/queries/invoice.sql:113-138 | if two invoices of a run ever had one asset and pay amount, the earlier had ended and the later was created no earlier than that end plus `amount_hold` |
| Crediting.AppliedIsFiled | internal/service/matching/matching.go:144-195 | a successful `Apply` leaves its transfer in payments or orphans, a failed one changes nothing |
| Crediting.NothingIsLost | internal/adapter/postgres/queries/payment.sql:1-63 | over every run what is filed stays filed, a payment row keeps every field but its withdrawal, an invoice what it was issued with, an ended one its status |
| Crediting.AppliedToTheRightInvoice | internal/service/matching/matching.go:158-292 | the verdict on a new transfer in terms of the tables: unknown asset, no claimant, ended claimant, or credited to the newest held claimant of that asset, with the transfer on record field by field; the invoice's row then has the new status, the same confirmations, a payment time only if the transfer is final, a hold that is the later of its old one and now plus `amount_hold`, and is otherwise as it was, the receiver is told, and no other invoice changes; it fails if and only if the open invoice found already has a live payment |
| Crediting.ApplyFailsIff | internal/service/matching/matching.go:144-292 | for every transfer, recorded or not: `Apply` returns an error if and only if the value is not positive, or there is no payment row and the lookup finds an open invoice that already has a live payment |
| Crediting.ApplyIsIdempotent | internal/service/matching/matching.go:158-207 | repeating an `Apply` whose row is not withdrawn, with any answers the lookups may give the second time: exactly when the repeat changes anything (the first left no payment, and now an open invoice without one is found, or none is and the transfer is not an orphan yet) |
| Crediting.ARepeatCanCredit | internal/adapter/postgres/queries/invoice.sql:93-111 | it happens: two invoices of one instant at 100 and 105, windows ten wide, one ended; a transfer of 107 is filed as an orphan and credited when repeated |
| Crediting.SameAnswersChangeNothing | internal/service/matching/matching.go:158-207 | the answers of the first time are still right ones, and with them the repeat changes nothing |
| Crediting.OneAnswer | internal/adapter/postgres/queries/invoice.sql:93-111 | the lookups have only one answer unless another claimant is as new as the newest |
| Crediting.FinalReReadConfirms | internal/service/matching/matching.go:202-207 | a final re-read of a recorded transfer confirms its detected invoice, pays it now, touches no payment and queues the notice |
| Crediting.DetectedWithPaymentIff | internal/adapter/postgres/queries/payment.sql:1-9 | a credit that makes a pending invoice detected leaves it with a live payment if and only if the transfer had no row before |
| Crediting.EveryRunPaidOrRevived | internal/service/matching/matching.go:218-274 | over every run a detected invoice has a live payment unless it was credited off a withdrawn row |
| Crediting.DetectedIsPaidExactlyOnce | internal/service/matching/matching.go:158-274 | on runs where no withdrawn transfer is observed again, a detected invoice has exactly one live payment |
| Crediting.RevivedInvoiceHasNoPayment | internal/adapter/postgres/queries/payment.sql:5-9 | whenever a transfer makes a pending invoice detected, withdrawing and observing it again makes the invoice detected with no live payment |
| Windows.EveryGridRunStaysOnGrid | internal/adapter/postgres/invoice_repo.go:118-119 | if all bases of an asset agree modulo a constant step, so do all pay amounts of the run |
| Windows.WindowsStayDisjoint | internal/adapter/postgres/queries/invoice.sql:93-111 | on such runs the lookup answers an invoice if and only if the amount lies in that invoice's window, whatever order rows come in, and an exact pay amount finds its own invoice |
| MixedBases.WindowsOverlapIff | internal/adapter/postgres/invoice_repo.go:66-120 | over all runs that issue on bases plus whole steps: two held invoices of an asset can claim one amount if and only if two of its bases differ by no multiple of the step and by less than the nonce range; and then a run that always takes the least free nonce gets there |
| Store.Store.RecordPayment | internal/adapter/postgres/payment_repo.go:37-74 | insert-once: known if and only if the key is on record, refused if and only if it is not and the invoice has a live payment, otherwise exactly this row is new; no row on record is touched, and "at most one live payment per invoice" is kept |
| Store.Store.MarkRemoved | internal/adapter/postgres/queries/payment.sql:43-56 | stamps a row as withdrawn once: an earlier stamp, every other field and every other row stay |
| Store.Store.ListAwaiting | internal/adapter/postgres/queries/payment.sql:22-41 | returns the oldest waiting payments, as many as the batch allows, none twice; waiting means live, of the network, and naming a detected invoice |
| Store.Store.ListLiveInBlockRange | internal/adapter/postgres/queries/payment.sql:96-120 | returns every waiting payment stored in the block range and nothing else |
| Store.Store.Cancel | internal/usecases/invoices/invoice_cancel/usecase.go:33-60 | cancels if and only if the invoice is pending; exactly its status and its hold, counted from now, are written, and no other row |
| Store.Store.ExpireBatch | internal/adapter/postgres/queries/invoice.sql:113-125 | ends pending invoices past their deadline, as many as the batch allows, earliest deadline first; of each exactly the status and the hold are written, the hold to the later of its old one and now plus `amount_hold`, and no other row is touched |
| Store.Store.ReleaseExpiredHolds | internal/adapter/postgres/queries/invoice.sql:127-138 | an ended invoice whose hold is over loses its amount, and nothing else of it or of any other row changes; the number reported is by how many the held invoices have become fewer |
| Store.Store.FindInvoiceForAmount | internal/adapter/postgres/queries/invoice.sql:93-111 | answers a held invoice of the asset with the amount in its window, from its pay amount up to the step, and no other such invoice is newer; nothing exactly when there is none |
| Store.Store.TransitionInvoice | internal/adapter/postgres/queries/invoice.sql:62-74 | a compare-and-set on status, row by row: status and confirmations as given, a payment time kept unless one is given, the hold only raised, everything else and every other row as before |
| Store.Store.SaveCursor | internal/adapter/postgres/queries/payment.sql:73-84 | no position of any network is lower than before, block and time apart; this one's are at least what was asked for and no further than that or where they stood |
| Store.Store.RewindCursor | internal/adapter/postgres/queries/payment.sql:86-94 | goes back exactly `depth` blocks, or to zero when there are fewer; creates no cursor, touches no time and no other network |
| Service.Service.Apply | internal/service/matching/matching.go:144-195 | reads, then one transaction on whatever the tables have become meanwhile; result and tables are those of the transaction functions |
| Service.Service.CreditInvoice | internal/service/matching/matching.go:209-292 | the statement sequence of `credit`, rollback included: refused exactly when a new transfer finds a live payment on its invoice; otherwise the payment row is the transfer's, and the invoice, if still as it was read and to be moved on, gets its status, a payment time only when confirmed, the later hold and the one notice, and nothing else is written |
| Service.Service.Settle | internal/service/matching/matching.go:303-358 | a live payment's open invoice is confirmed, paid now, held from now and announced; otherwise nothing is written |
| Service.Service.Revoke | internal/service/matching/matching.go:366-427 | a live payment is withdrawn now, its invoice, if detected, is pending again with hold and payment time as they were, and announced; otherwise nothing is written |
| Service.Service.Sweep | internal/usecases/invoices/invoice_expirer/usecase.go:43-72 | expire, then release, anybody acting in between, each half row by row: exactly the earliest pending invoices past their deadline end, then exactly the ended ones whose hold is over lose their amounts; what the sweep has just expired loses its amount only once the hold has passed |
| Allocation.LowestFreeNonce | internal/adapter/postgres/invoice_repo.go:66-120 | the least nonce whose amount is not held, for any ascending list (duplicates, off-grid and below-base entries, entries past int64); a refusal exactly when every nonce is held or the step is not positive |
| Allocation.ListHeldPayAmountsInRange | internal/adapter/postgres/queries/invoice.sql:1-24 | the held amounts of the asset in the half-open range, ascending, all of them |
| Allocation.TryOnce | internal/adapter/postgres/invoice_repo.go:143-186 | one attempt under interference, its outcome decided by the tables: out of space if and only if every nonce is held at the read; otherwise refused if and only if the key is in use, the asset unknown or the base not positive at the insert; another try if and only if the least free amount was taken meanwhile; external id in use if and only if it is; else the requested row, field by field, at that amount |
| Allocation.CreateInvoice | internal/adapter/postgres/invoice_repo.go:136-196 | under any interference: either exactly one row is added, with the external id, asset, base, deadline and hold asked for, the network of the asset, base plus nonce times step as the amount, pending, unpaid and held from now, under a key, an amount and an external id nobody had; or no row of its own, and the reason given holds in the tables; out of space only if every nonce is held or all three races were lost; left alone each outcome has its exact condition, and what is issued is the least free nonce |
| Watching.ApplyStep | internal/service/matching/matching.go:144-195 | a whole `Apply` under interference: payments come to wait only for this transfer, invoices of the network are confirmed only by it and only when it is final, and success files it |
| Recording.AppliedIsRecorded | internal/service/matching/matching.go:144-292 | whatever others do meanwhile, a successful `Apply` has its transfer on record; a payment it brought says the token, amount, block and time, for an invoice of that token that asks for no more; and once the transfer is final, an invoice its live payment names has ended |
| Watching.QuietOutside | internal/service/matching/matching.go:158-195 | nobody else makes a payment of this network wait or confirms its invoices |
| Watching.SettleConfirms | internal/service/matching/matching.go:303-358 | settling a live payment of a detected invoice cannot fail and confirms that invoice |
| Settling.SettlePass | internal/usecases/chain/bsc_watcher/usecase.go:378-408 | one settle pass lists the oldest waiting payments, as many as its batch allows, and of all waiting payments it confirms exactly those listed that are due |
| Settling.OldestDueAreListed | internal/adapter/postgres/queries/payment.sql:22-41 | where finality follows the time the list is ordered by, the list holds the oldest due payments, as many as the batch allows, however many others wait |
| Settling.ReachedByAge | internal/adapter/postgres/queries/payment.sql:22-41 | where it does not, as on BSC: a payment is not reached while a full batch of payments observed earlier waits, due or not, and is reached while fewer others are as old |
| BscStall.ADuePaymentIsKeptOut | internal/usecases/chain/bsc_watcher/usecase.go:378-408 | for any batch there are tables whose due payment the pass does not reach |
| BscCursor.ChunkAcceptedIff | pkg/evm/client.go:164-172 | the log range guard accepts the scan's chunk if and only if computing its end does not wrap around uint64; it then ends at the lesser of head and from + range - 1 |
| BscCursor.FinalIffBuried | internal/usecases/chain/bsc_watcher/usecase.go:145-168 | by counted confirmations a block is final if and only if that many blocks are on top of it |
| BscCursor.ScanReadsIff | internal/usecases/chain/bsc_watcher/usecase.go:209-238 | a scan starts low enough for a block if and only if the block is new (on a first run: the head) or among the last `reorg_depth` blocks |
| BscCursor.WalkCovers | internal/usecases/chain/bsc_watcher/usecase.go:230-256 | chunks are contiguous: k chunks cover k ranges, clamped to the head |
| BscCursor.TickReach | internal/usecases/chain/bsc_watcher/usecase.go:209-256 | where one tick's cursor ends, in closed form |
| BscCursor.CatchUpIff | internal/usecases/chain/bsc_watcher/config.go:10-19 | with a frozen head the cursor reaches it in finitely many ticks if and only if it is there already or ten chunks span the reorg window (as far as the chain is that long) |
| BscCatchUp.CatchUp | internal/usecases/chain/bsc_watcher/usecase.go:88-341 | ticks of one running process on a chain that stands still, every request answered: one stops only at a log that is refused; if none is, the cursor ends in closed form, and with as many ticks as blocks were missing it has reached the head if and only if it was there already or ten chunks span the reorg window; and none is refused if no transfer to come falls to an invoice another has paid, nor two of them to one |
| BscCatchUp.ScanFailsAtARefusal | internal/usecases/chain/bsc_watcher/usecase.go:256-309 | a scan that fails in the logs of a chunk fails at a log whose value does not decode or is not positive, or that is new and falls to an open invoice with a live payment |
| Clearing.ApplyKeepsClear | internal/service/matching/matching.go:144-292 | if no transfer to come falls into the window of an open invoice another has paid, nor two of them into one window, an `Apply` of one of them succeeds whatever others do around it, and the condition still holds |
| BscCatchUp.TicksBoundedByDistance | internal/usecases/chain/bsc_watcher/config.go:10-19 | when it can reach the head it does so within as many ticks as blocks are missing |
| BscCursor.RewindLeavesNoGapIff | internal/usecases/chain/bsc_watcher/usecase.go:170-214 | a restart leaves no unread gap if and only if the rewind keeps the cursor off zero or the window reaches back to the old cursor |
| BscWatcher.Watcher.RewindOnce | internal/usecases/chain/bsc_watcher/usecase.go:170-192 | one rewind per process, clamped at zero; one that fails counts as done and is not tried again |
| BscWatcher.RefOfIsAKey | schema/schema.sql:184-185 | two logs are one transfer if and only if transaction and log index agree |
| BscWatcher.LogIsRecorded | internal/usecases/chain/bsc_watcher/usecase.go:256-309 | a log handed over with success is on record under its transaction and index with its own token, amount and block; at or below the line its invoice is settled |
| BscWatcher.Watcher.LineIsFinality | internal/usecases/chain/bsc_watcher/usecase.go:145-168 | the line of a tick is where finality ends, and there is none only when the tag cannot be asked for |
| BscWatcher.MissingMeans | internal/usecases/chain/bsc_watcher/usecase.go:348-376 | missing: a live payment of a detected invoice, stored in the block range, with no log of its transaction and index in the answer |
| BscWatcher.Watcher.ApplyLogs | internal/usecases/chain/bsc_watcher/usecase.go:256-309 | files every transfer of the chunk or stops at the first error |
| BscWatcher.Watcher.RevokeMissing | internal/usecases/chain/bsc_watcher/usecase.go:348-376 | a live payment stays live if and only if it is not missing; the withdrawals are of exactly the missing ones, one after the other among others' steps |
| BscWatcher.Watcher.ScanChunk | internal/usecases/chain/bsc_watcher/usecase.go:245-335 | a chunk is filed and vouched for, exactly the payments missing from its answer are withdrawn, and only then is the cursor moved to its end; it fails only at one of its logs, and then withdraws nothing |
| BscWatcher.Watcher.Scan | internal/usecases/chain/bsc_watcher/usecase.go:194-341 | after a scan, under interference: every live payment of a detected invoice stored in a scanned chunk has its log in the answer; a payment is withdrawn only if it waited, is stored in a scanned chunk and is absent from its answer, and then it is unless its invoice was confirmed first; chunks are contiguous; the scan fails only when a request does or in the logs of a chunk, and stops well only at the head, at ten chunks or where the endpoint does not go back that far |
| BscWatcher.Watcher.Execute | internal/usecases/chain/bsc_watcher/usecase.go:88-143 | the finality line is the finalized block where the tag is asked for and served, and otherwise what has enough confirmations is at or below it and nothing else; a tag that cannot be asked for fails the tick. A tick fails only then, when the head is not answered, the start-up rewind is not stored, or the scan fails; whatever becomes of it, every invoice it confirms has a log among those it read whose block, or the block its payment was recorded at, is final by these answers (after a settle pass, if the scan covers the payments that are due), and every payment it withdraws was missing from them; of the payments waiting the settle pass confirms exactly those among the oldest 500 whose stored block is final |
| BscWatcher.TickIsConfirmed | internal/usecases/chain/bsc_watcher/usecase.go:118-136 | the same as a statement about the three databases of a tick |
| BscWatcher.ConfirmedBlocksAreFinal | internal/usecases/chain/bsc_watcher/usecase.go:293-309 | if no transfer changes its block, every invoice a tick confirms has its log, just read, at or below the finality line |
| BscReorg.MissingIffUnwatched | internal/usecases/chain/bsc_watcher/usecase.go:98-107 | on a chain that has kept a waiting payment's log, the payment is missing from what a scan reads if and only if its block was scanned and its contract is not asked for |
| BscReorg.WithdrawnIffDisabled | internal/usecases/chain/bsc_watcher/usecase.go:245-375 | so such a payment is withdrawn only if its block was scanned while its asset was disabled, and then it is unless its invoice was confirmed first |
| BscReorg.DisabledTokenIsWithdrawn | internal/usecases/chain/bsc_watcher/usecase.go:98-107 | it happens: one tick of the watcher, run on such tables |
| BscCoverage.ScanCovers | internal/usecases/chain/bsc_watcher/usecase.go:245-335 | the chunks of a scan hold every transfer between their first and last block |
| BscCoverage.OneTick | internal/usecases/chain/bsc_watcher/usecase.go:88-143 | one tick, whatever became of it and wherever it found the cursor, zero included, extends the covered stretch by the blocks it scanned, or begins a new one where it left a gap |
| BscCoverage.Watch | internal/usecases/chain/bsc_watcher/usecase.go:194-341 | after any sequence of full, failed and partial ticks and restarts on an append-only chain, from any cursor, a fresh database included: every transfer from the first block of the current stretch to the saved cursor is on record, and the history of cursors and stretches is one the next lemmas speak of |
| BscCoverage.BeginsAnewIff | internal/usecases/chain/bsc_watcher/usecase.go:170-256 | in such a history a stretch begins at the first scan ever that completed a chunk, at that scan's start, and begins anew if and only if a scan finds the cursor at zero with the head further from the last covered block than the reorg depth |
| BscCoverage.RestartsLeaveNoGap | internal/usecases/chain/bsc_watcher/usecase.go:170-214 | a restart whose rewind keeps the cursor off zero, or whose window reaches back to it, is no such scan |
| BscCoverage.FirstBlockStays | internal/usecases/chain/bsc_watcher/usecase.go:194-341 | as long as there is none, the first covered block never moves and the last never falls |
| BscCoverage.FreshStart | internal/usecases/chain/bsc_watcher/usecase.go:209-238 | on a fresh database coverage begins where the first tick that completes a chunk starts to scan, and stays there as long as no scan leaves a gap |
| TronFeed.DrainsIff | internal/usecases/chain/tron_watcher/usecase.go:114-169 | on a frozen feed finitely many ticks read every record if and only if no full page carries a single timestamp while more records follow |
| TronFeed.FewerThanAPagePerStamp | internal/usecases/chain/tron_watcher/usecase.go:114-169 | fewer than 200 records per timestamp is enough for that |
| TronWatcher.Watcher.Discover | internal/usecases/chain/tron_watcher/usecase.go:114-169 | files every transfer of the page and only then moves the cursor to the newest stamp; on an error the cursor stays |
| TronWatcher.TransferIsRecorded | internal/usecases/chain/tron_watcher/usecase.go:132-160 | a transfer handed over with success is on record under its transaction with its own token, amount and time; at or below the solidified head's time its invoice is settled |
| TronWatcher.Watcher.Execute | internal/usecases/chain/tron_watcher/usecase.go:77-112 | one tick files its page, confirms of the payments waiting exactly those among the oldest 200 that are stamped no later than the solidified head, and moves the cursor only on success |
| TronWatcher.TickSettlesTheOldest | internal/usecases/chain/tron_watcher/usecase.go:171-205 | however many payments wait, one tick confirms the oldest of those that are due, as many as its batch allows |
| TronWatcher.SecondOfTransactionIsLost | internal/usecases/chain/tron_watcher/usecase.go:132-150 | once a transfer of a transaction has a live payment, another transfer of it is taken for a re-read: it goes on no record |
| TronWatcher.Poll | internal/usecases/chain/tron_watcher/usecase.go:114-169 | over any ticks on a growing feed every transfer stamped strictly before the saved cursor is on record, known by its transaction; on a frozen feed with every tick succeeding, exactly the prefix `Frontier` counts is; and every tick succeeds if every request is answered and no transfer falls to an invoice another has paid, nor two of them to one |
| Stalling.ApplyKeepsWaiting | internal/service/matching/matching.go:158-292 | an `Apply` of any unrelated transfer, anybody else acting on the grid meanwhile, leaves a detected invoice detected with its payment, and fails if the transfer is a new one in that invoice's window |
| Applying.AppliedIff | internal/service/matching/matching.go:144-292 | a sequence of transfers left alone is applied as a whole if and only if none is refused in its turn: not positive, or new and falling to an invoice that is open then and has a live payment then, by the tables at the start and the transfers before it |
| Applying.StopsAgain | internal/service/matching/matching.go:158-292 | once all are final, what stopped the sequence stops it again |
| TronStall.PageAppliedIff | internal/usecases/chain/tron_watcher/usecase.go:114-169 | the same for the page of a tick |
| TronStall.ConfirmedIff | internal/usecases/chain/tron_watcher/usecase.go:77-205 | when a tick left alone confirms a detected, paid invoice: if and only if a final transfer of it comes before the first that is refused, or the whole page is applied and its payment is due and among the oldest 200 that wait |
| TronStall.Alone | internal/usecases/chain/tron_watcher/usecase.go:77-169 | ticks left alone on a feed that stands still, once the page at the cursor is final: all fail, and the watcher stays there, if and only if some transfer of the page is not positive, or is new and falls to an open invoice with a live payment which no transfer before it in the page settles |
| TronStall.Stuck | internal/usecases/chain/tron_watcher/usecase.go:77-169 | the same whatever others do on the grid, for a transfer in the window of a detected invoice whose own transfer is not in the page: every tick fails, the cursor stays and the invoice stays detected |
| TronStall.HeldUpHappens | internal/usecases/chain/tron_watcher/usecase.go:114-169 | tables and a feed of that kind: windows ten wide, an invoice of 100 paid before the cursor, a transfer of 105 at it |
| BscStall.ChunkAppliedIff | internal/usecases/chain/bsc_watcher/usecase.go:256-309 | the logs of a chunk left alone are applied if and only if none is refused in its turn |
| BscStall.Stuck | internal/usecases/chain/bsc_watcher/usecase.go:88-143 | without a reorg window, whatever others do on the grid: a log of the next chunk in the window of a detected invoice whose own log lies below the cursor makes every tick fail, the cursor stays and the invoice stays detected |
| BscStall.HeldUpHappens | internal/usecases/chain/bsc_watcher/usecase.go:88-143 | tables and a log of that kind |
| Backoff.DelayIsBounded | internal/usecases/notify/webhook_dispatcher/usecase.go:173-192 | for every attempt and every accepted configuration the delay is positive and at most the cap, 64-bit wrap-around included |
| Backoff.DelayIsIdealIff | internal/usecases/notify/webhook_dispatcher/usecase.go:173-192 | the delay is min(cap, base * 2^(attempt-1)) if and only if, up to attempt 40, the product stays below 2^63 or wraps to a value the guard catches, and, later, the product has reached the cap |
| Backoff.DelayNeverDecreasesIff | internal/usecases/notify/webhook_dispatcher/usecase.go:173-192 | over any number of attempts the delay never decreases if and only if, among the first 40, no product of base and power of two wraps to a positive value below the cap |
| Backoff.DelayNeverDecreases | internal/usecases/notify/webhook_dispatcher/usecase.go:173-192 | in particular it does not while the product stays below 2^63 |
| Backoff.WrapAroundShortensTheDelay | internal/usecases/notify/webhook_dispatcher/usecase.go:184-192 | such an accepted configuration: a base of 2^61 + 1 ns gives a shorter fourth delay than first |
| Backoff.DefaultsAreIdeal | internal/usecases/notify/webhook_dispatcher/config.go:41-80 | with the default settings every attempt is delayed by the intended time, 10 s doubling up to an hour |
| Outbox.Store.ClaimDue | internal/adapter/postgres/queries/webhook_event.sql:8-27 | claims the due, undelivered, unexhausted events, longest overdue first, as many as the batch allows; of each exactly one attempt is counted and the next attempt set to the end of the lease, and no other row is touched |
| Outbox.Store.Deliver | internal/usecases/notify/webhook_dispatcher/usecase.go:115-171 | every event of the batch is settled by its own outcome: a taken one is stamped, a refused one is due again after min(cap, base * 2^(claimed attempts - 1)) where the product does no harm, after the cap past attempt 40; no other row or field is touched; delivered counts the taken ones, exhausted those refused at their last allowed attempt, failed the rest |
| Outbox.Store.Execute | internal/usecases/notify/webhook_dispatcher/usecase.go:54-105 | one drain: what is past its retention leaves, and nothing else; when enabled, the longest overdue of the due events are claimed, as many as the batch allows, under a lease of twice the timeout plus 30 s, each then settled as above by the attempt just counted; the counts are those of the taken, the refused at their last attempt, and the rest |
| Dispatchers.SentAtMostMaxAttempts | internal/adapter/postgres/queries/webhook_event.sql:16-27 | over every run of any number of dispatchers, crashes and lost outcomes included, an event is sent at most `max_attempts` times |
| Dispatchers.OutcomeIsStored | internal/usecases/notify/webhook_dispatcher/usecase.go:141-171 | an outcome is stored on its own row: a delivery with its time, a refusal with the delay of the attempt it was claimed for, nothing when it is lost |
| Outbox.QueuedIsDue | internal/adapter/postgres/queries/webhook_event.sql:1-6 | a newly queued event is due at once; queued again it is left alone |
| Dispatchers.NeverClaimedAfterDelivery | internal/adapter/postgres/queries/webhook_event.sql:17-32 | an event whose delivery was stored is never claimed again |
| Dispatchers.LeavesOnlyWhenDone | internal/adapter/postgres/queries/webhook_event.sql:42-48 | every event ever queued is still in the table, or was delivered, or has used up its attempts |
| Dispatchers.ExhaustedKeptForRetention | internal/adapter/postgres/queries/webhook_event.sql:42-48 | an undelivered event, exhausted or not, keeps its row for the whole retention after it was queued |
| Dispatchers.KeptForRetention | internal/adapter/postgres/queries/webhook_event.sql:42-48 | a delivered event keeps its row, with the time of its delivery, for the whole retention |
| Leases.EveryRunIsTimed | internal/usecases/notify/webhook_dispatcher/usecase.go:115-139 | over every run a job starts at the latest when the rounds before it are over, and is sent no longer than the timeout |
| Leases.FlightsEnd | internal/usecases/notify/webhook_dispatcher/usecase.go:115-139 | hence a claimed event is over after at most ceil(batch/concurrency) timeouts |
| Leases.FittingRunsAreExclusive | internal/usecases/notify/webhook_dispatcher/config.go:82-89 | if that is below the lease, in every reachable state no event is in flight at two places, and those in flight are leased and undelivered |
| Leases.NeverSentAfterDelivery | internal/usecases/notify/webhook_dispatcher/config.go:82-89 | and then nothing is sent again after its delivery was stored |
| Overlaps.OverlapIff | internal/usecases/notify/webhook_dispatcher/config.go:82-89 | some run puts an event in flight at two dispatchers if and only if events get more than one attempt and ceil(batch/concurrency) * timeout reaches the lease of twice the timeout plus 30 s; the same for runs in which every claim takes exactly what its query answers, the longest overdue first, up to a batch |
| Overlaps.DefaultsOverlap | internal/usecases/notify/webhook_dispatcher/config.go:41-89 | the default settings do: 130 s of deliveries under a lease of 50 s |
| Listing.ListInvoices | internal/adapter/postgres/queries/invoice.sql:45-60 | the newest selected rows, newest first and by descending id at one instant, as many as the limit allows, none newer left out; selected are the rows that agree with every field the filter gives, bounds included, and stand below the cursor |
| Listing.Execute | internal/usecases/invoices/invoice_list/usecase.go:25-51 | a page of the clamped limit (50 when none is given, at most 200), with a cursor exactly when matching rows remain below it; refused exactly when the time range is reversed |
| Listing.AllInvoices | pkg/cryptopay/invoices.go:136-175 | the walk yields strictly descending rows it really saw, and every row listed at one position for the whole walk; on a table that stands still it ends well if and only if it gets enough requests, and then yields exactly the matching rows |
| Listing.YieldedExactlyOnce | pkg/cryptopay/invoices.go:151-174 | such a row is yielded exactly once |
| Listing.ListingIsUnique | internal/adapter/postgres/queries/invoice.sql:59-60 | the concatenated pages are the whole sorted list: two descending lists of the same rows are equal |
| Listing.NoCursorNoMore | pkg/cryptopay/invoices.go:166-173 | an empty page never comes with a cursor, so the client's guard against a misbehaving service is never needed against this one |
| ListingDuringRuns.InvoicesKeepTheirPlace | internal/adapter/postgres/queries/invoice.sql:49-60 | while the ledger runs, an invoice in the table at the first request is owed to the client if and only if it matches the filter at every request |
| RateBudget.Budget.Wait | pkg/ratebudget/ratebudget.go:71-95 | a call is let through, refused or cancelled, and is charged exactly when it is not refused; a cancelled one gives its unit back if the day has not rolled |
| RateBudget.Budget.Consume | pkg/ratebudget/ratebudget.go:97-115 | rolls the day, grants below the quota or when there is none, and charges exactly the granted call |
| RateBudget.Budget.Remaining | pkg/ratebudget/ratebudget.go:139-152 | says positive exactly when the next call would be granted |
| RateBudget.QuotaHolds | pkg/ratebudget/ratebudget.go:71-126 | over every interleaving under a forward clock: the counter stays within 0 and the quota, and the calls charged to a day and let through are at most the quota plus that day's refunds of units charged earlier |
| RateBudget.BooksBalance | pkg/ratebudget/ratebudget.go:71-126 | in every reachable state, for the counter's day: calls let through plus returned units the counter did not take equal the counter plus units of earlier days it took |
| RateBudget.QuotaIsExceededIff | pkg/ratebudget/ratebudget.go:97-126 | for every quota and every number of late returns, some run lets n calls through on such a day if and only if n is at most the quota plus those returns |
| CryptoAmount.ParseIsExactIff | pkg/cryptoamount/cryptoamount.go:45-95 | for every text that writes a number, of any length: `Parse` keeps its promise (accepted if and only if there are only zeros beyond the token's decimals and, at zero decimals, a whole part; the units exactly the value written times 10^decimals; the right error) if and only if neither int32 count of digits wraps to a harmful value |
| CryptoAmount.ParseIsExact | pkg/cryptoamount/cryptoamount.go:45-95 | in particular for every text whose fraction is shorter than 2^31 characters |
| CryptoAmount.ParseRejects | pkg/cryptoamount/cryptoamount.go:45-75 | when each other error is raised, and that nothing else but a written number is ever accepted |
| CryptoAmount.SameValueSameUnits | pkg/cryptoamount/cryptoamount.go:37-95 | two accepted ways of writing one value give the same units, whatever leading zeros, trailing zeros or plus sign |
| CryptoAmount.SpacesDoNotCount | pkg/cryptoamount/cryptoamount.go:50-53 | surrounding white space, by its Unicode code points, changes nothing |
| CryptoAmount.FormatWrites | pkg/cryptoamount/cryptoamount.go:97-131 | `Format` writes a whole part without leading zeros and, if any, a fraction within the scale without trailing zeros, and their value is the units |
| CryptoAmount.FormatWithoutScale | pkg/cryptoamount/cryptoamount.go:97-108 | without an amount `Format` writes a zero, and on an unsupported scale the smallest units themselves |
| CryptoAmount.FormatRoundTrips | pkg/cryptoamount/cryptoamount.go:97-131 | `Parse(Format(u, d), d) == u` for every u >= 0 and every scale |
| CryptoAmount.NegativeIsRefused | pkg/cryptoamount/cryptoamount.go:55-59 | a negative amount is written with a sign and refused by `Parse` |
| CryptoAmount.LongFractionsAreNotRefused | pkg/cryptoamount/cryptoamount.go:77-82 | the int32 count of digits wraps around: a fraction of 2^31 significant digits is not refused as too precise |

## Left out

- Backoff.DelayIsIdealIff: the power of two is an exact integer, as the float64 conversion is up to 2^39.
- BscCoverage.Watch: supposes that the chain only grows and that an answer misses no transfer of its range, so `chain` is to be read as the transfers of contracts asked for throughout; a reorganised chain is covered by `BscWatcher.Watcher.Scan`, chunk by chunk.
- BscWatcher.Watcher.Execute: for a tick whose scan succeeds, the link from confirmations to logs supposes that the scan covers the waiting payments that are due; the settle pass of the code trusts older observations too.
- BscCatchUp.CatchUp: supposes that configuration disables no asset during the ticks; with none enabled a tick does nothing.
- BscStall.Stuck: is stated without a reorg window; with one, the first transfer's log is read again while its block lies within the window. The equivalence over many ticks is stated for TRON, for BSC chunk by chunk.
- TronWatcher.Poll: "on record" speaks of the transaction, not of the amount of each transfer in it; every record of the feed is a Transfer and is listed in order of its stamp; records of other types, which are filtered after the page limit, and records indexed late are not modelled.
- Service.Service.Apply: failures of the database itself inside a transaction are not modelled, only refusals by its rules.
- Dispatchers.SentAtMostMaxAttempts: counts sends, not what the receiver saw of a send that timed out.
- Listing.AllInvoices: a consumer that stops ranging early is not modelled, nor are the base64 text of a cursor and a cursor with a zero half.
- RateBudget.Budget.Wait: the per-second limiter is a wait that ends in a turn or in a cancellation.
- Invoice fields that no rule reads: description, metadata, pay address, updated_at, and a transfer's from and to addresses.
- Nil amounts, status strings outside the five, and int32 conversion of log indexes.
- Creating an invoice by external id twice (replay of the first row), symbol resolution and asset seeding rules beyond the upsert.
- Warnings about stale payments, logging and metrics.
- HTTP, JSON, HMAC signing, endpoint rotation and RPC transport, configuration loading, cron.
- PostgreSQL isolation levels and row locks.
