# A verified model of the TradingView order bot

TradingView alerts reach the bot through a webhook, wait in Redis lists, are taken by a single
worker, become orders at the KIS broker and end in a table of positions. This project models that
pipeline in Dafny and proves what it promises over whole runs. `dafny verify dfyconfig.toml` checks
everything.

## How the model is laid out

| Part | Modules |
|---|---|
| Order payloads, age and market routing | `Orders`, `Tickers`, `Routes` |
| The four Redis lists: the operations run alone, as methods on a mutable `RedisQueue` | `OrderQueue` |
| The same operations cut into atomic Redis commands and interleaved with process death; which steps lose an order, what sweeps conserve, what holds of every payload in a run, which list it is on, the stages of the worker, and how quiet runs drain | `Protocol`, `Losses`, `Sweeps`, `Lives`, `Sides`, `Phases`, `Retries`, `Drains` |
| Duplicate suppression and the audit row | `Dedupe`, `AlertAudit` |
| The position ledger: decimal rounding, lot selection, the cutting loop and its sums | `Rounding`, `Ledger`, `Lots`, `LotSums`, `Positions`, `Reconciliation` |
| What sells and reconciliations write into the tables, in plain figures | `Bookings` |
| The ledger's tables as mutable objects, runs of buys and sells over them, and what one call does | `PositionStore`, `TradingDay`, `DayCalls`, `Totals` |
| The overseas buy against a nondeterministic broker, that buy inside the ledger's bookkeeping, and limit prices | `Broker`, `KisClient`, `BuyCalls`, `Prices` |
| Trading days and the searches for the next open | `Dates`, `Sessions` |
| Credit accounts of the commerce store, and what each operation gives and takes | `Commerce`, `CommerceStore`, `Offers` |

Code that changes things step by step is a method proved equal to a function of the old state; the
lemmas are about those functions. Where the environment decides (an interleaving, a lost reply, a
fill, a failed commit), the decision is a parameter, and the theorem is about all of them.

Quantities count 1/10000 shares and money counts 1/10^8 of the currency, so that `round(x, 4)` and
`round(x, 8)` are exact integers and only genuine divisions round; they round half to even. Prices
are exact decimals counted in ticks. Clocks are parameters.

## The main results

* **No order vanishes unaccounted.** In every interleaving of enqueues, flushes, purges and the
  worker, with crashes, lost replies and shutdowns at any point, each order taken in is still in a
  list or a process's hand, has reached a terminal outcome, or is on record as lost
  (`Protocol.NoOrderVanishes`, `Phases.ArrivalsAreAccounted`); and a run loses exactly as many orders as it takes losing steps,
  each of which is named by a condition on the state it strikes in (`Losses.StepLosesExactly`,
  `Losses.OnlyLosingStepsLose`).
* **Sweeps are filters.** The in-place rotation of the pending list equals filtering, its atomic
  steps add up to it when nothing interrupts them, and concurrent sweeps conserve the pending
  entries and activate each at most once.
* **Sells stay on the sell side.** In every interleaving the sell list holds only SELLs and the buy
  list none (`Sides.SidesStayApart`); a flush wakes exactly its market's live orders, each to its
  side (`OrderQueue.FlushSortsExactly`).
* **The last update wins, exactly when it was not overtaken.** Over every interleaving of marking
  sessions and the webhook's insert (`AlertAudit.LastUpdateWinsExactly`).
* **Duplicates are refused, and nothing else.** Over every run of alerts one is accepted exactly when
  no accepted one with its payload is younger than the spacing that its id and time give it
  (`Dedupe.AlertAcceptedExactly`).
* **One filling buy a day.** Over every run with failed reports, rolled-back writes and orders that
  fill after their call, at most one buy call per market day fills, provided that no order goes out
  while a buy order of the day is open unfilled and no buy of the day is on the books
  (`TradingDay.OneFillingBuyPerDay`); for each buy and sell that proviso is exact
  (`TradingDay.BuyIsSafeExactly`, `TradingDay.SellIsSafeExactly`). And a buy does go out, exactly when
  the balance is answered, the broker holds nothing that the books miss, and no buy of today is on
  them (`DayCalls.BuyGoesOutExactly`).
* **The books balance.** Over every such run quantity and cost are conserved, up to half a cent for
  each domestic reconciliation (`Totals.BooksBalance`).
* **No second order over a live one.** `KisClient.PlaceBuyByAmount` meets the precondition of
  `Broker.Market.Post`, that every earlier order of the call is dead, whenever the client's looks
  were answered and not overtaken, and reports exactly what filled; when every request is answered it
  buys or has tried as often as it may. `BuyCalls.ExecuteBuyKis` runs it inside the ledger, keeps the
  one-buy invariant and leaves the books in step.
* **Credits are accounted for.** In every reachable commerce account the balance is what its history
  says, no section is charged twice and no request credited twice, late or after rejection; each
  operation gives what was paid for and nothing else, at the list price (`Offers.PurchaseTells`,
  `Offers.UnlockTells`).
* **The next open is found.** The searches end and return the earliest open, on a calendar whose
  trading days and hours are told date by date (`Sessions.SecondsUntilOpen`, `Sessions.OpenExactly`,
  `Dates.UsHolidaysExactly`).

## Where the code falls short of its intent

The model follows the code. These are proved as exact conditions or with the inputs that show them.

* Restart recovery, purges and flushes pop and push in two commands. The worker runs all three, so
  its death loses an order exactly when it strikes between the two commands of any of them
  (`CrashTakesExactlyWhenExposed`, `TwoCrashesLoseAnOrder`, `CrashInSweepLosesAnOrder`); a sweep in
  another process loses exactly its popped entry when it dies or raises (`AbortTakesExactlyTheHand`).
* The final acknowledgement removes an order that was neither finished nor copied in two cases: the
  restoring of the order after a failed retry push raises (`RaisedRestoreLosesExactly`), or the
  worker is shut down in mid-order (`ShutdownLosesExactly`). There are no others
  (`AbandonsExactly`).
* A marking session writes only the flags it finds different, so a flag that another process changes
  between its read and its commit can survive it: the worker's update that puts an order back as
  queued can be the last one committed while the row says that the scheduler expired the order
  (`OvertakenUpdateIsLost`).
* The age of a pending order restarts at each re-pending when `first_queued_at` cannot be read
  (`AgeOriginFixedExactlyWhenAnchorable`), and with it an expired order becomes young again
  (`ExpiredForGoodExactly`).
* The webhook stores a symbol without its exchange prefix; a lettered KRX code then trades in the US
  session (`CanonicalKeepsMarket`, `LetteredKrxCodeMovesToUS`).
* A balance query that raises ends the inference as if nothing had been filled, and a second order
  may follow a filled one: exactly when the first query raises, for an order filled before the
  polling (`AfterUnknownPost`).
* A lot that holds 1/10000 share more than is left to take closes whole, one unit more than was
  sold, exactly then (`LotSums.CutLowersOpen`, `ToleranceClosesTooMuch`); a reconciliation books that
  unit as bought again (`SurplusBooksOneUnitExactly`), and leaves one unit too many open exactly when
  it found one (`ReconcileSettles`). Whole-share lots, which every modelled operation preserves, are
  never such lots.
* A domestic reconciliation rounds the rest of a split lot to two decimals, which changes the total
  cost exactly when it splits a lot whose cost has more (`DomesticCostKeptExactly`,
  `SyncedCostExactly`).
* A buy call that gives up may leave its order open. A later buy or sell that goes out while that
  order is unfilled, with no buy of the day on the books, can make for two filling buys on one day,
  and nothing else can (`BuyIsSafeExactly`, `SellIsSafeExactly`).
* A sell limit is below the protected price exactly when that price rounds down and nothing higher
  decides (`ProtectionHoldsExactly`).
* Building the audit key and accepting the order read two clocks, so two accepted alerts can share a
  bucket when the second is later between the two than the first (`AcceptedTwiceAuditedTwice`,
  `LateAcceptanceSharesBucket`).

## Model

| member | source | states |
|---|---|---|
| Orders.AgeOriginFixedExactlyWhenAnchorable | app/queue/order_queue.py:156-167 | after the first entry into pending no sequence of retries and re-pendings changes the age origin, if and only if a readable origin was there or could be set |
| Orders.EvolveAnchored | app/queue/order_queue.py:300-311 | an order with a readable received, created or first-queued time keeps its origin through any life in the queues |
| Orders.ExpiredForGoodExactly | app/queue/order_queue.py:314-320 | an order past the pending limit stays past it through every life in the queues and at every later time, if and only if a readable origin was there or could be set |
| Orders.OriginIsFirstReadable | app/queue/order_queue.py:300-311 | the age of an order counts from the first of its received, created, first-queued and queued times that can be read, whatever the later ones say |
| Orders.ExpiredExactly | app/queue/order_queue.py:314-320 | an order has expired if and only if there is a limit and its origin lies further back than that |
| Orders.EnteringKeepsAgeExactly | app/queue/order_queue.py:156-167 | entering the pending list keeps a readable age if and only if it was not read from an earlier entry whose beginning cannot be read, an order without one dates from now, and entering again renews the entry time alone |
| Tickers.WakesForItsOwnMarketOnly | app/queue/order_queue.py:264-282 | each ticker wakes for exactly one of the six markets, the one it is routed to |
| Tickers.FlushedExactlyWhenWorkerWouldTrade | app/queue/order_worker.py:724-737 | the markets an idle worker flushes wake an order if and only if the worker's own market check of that order would pass |
| Tickers.CanonicalKeepsMarket | app/gateway/symbol_mapper.py:45-61 | storing the canonical symbol keeps an alert's market if and only if the code alone reads as the same market |
| Tickers.LetteredKrxCodeMovesToUS | app/gateway/symbol_mapper.py:107-125 | every five-letter KRX code changes its market to US when stored |
| Routes.SplitUndoesWriting | app/gateway/symbol_mapper.py:32-42 | a ticker written with any case and white space around its exchange and code is read back as that exchange and code in capitals |
| Routes.AliasExactly | app/gateway/symbol_mapper.py:12-18 | exactly the four dotted share classes get a space for their dot |
| Routes.PrefixedMarketExactly | app/gateway/symbol_mapper.py:107-125 | behind an exchange a code trades in Korea if and only if that is KRX and the code is five to seven capitals and digits, in Asia under its own exchange, and else in the US session |
| Routes.BareMarketExactly | app/gateway/symbol_mapper.py:107-125 | a bare code trades in Korea if and only if it is five to seven digits, or four digits, a letter and a digit |
| Routes.WakingNamesExactly | app/queue/order_queue.py:264-282 | the market to wake counts in any case and with white space around it, USA is the US, and any other text or none wakes every ticker |
| Routes.StoredExactly | app/gateway/symbol_mapper.py:45-61 | Asian and London symbols are stored with their exchange, Hong Kong numbers with zeros in front up to five digits, every other code bare |
| Routes.NothingIsStored | app/gateway/symbol_mapper.py:53-54 | a ticker without a code is stored as nothing |
| OrderQueue.RedisQueue.EnqueueOrder | app/queue/order_queue.py:84-101 | the order is pushed on the list of its action and nothing else changes; an unknown action changes nothing |
| OrderQueue.RedisQueue.EnqueueOrderOnce | app/queue/order_queue.py:104-153 | pushed together with a marker unless a live marker has its key; a refused duplicate changes nothing, so it does not extend the marker |
| OrderQueue.RedisQueue.EnqueuePending | app/queue/order_queue.py:156-173 | the order joins the pending list with its first queueing time kept |
| OrderQueue.RedisQueue.DequeueOrder | app/queue/order_queue.py:176-198 | the oldest SELL, else the oldest BUY, moves to processing; undecodable entries are discarded, one per list and call |
| OrderQueue.RedisQueue.AckProcessedOrder | app/queue/order_queue.py:201-208 | one occurrence of the payload leaves the processing list |
| OrderQueue.LremDropsOne | app/queue/order_queue.py:201-208 | as a multiset the list loses exactly one copy of the payload, if it had one |
| OrderQueue.LremDropsLeftmost | app/queue/order_queue.py:201-208 | it is the leftmost occurrence that goes, and the rest stays in order |
| OrderQueue.RedisQueue.RequeueProcessingOrder | app/queue/order_queue.py:246-261 | the payload returns from processing to the list it came from |
| OrderQueue.RedisQueue.RequeueInflightOrders | app/queue/order_queue.py:211-243 | run alone, recovery empties processing and puts each SELL and BUY back on its own list in order; nothing else is put anywhere |
| OrderQueue.RecoverAllIsFilter | app/queue/order_queue.py:211-243 | the recovery loop equals filtering the processing list by action |
| OrderQueue.TurnsFilter | app/queue/order_queue.py:378-406 | n turns of the pop-and-push loop treat the n oldest entries as a filter does and leave the rest alone |
| OrderQueue.RedisQueue.FlushPendingToActive | app/queue/order_queue.py:364-425 | pending keeps exactly the live non-matching orders in order, woken orders join behind the active ones in order, expired ones come back oldest first, the counts are right, and for each of the six markets exactly its live SELLs are added to the sell list and exactly its other live orders to the buy list |
| OrderQueue.RedisQueue.PurgeExpiredPendingOrders | app/queue/order_queue.py:323-361 | pending keeps exactly the unexpired orders that decode, in order, nothing is activated, the expired ones come back oldest first |
| OrderQueue.FlushSortsExactly | app/queue/order_queue.py:364-404 | a flush for a market expires an order if and only if it is too old, keeps it if and only if it is live and routed elsewhere, and puts it on the sell list if and only if it is a live SELL of that market, on the buy list if and only if it is another live order of it |
| OrderQueue.TooOldNeverActivatedExactly | app/queue/order_queue.py:390-404 | an order that a sweep found too old is found too old by every later one, if and only if a readable origin was there or could be set |
| OrderQueue.MarkersLastAMinute | app/queue/order_queue.py:127-128 | a time to live of a minute or more is taken as it is, a shorter one is a minute, and a missing or zero one is the default |
| OrderQueue.GuardedByEither | app/queue/order_queue.py:115-116 | an order is guarded by its dedupe key or, without one, by its idempotency key |
| Protocol.NoOrderVanishes | app/queue/order_worker.py:674-857 | in every interleaving with any failures each accepted order is live, finished or on record as lost |
| Protocol.StepKeepsInv | app/queue/order_queue.py:176-261 | each atomic step of each process keeps the balance of every order, and each acknowledged original had its copy pushed first |
| Protocol.RunKeepsInv | app/queue/order_worker.py:674-857 | the same over runs |
| Phases.ArrivalsAreAccounted | app/queue/order_worker.py:674-857 | over any run with any failures every BUY and SELL that was in a list or arrived since is live, finished or on record as lost, counted order by order |
| Phases.ArrivalIsPushed | app/queue/order_queue.py:84-173 | an arriving order is put in front of the list of its side, or stamped in front of the pending list, and nothing else changes there |
| Phases.ComesToWorkExactly | app/queue/order_queue.py:176-198 | the worker comes to work on an order if and only if it reads the reply to its move of the oldest SELL, or of the oldest BUY after it found no SELL, and the entry decodes |
| Phases.StagesExactly | app/queue/order_worker.py:794-815 | an order fails by an exception in its processing, is retried if and only if it has a retry left, and is put back if and only if the push of the retry or the bookkeeping after it raises |
| Phases.LostReplyLeavesEntry | app/queue/order_queue.py:176-198 | when the reply to the move is lost the entry lies in processing and nobody has it |
| Phases.SweepEndsExactly | app/queue/order_worker.py:718-737 | the worker leaves its own sweep if and only if that has no turn left and nothing in hand |
| Losses.StepLosesExactly | app/queue/order_worker.py:712-853 | a step loses one order if and only if a sweep ends with it in hand, the worker dies between the two commands of recovery or of its own sweep, or an abandoning acknowledgement removes it; otherwise none |
| Losses.AbandonsExactly | app/queue/order_worker.py:814-853 | the worker comes to acknowledge an order it neither finished nor copied if and only if restoring it raises or it is stopped in mid-order, with no copy pushed |
| Losses.OnlyLosingStepsLose | app/queue/order_worker.py:674-857 | a run has lost exactly as many orders as it took losing steps; without one every accepted order is live or finished, whatever else crashed or failed |
| Losses.RaisedRestoreLosesExactly | app/queue/order_worker.py:814-853 | when restoring raises, the following acknowledgement loses the order if and only if the processing list still has such a payload |
| Losses.ShutdownLosesExactly | app/queue/order_worker.py:851-853 | a worker stopped in mid-order loses the order if and only if it had pushed no copy |
| Losses.StepFinishesExactly | app/queue/order_worker.py:851-853 | a step finishes one order if and only if a sweep finds it expired or a finishing acknowledgement removes it from processing |
| Losses.ComesToFinishExactly | app/queue/order_worker.py:758-850 | the worker comes to such an acknowledgement if and only if the order was processed, its retry bookkeeping is done, or no retry is left, and no copy was pushed |
| Losses.CrashTakesExactlyWhenExposed | app/queue/order_queue.py:219-238 | the death of the worker takes an order out of lists and hands if and only if it strikes between RPOP and LPUSH of restart recovery or of the worker's own purge or flush |
| Losses.CrashInSweepLosesAnOrder | app/queue/order_worker.py:718-737 | a worker that dies in its own sweep takes the last pending order with it |
| Losses.AbortTakesExactlyTheHand | app/queue/order_queue.py:336-351 | a sweep cut short takes exactly the order in its hand out of lists and hands, and every other order keeps its count |
| Losses.TwoCrashesLoseAnOrder | app/queue/order_queue.py:211-243 | any order alone in processing vanishes if the worker dies and its successor dies between the two recovery commands |
| Losses.CopyIsRemembered | app/queue/order_worker.py:754-815 | the worker begins an order without a copy, and knows of each copy that re-pending or a retry pushes for as long as it has the order |
| Losses.LetsGoExactly | app/queue/order_worker.py:794-853 | the worker lets go of an order in three ways: it comes to acknowledge it, as superseded if and only if a copy was pushed; it has put it back on its list; or it dies |
| Sweeps.SweepsConservePending | app/queue/order_queue.py:323-425 | under any number of concurrent sweeps pending, in hand, activated, dropped and spilled entries add up exactly, each is activated at most once, and one is spilled for each sweep that ends with an entry in hand |
| Sweeps.SweepIsARun | app/queue/order_queue.py:378-406 | the atomic steps of a sweep, uninterrupted, in the worker or another process, do what the operation run alone does, and end with nothing in hand |
| Sweeps.RecoveryIsARun | app/queue/order_queue.py:211-243 | the atomic steps of restart recovery, uninterrupted, do what the operation run alone does |
| Lives.RunKeeps | app/queue/order_queue.py:84-261 | what holds of accepted orders and survives re-pending and retrying holds of every payload in every interleaving: nothing else rewrites one |
| Lives.TooOldNeverActivatedInRuns | app/queue/order_queue.py:156-167 | over every interleaving an order that was anchorable when taken in keeps the age origin it got then wherever it is, and no sweep past the limit does anything but expire it |
| Sides.SidesStayApart | app/queue/order_queue.py:211-404 | in every interleaving with any failures the sell list holds only SELLs and the buy list none, what the worker took from a list is of its side, and whatever is pending bears the time of its entry |
| Sides.StepApart | app/queue/order_queue.py:211-404 | each atomic step of each process keeps that |
| Retries.RetriesStayWithinLimit | app/queue/order_worker.py:794-800 | over every interleaving with any failures no list and no process holds an order that was retried more often than the limit |
| Retries.FetchIsDequeue | app/queue/order_queue.py:176-198 | the protocol's atomic steps of a dequeue, uninterrupted, are the dequeue operation |
| Retries.IterationIsARun | app/queue/order_worker.py:712-853 | a whole worker iteration without failures is a run of the protocol's atomic steps from idle to idle |
| Retries.IterationDecreases | app/queue/order_worker.py:794-853 | every iteration on nonempty active lists uses up at least one remaining attempt |
| Retries.QuietRunDrains | app/queue/order_worker.py:794-853 | left alone the worker empties both active lists within as many iterations as attempts were left, whichever orders raise |
| Drains.QuietRunSettles | app/queue/order_worker.py:712-853 | left alone with a market open the worker works off everything queued within one turn more than there are attempts left: active lists empty, and pending holds exactly the orders that wait for another market, in their order |
| Drains.LoopTurnsAreARun | app/queue/order_worker.py:712-853 | such turns of the loop, an order if there is one and else a flush of each open market, are a run of the protocol's atomic steps from idle to idle |
| Dedupe.MarkerIsNewest | app/queue/order_queue.py:23-29 | a key's marker is that of its newest accepted order and outlasts all earlier ones |
| Dedupe.AcceptedExactlyWhenUnshadowed | app/queue/order_queue.py:127-138 | an order is accepted if and only if no accepted one with its key is younger than its time to live |
| Dedupe.AlertAcceptedExactly | app/gateway/webhook.py:63-93 | over any run of alerts one is accepted if and only if no accepted one with its payload is younger than its spacing: the long time to live with an id or a time, else the short one, never under a minute |
| Dedupe.AlertKey | app/gateway/webhook.py:54-93 | the order of an alert is guarded by its payload, carries its side and symbol, and dates from the reading of the clock |
| Dedupe.RedisKeyIdentifiesPayload | app/gateway/webhook.py:54-93 | two alerts share a Redis key if and only if their payloads agree but for the secret |
| Dedupe.KeysAgreeExactly | app/gateway/webhook.py:63-93 | the audit key and the Redis key of an alert are one if and only if it has an id or a time |
| Dedupe.AcceptedAlertsAreSpaced | app/queue/order_queue.py:127-138 | over any run of alerts two acceptances of one payload are at least its spacing apart, and without id and time at least the fallback time to live |
| Dedupe.AcceptedTwiceAuditedTwice | app/gateway/webhook.py:74-93 | over any run two acceptances of one payload write one audit key if and only if it has an id or time or the two clock readings share a bucket, and without id and time never when the second was no later between reading and acceptance |
| Dedupe.LateAcceptanceSharesBucket | app/gateway/webhook.py:74-86 | a run in which the second alert is read at 599 and accepted at 600 seconds, both are accepted, and both write one audit key |
| AlertAudit.LastUpdateWinsExactly | app/queue/order_worker.py:400-433 | over every interleaving of any number of marking sessions with the webhook, the row shows the fields of the last committed update at every moment, and an untouched queued order before the first, if and only if no session committed after being overtaken |
| AlertAudit.CommitCarriesExactly | app/queue/order_worker.py:535-540 | a commit leaves processed, skipped, reason, queued and time as its update gives them if and only if no flag it does not write was changed since it read the row |
| AlertAudit.LastUpdateWins | app/queue/order_worker.py:754-853 | marking sessions that do not overlap, as the worker's own, always win against the webhook and both insert races |
| AlertAudit.OvertakenUpdateIsLost | app/scheduler.py:49-59 | a run in which the scheduler's expiry overtakes the worker's re-queueing update, which is committed last and not carried |
| AlertAudit.StepKeepsInv | app/queue/order_worker.py:499-541 | each SELECT, COMMIT, retry and failure of a session that was not overtaken keeps the invariant behind it |
| AlertAudit.ToppingWritesNoFlag | app/gateway/webhook.py:118-127 | on a processed or untouched row the webhook's session writes no flag, whatever is stored by then |
| AlertAudit.UpdateIsNeverSwallowed | app/queue/order_worker.py:413-433 | an update that loses the insert race gets through in its second attempt |
| AlertAudit.TextStays | app/gateway/webhook.py:118-127 | over any run a stored payload or address is never replaced, and the webhook's commit leaves its own where there was none unless a marking session created the row since its read |
| AlertAudit.NoPayloadBefore | app/queue/order_worker.py:474-497 | over any run there is no payload in the row before the webhook commits: a marking session that creates it stores none |
| AlertAudit.OtherUpdatesCanBeUndone | app/gateway/webhook.py:119-122 | an update that skips without processing, which no marking session makes, is undone by the webhook |
| Rounding.RoundsToExactly | app/broker/order_executor.py:1266-1267 | a quotient rounds to k if and only if it is within half a unit of k, the halves only for even k |
| Rounding.ShareInRange | app/broker/order_executor.py:1266 | a rounded share of an amount lies between zero and the amount |
| Ledger.FifoSelects | app/broker/order_executor.py:1238-1244 | the selection is ordered by entry time and id and holds exactly the open KIS lots |
| Ledger.FifoHoldsExactly | app/broker/order_executor.py:1238-1244 | a row is selected if and only if it is of the symbol, open, and of an order with a negative id |
| Lots.CutIsFifo | app/broker/order_executor.py:1253-1305 | on whole-share lots the loop takes from each lot exactly its first-in first-out share |
| Lots.CutLeavesOver | app/broker/order_executor.py:1253-1307 | what is left over is exactly what the lots could not cover |
| Lots.CutSplitsAtMostOnce | app/broker/order_executor.py:1271-1298 | at most the last touched lot is split, and the only row added is its closed part |
| Lots.CutFrames | app/broker/order_executor.py:1253-1305 | lots outside the selection are untouched and no row changes its ticker, price, time or order |
| LotSums.CutConservesQty | app/broker/order_executor.py:1271-1300 | open plus closed quantity is unchanged by any cutting loop |
| LotSums.CutConservesCost | app/broker/order_executor.py:172-215 | open plus closed cost is unchanged but for at most half a cent in a domestic reconciliation |
| LotSums.DomesticCostKeptExactly | app/broker/order_executor.py:318-358 | a domestic closing loop keeps the cost of the table if and only if it splits no lot whose cost is below the cent |
| LotSums.CutKeepsCostNonNegative | app/broker/order_executor.py:1265-1298 | no lot's remaining cost falls below zero |
| LotSums.CutLowersOpen | app/broker/order_executor.py:1261-1300 | the open quantity falls by what was taken, and by one 1/10000 more if and only if some lot holds one unit more than is left when its turn comes |
| LotSums.ToleranceClosesTooMuch | app/broker/order_executor.py:1271-1278 | a sell of one share from a lot of 1.0001 shares leaves nothing open |
| Positions.FifoCoversOpen | app/broker/order_executor.py:1238-1244 | the selected lots add up to the open quantity |
| Positions.SellFillIsFifo | app/broker/order_executor.py:1187-1346 | on whole shares the fill is first-in first-out, executed is the smaller of confirmed and open, and the trade is FILLED if and only if executed reaches requested |
| Positions.CutOfFifo | app/broker/order_executor.py:1253-1305 | the whole effect of a loop on whole-share lots: shares, one split, what is left, and the new open quantity |
| Positions.CutKeepsWhole | app/broker/order_executor.py:1253-1305 | whole-share lots stay whole-share lots |
| Positions.TradePnlIsRowPnl | app/broker/order_executor.py:1301-1303 | the running profit of the loop is the sum of the profits of the rows it closed, and is exit minus entry |
| Positions.TradeRowPnlExactlyOnCents | app/broker/order_executor.py:1322-1345 | the stored trade profit is within half a cent of the sum over the closed rows |
| Positions.TradeRowPnlExactly | app/broker/order_executor.py:1253-1345 | it equals that sum if and only if the first-in first-out profit, computed from the lots before the fill, is on cents |
| Positions.RowPnlIsExitMinusEntry | app/broker/order_executor.py:1266-1293 | a closed row's profit is exit minus entry if and only if its cost times the units left over rounds away, always so when none are left, and always for a split row |
| Bookings.ClosedRowsTell | app/broker/order_executor.py:1271-1298 | every row a loop closes bears the time and order of the call; a sell closes at the fill price for the rounded value of its units, a reconciliation at cost without profit |
| Bookings.SplitTells | app/broker/order_executor.py:1279-1300 | a larger lot is split: the rest stays open under its own origin, and the part leaves with its proportional share of the cost |
| Bookings.WholeTells | app/broker/order_executor.py:1271-1278 | a lot that is no larger than what is left, but for 1/10000, is closed as it stands and no other row changes |
| Bookings.SellTradeTells | app/broker/order_executor.py:1309-1345 | the trade of a sell fill shows what left the lots and, to the nearest cent, what the closed rows brought, and is FILLED if and only if no more than 1/10000 of the request is missing |
| Positions.FilledBuysCount | app/broker/order_executor.py:499-514 | the count of today's buys is the number of rows with that ticker, side BUY, status FILLED and that market day |
| Reconciliation.ReconcileSettles | app/broker/order_executor.py:159-272 | after a success the open quantity is the broker's, or one 1/10000 more if and only if it was so before, and a second reconciliation changes nothing whatever prices come back |
| Reconciliation.SurplusBooksOneUnitExactly | app/broker/order_executor.py:168-225 | closing a surplus closes exactly that and books nothing, if and only if no lot holds one unit more than is left to close |
| Reconciliation.ClosingBrackets | app/broker/order_executor.py:168-222 | the closing loop ends within one 1/10000 of the broker's quantity |
| Reconciliation.ReconcileIsExactOnWholeShares | app/broker/order_executor.py:159-272 | on whole shares the match is exact, missing shares are booked as one FILLED BUY, and it fails if and only if shares are missing and no price is known |
| Reconciliation.ReconcileSellReconcile | app/broker/order_executor.py:1538-1692 | reconcile, sell fill, broker drop, reconcile: the last finds nothing to do |
| Bookings.ReconcileTells | app/broker/order_executor.py:224-272 | missing shares are booked as one open lot and one FILLED BUY of today at the broker's average or else the quote, to the cent; the session rolls back if and only if that quote raises, and fails after closing if and only if it is worthless |
| PositionStore.Store.CutPositions | app/broker/order_executor.py:1253-1307 | the loop over mutable positions computes the table and totals of the functional loop |
| PositionStore.Store.ApplyKisSellFill | app/broker/order_executor.py:1187-1346 | tables and result are those of the functional sell fill; an unconfirmed or unmatched fill changes nothing |
| PositionStore.Store.Rollback | app/broker/order_executor.py:159-160 | rolling back restores exactly the saved rows |
| PositionStore.Store.Reconcile | app/broker/order_executor.py:147-290 | tables and reply are those of the functional reconciliation in each of its outcomes, a raised quote call included |
| PositionStore.Store.CountTodayFilledBuys | app/broker/order_executor.py:499-514 | counts exactly the rows of the symbol that are BUY, FILLED and of that market day |
| TradingDay.OneFillingBuyPerDay | app/broker/order_executor.py:704-866 | over any run at most one buy call per market day fills, at once or late, though writes roll back after fills and fills are reported as failures, provided no order goes out while one of that day is open unfilled and no buy of the day is booked |
| TradingDay.BuyIsSafeExactly | app/broker/order_executor.py:723-735 | sending a buy keeps that for every environment and continuation if and only if nothing is so exposed after the reconciliation before it |
| TradingDay.SellIsSafeExactly | app/broker/order_executor.py:1538-1640 | the same for sending a sell |
| TradingDay.FillLateKeeps | app/broker/order_executor.py:716-728 | shares that fill after their call keep the invariant: they will show as missing shares |
| TradingDay.SyncKeeps | app/broker/order_executor.py:716-722 | a successful reconciliation leaves the broker's quantity open and shows an unbooked fill as a FILLED BUY of today |
| TradingDay.PlaceKeeps | app/broker/order_executor.py:723-735 | with a count of zero, the ledger in step and nothing exposed, another fill is the first of the day |
| TradingDay.ConfirmKeeps | app/broker/order_executor.py:437-496 | polling the balance after an uncertain failure keeps the invariant while the order fills on |
| TradingDay.StepKeeps | app/broker/order_executor.py:704-1692 | each buy call, sell call, late fill, closing of an order and change of day keeps the invariant |
| DayCalls.SyncExactly | app/broker/order_executor.py:147-290 | from books that miss no shares a reconciliation books no trade; from books that do it books one FILLED BUY of today for the missing shares if and only if it is answered with a price, else nothing |
| DayCalls.BuyGoesOutExactly | app/broker/order_executor.py:716-735 | a buy reaches its order if and only if the balance is answered, the broker holds nothing that the books miss, and no FILLED BUY of the symbol and today is on the books |
| DayCalls.NewDayIsFree | app/broker/order_executor.py:499-514 | a buy of an earlier day never stops today's: with the books in step the first buy of a new day goes out |
| DayCalls.ReportIsBooked | app/broker/order_executor.py:780-843 | a reported fill is booked field by field as reported, so that the books miss exactly what was filled and not reported; when the session fails they miss all of it |
| DayCalls.FailedBuyBooksExactly | app/broker/order_executor.py:732-778 | after a reported failure the shares are booked as today's buy if and only if there are any and one of the first six polls is answered; otherwise a FAILED row is all that is added and the day stays free |
| DayCalls.SellGoesOutExactly | app/broker/order_executor.py:1538-1692 | a sell goes out if and only if the broker holds shares, no lot of another broker is open, the books can be brought in step and no guard withholds it; a reported fill is booked against all shares held |
| Totals.BooksBalance | app/broker/order_executor.py:147-290 | over any run quantity is conserved exactly and cost within half a cent for each domestic reconciliation, and other rows never change |
| Totals.SyncedTotals | app/broker/order_executor.py:293-434 | one reconciliation adds to the totals exactly what it books, within its drift |
| Totals.SyncedCostExactly | app/broker/order_executor.py:293-434 | a reconciliation books the change of cost exactly, unless and only unless it is a domestic one that splits a lot whose cost is below the cent |
| Broker.Market.Post | app/broker/kis_client.py:1534-1617 | a POST may be accepted and still fail; a second one requires every earlier order of a clean call to be dead |
| KisClient.InferFill | app/broker/kis_client.py:1170-1223 | the answers are the true holdings of nondecreasing fills, the inference is the first increase among them, a positive one is backed by arrived shares, and zero means none had arrived unless a query raised |
| KisClient.WaitForOutcome | app/broker/kis_client.py:1115-1168 | the outcome is true of the order at that moment, a count from the balance being all that arrived up to the quantity; an unknown one is of an order that is not open, and shows no arrived shares unless a balance query raised |
| KisClient.AfterFailedCancel | app/broker/kis_client.py:1746-1815 | the verdict is the one that the looks after the failed cancellations call for; after failed cancellations no fill is concluded only of a dead order and a fill is the order's, unless a fill raced the decision; a second cancellation is sent after a transient error only, and giving up there means that it failed |
| KisClient.SettleOrder | app/broker/kis_client.py:1730-1820 | a numbered order ends as its exact fill, as dead, or in giving up, whatever balance queries raise, unless a fill raced the decision; it gives up only after a failed cancellation, and an exception leaves it only when a query raised |
| KisClient.AfterUnknownPost | app/broker/kis_client.py:1647-1727 | with nothing open a POST of unknown fate is repeated if and only if every query answered before the first failure came before any fill, so a posted order that had filled is repeated if and only if the first query raises; in a clean call only over dead orders |
| KisClient.EarlyFillMissedExactly | app/broker/kis_client.py:1183-1213 | a fill from before the polling is missed if and only if the first balance query raises |
| KisClient.RequestsAreAffordable | app/broker/kis_client.py:1628-1645 | each order sent is for the most shares the amount pays for at its limit, or for one, the limit being the marked-up quote to the nearest tick; and each usable quote leads to an order |
| KisClient.Attempt | app/broker/kis_client.py:1626-1833 | one attempt sends the order of its quote, repeats only over dead orders, reports exactly what filled, and when every request is answered ends in that fill or in a dead order |
| KisClient.PlaceBuyByAmount | app/broker/kis_client.py:1619-1848 | POSTs are bounded by one plus the retry count and are those of the quotes; unless a fill raced a decision or a balance query raised after a POST of unknown fate only the newest order filled or lives and a reported fill is exactly what filled; and when every request is answered and every quote usable, either that is reported or all the allowed orders were tried and are closed without a fill |
| BuyCalls.OrderShares | app/broker/order_executor.py:732-735 | whatever the broker does, what the client fills, leaves open and reports is what trading-day runs assume of a buy call, and in a clean call the report is the fill |
| BuyCalls.ConfirmBuy | app/broker/order_executor.py:437-496 | the polling loop, while the broker goes on filling, computes the functional polling, keeps the invariant and ends with the shares really held |
| BuyCalls.ExecuteBuyKis | app/broker/order_executor.py:704-866 | the whole buy with the client at work is a step of a trading-day run, keeps its invariant, ends with the shares really held, gets to a quote if and only if the balance is answered and the day is free, and in a clean call leaves the books in step with a reported fill |
| Prices.SecondRoundingMovesNothing | app/broker/kis_client.py:123-155 | formatting before the POST never moves the limit |
| Prices.ProtectedWithinHalfTick | app/broker/kis_client.py:188-198 | a protected limit is at most half a tick low, and not low at all on the tick grid |
| Prices.ProtectionHoldsExactly | app/broker/kis_client.py:188-198 | the limit reaches the protected price if and only if that rounds up, the market limit rounds higher, or the one-cent floor does |
| Prices.DomesticProtection | app/broker/kis_client.py:158-166 | the same in won for domestic limit orders |
| Prices.BuyLimitExactly | app/broker/kis_client.py:177-185 | a buy limit is the quote with its markup, at most a fifth, to the nearest tick, in dollars at least a cent |
| Prices.SharesAreAffordable | app/broker/kis_client.py:1636-1639 | the shares asked for are the most the amount pays for, and one when it pays for none |
| Prices.SubmittedSellExactly | app/broker/kis_client.py:188-198 | a sell limit is the higher of market and protected price to the nearest tick, at least a cent in dollars, and is refused if and only if that is below 0.01 of the currency |
| Prices.OverseasTextExactly | app/broker/kis_client.py:137-155 | the submitted text is the price to the nearest tick, raised to a cent in dollars and to the smallest amount when not positive |
| Prices.SubmittedDomesticExactly | app/broker/kis_client.py:158-166 | a domestic limit is the nearest won and is refused if and only if that is none |
| Dates.LastWeekdayOfMonth | app/broker/market_hours.py:82-92 | the walk back ends on the last such weekday of the month |
| Dates.NthWeekdayIsNth | app/broker/market_hours.py:75-79 | the computed day is that weekday in the nth week of the month |
| Dates.NoHolidayInAugust | app/broker/market_hours.py:95-112 | no computed holiday but Good Friday can fall in August |
| Dates.UsHolidaysExactly | app/broker/market_hours.py:95-112 | a date is a computed holiday if and only if the calendar of the exchange says so: weekday, month and week of each, observed on Friday or Monday, and Good Friday |
| Dates.MonthsFollow | app/broker/market_hours.py:75-92 | each month has the length of the Gregorian calendar |
| Sessions.TradingDayAhead | app/broker/market_hours.py:115-121 | a trading day lies ahead of every day for every finite configured holiday set and any Easter dates |
| Sessions.OpenExactly | app/broker/market_hours.py:115-139 | New York is open from 9:30 to 16:00 and Korea from 9:00 to 15:30, Monday to Friday, but on the operator's holidays and, in New York, on the computed ones |
| Sessions.AsiaOpenExactly | app/broker/market_hours.py:150-165 | the four Asian exchanges are open in their two sessions, Monday to Friday, but on the operator's holidays |
| Sessions.SecondsUntilOpen | app/broker/market_hours.py:277-315 | the search ends and returns the whole seconds to the earliest trading-day open after now, or zero while open |
| Sessions.SecondsUntilAsiaOpen | app/broker/market_hours.py:318-339 | the whole seconds to the earliest session start after now, lunch restart included, if one lies within ten local days, otherwise zero |
| Commerce.AccountsStaySound | app/web/commerce_store.py:305-625 | in every reachable state balance is starter credits plus all deltas and not negative, the log is their newest part, sections are charged once, requests credited once and never late or after rejection |
| Commerce.UnlockKeeps | app/web/commerce_store.py:319-344 | a section unlock keeps all of that |
| Commerce.PurchaseKeeps | app/web/commerce_store.py:359-466 | so does a purchase |
| Commerce.CreateKeeps | app/web/commerce_store.py:502-541 | so does a new payment request |
| Commerce.ReviewKeeps | app/web/commerce_store.py:575-625 | so does a review |
| Commerce.UnlocksNeverShrink | app/web/commerce_store.py:332-334 | over any run what is unlocked stays unlocked |
| Commerce.UnlockChargesOnlyNew | app/web/commerce_store.py:323-334 | an unlock charges the prices of exactly the sections it newly opens, each once |
| Offers.UnlockTells | app/web/commerce_store.py:305-344 | a section unlock opens exactly the sections asked for that were not open, for the sum of their list prices; it is refused if and only if nothing known is asked for or those cost more than there is |
| Offers.PurchaseTells | app/web/commerce_store.py:346-466 | a purchase gives what was bought and nothing else for its list price, a membership thirty days and thirty credits; it is refused if and only if the desk, the ticker or the credits are lacking |
| Offers.BundleIsDiscounted | app/web/commerce_store.py:27-35 | a bundle costs two fifths of its sections, rounded, and not less than nine |
| Offers.RequestTells | app/web/commerce_store.py:484-541 | a request is put first, pending for two days and worth its pack's credits, and changes no balance |
| Offers.ReviewTells | app/web/commerce_store.py:566-625 | a decision takes effect on the pending request alone, and only approval adds its credits |
| Offers.NormalizedTells | app/web/commerce_store.py:184-242 | a membership ends and pending requests expire when their time has come, and the newest twenty requests stay |
| Offers.HistoryTells | app/web/commerce_store.py:244-268 | each operation enters in the history exactly what it changes the balance by |
| CommerceStore.Normalize | app/web/commerce_store.py:184-242 | normalizing ends memberships and expires requests whose time has come, and keeps the newest twenty requests |
| CommerceStore.Entry.UnlockSections | app/web/commerce_store.py:305-344 | the stored account and its history change as the functional unlock says; an error changes nothing |
| CommerceStore.Entry.PurchaseProduct | app/web/commerce_store.py:346-466 | likewise for purchases |
| CommerceStore.Entry.CreatePaymentRequest | app/web/commerce_store.py:484-541 | likewise for payment requests |
| CommerceStore.Entry.ReviewPaymentRequest | app/web/commerce_store.py:566-625 | likewise for reviews of a request the account has; otherwise nothing changes |

## Left out

- HTTP, tokens, headers, retries after an expired token, JSON that decodes to something other than an object, and empty list entries.
- Floating point: the ledger and prices use exact decimals, so a binary product that lands just beside a decimal tie is not captured.
- Text beyond ASCII in tickers (upper-casing, white space and digits follow the ASCII rules).
- SHA-256 is a function without a collision on the keys compared; its own security is not modelled.
- Daylight-saving changes, time-zone conversion and the largest representable date; the Easter date is an arbitrary function.
- The IB broker, dual-broker failover, position synchronization and the safety sell, whose later write to the audit row does not follow the worker's order.
- OneFillingBuyPerDay: shares traded outside the bot, several symbols at once, a call that straddles midnight, and a fill between a call's balance query and its order are not modelled; the client reports no more than was filled.
- LastUpdateWinsExactly: relies on the database layer writing only the columns that changed, and on the updates that the worker and the expiry sweeps make; a manual edit of the row is not modelled.
- PlaceBuyByAmount: the sell loop, the domestic order flow and the price reported with a fill are not modelled; quotes are arbitrary numbers, and the broker is taken to accept the cancellation of an open order only.
- NoOrderVanishes: an order acknowledged as done counts as terminal whatever process_order did with it; a process_order that succeeds at the broker and raises afterwards is retried, so this is at-least-once.
- QuietRunDrains: assumes, as does QuietRunSettles, that Redis and the notifications work and that no order is re-pended; turns that only wait, and the clock moving between idle sweeps, are not counted.
- Profit percentages, commissions and the texts of replies.
- CommerceStore: a corrupt file that resets the store, text normalization, alert preferences, malformed stored entries, and the walk of a review through several accounts, whose only other effect is to store them normalized; the kinds of purchase share one transaction kind.
- Queue statistics, clearing all queues, Telegram commands, the monitors, the community and login stores: single-branch code or library calls.
