# Verified models of the GTT trading stack

Dafny models of the parts of the stack where state, concurrency or arithmetic decide about money,
and proofs about every run of them. `dafny verify dfyconfig.toml` checks everything.

| files | what they model |
|---|---|
| `TokenBucket.dfy` | the Redis token bucket that limits broker calls |
| `SignalStep.dfy`, `PathReading.dfy`, `PathOutcome.dfy`, `MonitorMachine.dfy`, `MonitorRuns.dfy`, `MonitorOutcome.dfy`, `PriceMonitor.dfy` | the first-generation price monitor: ticks, cache rebuilds and broker reconciliation over a cache, an instrument index and the signals table |
| `Vwap.dfy`, `FillRules.dfy`, `TrackerRuns.dfy`, `RecordCounts.dfy`, `FillReading.dfy`, `FillOutcome.dfy`, `FillRepeats.dfy`, `HandledRepeats.dfy`, `OrderTracker.dfy`, `FillDisagreement.dfy`, `LateNoticeReplay.dfy` | the second-generation order tracker: fills that arrive repeatedly and out of order, and the P&L they book |
| `ExpiryMachine.dfy`, `ExpiryRuns.dfy`, `ExpiryOutcome.dfy`, `ThresholdChecker.dfy` | the second-generation price monitor: when an unfilled signal expires, next to late writes and concurrent fills |
| `Placement.dfy` | from the stream to the broker: concurrent workers, crashes, redelivery, and who may place an order |
| `PnlGuard.dfy` | the daily P&L guard and its database twin |
| `RiskReward.dfy` | validation, the 1:2 gate, the price buffers and the order's prices |
| `TargetsString.dfy` | the targets string between the form and the parser |
| `InstrumentIndex.dfy` | the instrument indexes of both generations |

Each machine comes twice. A class has the source's fields and does the source's steps, loops included; its
methods are proved to do the steps of a transition function over values. The theorems are about all runs of
that function, and the central ones tie it to a definition that does not step at all: windows over the whole
call history, a price path read as a whole, a scan of a list, the words of a string. The `*Outcome.dfy` files say what
comes out in prices, quantities and amounts written out, without the machines' own functions.

Prices and amounts are whole hundredths, as the `NUMERIC(x,2)` columns hold them; times are whole milliseconds
or opaque instants. A nullable number that the code only tests for truth is 0 where it is NULL.

## What the proofs show about the code

- A `TARGET1_HIT` row of the first-generation monitor is not final while its signal is still cached: a tick past
  the stop that leaves some other target unreached rewrites it to `STOPLOSS_HIT`, and only such a tick does
  (`MonitorRuns.BookedTargetRewrittenIff`). With no first target defined, a signal that reaches its other targets
  leaves the cache while its row stays `ACTIVE`, until the next rebuild brings it back; a tick does this in no other
  case (`MonitorRuns.UncachedButOpenIff`). A rebuild forgets reached second and third targets, so their events are
  logged again (`MonitorRuns.RebuildForgetsHits`).
- A reply of the broker spoils the sign of the booked P&L exactly when the prices it brings to a watched row lie on the
  wrong side (`MonitorRuns.ReplySignsIff`); a repeated report of the entry does not. The amount itself is that of the
  trade from the row's entry price to its exit price, unless a reply that closes an entered row names another entry
  price: then the row keeps its own and gets the P&L of the other (`MonitorOutcome.ReplyPnlIff`).
- The order tracker books each exit once however fills are repeated and reordered. The exception is a cancelled or
  expired notice that arrives after the exit: it overwrites the status both guards rely on. A signal that has an exit
  is recorded again exactly when an exit fill with a profit or a loss meets its row after such a notice, with no
  booking in between (`RecordCounts.CountExact`, `RecordCounts.ReopenedIff`, `RecordCounts.RecordedAgainIff`). One
  GTT update suffices that is delivered twice, the second time as expired (`LateNoticeReplay.ReplayThroughHandler`).
- A row is decided by its first entry fill and its first exit fill (`FillReading.FirstFillsDecide`). Two cases may
  surprise: an entry that fills within 0.75 of the target or the stop books a flat exit at once, and so does an exit
  that is delivered before its entry; the fills that follow are absorbed.
- A repeated delivery is idle exactly when the leg it finds at that moment is marked as applied
  (`FillRepeats.SettledIdleIff`). For messages that agree about their orders it always is, whatever links and leg rows
  the handlers write in between, and whatever GTT notices arrive that are not late
  (`HandledRepeats.HandledRepeatsChangeNothing`). Otherwise it need not be: when a second entry order takes over the
  link of the entry leg, a repeated update of the first one that does not name its side closes the position
  (`FillDisagreement.DisagreeingRepeatCloses`).
- An exit order whose first update carries no price is linked to the target leg, and its fill is then booked as
  `TARGET1_HIT` whatever its price (`HandledRepeats.UnpricedUpdateBooksTarget`).
- A tick from before the signal never expires it, but the touch it sets in the cache counts for later ticks
  (`ExpiryRuns.PreSignalTouchCounts`). Until the next refresh a fill does not stop the monitor from cancelling the GTTs
  at the broker, which it does exactly when a tick fires for the signal as cached (`ExpiryRuns.CancelledIffFires`,
  `ExpiryRuns.LateFillIsStillCancelled`); from the refresh on it never does (`ExpiryRuns.KnownFillIsNeverCancelled`).
  Only the row is protected throughout. After an unsubscribe message, an instrument stays untracked until somebody
  subscribes or its thresholds disappear for a while (`ExpiryRuns.UntrackedIff`).
- When the update of the row fails after the broker was asked, the signal waits on and the broker is asked again at a
  later tick (`ExpiryRuns.FailedWaitsAgain`): at most once per signal plus once per failed update
  (`ExpiryRuns.CancelledOnce`).
- At-most-once placement has a price: a worker that crashes between insert and placement, or that the rate limiter
  stops there, leaves a row that nobody will ever place (`Placement.PlaceableIff`). The console message of the rate
  limiter, "Will retry automatically", does not describe the code.
- Between the increment and the flag step of `record`, a breach of the daily limit can be forgotten if another record
  brings the total back (`PnlGuard.GapAdmits`).
- A signal that passes the 1:2 gate becomes an order that may miss 1:2 by up to 11 points, and the bound is attained
  (`RiskReward.RatioBound`, `RiskReward.RatioBoundIsSharp`). Entries below 100 fall through the buffer table to its
  last row and get five points (`RiskReward.TargetBufferIs`).
- Clearing the first layer of the second-generation instrument cache changes an answer exactly when some listed item
  with the same instrument key has written another value, or another field, into the shared hash last
  (`InstrumentIndex.ClearUnobservableIff`, `InstrumentIndex.SharedKeyIsObservable`).

## Model

| member | source | states |
|---|---|---|
| TokenBucket.RefillIsLeastAllowance | gtt_v2/shared/redis/rate_limiter.py:10-20 | The refilled token count is the minimum, over now and all earlier calls i, of max + rate * (now - t_i) - grants since i: two stored numbers carry the whole call history |
| TokenBucket.AdmitsIffFits | gtt_v2/shared/redis/rate_limiter.py:20-30 | A call is granted if and only if it fits the budget of every window that ends at it |
| TokenBucket.WindowBound | gtt_v2/shared/redis/rate_limiter.py:7-31 | Between any two calls of any run, at most max + rate * length calls are granted |
| TokenBucket.TokensNeverNegative | gtt_v2/shared/redis/rate_limiter.py:20-30 | The stored token count never falls below zero |
| TokenBucket.FullAfterTtl | gtt_v2/shared/redis/rate_limiter.py:24-29 | Where a full bucket refills within the key's time to live, a bucket idle that long is full whatever it held |
| TokenBucket.ExpiryUnobservable | gtt_v2/shared/redis/rate_limiter.py:14-29 | Dropping an expired key leaves every later state of such a bucket as it was |
| TokenBucket.ConfiguredExpiryUnobservable | gtt_v2/shared/redis/rate_limiter.py:34-41 | For every configured endpoint and the default, a bucket whose key may expire grants exactly the calls that one kept for ever grants |
| TokenBucket.EndpointBound | gtt_v2/shared/redis/rate_limiter.py:34-41 | In the table's own numbers: in any window, gtt_place is granted at most 5 calls and 2 a second, and so on for each endpoint and the default |
| TokenBucket.EndpointExact | gtt_v2/shared/redis/rate_limiter.py:34-41 | And a call is refused only where granting it would break that bound in some window that ends at it |
| TokenBucket.Bucket.Acquire | gtt_v2/shared/redis/rate_limiter.py:52-60 | One call grants exactly when it fits every window of the calls so far, and appends itself to them |
| SignalStep.TickKeepsAgreement | price_monitor.py:122-198 | A tick keeps cache entry and row in agreement (equal, or the row is TARGET1_HIT and target 1 is marked as hit), evicts only signals that are closed or have no first target, and reopens no row |
| SignalStep.ReplyKeepsAgreement | price_monitor.py:241-346 | So does a broker reply, which leaves closed rows untouched and makes no row PENDING |
| SignalStep.LegsRead | price_monitor.py:292-308 | Entry, exit and reason are those of the last triggered ENTRY leg and of the last triggered TARGET or STOPLOSS leg, TARGET1_HIT exactly for TARGET, at its price or else its trigger price; nothing without such a leg |
| PathReading.TicksReadPath | price_monitor.py:122-198 | First passage, for BUY and SELL: after any sequence of ticks, row, cache entry, hit set and events of a signal freshly cached as PENDING or ACTIVE equal a reading of the whole price path |
| PathReading.Step | price_monitor.py:122-198 | One more tick turns the reading of a path into the reading of the longer path |
| PathReading.DoneTickMeaning | price_monitor.py:176-185 | The tick by which the reading calls all defined targets done is the first by which each of them was reached |
| PathOutcome.PendingOutcome | price_monitor.py:136-194 | By the first tick at its entry or its stoploss, in plain prices for BUY and SELL: a PENDING row stays as it is, is closed flat, or is in the market; there it is closed at the stoploss while a target is open, else at the first target, else ACTIVE; and the P&L is quantity times what was sold for less quantity times what was bought for |
| PathOutcome.ActiveOutcome | price_monitor.py:152-194 | The same for an ACTIVE row from the first tick on, counted from its entry price or else its placement price |
| PathOutcome.OtherOutcome | price_monitor.py:131-198 | A row that is neither BUY nor SELL is never touched |
| MonitorMachine.TickCoherent | price_monitor.py:122-198 | A tick keeps coherence: every cached id has a row it agrees with and is indexed exactly once, under its own instrument, and nothing else is indexed |
| MonitorMachine.RebuildCoherent | price_monitor.py:102-113 | A rebuild makes cache and index coherent whatever order the rows come in |
| MonitorMachine.ReconcileCoherent | price_monitor.py:241-346 | A broker reply keeps coherence |
| MonitorMachine.Run | price_monitor.py:102-346 | Every state of every run of ticks, rebuilds, broker replies and inserts is coherent |
| MonitorMachine.StepProjects | price_monitor.py:125-198 | Each step gives every signal exactly what a one-signal step gives it: the walk over the shrinking list skips none and disturbs no other instrument |
| MonitorMachine.RunProjects | price_monitor.py:122-346 | A run of the monitor is, for each signal, a run of the one-signal machine |
| MonitorRuns.TerminalNeverReopens | price_monitor.py:122-346 | No row that left PENDING and ACTIVE ever returns to them, in any run |
| MonitorRuns.ClosedRowFrozen | price_monitor.py:122-346 | A closed row whose signal is no longer cached is never written again, nor is an event logged for it |
| MonitorRuns.UncachedButOpenIff | price_monitor.py:176-185 | A tick evicts a signal whose row stays open if and only if no first target is defined, some other target is, the signal is in or past its entry, and the tick completes the hits of all defined targets |
| MonitorRuns.BookedTargetRewrittenIff | price_monitor.py:166-194 | A booked TARGET1_HIT row is rewritten by a tick if and only if the tick is past the stop and leaves some defined target unreached, and then it says STOPLOSS_HIT |
| MonitorRuns.BookedSigns | price_monitor.py:136-194 | In any run, rebuilds and broker replies included, in which no reply brings unfavourable prices to the row it meets: a TARGET1_HIT exit has P&L at least 0, a STOPLOSS_HIT exit at most 0 when the stop is on the losing side of the entry level, and an ACTIVE row's entry is short of T1 |
| MonitorRuns.TickedEntrySigns | price_monitor.py:136-194 | So it is for every signal whose entry was recorded by a tick and whose exit is not the broker's, however often the broker reports the entry afterwards |
| MonitorRuns.ReplySignsIff | price_monitor.py:292-346 | A reply keeps the signs if and only if its exit lies on the side its reason says, or its entry, if the row waits for one, past the entry level and short of T1 |
| MonitorRuns.MonitorReadsRun | price_monitor.py:102-346 | In every run, with any ticks, rebuilds, broker replies and other signals, a signal's row, cache entry and events are the reading of its price paths, divided by rebuilds and by the replies that change something |
| MonitorRuns.MonitorReadsPath | price_monitor.py:122-198 | Without a rebuild or a reply for the signal in between, that is the reading of one path |
| MonitorRuns.RebuildForgetsHits | price_monitor.py:102-113 | After a rebuild, a tick logs the event of an already reached target again |
| MonitorOutcome.RunOutcome | price_monitor.py:122-198 | In every run without a rebuild or a reply for the signal, its row has the outcome of the path of its instrument's ticks |
| MonitorOutcome.RebuildWatches | price_monitor.py:102-113 | A rebuild watches exactly the PENDING and ACTIVE rows with an instrument, each with no target reached |
| MonitorOutcome.PlacedOutcome | price_monitor.py:102-198 | From its insert on, through the next rebuild and any ticks, a placed signal has the outcome of its path |
| MonitorOutcome.FailedStays | price_monitor.py:102-346 | A signal whose order was not placed stays as inserted in every run |
| MonitorOutcome.ReplyOutcome | price_monitor.py:256-346 | What a reply makes of a row, from the four final statuses and the legs' prices: closed at zero, left alone, entered, or closed with quantity times exit less quantity times entry, for SELL the other way round |
| MonitorOutcome.ReplyPnlIff | price_monitor.py:330-346 | A reply leaves the booked P&L exact if and only if it does not close an entered row on another entry price of its own |
| MonitorOutcome.BookedPnl | price_monitor.py:102-346 | In every run without such a reply, the P&L of every closed row that was entered is exactly that of the trade from its entry price to its exit price |
| MonitorOutcome.EventsTold | price_monitor.py:136-194 | In every run, each logged event names the signal's own level of its kind, and its price lies at or past that level |
| PriceMonitor.Monitor.CheckThresholds | price_monitor.py:122-198 | The loop that deletes from cache and index while it walks a snapshot does exactly the machine's tick |
| PriceMonitor.Monitor.CheckSnapshot | price_monitor.py:125-198 | The walk over the snapshot, signal by signal |
| PriceMonitor.Monitor.CheckSignal | price_monitor.py:126-198 | The loop body writes the row, events, cache and index that the one-signal step says |
| PriceMonitor.Monitor.TrackActive | price_monitor.py:152-198 | The branch for an ACTIVE signal: targets, eviction when all are reached, then the stoploss |
| PriceMonitor.Monitor.CheckTargets | price_monitor.py:153-173 | The loop over the targets books the first one and logs each newly reached one once |
| PriceMonitor.Monitor.RebuildCache | price_monitor.py:102-113 | The two dictionaries are exactly those of the machine's rebuild |
| PriceMonitor.Monitor.BuildIndex | price_monitor.py:105-110 | The loop over the rows gives every instrument the list of its signals, in row order |
| PriceMonitor.Monitor.InspectLegs | price_monitor.py:292-308 | The loop over the legs returns price of the last triggered ENTRY leg and price and reason of the last triggered TARGET or STOPLOSS leg, stated on the legs themselves |
| PriceMonitor.Monitor.ApplyFills | price_monitor.py:324-346 | Entry and exit of a broker reply: rows, events, cache and index after them |
| PriceMonitor.Monitor.CloseByBroker | price_monitor.py:266-286 | A cancelled or expired GTT closes the row and takes the signal out of cache and index |
| PriceMonitor.Monitor.ProcessReconciliation | price_monitor.py:241-346 | All branches together do exactly the machine's reconciliation and keep coherence |
| PriceMonitor.Monitor.DropEverywhere | price_monitor.py:270-273 | The signal is out of the cache and out of every list, and every other entry stays |
| PriceMonitor.Monitor.UpdateEntryExecuted | db.py:355-364 | The row becomes ACTIVE at the entry price; no other row changes |
| PriceMonitor.Monitor.UpdateExitExecuted | db.py:367-376 | The row gets exit status, price and P&L; no other row changes |
| PriceMonitor.Monitor.InsertPriceEvent | db.py:327-332 | One event is appended |
| Vwap.AverageBetween | gtt_v2/shared/db/order_updates.py:50-60 | The rounded average lies between the smallest and the largest price actually traded |
| Vwap.AverageError | gtt_v2/shared/db/order_updates.py:50-60 | Average times quantity misses the traded value by at most half a cent per unit |
| Vwap.AveragePermutes | gtt_v2/shared/db/order_updates.py:50-60 | The average does not depend on the order of the trades |
| Vwap.AverageIs | gtt_v2/shared/db/order_updates.py:50-60 | There is an average exactly where something was traded: the nearest hundredth, and of two the even one |
| Vwap.TotalsAdd | gtt_v2/shared/db/order_updates.py:50-60 | The two totals are the sums of quantity and of price times quantity |
| Vwap.ForOrderIs | gtt_v2/shared/db/order_updates.py:40-47 | An order's trades are those stored with its id, each as often as it is stored |
| Vwap.InsertAllKeeps | gtt_v2/shared/db/order_updates.py:23-37 | Storing trades only appends; afterwards every delivered trade id is stored, and nothing else is |
| Vwap.ReinsertingIsIdle | gtt_v2/shared/db/migrations/002_trade_exec_unique.sql:6-8 | Storing trades whose ids are stored changes nothing |
| TrackerRuns.StepKeepsBooks | gtt_v2/services/order_tracker/main.py:105-377 | Every operation keeps the books: keys refer to rows, prices are positive, an exit price comes with an entry price and a P&L, a booked exit has an exit price |
| TrackerRuns.FillMeets | gtt_v2/services/order_tracker/main.py:192-332 | A delivery either stores trades and nothing more, or applies one positive average price to one existing signal |
| TrackerRuns.StepOnSignal | gtt_v2/services/order_tracker/main.py:278-332 | One step records for a signal at most when it books its exit; without a late notice a booked signal stays booked and stored P&L stays recorded P&L |
| TrackerRuns.RecordedAtMostOnce | gtt_v2/services/order_tracker/main.py:192-332 | In any run, with any repetition and order of fills, a signal is recorded at most once, plus once per cancel or expiry notice that came after its exit was booked |
| TrackerRuns.StoredIsRecorded | gtt_v2/services/order_tracker/main.py:304-332 | Without such a notice, the P&L in the row is what was recorded for the signal |
| TrackerRuns.TotalIsConserved | gtt_v2/shared/db/signals.py:104-122 | From empty books, the total recorded with the guard equals the sum of the signals' stored P&L |
| TrackerRuns.BookedAbsorbs | gtt_v2/services/order_tracker/main.py:278-286 | A *_HIT row absorbs fills of all three legs |
| RecordCounts.StepRecords | gtt_v2/services/order_tracker/main.py:278-332 | A step adds one record for a signal if and only if it is a fill that meets the signal, is not already applied, is more than an entry, and makes a profit or a loss on a known entry; otherwise none |
| RecordCounts.ReopensIff | gtt_v2/services/order_tracker/main.py:129-135 | A step leaves a row with an exit its status does not show if and only if it is a late notice |
| RecordCounts.CountExact | gtt_v2/services/order_tracker/main.py:192-332 | In any run, the records of a signal are at most one for its first exit, and one for each fill that records at a row opened again |
| RecordCounts.ReopenedIff | gtt_v2/services/order_tracker/main.py:129-135 | At any moment of any run, a row is open again if and only if some late notice came and no booking since |
| RecordCounts.RecordedAgainIff | gtt_v2/services/order_tracker/main.py:278-332 | After any run, a delivery records again a signal that has an exit if and only if such a notice is open and the delivery is an exit fill for it with a profit or a loss |
| RecordCounts.NoticeThenFillIff | gtt_v2/services/order_tracker/main.py:105-135 | After a GTT notice at a booked signal, the next fill that reaches it records again if and only if the notice closes the signal and the fill is an exit fill with a profit or a loss |
| RecordCounts.LateNoticeDoubles | gtt_v2/services/order_tracker/main.py:129-135 | After a late notice the next exit fill with non-zero P&L is recorded once more |
| LateNoticeReplay.ReplayThroughHandler | gtt_v2/services/order_tracker/main.py:105-137 | The same GTT update with a filled target leg, handled twice by the tracker object, the second time with status expired, records one exit twice |
| FillReading.FirstFillsDecide | gtt_v2/services/order_tracker/main.py:278-332 | A new row after any sequence of fills is decided by its first entry fill and its first exit fill |
| FillReading.DeliveriesRead | gtt_v2/services/order_tracker/main.py:192-332 | After any deliveries, a new signal's row is that reading of the fills that reached it |
| FillOutcome.RowOutcome | gtt_v2/services/order_tracker/main.py:278-332 | That reading in plain numbers, for BUY and SELL: flat where the exit comes first or the entry fills within 0.75 of target or stop; else closed by the first exit fill with quantity times received less quantity times paid, as TARGET1_HIT exactly where its leg is the target's or its price is at or within 0.75 of the target |
| FillOutcome.DeliveredOutcome | gtt_v2/services/order_tracker/main.py:192-332 | A new signal's row after any deliveries is the row after the fills that reached it |
| FillOutcome.ApplyOutcome | gtt_v2/services/order_tracker/main.py:268-332 | One fill at any row: absorbed by the guards, an entry, or an exit whose P&L is stored and, unless zero, recorded, amounts written out |
| FillOutcome.DeliveryOutcome | gtt_v2/services/order_tracker/main.py:304-332 | A delivery records nothing, or once the P&L it stores: received less paid |
| FillOutcome.MeetingIs | gtt_v2/services/order_tracker/main.py:218-223 | A fill's price and quantity are average and total of the order's trades that are stored by then |
| FillOutcome.StrategyOutcome | gtt_v2/services/order_tracker/main.py:46-82 | An order of the signal's side is an entry; any other is the target's, unless the stoploss trigger is strictly nearer, or alone known, or the target leg missing |
| FillOutcome.LegOutcome | gtt_v2/services/order_tracker/main.py:150-167 | An order is taken for the leg it is linked to, else for the first leg of the derived strategy of the GTT its message names, else for that GTT's first leg |
| FillOutcome.UpsertOutcome | gtt_v2/shared/db/gtt_rules.py:5-32 | Writing a leg changes the child order of the row it has and nothing else, or appends a row |
| FillOutcome.NewestChild | gtt_v2/shared/db/gtt_rules.py:62-68 | The row found for a child order is its newest |
| FillOutcome.LegsInOrder | gtt_v2/shared/db/gtt_rules.py:71-78 | The legs of a GTT come in the order of their rows |
| FillRepeats.DeliveryIdleIff | gtt_v2/services/order_tracker/main.py:278-332 | A delivery changes no row and records nothing if and only if it finds no leg or the guard of the leg it finds says that it is already applied |
| FillRepeats.SettledIdleIff | gtt_v2/services/order_tracker/main.py:192-332 | For a message whose trades are stored, that is exactly when it changes nothing at all but links |
| FillRepeats.RepeatIsIdle | gtt_v2/services/order_tracker/main.py:202-223 | Among messages that agree, a delivery whose trades are all stored changes no row, no trade and no record |
| FillRepeats.RepeatsChangeNothing | gtt_v2/services/order_tracker/main.py:192-332 | Any sequence of bare deliveries ends in the same rows, trades and records as the sequence without its repeats |
| HandledRepeats.HandledRepeatsChangeNothing | gtt_v2/services/order_tracker/main.py:139-377 | So does any run of order updates, complete or not, written leg rows, reconciled fills, and GTT notices of which none comes after its signal's exit was booked |
| HandledRepeats.PlayIsRun | gtt_v2/services/order_tracker/main.py:139-377 | Such a run is a legal run of the tracker's operations |
| HandledRepeats.UnpricedUpdateBooksTarget | gtt_v2/services/order_tracker/main.py:150-176 | An exit order first seen without a price is booked as TARGET1_HIT whatever its fill price |
| FillDisagreement.DisagreeingRepeatCloses | gtt_v2/services/order_tracker/main.py:46-82 | Three order updates, the third a repeat of the first, that end in a closed row: the message names no side and its link was taken over |
| FillDisagreement.ReplayThroughHandler | gtt_v2/services/order_tracker/main.py:139-190 | The same three updates through the handler of the tracker object |
| OrderTracker.Tracker.InsertTradeExecutions | gtt_v2/shared/db/order_updates.py:23-37 | The insert loop stores what the specification stores |
| OrderTracker.Tracker.ResolveLeg | gtt_v2/services/order_tracker/main.py:150-176 | The leg is the linked one, else the derived one, which gets linked |
| OrderTracker.Tracker.Apply | gtt_v2/services/order_tracker/main.py:268-332 | Guards, row updates and the call of the guard's record, as one update of the tables |
| OrderTracker.Tracker.ProcessFilledOrder | gtt_v2/services/order_tracker/main.py:192-332 | The method does the machine's fill operation |
| OrderTracker.Tracker.HandleOrderUpdate | gtt_v2/services/order_tracker/main.py:139-190 | An order update is a link operation, followed by a fill operation if it is complete |
| OrderTracker.Tracker.HandleGttUpdate | gtt_v2/services/order_tracker/main.py:105-137 | A GTT update is a notice operation followed by the reconciliation of its payload, or nothing for an unknown GTT |
| OrderTracker.Tracker.ReconcileGttPayload | gtt_v2/services/order_tracker/main.py:334-377 | All legs are written first, then the orders of the filled legs are processed: a legal run of operations |
| OrderTracker.ItemsInTurn | gtt_v2/services/order_tracker/main.py:334-377 | Each leg of the payload gives one write of its row and, if it is filled and has an order, one delivery of that order with the side the payload names, in their order |
| ExpiryMachine.StepKeepsSound | gtt_v2/services/price_monitor/main.py:195-348 | Every step keeps cache entries copies of their rows, touches known to the cache while they matter, and cancelled signals out of reach of a second cancellation |
| ExpiryMachine.FirstReached | gtt_v2/services/price_monitor/main.py:260-294 | The reported target is the first in list order that the tick reaches |
| ExpiryRuns.ExpiryExact | gtt_v2/services/price_monitor/main.py:79-133 | A waiting signal that nobody moves is expired if and only if one of its ticks is not older than the signal, strictly past T1, and it or an earlier tick was in the entry zone or a touch was known before - across refreshes, lost writes and failing updates, after which only the known touch and the ticks to come count; with the touch logic off, if and only if a tick reached T1 |
| ExpiryRuns.TouchLatch | gtt_v2/services/price_monitor/main.py:195-238 | While its row is PENDING, a touched signal stays cached and touched, however late or lost its write |
| ExpiryRuns.CancelledOnce | gtt_v2/services/price_monitor/main.py:304-348 | In any run, the broker is asked to cancel at most once per signal, plus once for each update of the row that failed |
| ExpiryRuns.FailedWaitsAgain | gtt_v2/services/price_monitor/main.py:326-338 | After an update that failed, the signal is PENDING and cached with its touch, so the next tick meets it as before |
| ExpiryRuns.MovedRowKept | gtt_v2/services/price_monitor/main.py:326-338 | The status of a row that has left PENDING is never overwritten |
| ExpiryRuns.ThresholdsAreTracked | gtt_v2/services/price_monitor/main.py:228-236 | Without unsubscribe messages, every instrument with thresholds is tracked, in any run |
| ExpiryRuns.UntrackedIff | gtt_v2/services/price_monitor/main.py:175-236 | In any run, an instrument with thresholds is untracked if and only if an unsubscribe message was followed neither by a subscribe message nor by a moment without thresholds |
| ExpiryRuns.PreSignalTouchCounts | gtt_v2/services/price_monitor/main.py:251-258 | A tick older than the signal sets the touch that lets a later tick expire it |
| ExpiryRuns.CancelledIffFires | gtt_v2/services/price_monitor/main.py:245-322 | Until the next refresh, whatever fills or other moves do to the row, the broker is asked to cancel if and only if a tick fires for the signal as cached |
| ExpiryRuns.KnownFillIsNeverCancelled | gtt_v2/services/price_monitor/main.py:107-120 | Once the row has left PENDING and the cache knows, no run ever cancels the signal |
| ExpiryRuns.RefreshKnowsFill | gtt_v2/services/price_monitor/main.py:216-226 | A refresh makes a fill known |
| ExpiryRuns.LateFillIsStillCancelled | gtt_v2/services/price_monitor/main.py:317-338 | A fill after the last refresh: the broker is asked to cancel, the row stays ACTIVE |
| ExpiryOutcome.TouchExact | gtt_v2/services/price_monitor/main.py:33-44 | In every run, while its row is PENDING an untouched signal is touched if and only if the touch logic is on and one of its ticks lay from low to high; without a high end, at most five points above low; without a low end, never |
| ExpiryOutcome.OutsideIsKept | gtt_v2/services/price_monitor/main.py:33-133 | Where the touch logic is on, a signal whose ticks all lie outside its zone is never expired and the broker never asked, however far past the target they are |
| ExpiryOutcome.ExpiredIff | gtt_v2/services/price_monitor/main.py:79-133 | The expiry of a waiting signal in plain prices: strictly past the first target, not before the signal, with a touch by then; or, without the touch logic, at or past it |
| ExpiryOutcome.EventsTell | gtt_v2/services/price_monitor/main.py:260-302 | In every run, each event queued or stored says the first target in list order that its price was at, or the stoploss where it was at no target |
| ExpiryOutcome.VisitLogs | gtt_v2/services/price_monitor/main.py:253-302 | A tick queues exactly its touch and its event, unless the queue is full |
| ExpiryOutcome.QueueIsWritten | gtt_v2/shared/db/writer.py:16-42 | The queue is written in order: each write that succeeds stores its event or its row's touch, each that fails is lost, and nothing else changes in events and rows |
| ExpiryOutcome.RefreshOutcome | gtt_v2/services/price_monitor/main.py:199-226 | A refresh copies exactly the PENDING and ACTIVE rows with an instrument and keeps a touch from row or copy |
| ThresholdChecker.SweepIsPointwise | gtt_v2/services/price_monitor/main.py:240-243 | One tick gives every signal of the snapshot what it would give to it alone and leaves all others as they were |
| ThresholdChecker.SweepIsLegal | gtt_v2/services/price_monitor/main.py:240-348 | A tick on an instrument is a legal run of the machine |
| ThresholdChecker.Checker.constructor | gtt_v2/services/price_monitor/main.py:162-193 | A started process is sound and tracks all its instruments |
| ThresholdChecker.Checker.RefreshThresholds | gtt_v2/services/price_monitor/main.py:195-238 | At most once a minute, the lists become copies of the watched rows, a known touch is carried over, and the tracked keys follow |
| ThresholdChecker.Checker.CopyRows | gtt_v2/services/price_monitor/main.py:209-226 | The loop over the rows builds lists that hold each watched signal once, under its instrument, and are never empty |
| ThresholdChecker.Checker.FirstTarget | gtt_v2/services/price_monitor/main.py:260-272 | The loop over the targets returns the first one reached |
| ThresholdChecker.Checker.CheckSignal | gtt_v2/services/price_monitor/main.py:245-302 | One dictionary meets a tick: flag, queued writes and cancellation of the machine's visit, and its state where the update of the row raises |
| ThresholdChecker.Checker.CancelUnfilledGtts | gtt_v2/services/price_monitor/main.py:304-348 | Compare-and-set on the row, then eviction, which removes an empty list and its tracked key; where the update raises, the signal stays cached |
| ThresholdChecker.Checker.Check | gtt_v2/services/price_monitor/main.py:240-243 | The walk over the snapshot visits exactly the cached signals of the instrument, each once, up to the first whose update raises |
| ThresholdChecker.Checker.AddInstrument | gtt_v2/services/price_monitor/main.py:175-177 | A non-empty key becomes tracked |
| ThresholdChecker.Checker.RemoveInstrument | gtt_v2/services/price_monitor/main.py:179-180 | The key is no longer tracked; the thresholds stay |
| Placement.AtMostOncePlacement | gtt_v2/services/trading_engine/main.py:211-259 | However workers interleave, crash and take over messages, place_gtt is called at most once per hash, and only by the worker whose insert returned the row |
| Placement.OrphanIsNeverPlaced | gtt_v2/shared/db/signals.py:35-50 | A hash whose row exists without a worker about to place it is never placed afterwards |
| Placement.PlaceableIff | gtt_v2/services/trading_engine/main.py:211-259 | An unplaced hash can still be placed if and only if it has no row or a worker is about to place it |
| Placement.CrashOrphans | gtt_v2/services/trading_engine/main.py:496-529 | A crash between insert and placement loses the order for good |
| Placement.BlockedIsNeverPlaced | gtt_v2/shared/db/signals.py:35-50 | Once a BLOCKED row is written, its hash is never placed, unless a worker held it already |
| Placement.NoMessageVanishes | gtt_v2/services/trading_engine/main.py:496-529 | Every message is at every moment unread, pending or acknowledged, and in exactly one of these states |
| Placement.EveryMessageCanConclude | gtt_v2/services/trading_engine/main.py:496-529 | No message is stuck: after any crashes it can be delivered, or claimed from whoever had it, and acknowledged |
| Placement.Engine.InsertSignal | gtt_v2/shared/db/signals.py:35-50 | An insert returns an id exactly when the hash was new, and otherwise changes nothing |
| Placement.Engine.ProcessSignal | gtt_v2/services/trading_engine/main.py:118-312 | The gates, the insert and the placement in the order of the protocol; an order is placed exactly for a new hash that passed |
| Placement.Engine.HandleOne | gtt_v2/services/trading_engine/main.py:516-529 | A message is acknowledged after it was processed, and stays pending if the database connection was lost |
| Placement.Engine.HandleBatch | gtt_v2/services/trading_engine/main.py:506-529 | A batch is a run of the protocol and ends with exactly the concluded messages acknowledged |
| PnlGuard.FlagIffRaised | gtt_v2/shared/rules/pnl_guard.py:26-46 | The flag is up if and only if an earlier allow refused or an earlier record that saw a breach took its flag step |
| PnlGuard.AllowExact | gtt_v2/shared/rules/pnl_guard.py:26-46 | An order is let through exactly when nothing raised the flag before and the total is inside the limits now |
| PnlGuard.JudgedAgainst | gtt_v2/shared/rules/pnl_guard.py:82-89 | A record's judging and flag steps raise the flag if and only if the total it saw was at or past plus or minus the limit's share of the capital read at the judging step |
| PnlGuard.DbFlagIff | gtt_v2/shared/rules/pnl_guard.py:103-106 | In every run, the database's flag is set if and only if a record that saw a breach has ended |
| PnlGuard.RefusedForTheDay | gtt_v2/shared/rules/pnl_guard.py:26-46 | After one refusal every later allow of the day refuses, whatever total and capital do |
| PnlGuard.RecordedForTheDay | gtt_v2/shared/rules/pnl_guard.py:75-106 | So it is once a record that saw a breach has passed its flag step |
| PnlGuard.TotalsBalance | gtt_v2/shared/db/daily_pnl.py:5-26 | At every moment the Redis total is the sum of everything recorded, and the database total plus what is still on its way; the trade count is the number of records that arrived |
| PnlGuard.GapAdmits | gtt_v2/shared/rules/pnl_guard.py:79-89 | Between increment and flag step a breach can be forgotten |
| PnlGuard.RecordInOneGo | gtt_v2/shared/rules/pnl_guard.py:75-106 | What the five commands of an uninterrupted record leave behind |
| PnlGuard.Guard.Allow | gtt_v2/shared/rules/pnl_guard.py:62-73 | The script's branches return and set what the machine's allow does |
| PnlGuard.Guard.Record | gtt_v2/shared/rules/pnl_guard.py:75-106 | The commands in a row are the machine's five steps and keep totals and flags in balance |
| RiskReward.OrderIff | gtt_v2/services/trading_engine/main.py:128-171 | The price gates let a signal through if and only if it has a target, its stop is behind its entry and its raw prices make at least 1:2 |
| RiskReward.ProcessOutcome | gtt_v2/services/trading_engine/main.py:128-171 | The order in plain numbers: trigger ABOVE for BUY and BELOW for SELL at entry_low or, for a range, its midpoint; immediate exits, the target 3, 4 or 5 points nearer and the stoploss 3 points farther; and why a signal is refused |
| RiskReward.SurplusExact | gtt_v2/shared/rules/buffer.py:42-106 | What buffers and midpoint cost, exactly: twice the stoploss buffer, the target buffer and three times the shift of the entry |
| RiskReward.RatioBound | gtt_v2/services/trading_engine/main.py:149-171 | Without a range, the order's target distance is at least twice its stop distance less 6 points and the target buffer, hence less 11 |
| RiskReward.RangingRatioBound | gtt_v2/shared/rules/buffer.py:62-70 | With a range it is at least twice the stop distance less 11 points and one and a half times the range's width in the direction of the trade, up to midpoint rounding |
| RiskReward.PayloadRatioIff | gtt_v2/shared/upstox/gtt_builder.py:4-26 | The order itself makes 1:2 if and only if the raw prices had that much to spare |
| RiskReward.RatioBoundIsSharp | gtt_v2/services/trading_engine/main.py:149-171 | The 11 points are attained, for every risk |
| RiskReward.TargetBufferIs | gtt_v2/shared/rules/buffer.py:21-37 | The table search: three points from 100, four from 200, five from 300 and also below 100 |
| RiskReward.BuffersShift | gtt_v2/shared/rules/buffer.py:42-59 | All targets move by one and the same amount towards the entry, the stoploss by three points away from it |
| RiskReward.Midpoint | gtt_v2/shared/rules/buffer.py:62-70 | The midpoint is off by at most half a hundredth |
| TargetsString.NormalizeIsJoin | trade_terminal_app/frontend_signal_bridge.py:102-106 | For every string, the normaliser joins its maximal runs free of white space, comma and slash with slashes |
| TargetsString.NormalizeTwice | trade_terminal_app/frontend_signal_bridge.py:102-106 | The normaliser is idempotent |
| TargetsString.NormalizeKeepsWords | trade_terminal_app/frontend_signal_bridge.py:102-106 | No step changes which runs the string has |
| TargetsString.ParserRecoversWords | gtt_strategy.py:411-414 | The parser reads back exactly those runs, in order |
| TargetsString.ParsedJoin | trade_terminal_app/frontend_signal_bridge.py:107-108 | The parser recovers any list of clean parts, also of a list that was joined without the normaliser |
| TargetsString.SeparatorsAre | trade_terminal_app/frontend_signal_bridge.py:103-105 | What separates two targets: comma, slash and each white-space character, listed |
| InstrumentIndex.FirstMatch | gtt_strategy.py:154-180 | The scan returns the first qualifying instrument, or none if none qualifies |
| InstrumentIndex.LastMatch | gtt_v2/shared/instruments/cache.py:59-89 | The scan returns the last qualifying instrument, or none if none qualifies |
| InstrumentIndex.ScansFind | gtt_strategy.py:154-180 | Both scans in the columns of the list: an NSE_FO or BSE_FO call or put whose four parts are given and equal the lookup's |
| InstrumentIndex.LocalAnswer | gtt_v2/shared/instruments/cache.py:83-85 | The first layer answers with the fields of the item it matched, its instrument key among them |
| InstrumentIndex.OptionIndex.LoadInstruments | gtt_strategy.py:153-187 | After the load loop the index answers as the scan for the first match |
| InstrumentIndex.OptionIndex.FindInstrument | gtt_strategy.py:205-217 | A lookup returns the first match of the loaded list |
| InstrumentIndex.InstrumentCache.Load | gtt_v2/shared/instruments/cache.py:50-94 | After the load loop, also on top of earlier loads, the first layer answers as the scan for the last match of the list, and Redis holds index and merged hashes of everything loaded |
| InstrumentIndex.InstrumentCache.Resolve | gtt_v2/shared/instruments/cache.py:26-48 | A resolve answers from the first layer, else from Redis and writes back; where items of one instrument key agree, it answers as the scan for the last match at any time |
| InstrumentIndex.InstrumentCache.ClearL1 | gtt_v2/shared/instruments/cache.py:96-97 | Clearing the first layer leaves Redis as it was |
| InstrumentIndex.LayersAgree | gtt_v2/shared/instruments/cache.py:26-97 | Where items of one instrument key agree, as with distinct keys or a list loaded again, both layers give the same answer |
| InstrumentIndex.DistinctKeysAgree | gtt_v2/shared/instruments/cache.py:85-88 | Lists with distinct instrument keys meet that condition |
| InstrumentIndex.MergedIsOwnIff | gtt_v2/shared/instruments/cache.py:85-88 | The merged hash of an instrument is one item's own data if and only if every field written there is that item's and was written last with its value |
| InstrumentIndex.ClearUnobservableIff | gtt_v2/shared/instruments/cache.py:85-97 | Clearing the first layer goes unnoticed for a key if and only if nothing in the list disturbs its last match in this way |
| InstrumentIndex.SharedKeyIsObservable | gtt_v2/shared/instruments/cache.py:85-88 | Two options with one instrument key: the first is answered differently after clearing if and only if the second has a field that the first lacks or holds differently |
| InstrumentIndex.FirstIsLast | gtt_strategy.py:179-180 | Where lookup keys are unambiguous and instrument keys present, both generations find the same instrument |

## Left out

Stated weaker or under an assumption:

- HandledRepeatsChangeNothing: assumes messages that agree about their orders (one GTT and one side per order), GTTs
  whose legs, entry and at least one exit, belong to one signal, and trade ids that belong to one trade; an order update
  counts as a repeat only if its fill brought trades. Messages name their GTT, the signals and legs are there from the
  start, and no notice is late: what late ones do is in `RecordCounts`. What decides without agreement is
  `FillRepeats.SettledIdleIff`.
- RepeatsChangeNothing: assumes the same agreement.
- ExpiryExact: assumes that no update of the row is committed and then reported as failed (`NoLostAnswers`). Such an
  update expires the row too, and the next refresh drops the signal; the other theorems cover it.
- StepKeepsBooks: takes each delivery of a fill as one step. Two deliveries of one order that interleave inside
  `_process_filled_order`, or a crash between its commit and the guard's `record`, are not part of the model.
- ThresholdsAreTracked: assumes that no unsubscribe message arrives; `ExpiryRuns.UntrackedIff` is about runs with them.
- ProcessReconciliation: leaves out the `upstox_gtt_status` column and the `force_backfill` branch.
- UpdateEntryExecuted: leaves out the tracker status and the time stamps.
- UpdateExitExecuted: leaves out the tracker status and the time stamps.
- HandleOrderUpdate: leaves out the log of order updates.
- HandleGttUpdate: leaves out the status and payload columns of leg rows.
- ReconcileGttPayload: leaves out the status and payload columns of leg rows.
- RefreshThresholds: reads the rows and installs the copies in one step.
- CancelUnfilledGtts: notes that the broker is asked to cancel for a signal, not for which GTT ids.
- ProcessSignal: takes the outcome of the gates, the rate limiter and the broker as a parameter.
- ParserRecoversWords: stops before `float()`.
- LoadInstruments: takes conversions to upper case, to an integer strike and to a calendar day as done, and leaves
  out the dictionary by instrument key.
- FindInstrument: takes the list as loaded and the expiry as parsed.
- Load: compares lookup keys as tuples, where `cache.py:24` joins the parts with colons to one string.
- Resolve: compares lookup keys as tuples in the same way.

Not modelled:

- HTTP, websockets, Telegram, protobuf, the language-model parser, database and Redis drivers, logging, latency and
  heartbeat helpers, process supervision, web routes and pages.
- `upstox_order_tracker.py`, the first-generation order tracker. Its entry handler tests only for ACTIVE, so the
  tracker's theorems do not carry over to it.
- In the first-generation monitor: the table of status checks, several GTT ids per signal, subscriptions, and other
  processes that write the rows.
- In the order tracker: trades without an id, and decimal division at 28 digits (the model rounds the exact quotient).
- In the trading engine: statuses written to the row after placement, the queued PENDING write, the stale-row
  reconciliation, dry runs, the timing gate and the missed-entry check, whose outcome is a parameter. SHA-256
  collisions are left out: a hash stands for the signal's fields.
- The engine's queued status writes and the operator's cancel and exit commands overwrite statuses without a condition;
  they are not composed with the tracker, whose invariants they would break.
- In the guard: the change of day between a record's commands, key expiry after 25 hours, and floating-point error.
- The 24-hour expiry of the Redis instrument hashes.
- Clock readings that go backwards, and the token bucket's binary fractions.
- Date and weekday parsing, the unused lot splitter, and the form's list of missing fields.
