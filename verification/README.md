# A verified model of the latency bot's trading core

The bot watches crypto price feeds, judges short-lived prediction-market contracts, queues order
intents, submits them to an exchange and keeps books on what is pending, filled and earned. This
project models that core in Dafny and proves what its parts promise together: that the exposure
book, the order index and the fills tell one story over every run; that a contract is not entered
twice within its cooldown or expiry buffer, and its position stays within its limit although
decisions wait in a queue;
that loss limits trip exactly when the trades say so; and that the numbers the strategy and the
reports compute mean what they claim.

## How it is laid out

Code that changes state in place is modelled by classes and methods with loops. Each method is
proved against a function on values (`OrderTracker.UpdateState` against `StateUpdated`,
`ExposureTracker.ApplyFill` against `WithFill`, and so on), and the theorems are about those
functions and about runs of them. Code made of expressions is modelled by functions. What such a
function computes is stated once more without it: as numbers (`FeeInNumbers`, `CandidateIsSizedSo`,
`VerifiedOutcome`), as a sum over the data (`SettlementPaysWinningShares`), or read backwards
(`EstimateGivesBackTheMove`).

- `Domain`, `MapSums`: shared types; sums over maps that do not depend on iteration order.
- `Orders`, `Exposure`, `Execution`, `FillState`: the order tracker, the exposure tracker, the
  engine with its bounded retry against an oracle for the exchange, the venue event processor.
- `OrderDesk`, `OrderRuns`, `OrderWitnesses`: orders and exposure as one state, its invariant,
  whole runs, and runs that break it when the surroundings misbehave.
- `SimulatedVenue`: the engine against its default simulation client.
- `FillAverage`: what the average fill price is an average of.
- `Limits`, `Reconciliation`: exposure limits over runs; start-up from the venue's open orders.
- `ContractLock`, `LockCleanup`, `LockSpacing`: locks with lazy expiry, the cleanup task, spacing.
- `TradingLoop`, `LoopRuns`, `LoopWitnesses`: the event loop with its intent queue, composed of the
  order desk, the locks and the pipeline; its theorems; and runs that show what they rest on.
- `KillSwitch`, `Drawdown`, `LiveGuard`: the switch as interleaved steps; loss limits; live overrides.
- `FairValue`, `Edge`, `Gates`, `Sizing`, `Pipeline`: from prices to an order intent.
- `Ledger`, `NetPnl`, `Simulation`, `Resolution`, `Settlement`, `Evaluation`: accounting and reports.

Decimals are exact reals, times and durations are integers in milliseconds and are passed in, and
maps are keyed by the contract itself (`Domain.DisplayIsInjective` says when that is the same as the
original's string keys). Every method of a service is one atomic step, because one event loop calls
them; the kill switch, which is called from several tasks, is split at its atomic flag instead.

## What the surroundings must respect

The run theorems differ in what they ask of the exchange and the clock.

- Locks and queue (`NoDoubleEntry`, `OneFreshIntentPerContract`) ask for a clock that does not run
  backwards, ticks done one after another, and market prices in [0, 1] (`Timed`). The venue may answer
  and report anything.
- The position limit (`PositionLimitHolds`) asks besides that venue events are covered: a fill is worth
  no more than what is pending on its contract, and a cancellation releases nothing negative. That is
  exactly what keeps them from raising a position (`VenueNeverAddsIff`). An honest venue is covered
  (`LimitFillsAreCovered`), and so is the default simulation client, the only one the bot is built with
  in any mode (`DefaultClientKeepsPositions`). What was really traded is bounded too if no fill misses
  its entry in the book (`TradedWithinLimit`). The condition on the settings, that cooldown and buffer
  outlast the staleness threshold, is exact as well (`PositionLimitIff`).
- Agreement of orders and exposure (`RunsFromEmptyAgree`, `RunsAreSound`) asks the most:
  `AckKeepsSoundIff`, `FillKeepsSoundIff`, `ChangeKeepsSoundIff` and `IntentKeepsSoundIff` show, for
  events of any order, known or not, live or not, that an event keeps the two in agreement if and only if
  it meets the condition of its kind (an intent needs a fresh order id), and `SoundThroughoutIff` says
  the same of whole runs. The default client does not meet it, since it answers Filled without a fill;
  what happens then is in `SimulatedVenue`, and what happens otherwise in `OrderWitnesses`.

A fill of an order the engine has given up as Uncertain is not reserved for. It is either lost to the
books (`UncertainFillIsLost`) or comes on top of the position (`DeadFillAddsItsWorth`).

## Where the code differs from its documentation

The model follows the code.

- The clamp in `apply_fill` makes pending and filled agree only for fills at the limit price. A last
  fill at a better price leaves the improvement pending with no order open (`ImprovedFillLeaks`).
- The engine acknowledges its own order after `submit_order` returns. With the default
  `SimulationClient`, which answers Filled, every order becomes Acked once the loop takes that
  acknowledgement, counts as active from then on and is never released (`SimulatedOrdersPileUp`,
  `SimulationJams`). Until then it does not count, so a burst of intents passes the concurrency limit
  (`BurstOvershootsTheLimit`).
- An order whose submission failed is kept Uncertain because the venue may have it. But its
  reservation is released at once, and `apply_fill` drops fills of contracts without an entry, so if
  the venue does fill it the position is missing from the exposure book (`UncertainFillIsLost`).
- The limits of `LimitEngine` are documented as blocking checks before submission. The event loop
  reserves and submits without them, and the pipeline does not look at the gross limit, so gross
  exposure is not limited (`ProcessingKeepsGrossIff`, `GrossLimitIsExceeded`). `RunStaysWithin` says
  what the limits would give a caller that made the check. Nor does the loop call `Reconciler`,
  `LiveGuard`, `reset_daily` or `deactivate`; those are modelled as the services offer them.
- `avg_fill_price` weights prices by notional, not by size, so it is at least the average price per
  share and usually above it (`AverageOverstates`).
- `KillSwitchActivation.deactivated_at` never reaches the history, and an `activate` overlapped by a
  `deactivate` can leave a reason recorded with the flag down (`OverlapLosesTheHalt`).
- Cleanup of expired locks is not quite invisible: `cooldown` on a lapsed cooldown restarts it only
  if the cleanup task has not been there first (`CleanupBeforeCooldownIff`).
- The comment on the square root says three iterations; the loop makes ten. Its `x <= 0` exit can
  never be taken, since every iterate is positive.
- The comments on volatility speak of a square root of the window length; the code scales linearly.
- The report's net P&L subtracts fees from a realized P&L that already has them subtracted
  (`ClosedFeesAreChargedTwice`).
- The pipeline puts the sized notional into the intent as its size, so what is reserved is that
  notional times the price (`ReservedIsSizedTimesPrice`), and the entry fee in the intent is that of
  the largest order, not of the actual one (`EntryFeeIsForTheLargestOrder`).
- The resolution branch settles entries without closing them. A repeated event would book their P&L
  again and move the drawdown tracker again, unless none was open (`RepeatedResolutionIff`). The bot
  cannot get there today, because nothing in the loop calls `record_entry`, so its ledger is empty.
- `reconcile` loads both trackers before it queries the balance, so a failed balance query returns
  an error with the trackers already rebuilt. On an empty order tracker it is safe to trade only if
  there was no open order at all.
- `lock_state` stops protecting a contract once its post-expiry buffer is over. A candidate listed
  before the expiry and judged after the buffer, for instance because the health query is slow, can
  enter a contract again although the cooldown of an earlier entry is not over (`LapsedRunIsLegal`). The full
  cooldown is guaranteed exactly when the buffer is long enough (`FullCooldownIff`), as it is with the
  default 10 and 30 seconds.
- The floor of 0.1 under the confidence is never needed: all penalties together leave at least 0.55
  (`ConfidenceInNumbers`).

## Model

| member | source | states |
|---|---|---|
| `LoopRuns.RunsAreSound` | src/app.rs:389-672 | after every allowed run of signals, queue processing, venue events, resolutions and cleanups: the exposure book agrees with the live orders and the fills, the order index is sound, every lock still protects its accepted entries, and the queue is the tail of the accept log |
| `LoopRuns.PositionLimitHolds` | src/app.rs:646-672 | over every run with a sane clock and covered venue events, if cooldown and post-expiry buffer both outlast the staleness threshold, the tracked notional (pending plus filled) of no contract ever exceeds `max_position_per_market`, although intents wait in a queue between the check and the reservation; submissions may be answered in any way |
| `LoopWitnesses.PositionLimitIff` | src/app.rs:646-672 | the condition on the settings is exact: as soon as an idle bot accepts, right before the expiry, a candidate worth more than half the limit, all such runs keep the limit iff the locks outlast the staleness threshold |
| `LoopWitnesses.PlainPositionLimitIff` | src/app.rs:646-672 | an instance without hypotheses: a plain strategy with limit 10, any lock durations and any threshold |
| `LoopRuns.DefaultClientKeepsPositions` | src/execution/client.rs:185-200 | the corollary for the only client the bot is built with, which answers Filled and reports nothing: every timed run keeps the limit |
| `LoopRuns.TradedWithinLimit` | src/app.rs:646-672 | if besides no fill of any worth misses its entry in the book, the notional the venue has really executed on a contract stays within the limit |
| `LoopRuns.FillIsTrackedIff` | src/execution/fill_state.rs:116-148 | a fill keeps the filled amounts equal to what was executed iff it finds an entry or is worth nothing |
| `LoopRuns.CandidateSeesTradedContracts` | src/execution/fill_state.rs:188-194 | after every allowed run, and after every timed one whose fills are booked, the position count a candidate is judged by is the number of contracts with a positive executed notional; an accepted candidate finds fewer than the limit |
| `LoopRuns.OneFreshIntentPerContract` | src/execution/submit.rs:238-249 | in every timed run, whatever the venue does: when two intents of one contract are queued, the earlier one is refused whenever it is processed, so at most one queued intent per contract can ever be submitted |
| `LoopRuns.TimedRunsKeepEntries` | src/app.rs:389-672 | in every timed run, whatever the venue does, each lock still protects its accepted entries and the queue is the tail of the accept log |
| `LoopRuns.EarlierIntentIsStale` | src/execution/submit.rs:238-249 | whatever the state of the orders, the earlier of two queued intents of one contract fails the freshness test at every present or later time |
| `LoopRuns.NoDoubleEntry` | src/app.rs:422-511 | in every timed run, whatever the venue does, a second entry into a contract waits for the full cooldown, or until the buffer of a contract locked before its expiry is over; in either case for the smaller of cooldown and buffer, and for the full cooldown if the buffer is at least as long |
| `LoopRuns.StepKeepsSound` | src/app.rs:389-672 | each allowed event keeps the combined invariant of orders, exposure, locks and queue |
| `LoopRuns.PositionStaysWithin` | src/app.rs:646-672 | each timed event, and each covered venue event, keeps every position within its limit and leaves room for every queued intent that is still fresh |
| `LoopRuns.VenueNeverAddsIff` | src/execution/fill_state.rs:246-299 | a venue event raises no tracked notional iff it is covered: a fill of a booked contract is worth at most what is pending there, and a cancellation releases nothing negative |
| `LoopRuns.LimitFillsAreCovered` | src/execution/fill_state.rs:246-299 | a venue that keeps the orders in agreement and fills live orders at their own price is covered, and its fills are booked |
| `LoopWitnesses.ReentryDoublesThePosition` | src/app.rs:646-672 | for every candidate an idle bot accepts: if its contract is free again while the signal is fresh, a run that meets every condition enters it twice and ends at exactly twice its notional |
| `LoopWitnesses.ShortCooldownDoubles` | src/risk/contract_lock.rs:107-125 | that happens for every candidate when the cooldown does not exceed the staleness threshold |
| `LoopWitnesses.ShortBufferDoubles` | src/risk/contract_lock.rs:70-80 | and for candidates taken right before the expiry when the buffer is below the threshold |
| `LoopWitnesses.AcceptedSignalTrades` | src/app.rs:389-672 | whatever candidate an idle bot accepts can be placed, acknowledged by the engine itself and fully filled in an allowed run, with its contract locked at the end, so the conditions on runs do not exclude trading |
| `LoopWitnesses.ProcessingKeepsGrossIff` | src/app.rs:646-672 | after every timed run, processing an intent adds its notional to the gross exposure iff it is submitted, whatever `max_gross_exposure` says; so the limit is kept iff it was not submitted or still fits |
| `LoopWitnesses.DefaultClientReserves` | src/execution/client.rs:185-200 | against the default client an accepted candidate is submitted and stays reserved, in a run that meets its conditions |
| `LoopWitnesses.GrossLimitIsExceeded` | src/app.rs:646-649 | any candidate an idle bot accepts exceeds any gross limit below its notional, in an allowed run |
| `LoopWitnesses.RisingExceedsGross` | src/app.rs:646-649 | a concrete first order of 6.25 exceeds every gross limit below 6.25 |
| `LoopWitnesses.GrossLimitIsNotRead` | src/strategy/pipeline.rs:81-216 | the decision of the pipeline does not depend on `max_gross_exposure` |
| `LoopWitnesses.DeadFillAddsItsWorth` | src/execution/fill_state.rs:128-141 | a fill of an order that is not live adds its whole value to the position, even where orders and exposure keep agreeing |
| `LoopWitnesses.RisingIsTaken` | src/app.rs:415-511 | a candidate that an idle bot accepts exists, under any lock durations, staleness threshold and gross limit |
| `TradingLoop.TradingLoop.OnCandidate` | src/app.rs:415-511 | one candidate: skip unless listed, free and the switch off; evaluate with the observed lock state, notional and number of positions (which `CandidateSeesTradedContracts` ties to the fills); on acceptance queue the intent and lock the contract only if the queue takes it; orders and exposure are untouched |
| `TradingLoop.TradingLoop.OnIntent` | src/app.rs:646-672 | one intent: reserve, submit, and on failure release the reservation and start the cooldown; the new state is the loop step for the reply of the last attempt |
| `TradingLoop.FailureStartsCooldown` | src/app.rs:655-670 | a submission that is refused or ends in an error puts its contract's lock into cooldown from the end of the submission, for the cooldown time or until the post-expiry buffer is over; a submitted one changes no lock, and no other contract's lock changes |
| `TradingLoop.TradingLoop.OnResolved` | src/app.rs:590-594 | every listed contract of the resolved market cools down, nothing else changes |
| `OrderRuns.RunsFromEmptyAgree` | src/execution/fill_state.rs:72-148 | from empty trackers, over every allowed run: filled equals the sum of all fills; pending equals price times unfilled size of the one live order, 0 without one; the duplicate check answers yes iff a live order exists; no two live orders share a contract; the active count is within `max_concurrent_orders` |
| `OrderRuns.RunKeepsSound` | src/execution/fill_state.rs:72-148 | the same agreement is kept from any sound start, such as a reconciled one |
| `OrderRuns.StepKeepsSoundIff` | src/execution/fill_state.rs:232-299 | an intent under a fresh id or a venue event keeps the agreement iff it meets the condition of its kind |
| `OrderRuns.SoundThroughoutIff` | src/execution/fill_state.rs:72-148 | for whole runs with fresh ids: orders and exposure agree after every prefix iff every event meets its condition |
| `OrderRuns.CancelDrainsPending` | src/execution/fill_state.rs:278-299 | cancelling or rejecting a live order after any fills drains its pending exposure to exactly 0, keeps what was filled and frees the contract |
| `OrderRuns.FailedIntentRestoresExposure` | src/app.rs:648-670 | a failed submission leaves every pending and filled amount as it was |
| `OrderRuns.OrdersKeepTheirTerms` | src/execution/submit.rs:250-281 | over every run with fresh ids each known order has the contract, side, price and size of the one intent that placed it |
| `OrderRuns.VenueKeepsTerms` | src/execution/submit.rs:73-120 | a venue event changes no order's id, contract, side, price or size, so requests already sent keep matching their records |
| `OrderRuns.IntentKeepsSoundIff` | src/execution/submit.rs:217-330 | an intent under a fresh id keeps the agreement iff it is refused, or has nonnegative size and price and either fails, is answered with a live state, or is worth nothing |
| `OrderDesk.AckKeepsSoundIff` | src/execution/fill_state.rs:232-243 | an acknowledgement, of any order, keeps the agreement iff the order is unknown, live, or has no value left, still owns its slot and fits the active count |
| `OrderDesk.FillKeepsSoundIff` | src/execution/fill_state.rs:246-275 | a fill, of any order, size and price, keeps the agreement iff the order is known, it does not overfill, the book has an entry for its contract if it is worth anything, and: on a live order it is worth its share or, reported as the last, at least what was pending; on another order it eats no reservation and, reported as the last, frees no slot in use, or else leaves no value, owns its slot and fits the active count |
| `OrderDesk.ChangeKeepsSoundIff` | src/execution/fill_state.rs:278-299 | a state change, of any order, keeps the agreement iff it neither ends a live order with value left other than by cancelling or rejecting it, nor revives an order with value left or without its slot, nor frees a slot in use |
| `OrderDesk.FillArithmetic` | src/execution/fill_state.rs:128-141 | the clamp at zero leaves exactly the value of the unfilled rest iff the fill is worth its share, or takes all and is worth at least that; a last fill iff it is worth at least what was pending |
| `OrderDesk.CancelDrains` | src/execution/fill_state.rs:284-293 | the release, computed from the last fill only, covers everything pending because the last fill is at most the sum of fills |
| `OrderDesk.OneLiveOrderPerContract` | src/execution/submit.rs:57-70 | with a sound index the duplicate check sees exactly the live orders, at most one per contract |
| `OrderRuns.HonestFillKeeps` | src/execution/fill_state.rs:246-275 | a fill of a live order at the limit price of at most the unfilled size, reporting the right remainder, always meets the condition |
| `OrderWitnesses.ImprovedFillLeaks` | src/execution/fill_state.rs:128-141 | a final fill below the limit price leaves the price improvement pending with no order open |
| `OrderWitnesses.LateAckRevives` | src/execution/fill_state.rs:232-243 | an acknowledgement after the final fill revives an order the duplicate check cannot see |
| `OrderWitnesses.UncertainAckDoubles` | src/execution/submit.rs:314-329 | acknowledging an uncertain order after a new order was placed gives the contract two live orders |
| `OrderWitnesses.RepeatedCancelFreesSlot` | src/execution/submit.rs:88-95 | a repeated cancellation frees the slot of the contract's next live order |
| `OrderWitnesses.UncertainFillIsLost` | src/execution/fill_state.rs:116-148 | for every tradeable intent and client error: a submission reported as failed that the venue then fills in full ends with an order marked Filled and an empty exposure book, although the whole notional was traded |
| `SimulatedVenue.SimulatedOrdersPileUp` | src/execution/client.rs:185-200 | against the default client, for every interleaving of submissions and of the engine's own acknowledgements: no slot is ever held, each submitted order is Filled until its acknowledgement is taken and Acked from then on, and exactly the Acked ones are active |
| `SimulatedVenue.SimulatedExposureStays` | src/app.rs:648-671 | for every such interleaving everything the submitted orders reserved is still pending |
| `SimulatedVenue.SimulationJams` | src/execution/submit.rs:226-236 | once `max_concurrent_orders` own acknowledgements were taken no intent is ever submitted again |
| `SimulatedVenue.BurstOvershootsTheLimit` | src/execution/submit.rs:226-236 | any number of jobs taken before the first acknowledgement is submitted, and in the end all of them are active, above any limit |
| `Orders.OrderTracker.Register` | src/execution/submit.rs:47-54 | stores the record and gives it the slot of its contract, overwriting both |
| `Orders.OrderTracker.UpdateState` | src/execution/submit.rs:73-97 | sets the state, sets the venue id only if given, frees the slot on a terminal state, ignores unknown ids |
| `Orders.OrderTracker.ApplyFill` | src/execution/submit.rs:100-120 | overwrites size, price and state and frees the slot when filled |
| `Orders.OrderTracker.HasPendingOrder` | src/execution/submit.rs:57-70 | true iff the contract's slot names a known order that is Pending, Acked or PartialFill |
| `Orders.OrderTracker.ActiveOrderCount` | src/execution/submit.rs:138-152 | the number of orders that are Pending, Acked, PartialFill or Retrying |
| `Orders.OrderTracker.LoadFromReconciliation` | src/execution/submit.rs:165-179 | later records overwrite earlier ones; only live records take slots |
| `Orders.ActiveCountAfterUpdate` | src/execution/submit.rs:138-152 | changing one record moves the active count by that record's own change |
| `Exposure.ExposureTracker.AddPending` | src/execution/fill_state.rs:72-92 | creates the entry if needed and adds to its pending amount |
| `Exposure.ExposureTracker.RemovePending` | src/execution/fill_state.rs:95-113 | subtracts, clamps at zero and drops an empty entry |
| `Exposure.ExposureTracker.ApplyFill` | src/execution/fill_state.rs:116-148 | moves the fill from pending (clamped) to filled, adds the fee and blends the average; ignores unknown contracts |
| `Exposure.ExposureTracker.Snapshot` | src/execution/fill_state.rs:172-185 | the loop over the entries, in any order, gives the sums over the whole book and its size |
| `Exposure.RemoveUndoesAdd` | src/execution/fill_state.rs:95-113 | releasing a reservation restores every amount; the map itself is restored iff it held no entry of zero amounts |
| `Exposure.FillConservesNotional` | src/execution/fill_state.rs:128-141 | a fill keeps the contract's total notional up to what exceeds the pending amount, and touches no other contract |
| `Exposure.GrossAfterUpdate` | src/execution/fill_state.rs:172-185 | replacing one entry moves gross exposure by that entry's own change |
| `Exposure.ReservationsKeepCount` | src/execution/fill_state.rs:188-194 | reserving and releasing pending notional never change the number of positions |
| `Exposure.FillMovesCount` | src/execution/fill_state.rs:188-194 | a fill raises it by one iff the contract is booked and its filled amount goes from not positive to positive, and lowers it by one iff the reverse |
| `FillState.FillStateProcessor.ProcessAck` | src/execution/fill_state.rs:232-243 | an acknowledgement moves the order to Acked and records the venue id |
| `FillState.FillStateProcessor.ProcessFill` | src/execution/fill_state.rs:246-275 | a fill updates both trackers; the order is Filled iff nothing remains |
| `FillState.FillStateProcessor.ProcessStateChange` | src/execution/fill_state.rs:278-299 | a cancellation or rejection also releases the value of size less last fill |
| `FillAverage.AverageIsNotionalWeighted` | src/execution/fill_state.rs:133-141 | `avg_fill_price` times filled notional equals the sum of price times notional over all fills of a fresh entry |
| `FillAverage.FillsAddUp` | src/execution/fill_state.rs:128-148 | any number of fills move filled, pending and fees as one fill of their total would: pending loses the total down to zero, every fee is kept, contract and side stay |
| `FillAverage.AverageBetweenPrices` | src/execution/fill_state.rs:133-141 | the average lies between the lowest and the highest fill price |
| `FillAverage.AverageOverstates` | src/execution/fill_state.rs:133-141 | the average is at least the size-weighted average price, with equality iff all fills of positive size had one price |
| `FillAverage.TwoPricesOverstate` | src/execution/fill_state.rs:133-141 | two fills at different prices already make it strictly larger |
| `Execution.ExecutionEngine.SubmitWithRetry` | src/execution/submit.rs:333-365 | makes n calls with the same request, n given by the answers (retried are exactly rate limits and network errors); returns the n-th answer; sleeps the stated total |
| `Execution.ExecutionEngine.SubmitIntent` | src/execution/submit.rs:217-330 | guards in order, then registration, submission and the resulting state; a refused intent makes no call, and every call of an admitted one carries the fresh id and the intent's own contract, side, target price and size; that every request sent asks for exactly what the record under its id says is kept; the acknowledgement event is posted only on success |
| `Execution.Attempts` | src/execution/submit.rs:333-365 | at least 1 and at most max + 1 calls; all but the last answer are retriable errors; the last is not, or the limit is reached |
| `Execution.AttemptsIsUnique` | src/execution/submit.rs:333-365 | no other number of calls has these properties |
| `Execution.PauseIsTriangular` | src/execution/submit.rs:355-362 | the total pause of n attempts is base times n(n - 1)/2 |
| `Execution.AwaitedOrderBlocks` | src/execution/submit.rs:250-271 | while the answer is outstanding the new order is Pending with nothing filled, holds its contract's slot, blocks a second order and counts as active |
| `Execution.FailedSubmission` | src/execution/submit.rs:314-329 | a final error leaves the order Uncertain, inactive and not blocking; a refusal changes nothing |
| `Domain.DisplayIsInjective` | src/domain/market.rs:82-86 | contracts with equal keys in the string-keyed maps are equal, if market ids contain no colon |
| `Reconciliation.Reconciler.Reconcile` | src/execution/reconciliation.rs:89-239 | both trackers load exactly what the open orders say, even when the balance query then fails; matched counts the orders known before, matched + unknown is their number, trading is safe iff none was unknown, and there is one warning for each unknown order, each known order in another state and an empty balance |
| `Reconciliation.StartKeys` | src/execution/reconciliation.rs:107-213 | on empty trackers: records, slots and exposures exist exactly for the open orders, live orders and orders of positive value |
| `Reconciliation.StartEntries` | src/execution/reconciliation.rs:107-213 | with distinct ids and contracts each open order is found in all three maps |
| `Reconciliation.StartTerms` | src/execution/reconciliation.rs:150-195 | the record has the venue's own ids, side, state, price and original size, with original less remaining size filled at that price (no average if nothing is); the exposure splits the value into pending and filled, and exists iff either part is positive |
| `Reconciliation.GrossIsOriginalValue` | src/execution/reconciliation.rs:150-185 | gross exposure equals the sum of original size times price |
| `Reconciliation.LastExposureWins` | src/execution/fill_state.rs:202-207 | when several exposures name one contract the last one is kept |
| `Reconciliation.StartIsSoundIff` | src/execution/reconciliation.rs:107-213 | reconciliation establishes the run invariant iff no order with value left is in a state the duplicate check ignores |
| `Reconciliation.SafeOnlyWithoutOrders` | src/execution/reconciliation.rs:203-215 | on an empty order tracker no order is unknown, so trading is reported safe, iff the venue has no open order at all |
| `Limits.Check` | src/risk/limits.rs:58-134 | passes iff position, count, gross and order limits all admit the trade, and otherwise lists exactly the exceeded ones, in order, with their amounts |
| `Limits.RunStaysWithin` | src/risk/limits.rs:58-134 | if every reservation is admitted and fills stay within pending, all limits hold after any mix of add, remove, fill and close |
| `ContractLock.ContractLockService.LockStateOf` | src/risk/contract_lock.rs:58-82 | a missing or expired record reads as Unlocked, any other as its own state |
| `ContractLock.ContractLockService.Lock` | src/risk/contract_lock.rs:90-104 | overwrites any record with a fresh lock |
| `ContractLock.ContractLockService.StartCooldown` | src/risk/contract_lock.rs:107-125 | restarts the cooldown of an existing record, keeping its expiry; ignores unknown contracts |
| `ContractLock.ContractLockService.CleanupExpired` | src/risk/contract_lock.rs:145-167 | removes exactly the records that read as Unlocked because they expired |
| `ContractLock.ContractLockService.LoadFromReconciliation` | src/risk/contract_lock.rs:193-209 | locks every given contract, later ones overwriting earlier ones |
| `LockCleanup.CleanupIsInvisible` | src/risk/contract_lock.rs:145-167 | every query of a run with cleanups at arbitrary points is answered as in the run without them, if no cooldown reopens an expired one |
| `LockCleanup.CleanupBeforeCooldownIff` | src/risk/contract_lock.rs:107-167 | the guard is exact: a cleanup just before a cooldown is unnoticed for ever iff the cooldown does not reopen an expired one |
| `LockCleanup.CooldownOnHeldLockIsSafe` | src/risk/contract_lock.rs:107-125 | a cooldown on a contract that is not observably Unlocked always meets the guard |
| `LockCleanup.StepKeepsRelated` | src/risk/contract_lock.rs:58-209 | each guarded operation keeps the maps with and without cleanups equal up to expired records |
| `LockCleanup.CleanupRemovesExpired` | src/risk/contract_lock.rs:145-167 | a cleanup removes exactly the records whose cooldown or post-expiry buffer is over and keeps the others as they are; a query changes nothing |
| `LockCleanup.QueriesAreAnswered` | src/risk/contract_lock.rs:58-82 | each query of a run is answered, by the state its contract has after all the operations before it |
| `LockSpacing.AcceptsAreSpaced` | src/risk/contract_lock.rs:58-125 | over every legal run of the lock service, for any delay between listing and check, two accepts of a contract are a cooldown apart or the later one follows the end of the buffer; at least the smaller of cooldown and buffer apart |
| `LockSpacing.FullCooldownIff` | src/risk/contract_lock.rs:58-125 | all accepts of all legal runs are a full cooldown apart iff the cooldown does not outlast the post-expiry buffer by more than its last millisecond |
| `LockSpacing.LapsedRunIsLegal` | src/risk/contract_lock.rs:70-80 | a run in which a contract locked right before its expiry is entered again as soon as its buffer is over |
| `LockSpacing.FreeMeansCooledDown` | src/risk/contract_lock.rs:58-82 | a contract seen free before its post-expiry buffer ends is past the cooldown of every earlier entry |
| `LockSpacing.SpacingIsTight` | src/risk/contract_lock.rs:107-125 | an entry may be followed by another exactly one cooldown later, so no larger spacing holds |
| `KillSwitch.KillSwitch.Activate` | src/risk/kill_switch.rs:119-143 | raises the flag, then records reason and history |
| `KillSwitch.KillSwitch.Deactivate` | src/risk/kill_switch.rs:146-154 | drops the flag, then clears the reason; the history keeps its open end time |
| `KillSwitch.ApartRunsAreConsistent` | src/risk/kill_switch.rs:114-154 | for any interleaving in which no deactivate overlaps an activate: outside a running deactivate a recorded reason implies the flag, and both agree at every quiescent point |
| `KillSwitch.HistoryCountsActivations` | src/risk/kill_switch.rs:119-154 | for every interleaving the history counts completed activations and no entry ever gets an end time |
| `KillSwitch.RunningCallsAreCounted` | src/risk/kill_switch.rs:119-154 | for every interleaving the calls counted as running are the ones begun and not ended |
| `KillSwitch.HaltHoldsUntilDeactivate` | src/risk/kill_switch.rs:119-154 | for every interleaving, once raised the flag stays up over any stretch of a run in which no deactivate begins |
| `KillSwitch.StepStaysSafeIff` | src/risk/kill_switch.rs:119-154 | from a safe state a step leads to a safe state iff it starts no activate beside a running deactivate and no deactivate beside a running activate |
| `KillSwitch.SafeIff` | src/risk/kill_switch.rs:119-154 | a state is safe iff flag and reason agree in the end however the running calls finish |
| `KillSwitch.SafeThroughoutIff` | src/risk/kill_switch.rs:114-154 | a run is safe after every prefix iff no two calls of different kind overlap in it |
| `KillSwitch.UnsafeMayEndInDisagreement` | src/risk/kill_switch.rs:119-154 | from every unsafe state the calls already running can finish with flag and reason in disagreement |
| `KillSwitch.OverlapLosesTheHalt` | src/risk/kill_switch.rs:119-154 | an overlapped activate can end with a recorded reason and the flag down |
| `Drawdown.DrawdownTracker.RecordTrade` | src/risk/drawdown.rs:105-147 | updates equity, peak, streaks and slippage, then activates the switch once per breached limit |
| `Drawdown.DrawdownTracker.ResetDaily` | src/risk/drawdown.rs:233-242 | restarts the daily figures from the current equity and nothing else |
| `Drawdown.StateFromTrades` | src/risk/drawdown.rs:105-147 | equity, peak, daily P&L and loss streak read off the whole trade sequence |
| `Drawdown.CountersFromTrades` | src/risk/drawdown.rs:105-134 | trades, wins, losses and adverse slippage are the sums over the run; the worst streak is the longest losing streak at any point, across daily resets |
| `Drawdown.BooksBalance` | src/risk/drawdown.rs:105-205 | equity is start plus session P&L and daily start plus daily P&L; daily and session drawdown are the losses since the last reset and since the start, and the total drawdown dominates both |
| `Drawdown.PeakIsHighest` | src/risk/drawdown.rs:112-114 | the high-water mark is the maximum over all points of the equity curve, including the start |
| `Drawdown.StreakCountsLosses` | src/risk/drawdown.rs:116-128 | the streak counts the losses since the last win |
| `Drawdown.TripsExactlyOnBreach` | src/risk/drawdown.rs:150-194 | with the tracker as only activator the switch is active iff some prefix ending in a trade breached the daily, total or streak limit |
| `Drawdown.TighterTripsNoLater` | src/risk/drawdown.rs:150-194 | tighter limits never trip later |
| `LiveGuard.OverridesNeverDelayTheTrip` | src/validation/live_guard.rs:180-197 | over any trades the overridden limits trip the switch no later than the base limits |
| `LiveGuard.OverriddenTripsIff` | src/validation/live_guard.rs:180-197 | the overridden switch is active iff the base limits tripped or after some trade the loss since the last reset or the losing streak had reached its live cap |
| `LiveGuard.OverridesAdmitIff` | src/validation/live_guard.rs:180-197 | a trade passes the overridden limits iff it passes the base limits and the live caps on order, contract, count and gross exposure |
| `LiveGuard.OverriddenRunsStayWithinBoth` | src/validation/live_guard.rs:180-197 | reservations checked against the overridden limits keep the book within the base limits and the live notional, count and gross caps through any mix of operations |
| `LiveGuard.LiveGuard.Check` | src/validation/live_guard.rs:117-176 | passes exactly the trades inside every live limit; otherwise names a condition that really fails, with the values that fail it |
| `Evaluation.ComputeMaxDrawdown` | src/simulation/evaluation.rs:126-141 | the one-pass loop computes the drawdown of the realized P&Ls |
| `Evaluation.MaxDrawdownIsLargestFall` | src/simulation/evaluation.rs:126-141 | that figure is the maximum over i <= j of E_i - E_j on the cumulative curve starting at 0 |
| `Evaluation.ReportMatchesTracker` | src/simulation/evaluation.rs:126-141 | it equals the largest total drawdown the live tracker showed on the same P&Ls, for any starting equity and any daily resets |
| `Evaluation.SimpleSharpe` | src/simulation/evaluation.rs:159-185 | 0 for fewer than two trades or no variance, otherwise the mean over the tenth Newton iterate, which stays positive throughout |
| `Evaluation.NewtonBound` | src/simulation/evaluation.rs:172-179 | after k >= 1 iterations 0 <= x*x - v <= (v - 1)^2 / 4^k |
| `Evaluation.SharpeIsConservative` | src/simulation/evaluation.rs:159-185 | the estimate has the sign of the mean; its square times the variance is at most the squared mean and short of it by no more than the Newton error |
| `Evaluation.NoVarianceIff` | src/simulation/evaluation.rs:159-185 | the variance is zero iff all P&Ls are equal, so the cut-off for no variance applies exactly then |
| `Evaluation.VarianceIsUnbiased` | src/simulation/evaluation.rs:159-171 | n times n - 1 times the variance is n times the sum of squares less the square of the sum |
| `NetPnl.ClosedFeesAreChargedTwice` | src/simulation/evaluation.rs:119-124 | the reported net P&L is gross less all fees less the fees of closed entries once more, hence right iff those sum to zero |
| `NetPnl.SessionsChargeClosedFeesTwice` | src/simulation/evaluation.rs:119-124 | the same for the ledger of every run of the simulation session, without hypotheses |
| `NetPnl.OperationsKeepCosted` | src/telemetry/ledger.rs:130-168 | entries, exits and resolutions keep realized P&L equal to gross less fees; a later fee keeps it iff the entry has no exit or the fee is zero |
| `FairValue.Compute` | src/strategy/fair_value.rs:99-217 | probability in [0.01, 0.99] and confidence in [0.1, 1] |
| `FairValue.OutcomesAreComplementary` | src/strategy/fair_value.rs:144-174 | Up and Down get probabilities that sum to 1 and the same confidence |
| `FairValue.HigherSpotFavoursUp` | src/strategy/fair_value.rs:144-174 | a higher spot price never lowers the Up probability |
| `FairValue.ShorterWindowIsBolder` | src/strategy/fair_value.rs:136-172 | without volatility data the five-minute estimate lies on the same side of even odds as the fifteen-minute one and at least as far out, equal iff the latter is even or clamped |
| `FairValue.FullConfidenceIff` | src/strategy/fair_value.rs:157-190 | confidence is 1 iff momentum, volatility and a secondary price within 0.1 percent are all there |
| `FairValue.ConfidenceInNumbers` | src/strategy/fair_value.rs:157-190 | each missing input costs its stated amount, a second source off by more than 0.1 percent a hundred times the relative gap up to 0.3, an agreeing one nothing; the floor of 0.1 is never reached, since the confidence is at least 0.55 |
| `FairValue.EstimateGivesBackTheMove` | src/strategy/fair_value.rs:99-174 | an unclamped estimate can be inverted: from it, window open, volatility unit of the window, duration, direction, short-term delta and momentum (1 if unknown) follows the spot price; without an opening price the move is 0 |
| `Edge.EdgeIsSymmetric` | src/strategy/edge.rs:55-63 | edge and costs are the same for a candidate and its mirror at 1 - p and 1 - m |
| `Edge.SmallerOrderKeepsMoreEdge` | src/strategy/edge.rs:96-109 | costing a smaller order never lowers the net edge and keeps the gross edge |
| `Edge.CostsNeverHelp` | src/strategy/edge.rs:179-244 | with nonnegative rates and prices in [0, 1] net edge is strictly below gross edge |
| `Edge.NetEdgeAddsUp` | src/strategy/edge.rs:179-244 | the difference of gross and net edge is both fee rates (written out as the taker rate times price or complement, or twice the taker rate if fees are not scaled; none without a positive notional), both slippages and the decay; for a positive order slippage is positive and at most 0.05 |
| `Edge.FeeInNumbers` | src/strategy/edge.rs:55-75 | a scaled fee is notional times taker rate times p up to one half and times 1 - p above; an unscaled one is notional times taker rate at every p |
| `Edge.ScalingAtLeastHalves` | src/strategy/edge.rs:55-63 | for nonnegative rates and p in [0, 1] scaling at most halves the fee and takes it to 0 at both ends |
| `Edge.SlippageInNumbers` | src/strategy/edge.rs:96-109 | entry slippage is 0.02 times the share of the book, capped at 0.05 and 0.05 without a book; exit slippage is 1.5 times that, capped likewise |
| `Edge.CostsAreItemised` | src/strategy/edge.rs:213-244 | the cost snapshot shows the parts of the total: rate and fees at market price and fair value, both slippages and the decay |
| `Edge.DecayIsBounded` | src/strategy/edge.rs:205-211 | age costs at most one percent per buffer and at most the gross edge, and nothing iff buffer, age or gross edge is zero |
| `Gates.Evaluate` | src/strategy/filters.rs:102-189 | passes iff every gate lets the signal through; otherwise lists exactly the rejecting gates in order, without short-circuit |
| `Gates.PassingSignal` | src/strategy/filters.rs:102-189 | a signal has no rejection iff it meets all twelve stated conditions |
| `Gates.DataReasonsGiven` | src/strategy/filters.rs:102-142 | reason by reason, exactly when the rejections contain unsupported market, stale feed, stale book and insufficient liquidity |
| `Gates.OtherReasonsGiven` | src/strategy/filters.rs:143-189 | the same for confidence, edge, contract lock, kill switch, execution health and position count |
| `Sizing.Compute` | src/strategy/sizing.rs:106-180 | the chain of clips gives the minimum of raw size and four caps, 0 below the minimum, and the caps that lowered it |
| `Sizing.Capped` | src/strategy/sizing.rs:106-170 | the clipped size is at most the raw size and each cap, and equals one of them |
| `Sizing.TradedSizeRespectsCaps` | src/strategy/sizing.rs:106-180 | a nonzero size respects the raw size, the minimum and all four caps |
| `Sizing.ClipsExplainReductions` | src/strategy/sizing.rs:106-180 | for nonnegative inputs no clip is reported iff nothing was reduced |
| `Sizing.ModeAsks` | src/strategy/sizing.rs:106-125 | the size before clips: the fixed amount, the percentage of equity, or the Kelly stake in closed form capped by its own maximum |
| `Sizing.SizeInNumbers` | src/strategy/sizing.rs:106-180 | the size is the least of raw size, order limit, rest of the position limit, a quarter of the depth and half of the equity, and 0 iff that is below 1 |
| `Sizing.KellyClosedForm` | src/strategy/sizing.rs:193-222 | the Kelly size is equity times fraction times (p - m)/(1 - m) when p > m inside (0, 1), and 0 otherwise |
| `Sizing.KellyIsBounded` | src/strategy/sizing.rs:193-222 | the Kelly size lies between 0 and the Kelly share of equity |
| `Pipeline.AcceptedIntent` | src/strategy/pipeline.rs:153-204 | an accepted intent repeats contract, price and time, carries the estimate's fair value, edges and costs, is a buy iff fair value is above the price, was unlocked with the switch off, has at least the net edge required of its own duration (five or fifteen minutes) and fits position, order and equity limits |
| `Pipeline.AcceptedIff` | src/strategy/pipeline.rs:81-180 | a candidate is accepted iff it meets edge, confidence, depth and both age limits of its own duration, is unlocked, the bot runs and is healthy with room for a position, and there is a size to trade |
| `Pipeline.RejectionReasons` | src/strategy/pipeline.rs:120-180 | reason by reason, exactly when a rejected candidate is given it, by the inputs and the thresholds of its own duration; the market is never unsupported, and one sized to nothing is called illiquid |
| `Pipeline.CandidateIsCostedSo` | src/strategy/pipeline.rs:86-119 | the edge of a candidate is the distance of fair value and market price; fees and slippage are those of an order of the largest size against bids plus asks, the decay that of the signal's age against the configured buffer |
| `Pipeline.CandidateIsSizedSo` | src/strategy/pipeline.rs:153-204 | the size of a candidate is the least of what its mode asks for (Kelly in closed form at its own price and fair value), the order limit, the rest of the position limit, a quarter of the book and half of the equity; accepted intents have it, and it is at least 1 |
| `Pipeline.NoBookIsStale` | src/strategy/pipeline.rs:101-135 | without an order book a candidate is costed at the largest slippage and rejected as stale, not as illiquid |
| `Pipeline.OtherThresholdsAreIgnored` | src/strategy/pipeline.rs:81-84 | replacing the thresholds of the other duration never changes the decision |
| `Pipeline.RisingCandidateIsBought` | src/strategy/pipeline.rs:81-216 | a concrete rising candidate is accepted as a buy of the fixed size at fair value 0.8 |
| `Pipeline.RecostingKeepsTheEdge` | src/strategy/pipeline.rs:108-119 | re-costed at its own size an accepted intent has at least the reported net edge, which is at least the minimum set for its own duration |
| `Pipeline.SidePointsToFairValue` | src/strategy/pipeline.rs:170-204 | the side points toward fair value and its signed edge is the reported gross edge |
| `Pipeline.EntryFeeIsForTheLargestOrder` | src/strategy/pipeline.rs:108-119 | the entry fee in an accepted intent is at least the fee at its actual size, and equal iff the size is the maximum or the rate is zero |
| `Pipeline.ReservedIsSizedTimesPrice` | src/strategy/pipeline.rs:153-204 | the intent's value is the sized notional times the market price, the sized notional itself iff the price is 1 |
| `Pipeline.MirrorSymmetry` | src/strategy/pipeline.rs:81-216 | for fixed and percentage sizing a contract and its twin at 1 - m get the same rejection and reasons, or the same edge, costs and size, with opposite sides iff fair value differs from price |
| `Pipeline.MirroredSidesAreOpposite` | src/strategy/pipeline.rs:81-216 | with nonnegative rates, prices in [0, 1] and a positive threshold, accepted twins always take opposite sides |
| `Pipeline.KellyOnlyBuys` | src/strategy/pipeline.rs:135-204 | under Kelly sizing an accepted intent has a price inside (0, 1) below fair value and is a buy, for any equity and fraction |
| `Pipeline.KellyNeverTakesBoth` | src/strategy/pipeline.rs:81-216 | under Kelly sizing a candidate and its twin are never both accepted |
| `Pipeline.KellyTwinsAlikeIff` | src/strategy/pipeline.rs:81-216 | under Kelly sizing the two are judged alike, with the same reasons, iff neither is accepted |
| `Sizing.KellyStakesOnlyAbove` | src/strategy/sizing.rs:193-222 | a positive Kelly amount means a price inside (0, 1) and a fair value above it, without any hypothesis |
| `Ledger.Ledger.RecordEntry` | src/telemetry/ledger.rs:94-127 | appends an open entry under the next id and indexes it |
| `Ledger.Ledger.RecordExit` | src/telemetry/ledger.rs:130-145 | closes the first entry with the id, adds the fee, books exit P&L after all fees and returns it; None for an unknown id |
| `Ledger.Ledger.OpenEntriesFor` | src/telemetry/ledger.rs:171-181 | in a sound ledger the index lookup returns exactly the in-order scan of open entries of the contract |
| `Ledger.IndexAgreesWithScan` | src/telemetry/ledger.rs:171-181 | the same as a statement about the books |
| `Ledger.EntryKeepsSound` | src/telemetry/ledger.rs:94-127 | a new entry keeps ids 1..n in order and the index complete, and is found under its id |
| `Ledger.OperationsKeepSound` | src/telemetry/ledger.rs:130-168 | exit, fees and resolution keep ids and index |
| `Simulation.SimulationSession.ProcessSignal` | src/simulation/engine.rs:160-207 | counts the signal, simulates the fill, and books a filled one with its fee |
| `Simulation.SignalBooks` | src/simulation/engine.rs:58-207 | an accepted signal that hits becomes the next ledger entry with the intent's contract, side, size and entry fee at the target price moved against the trader by the modelled slippage; one that misses books nothing and has no size or fee |
| `Simulation.EntriesAreHits` | src/simulation/engine.rs:95-207 | in every run the ledger holds exactly one entry per accepted signal whose roll hits, whatever is closed in between |
| `Simulation.SimulationSession.ClosePosition` | src/simulation/engine.rs:215-226 | books the exit and adds P&L and fee only if the id is known |
| `Simulation.RunsBalance` | src/simulation/engine.rs:160-226 | in every run total fees equal the sum of entry fees, fills equal entries, and the signal counts add up |
| `Simulation.RunsAgreeOnPnl` | src/simulation/engine.rs:215-226 | total P&L equals the sum of realized P&L in every run that closes no id twice |
| `Simulation.CloseKeepsBalance` | src/simulation/engine.rs:215-226 | one close keeps that equality iff the entry is unknown or had realized nothing before |
| `Simulation.SlippageCosts` | src/simulation/engine.rs:60-110 | against an instant fill, simulated slippage costs exactly its amount times the size at any exit price |
| `Resolution.VerifiedPnlIsExitPnl` | src/resolution/verifier.rs:79-116 | the verified P&L is the ledger's own exit P&L at the verified payout, less the exit fee, so they agree iff that fee is zero; `VerifiedOutcome` says which payout that is |
| `Resolution.VerifyBatch` | src/resolution/verifier.rs:130-138 | one result per input, in order |
| `Resolution.VerifiedOutcome` | src/resolution/verifier.rs:79-116 | an entry in the winning token verifies as Yes at payout 1, one in another token as No at 0, and without a winner as Unknown at the stated price; a buy or sell earns the matching signed difference times size, less fees |
| `Resolution.HedgedPairOnlyPaysFees` | src/resolution/verifier.rs:79-116 | a position in both tokens of a resolved market, bought at p and 1 - p, nets minus the fees whichever token wins |
| `Settlement.Settler.OnResolution` | src/app.rs:596-633 | every due entry, and no other, is marked verified with its P&L; the drawdown tracker sees those P&Ls in ledger order, the kill switch is activated for each breach on the way, and the equity moves by their sum, which for a resolved market is the winning shares held less the cost of all its open entries; a failed fetch changes nothing |
| `Settlement.SettlementPaysWinningShares` | src/app.rs:596-633 | by induction over the ledger: the settled P&Ls sum to the shares of the winning token in the market's open entries (sold ones negative) less what all its open entries cost with fees; without a winner, to the stated price times all their shares less that cost |
| `Settlement.SettledEntryShows` | src/app.rs:612-618 | exactly the market's open entries are marked, Yes iff they hold the winner and No if they do not; nothing else of an entry changes |
| `Settlement.SettlementTripsIff` | src/risk/drawdown.rs:150-194 | after a settlement the switch is active iff the trades before it or the settled ones breached a limit in some prefix |
| `Settlement.EquityFollowsTracker` | src/app.rs:615-618 | the loop's equity and the tracker's equity move by the same sum |
| `Settlement.RepeatedResolutionIff` | src/app.rs:596-633 | a later resolution event of a market, with the same or other data, leaves drawdown tracker and equity alone iff no entry of the market was open at the first one |
| `Settlement.RepeatedResolutionBooksTwice` | src/app.rs:615-618 | with the same data it moves the equity by the same sum again |

## Left out

- LoopRuns.PositionLimitHolds: asks that venue events are covered and prices lie in [0, 1]; a fill worth more than what is pending raises the position (`VenueNeverAddsIff`, `DeadFillAddsItsWorth`).
- LoopRuns.TradedWithinLimit: does not cover fills of contracts without an entry in the book; `UncertainFillIsLost` is the run it leaves out.
- LoopRuns.NoDoubleEntry: assumes a clock that does not run backwards, a registry expiry that does not change, and ticks that list each contract once and are done before the next tick lists; runs start from an idle bot at time 0.
- LoopRuns.RunsAreSound: asks for venue answers and events that keep orders and exposure in agreement, which the default client's do not.
- LoopWitnesses.AcceptedSignalTrades: the event bus is not modelled; the engine's own acknowledgement and the venue's fills reach it from different senders, so their order is a condition on runs and not derived (`LateAckRevives` is the other order).
- TradingLoop.TradingLoop.OnCandidate: takes the market data, feed health, execution health, equity and signal age of a candidate as inputs; the latest-state caches, the readiness check and the signal events posted to the bus are not modelled; the two reads of the kill switch for one candidate are taken to agree.
- TradingLoop.TradingLoop.OnIntent: the retry pauses let time pass but no other step of the loop happens in between, as in the original, where the branch runs to its end; a cleanup during the pauses is taken to happen before or after.
- Pipeline.MirrorSymmetry: does not cover Kelly sizing, under which twins are judged alike only if neither is accepted (`KellyTwinsAlikeIff`).
- Execution.ExecutionEngine.SubmitWithRetry: the attempt limit is an unbounded number; the 32-bit overflow of `max_retry_attempts + 1` is not modelled.
- Execution.ExecutionEngine.SubmitIntent: order type, creation and update times are dropped; the health query is an input of the loop.
- Exposure.ExposureTracker.Snapshot: the count is unbounded, not truncated to 32 bits.
- Reconciliation.Reconciler.Reconcile: warnings are counted, not worded; locked funds and update times are dropped.
- Drawdown.TripsExactlyOnBreach: all activations of a run carry one time stamp; `daily_reset_at` and `win_rate` are dropped.
- KillSwitch.KillSwitch.Activate: the write lock is one atomic step after the flag; poisoning is not modelled. Reasons carry numbers instead of formatted text.
- Gates.Evaluate: one function of the original is three methods here, run one after another, so that each stays small.
- Evaluation.SimpleSharpe: the loop's dead `x <= 0` exit is left out, as its condition is proved never to hold.
- LockCleanup.CleanupIsInvisible: is about `lock_state`; `state_counts` and `locked_contracts` do see expired records that a cleanup removes.
- Simulation.SimulationSession.ProcessSignal: the pseudo-random number derived from the clock is an input.
- Settlement.Settler.OnResolution: the fetcher's answer is an input; the lock part of the branch is `TradingLoop.TradingLoop.OnResolved`.
- Decimal arithmetic: 28-digit rounding, and the fallback values for durations that do not convert, are not modelled.
- Exit of positions: the loop never records ledger entries or closes positions; `record_entry`, `record_exit` and `close_position` are modelled as the services offer them.
- Report fields: win rate, average P&L, trade counts, breakdowns by duration and the recommendation are single divisions, counts or threshold reads.
- Ledger summary: only the totals of realized P&L and fees are modelled; its counts would add easy members.
- Run mode, time stamps and free-text fields of entries, orders and intents are dropped.
- Live capital reserves, cancel policy, shadow session, histograms, replay, benchmarks and mode comparison: single-branch code or simple folds.
- Feeds, discovery, WebSocket and HTTP clients, signing, persistence, dashboard, metrics, logging, environment and shutdown: I/O and formatting.
- Locks, channels and task scheduling: a full queue is a boolean input; other concurrency exists only in the kill switch.
