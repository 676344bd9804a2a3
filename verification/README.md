# A verified model of the grid trading engine

This project models the money path of a grid trading bot and proves properties of it in Dafny 4.11.
`dafny verify dfyconfig.toml` checks all of it.

A grid places one BUY and one SELL slot per price line. Each slot submits orders under deterministic,
generation-numbered client order ids; what the venue reports about them, over several observation paths,
is turned into delta bookings. The model has four parts.

- **Fill accounting.** `LevelMachine` is the state machine of one level, `OrderManager` the class that
  keeps it over shared arrays and maps, `Venue` the exchange, `Reconciliation` and `ReconciliationService` the
  observation paths, `Ledger` and `GridTrading` the booking and the tick. `LevelRuns` puts one level and its
  venue together as runs of events, and `GridTicks` shows that whatever the strategy object does over any
  number of ticks and stops is, at every level, such a run. What a tick submits and books is read off the
  venue's book and the ledger, without the arming rules, in `TickOrders`, `TickChecks`, `GridOrders`, `SubmittedOrders`,
  `BookedOrders`, `BookedPrices` and `BookedExits`. The other theorems are in
  `TilingRuns`, `SingleOrderRuns`, `ConservationTheorems`, `Accounting`, `NormalExits`,
  `CancelledSlots` and `ClosedIds`, `RestartTransparency`, `GridRuns`, `GridTotals`, `GridExits` and `GridSnapshots`.
- **Grid geometry and tick arithmetic.** `DecimalStrings` and `PriceQuantization` work on the decimal
  texts, `Ticks` on the rationals they stand for; `GridGeometry` builds the lines, and `GridExposure`
  compares them with the calculator the backend shares. `ClientOrderIds` and `FillIds` cover identities, and
  `FillIdentity` ties them to the ledger.
- **Control protocols.** `StopLoss`, `BotControl` and `BotManagement`, `EmergencyFlatten`, `FillDelivery`
  and `FillReporting`, `CommandConsumer` and `CommandListening`.
- **The SQL statement splitter.** `SplitStatements`, `SplitTheorems`, `SplitFilter`.

Where the program updates things in place there is a class or a loop whose contract ties its new state
to a function of the old one; the theorems are about those functions and their runs.

## Conventions

- Quantities are integers in units of 1e-8; `QTY_EPSILON` is one unit, and size steps are larger than two of them
  where a theorem needs order sizes and venue cumulatives to be whole steps (`GoodConfig`).
- Prices are exact rationals. Rounding to eight places is modelled where the program stores a rounded
  number (`Round8`); nothing else of floating point is.
- Every call to the venue is one atomic step, and everything the outside world decides is a parameter of the
  step: how much executes, status changes, lost responses, unreachable or false answers, fees, depth, clocks.
  A statement about all such parameters is a statement about every venue. *Truthful* runs exclude false
  answers only, and dead orders found at startup with executions still unbooked (see `RestartIsExact`).
- A venue executes at most an order's size, never shrinks a cumulative, takes no second open order under an id,
  and may forget a dead order that executed nothing.
- Crashes fall anywhere between events for the order-uniqueness theorems, which reload the last snapshot taken; the
  ledger theorems restart at snapshot boundaries. The delivery and command protocols crash between any two of their own steps.
- Fill ids are compared through the text that is hashed; the hash is taken to be injective.

## Findings

- Startup collects filled and partially filled outcomes only. A restored order that died with unbooked
  executions moves the level without a ledger row (`RestartIsExact`, `DeadFillIsLost`).
- After a confirmed cancel whose closing read fails, executions since the last read do not reach the ledger before the
  slot clears (`CancelBooksExactly`). They are lost for good if the id had booked anything before, or if it was an entry
  of a frozen level, and can come back otherwise (`UnreadRemainderReturnsExactly`).
- A restored order's record has its line for a price. An exit that fills while the engine is down, reported without an
  executed price, is booked at the line and not at its limit, so its gain is missing (`RestartForgetsTheLimit`). Entries
  always carry their limit (`UnreportedEntriesAreAtTheirLimit`), and so do exits between restarts.
- The shared calculator's header says tick snapping moves levels by less than a tick. A configured grid has a
  line 1.71 ticks off (`MoreThanATickOff`); it is true of a line exactly under the condition in `WithinATickExactly`.
  Over all grids of n steps the range is -2 (n - 1) / n to plus one tick, both ends excluded and approached
  (`LineDifference`, `LineDifferenceBySize`, `RangeIsTight`).
- The comment filter of the splitter can stretch one block comment to a later closing mark: code
  between two block comments is dropped (`CodeBetweenBlocksIsDropped`).
- The splitter ends a block comment at `/*/`, the filter does not: a statement of nothing else is kept (`ShortIsKept`).
- An emergency stop leaves the bot's preparations in place; a later authorization can start them
  (`PanicLeavesPreparations`, `PanicThenStart`). A session that is prepared but not running is answered
  BOT_NOT_FOUND and stays startable (`PanicOnPreparedOnly`).
- The comment on `authorizeStart` has the correlation prevent an old authorization from matching a reset version after
  an engine restart. It does so until the BOT_START itself is handled again (`RestartNeedsItsSession`,
  `RestartThenOldAuthorization`, `OldAuthorizationStartsExactly`).
- The run namespace is said to keep two runs of a session from ever deriving the same id. While the scope is too short
  to be hashed, run ids that differ only in hyphens or slashes derive the same ids (`ShortScopesShareIdsExactly`,
  `RunsShareIds`).
- A replay counts an entry as replayed even when clearing it from the journal failed (`ReplayLeavesSuffix`,
  `CountedAndKept`).
- A handler can complete more than once: when the process dies between completing it and writing the marker, the entry is
  redelivered unmarked and completes again (`CompletionsRepeat`, `CompletesAgainExactly`).
- The poison cap counts only dispatches the consumer lives through: an entry is dispatched at most ten times plus
  once for every death in its handler, and that many are reached (`DispatchesAreCapped`, `DeathsAreNotCapped`).

## Model

| member | source | states |
|---|---|---|
| TilingRuns.SegmentsTile | engine/src/application/order-manager.ts:206-343 | For every run of a level, whatever the venue answers (true, false, repeated, regressing or missing cumulatives) and with restarts between events: the segments booked under any client order id are contiguous from 0 and sum to the cumulative its record has booked; a side without a handle has booked nothing under the id it would submit next. |
| TilingRuns.StepKept | engine/src/strategies/grid.ts:835-1148 | One event of any kind keeps the ledger tiled and both slots in agreement with it. |
| Tiling.LookupKept | engine/src/application/order-reconciliation.service.ts:433-513 | Booking what a lookup by client order id reports keeps the level and the ledger in agreement, for every answer. |
| Tiling.HandleKept | engine/src/application/order-reconciliation.service.ts:292-362 | The same for every answer or error of a read by handle. |
| Ledger.TiledIsContiguous | engine/src/strategies/grid.ts:1217-1231 | A ledger whose every row starts where its order stood so far has, for each order, segments without gap or overlap from 0. |
| SingleOrderRuns.AtMostOneLiveOrder | engine/src/application/order-reconciliation.service.ts:109-270 | Over every run with lost create responses, unreachable lookups and crashes at any point, reloading the last snapshot: the venue never holds two live orders for one side of a level, and a live one carries the newest id ever submitted. |
| SingleOrderRuns.SubmissionIsFresh | engine/src/application/order-reconciliation.service.ts:150-230 | When a placement reaches `createOrder`, its id is the slot's current one, the ledger holds nothing under it, and the venue has neither an open order nor an execution under it. |
| SingleOrderRuns.ExecutedIdsAreNeverReused | engine/src/application/order-manager.ts:291-302 | An id that executed anything keeps naming the same order in every future, crashes included; once over, the order never changes. |
| SingleOrderRuns.StepBacked | engine/src/application/order-manager.ts:410-431 | Every engine event, crash or reload keeps what the running slots and the saved slots remember borne out by the venue. |
| ConservationTheorems.HeldIsNet | engine/src/application/order-manager.ts:359-396 | Over every truthful run: held quantity is exactly what the ledger bought minus what it sold, lies between 0 and one slot, `filled` holds exactly for a full slot, and an entry price is set exactly while something is held. |
| ConservationTheorems.ClampsNeverBite | engine/src/application/order-manager.ts:359-396 | In every state a truthful run reaches, whatever the venue executes next, projecting its cumulative moves the held quantity by exactly the unbooked amount: neither clamp acts. |
| Conservation.ClampsUnreachable | engine/src/application/order-manager.ts:359-396 | The step behind it: a truthful cumulative of an order that fits is projected without clamping, handle present or dropped. |
| Conservation.MissingCumulativeExactly | engine/src/application/order-manager.ts:248-302 | A terminal read by handle that gives no cumulative does exactly what the true one would if and only if the order executed the size its record was submitted with, or the slot's size for a restored record, which has none. |
| Conservation.LookupNeedsNoCumulative | engine/src/application/order-reconciliation.service.ts:433-513 | A filled row found by client order id needs no cumulative: it carries the order's own size, and stands for all of it. |
| Conservation.FailedReadFreesExactly | engine/src/application/order-reconciliation.service.ts:292-362 | A failed read gives a live slot up exactly on a non-retryable command error or a 404; any other failure leaves the level as it was and unavailable. |
| ConservationTheorems.StepConserved | engine/src/strategies/grid.ts:872-1022 | Every truthful event books at most one segment, moves the level by that much, and keeps the invariant that what may still fill fits the level. |
| ConservationTheorems.PollCatchesUp | engine/src/strategies/grid.ts:1076-1148 | After a poll that reached the venue, the ledger holds exactly what the slot's order has executed: every delta the manager applied was booked once. |
| ConservationTheorems.RestartIsExact | engine/src/application/order-reconciliation.service.ts:369-416 | A restart keeps held quantity and ledger equal if and only if no restored handle is a dead order with executions still to book; otherwise they differ by exactly those executions, because the startup list collects filled and partially filled outcomes only. |
| ConservationTheorems.DeadFillIsLost | engine/src/application/order-reconciliation.service.ts:387-406 | A concrete run in which the startup pass leaves three held units that no ledger row accounts for. |
| ConservationRestart.StartupFacts | engine/src/strategies/grid.ts:320-398 | Apart from such dead orders, resolving both handles first and booking afterwards ends exactly where polling the two sides in turn would. |
| Accounting.AccountingIdentity | engine/src/strategies/grid.ts:1239-1275 | Over every truthful run with known fees: booked PnL differs from sell proceeds minus buy cost minus fees plus inventory at its entry price by at most slot size times half a unit in the eighth place, per BUY segment. |
| NormalExits.NormalExitsNeverLose | engine/src/strategies/grid.ts:1534-1574 | Over every run of an untripped level in which every price the venue reports for an order respects that order's limit: a level that holds anything has a defined, tick-valid exit price strictly above its averaged entry, and every booked SELL gained before fees. |
| NormalExits.ExitExists | engine/src/strategies/grid.ts:1534-1574 | An entry at or below its line always has an exit price, strictly above the entry and on the tick. |
| NormalExits.ExitIsAboveEntry | engine/src/strategies/grid.ts:1546-1555 | Whatever the geometry and take-profit setting, a price that is given is above the executed entry. |
| NormalExits.TakeProfitIsReached | engine/src/strategies/grid.ts:1534-1574 | With a take profit the exit is the first tick at which at least that percent of the executed entry is gained. |
| NormalExits.StepExitExactly | engine/src/strategies/grid.ts:1534-1574 | Without one it is the next line, above the top line the first tick at least a spacing further up, and there is none exactly when that is not above the entry. |
| GridExits.ExitIsTheNextLine | engine/src/strategies/grid.ts:1534-1574 | On an accepted grid, an entry at or below its line exits at the very next line. |
| GridExits.TopExitIsOneSpacingUp | engine/src/strategies/grid.ts:1534-1574 | And at the top line at the first tick at least one spacing above it. |
| RestartTransparency.RestartRestores | engine/src/strategies/grid.ts:1833-1936 | Saving, merging onto the rebuilt line and seeding restores price, handles, held quantity, generations, lock, entry and the booked cumulative of every live order. |
| RestartTransparency.RestartIsTransparent | engine/src/application/order-manager.ts:86-133 | From every state a truthful run reaches, the restarted level and the uninterrupted one book the same rows and keep the same level and venue book, for every later sequence of answers that carry a cumulative and a price, false ones included. |
| RestartTransparency.RestoredIds | engine/src/strategies/grid.ts:1833-1885 | The ids a level restored from any entry goes on with: the saved ones where the entry has a generation; in an older entry the first id only for a side whose order is still open, the second otherwise. |
| RestartTransparency.RestoredInventory | engine/src/strategies/grid.ts:1833-1885 | A level restored from any entry holds what the entry held, is full exactly when that fills the slot, and keeps its executed entry price exactly while it holds anything. |
| GridSnapshots.MergeRestoredLevels | engine/src/strategies/grid.ts:1833-1885 | The merge loop gives every rebuilt line the saved level of its price, or a fresh one. |
| GridSnapshots.GridRestores | engine/src/strategies/grid.ts:1833-1936 | For a grid of distinct prices, a restart restores each level to what the single-level restart describes, whatever the other levels hold. |
| OrderManagement.OrderManager.constructor | engine/src/application/order-manager.ts:48-133 | Seeding brings each level to exactly its restored cell and leaves no record for a side without a handle. |
| OrderManagement.OrderManager.BeginSubmit | engine/src/application/order-manager.ts:206-229 | Only the named slot gets a record, of its current id, with nothing booked; every other cell stands. |
| OrderManagement.OrderManager.MarkOpen | engine/src/application/order-manager.ts:236-243 | The record and the level take the handle together; every other cell stands. |
| OrderManagement.OrderManager.MarkBooked | engine/src/application/order-manager.ts:314-343 | Exactly the unbooked part of a cumulative is applied to the level and returned; a repeated or smaller cumulative changes nothing. |
| OrderManagement.OrderManager.MarkFilled | engine/src/application/order-manager.ts:267-302 | The terminal delta is applied once, the handle is dropped and the generation spent. |
| OrderManagement.OrderManager.MarkNotFound | engine/src/application/order-manager.ts:410-431 | The handle is dropped, and the generation spent exactly when the id had booked something. |
| OrderManagement.OrderManager.MarkExitOnly | engine/src/application/order-manager.ts:453-457 | The lock is set on one level and nothing else moves. |
| ReconciliationService.OrderReconciliationService.EnsureSlotOrder | engine/src/application/order-reconciliation.service.ts:109-270 | The manager, the levels and the venue end exactly where the placement state machine says, for every answer along the way; other levels stand. |
| ReconciliationService.OrderReconciliationService.CheckSlot | engine/src/application/order-reconciliation.service.ts:292-362 | The same for the check of a slot with a handle. |
| ReconciliationService.OrderReconciliationService.LookupByClientOrderId | engine/src/application/order-reconciliation.service.ts:433-513 | The same for a lookup. |
| ReconciliationService.OrderReconciliationService.ClassifyHandleError | engine/src/application/order-reconciliation.service.ts:549-570 | An error frees the slot exactly when it is a non-retryable venue error or an HTTP 404; any other freezes it, and other levels stand. |
| GridTrading.GridTradingStrategy.BookSegment | engine/src/strategies/grid.ts:1179-1300 | One more ledger row and one moved entry price for a segment above dust, nothing otherwise, at the price `BookedPrices.EveryRowIsPriced` describes; trades and running totals stay in step with the rows. |
| GridTrading.GridTradingStrategy.BookOutcome | engine/src/strategies/grid.ts:1109-1148 | Exactly the three outcomes that carry executions reach the ledger, each once. |
| GridTrading.GridTradingStrategy.Tick | engine/src/strategies/grid.ts:835-1069 | A tick moves every level as its own state machine does under what the outside world answered there (`TickOrders` and `TickChecks` say what that submits and books); the stop-loss leaves ARMED exactly when the mark has fallen by the configured percent below the weighted entry of what is held, or below the baseline when nothing is; its rank never falls, exits run only once the cancels left no entry handle anywhere, and the whole grid stays in agreement with its ledger. |
| TickOrders.TickSubmitsExactly | engine/src/strategies/grid.ts:872-1022 | On the venue's book, for every conserved level that the stop-loss does not drive: a tick submits a BUY exactly when the mark is at or below the line, nothing rests on either side, something is left to buy and the level is neither locked nor frozen, and then for what is left, at the line; and a SELL exactly when the mark is at or above the line, no exit rests, an exit price exists and the slot is full or locked with inventory, and then a reduce-only one for what is held, at that price. What no check was due for rests untouched. |
| GridOrders.TickSubmits | engine/src/strategies/grid.ts:835-1069 | The same of one tick of the running strategy object, at every level of the grid at once. |
| TickOrders.PlacementExactly | engine/src/application/order-reconciliation.service.ts:109-270 | A placement under a fresh id submits exactly when the rules are unchanged, the lookup answers, the intent is on disk and the venue accepts, and then exactly the order asked for; otherwise the venue is as it was and the outcome carries the refusal. |
| TickOrders.PlacementTells | engine/src/application/order-reconciliation.service.ts:109-270 | Whatever a placement meets, its record ends in the state of its outcome: open under that handle, filled, not found without one, or unavailable; an off-tick price, or a rules change before the slot was ever submitted, leaves everything alone. |
| TickOrders.ReadTells | engine/src/application/order-reconciliation.service.ts:292-362 | So does the record of a slot that was read by handle, for every answer and error. |
| TickOrders.LostResponseIsAdopted | engine/src/application/order-reconciliation.service.ts:150-270 | A submission whose response is lost: when the venue can be asked afterwards there is one order under the id, the one asked for, and while it rests the level holds its handle. |
| TickOrders.RefusalLocksExactly | engine/src/strategies/grid.ts:903-945 | A refused entry locks its level into exit-only exactly when the venue lacks margin, or finds the size too small for the rest of a slot already partly bought; nothing else changes. |
| TickOrders.StopExitExactly | engine/src/strategies/grid.ts:687-731 | The stop-loss exit of a level, on the book: a reduce-only SELL of all it holds, exactly when it holds something, no exit rests and there is a price. |
| TickOrders.StopExitIsAtTheMark | engine/src/strategies/grid.ts:687-731 | Its price is the mark rounded down by less than a tick (the line, without a positive mark), a positive tick multiple; there is none exactly when that is less than a tick. |
| TickChecks.TickCatchesUp | engine/src/strategies/grid.ts:1076-1148 | After a tick that asked the venue about a live order, the ledger holds exactly what that order has executed, whatever else the tick did. |
| GridOrders.FirstTickCommitsExposure | shared/src/grid/grid-exposure.ts:155-193 | The first tick of a fresh grid that the venue accepts commits, in resting entries, exactly the notional that the shared calculator's rule gives for the grid's own lines. |
| SubmittedOrders.ExitsOnlyReduce | engine/src/strategies/grid.ts:969-1000 | Over every run, whatever the venue answers: every SELL ever submitted is reduce-only, no BUY is, and every BUY is limited at its line. |
| BookedOrders.EveryRowNamesItsOrder | engine/src/strategies/grid.ts:1109-1148 | Against a truthful venue every row booked, restarts apart, names the venue's own handle for its order, and is final exactly when that order is done there. |
| BookedPrices.EveryRowIsPriced | engine/src/strategies/grid.ts:1214-1219 | Over every run, false answers included: every row is booked at the price the observation behind it reported, and where it reported none at the price of the slot's record, or the line if it has none. |
| BookedPrices.UnreportedEntriesAreAtTheirLimit | engine/src/strategies/grid.ts:1214-1219 | An entry booked without a reported price carries the limit of its order in the venue's book, over every run. |
| BookedExits.UnreportedExitsAreAtTheirLimit | engine/src/strategies/grid.ts:1214-1219 | So does an exit, over every truthful run without a restart in which a placement that finds an order under its id asks at that order's limit. |
| BookedExits.RestartForgetsTheLimit | engine/src/application/order-manager.ts:86-133 | A concrete run with a restart in which it does not: the restored record has the line for its price, so an exit filled above it is booked there, with a PnL of 0. |
| GridTrading.GridTradingStrategy.DriveStopLoss | engine/src/strategies/grid.ts:763-833 | It leaves ARMED exactly when the mark has fallen by the configured percent below the weighted entry of what the levels hold, or below the build baseline when they hold nothing; the phases driven through and the levels they touched; an exit goes on exactly while anything is held, and then ends CLEARED on a shared symbol or a verified flat venue, HALTED_RESIDUAL otherwise. |
| GridTrading.GridTradingStrategy.CancelSlot | engine/src/strategies/grid.ts:553-575 | An unconfirmed cancel leaves everything; a confirmed one books what the closing read reports and frees the slot, whatever that read says. |
| CancelledSlots.CancelBooksExactly | engine/src/strategies/grid.ts:578-620 | After a confirmed cancel the ledger holds everything the order executed if and only if the closing read reached the venue or nothing was left to book. |
| CancelledSlots.UnreadRemainderReturnsExactly | engine/src/strategies/grid.ts:578-620 | Executions that read could not see can still be booked by some later truthful run if and only if the order's id can be submitted again: nothing had been booked under it, and it is not an entry of a frozen level. |
| CancelledSlots.UnreadRemainderIsLost | engine/src/strategies/grid.ts:578-620 | Otherwise they are lost: over every later run, restarts and false answers included, nothing more is booked under the id. |
| ClosedIds.ClosedForGood | engine/src/application/order-manager.ts:410-431 | The reason: over every run, whatever the venue answers, nothing is ever booked under an id whose generation is spent, nor under an entry's id once the level is frozen with no entry live. |
| GridTrading.GridTradingStrategy.CancelAllOrders | engine/src/strategies/grid.ts:553-575 | Both sides of every level are cancelled in turn, and the problems reported are exactly the live orders nobody confirmed. |
| TickChecks.DriveCancelsExactly | engine/src/strategies/grid.ts:763-833 | The stop-loss drive's cancels: a frozen level gives up its entry exactly when the cancel was confirmed, nothing of that entry rests at the venue then, and its exit is left alone. |
| TickChecks.StopFreesExactly | engine/src/strategies/grid.ts:553-620 | Cancelling both sides of a conserved level frees exactly the slots whose cancel was confirmed, whatever the closing reads say, so the problems counted are the handles that stay; and no order of a freed handle rests at the venue. |
| GridTrading.GridTradingStrategy.ReconcileSymbol | engine/src/application/order-reconciliation.service.ts:369-416 | Startup resolves every restored handle first and books only what it collected. |
| GridRuns.TickIsRun | engine/src/strategies/grid.ts:835-1069 | A level's part of a tick is a run of level events, for every combination of phases the tick can have driven. |
| GridTicks.TickAsRun | engine/src/strategies/grid.ts:835-1069 | A tick of the running strategy object is, at every level at once, a run of level events, truthful if the venue was. |
| GridTicks.Operate | engine/src/strategies/grid.ts:541-551 | So is any sequence of ticks and stops: every theorem about level runs holds of the grid. |
| GridTicks.TradeFromFresh | engine/src/strategies/grid.ts:835-1148 | A strategy built on fresh levels and operated any number of times: whatever the venue answers, the trades of every level tile every order; if it answers truthfully, every level holds exactly what its trades bought less what they sold, within one slot, and with known fees the running `totalPnl` is the cash of all trades plus the inventory of all levels at entry price, up to the stated rounding. |
| GridTicks.GridConserves | engine/src/application/order-manager.ts:359-396 | The conservation theorem for all levels of such a grid. |
| GridTicks.GridTiles | engine/src/application/order-manager.ts:206-343 | The tiling theorem for all levels of such a grid. |
| GridTicks.GridAccounts | engine/src/strategies/grid.ts:1239-1275 | The accounting identity for such a grid as a whole. |
| GridTotals.GridBalances | engine/src/strategies/grid.ts:1239-1275 | Trades of a grid are the rows of its levels, no more and no fewer, so balanced levels make a balanced running total. |
| GridExits.GridNeverLoses | engine/src/strategies/grid.ts:1534-1574 | The normal exits of the operated grid: built on accepted lines over a tick of at most eight decimals, answered truthfully with prices within the limits of their orders, every level the stop-loss has not frozen has gained on every SELL before fees and can price the next exit above its entry. |
| GridExits.AcceptedGeometry | engine/src/strategies/grid.ts:1705-1768 | Every level of an accepted grid has what its exit price needs: a line above it, on the tick, or room for one more spacing. |
| GridRuns.TickIsGuided | engine/src/strategies/grid.ts:835-1022 | A tick prices its exits by the grid's rule on the level the entry half left, and runs stop-loss exits only at frozen levels. |
| GridTicks.TradesHaveDistinctIds | engine/src/application/trade-reporter.ts:207-217 | No two trades of the grid share a fill id, across levels, sides, orders and segments. |
| GridRuns.FrozenNeverEnters | engine/src/strategies/grid.ts:872-881 | From the tripping tick on no BUY is submitted at any level, over every run, restarts and false answers included. |
| GridRuns.ExitOnlyShrinks | engine/src/strategies/grid.ts:687-731 | Once frozen without an entry handle, a level's held quantity never rises, over every truthful run. |
| GridRuns.AggregateNeverRises | engine/src/strategies/grid.ts:647-649 | The aggregate held quantity never rises once the stop-loss is exiting. |
| StopLoss.WeightedEntryPrice | engine/src/strategies/grid-stop-loss.ts:125-141 | The loop computes the quantity-weighted entry of the levels that really hold something, and nothing when none does. |
| StopLoss.ReferenceIsBetweenEntries | engine/src/strategies/grid-stop-loss.ts:125-141 | The stop-loss reference never lies outside the entries of what is held. |
| StopLoss.BlocksEntriesForGood | engine/src/strategies/grid-stop-loss.ts:184-403 | Once entries are blocked they stay blocked and the facts of the trip are kept, under every sequence of calls and snapshot restores. |
| StopLoss.TripsExactly | engine/src/strategies/grid-stop-loss.ts:285-305 | Monitoring trips exactly when an armed controller sees, on usable data, a mark that has fallen below its reference by at least percent hundredths of it; it then keeps the facts of the trip. |
| StopLoss.NeverTripsAbove | engine/src/strategies/grid-stop-loss.ts:95-118 | No controller that calls and restores can produce trips at a mark at or above its reference. |
| StopLoss.ArmsExactly | engine/src/strategies/grid-stop-loss.ts:184-278 | A controller that has not tripped is armed by a configuration, or a restart, exactly if its percent is a finite number from 0.1 to 50. |
| StopLoss.TripRunsToItsEnd | engine/src/strategies/grid-stop-loss.ts:285-403 | From a trip, once no cancel is outstanding, every completion check over a grid that is not locally flat leaves the exit going on, and the first over one that is ends it: CLEARED on a shared symbol or a venue that shows no position beyond its tolerance on either side, HALTED_RESIDUAL otherwise. |
| StopLoss.BlockedIgnoresConfig | engine/src/strategies/grid-stop-loss.ts:184-278 | Supporting fact: A stop that blocks entries ignores a new percent altogether; a restart takes it, and changes nothing else. |
| StopLoss.RankRisesExactly | engine/src/strategies/grid-stop-loss.ts:255-403 | Supporting fact: The phase moves on exactly by a trip, the cancels begun, none left outstanding, a completion check over a locally flat grid, an operator override, or arming. |
| StopLoss.ClearedExactly | engine/src/strategies/grid-stop-loss.ts:354-403 | Supporting fact: CLEARED is entered exactly by the completion check out of EXITING with nothing held, no entry left, and a shared symbol or a readable flat venue. |
| StopLoss.RankFallsExactly | engine/src/strategies/grid-stop-loss.ts:255-347 | Supporting fact: The phase rank falls exactly by operator override out of HALTED_RESIDUAL or CLEARED, or by disarming before any trip. |
| StopLoss.AlwaysReachable | engine/src/strategies/grid-stop-loss.ts:184-201 | Every state that calls and restores can produce satisfies the invariant the exact statements rest on. |
| StopLoss.GridStopLossController.constructor | engine/src/strategies/grid-stop-loss.ts:184-201 | A restored active phase wins over the configured percent; a monitoring one is re-derived from it. |
| StopLoss.GridStopLossController.ApplyConfigure | engine/src/strategies/grid-stop-loss.ts:265-278 | The object moves as the state machine does: an active stop, or one that has run its course, ignores a new percent. |
| StopLoss.GridStopLossController.ApplyMonitor | engine/src/strategies/grid-stop-loss.ts:285-305 | The object moves as the state machine does, whose trips are those of `TripsExactly`, and reports whether it changed. |
| StopLoss.GridStopLossController.ApplyBeginExiting | engine/src/strategies/grid-stop-loss.ts:333-340 | The operator override into EXITING, as the state machine has it. |
| StopLoss.GridStopLossController.ApplyHaltResidual | engine/src/strategies/grid-stop-loss.ts:343-347 | The operator override into HALTED_RESIDUAL, as the state machine has it. |
| StopLoss.GridStopLossController.ApplyEvaluateExitComplete | engine/src/strategies/grid-stop-loss.ts:354-403 | The object moves as the state machine does on the completion facts. |
| GridGeometry.BuildLevels | engine/src/strategies/grid.ts:1705-1768 | A grid is accepted if and only if its inward-snapped band is at least gridSize ticks wide; an accepted one has gridSize + 1 strictly climbing tick multiples from the snapped bottom to the snapped top, inside the configured band; the band and spacing checks after placement never fire. |
| GridGeometry.BandIsCentered | engine/src/strategies/grid.ts:1705-1720 | Supporting fact: The band is centered on the price and rangePercent hundredths of it wide. |
| GridGeometry.LinesAreGood | engine/src/strategies/grid.ts:1735-1768 | Strictly climbing floors: a wide enough band gives lines with all those properties. |
| GridGeometry.NarrowCollapses | engine/src/strategies/grid.ts:1735-1755 | The other way: a narrower band has two equal neighbours. |
| GridGeometry.Pigeonhole | engine/src/strategies/grid.ts:1735-1755 | n strictly climbing lines are at least n ticks apart. |
| GridExposure.SameBand | shared/src/grid/grid-exposure.ts:120-141 | The shared calculator and the engine build the same band. |
| GridExposure.LineDifference | shared/src/grid/grid-exposure.ts:24-27 | For every accepted grid and every line, engine level minus shared level lies strictly between minus two ticks and plus one tick. |
| GridExposure.WithinATickExactly | shared/src/grid/grid-exposure.ts:24-27 | A line moves by less than a tick, as the calculator's header says of all, if and only if what the snapped upper edge and the rounding take off it stays below what the snapped lower edge adds and one tick; the configuration and the tick decide it. |
| GridExposure.MoreThanATickOff | shared/src/grid/grid-exposure.ts:24-27 | A configured, accepted grid whose ninth line is built at 109 and stands at 110.71, the tick being 1. |
| GridExposure.LineDifferenceBySize | shared/src/grid/grid-exposure.ts:24-27 | By grid size the lower end is -2 (n - 1) / n ticks: rounding drops at most all but one part of a tick in n, and not at the last line. |
| GridExposure.RangeIsTight | shared/src/grid/grid-exposure.ts:24-27 | For every grid size, inside the engine's limits on the range, some grids come as near to that lower end, and some to plus one tick, as one likes. |
| GridExposure.EligibleIsSuffix | shared/src/grid/grid-exposure.ts:155-193 | The buy-eligible lines of the shared calculator are a suffix of the grid. |
| GridExposure.NotionalsAgree | shared/src/grid/grid-exposure.ts:155-193 | When the eligible lines agree, the two resting notionals differ by less than two ticks of one order's size per eligible line. |
| GridExposure.ComputeGridExposure | shared/src/grid/grid-exposure.ts:155-193 | The notional is the sum over eligible lines, and the largest single order is attained by one of them and by none exceeded. |
| PriceQuantization.QuantizeIsExact | engine/src/utils/price-quantization.ts:113-157 | Quantization succeeds exactly on well-posed texts whose rounded value is positive, and its text reads back, at the tick's scale, as exactly the exact rational rounding of the price. |
| Ticks.DownIsGreatest | engine/src/utils/price-quantization.ts:113-157 | Rounding down is the greatest tick multiple at or below the price. |
| Ticks.UpIsLeast | engine/src/utils/price-quantization.ts:113-157 | Rounding up is the least tick multiple at or above the price. |
| PriceQuantization.NearestIsWithinHalf | engine/src/utils/price-quantization.ts:144-149 | Rounding to nearest stays within half a tick, ties going up. |
| PriceQuantization.RoundMonotone | engine/src/utils/price-quantization.ts:113-157 | Rounding is monotone in every mode. |
| PriceQuantization.QuantizeIsIdempotent | engine/src/utils/price-quantization.ts:113-157 | Quantizing a quantized text again, in any mode, gives the very same text. |
| PriceQuantization.TickTestIsExact | engine/src/utils/price-quantization.ts:176-190 | The integer test answers true exactly when the price is a whole number of ticks. |
| PriceQuantization.FixedPointsAreMultiples | engine/src/utils/price-quantization.ts:176-190 | A price is a fixed point of rounding exactly when the tick test accepts it. |
| PriceQuantization.DivisionIsExact | engine/src/utils/price-quantization.ts:150-157 | The final division leaves no remainder. |
| DecimalStrings.FormatParses | engine/src/utils/price-quantization.ts:20-106 | Printing a scaled integer and parsing the text gives the same integer and scale. |
| ClientOrderIds.Recoverable | engine/src/utils/client-order-id.ts:77-119 | Level, side and generation can be read back from any generated id, which is at most 36 characters long. |
| ClientOrderIds.IdsAreDistinct | engine/src/utils/client-order-id.ts:87-119 | Distinct slots, sides or generations of one generator never share an id. |
| ClientOrderIds.AlphanumericKeysAreAccepted | engine/src/utils/client-order-id.ts:77-119 | Exactly which triples in range get an id: those whose bot key is a non-empty alphanumeric text. |
| ClientOrderIds.CheckNeverFiresExactly | engine/src/utils/client-order-id.ts:87-119 | The check behind the construction never fires, for any level, side and generation in range, if and only if the scope is long enough to be hashed, or holds only alphanumerics, hyphens and slashes, not only the latter two. |
| ClientOrderIds.ShortScopesShareIdsExactly | engine/src/utils/client-order-id.ts:52-75 | Two scopes too short to be hashed give the same ids if and only if they are the same but for hyphens and slashes. |
| ClientOrderIds.RunsShareIds | engine/src/utils/client-order-id.ts:54-71 | Two runs of one bot that share every id, their run ids differing by a hyphen. |
| FillIds.PreimageReads | engine/src/utils/fill-id.ts:79-101 | With colon-free ids, the hashed text determines the order and, unless the segment covers the whole order, its bounds. |
| FillIds.SegmentsHaveDistinctIds | engine/src/utils/fill-id.ts:79-101 | Two disjoint segments of more than dust, which is all that booking ever reports, never hash the same text, whatever the order size; the whole-order exception included. |
| FillIds.CollidesExactly | engine/src/utils/fill-id.ts:79-101 | With dust allowed too: exactly when two disjoint segments of one order hash the same text. |
| FillIdentity.RunRowsHaveDistinctIds | engine/src/strategies/grid.ts:1217-1235 | Over every run of a level, whatever the venue answers, no two rows booked share a fill id. |
| FillIdentity.TiledRowsHaveDistinctIds | engine/src/application/trade-reporter.ts:207-217 | In any tiled ledger, no two rows share a fill id: other orders differ in their client id, segments of one order in their bounds. |
| SplitStatements.Split | scripts/run-migrations.js:21-112 | The statements are the pieces of a six-state automaton that survive the comment filter. |
| SplitStatements.SplitTrimmed | scripts/run-migrations.js:21-109 | The loop over four booleans and a tag gives the trimmed, non-empty pieces between the automaton's cuts; what every pass finds in those variables is one mode of the automaton, so at most one of them is ever up. |
| SplitTheorems.PiecesJoinToInput | scripts/run-migrations.js:21-109 | The untrimmed pieces joined with semicolons are the input, character for character. |
| SplitTheorems.CutsExactly | scripts/run-migrations.js:21-109 | A position is a cut exactly when it is a semicolon at which the automaton is outside every quote, comment and dollar block. |
| SplitTheorems.PiecesAreSlices | scripts/run-migrations.js:21-109 | The pieces are exactly the slices of the input between consecutive cuts. |
| SplitTheorems.StatementsAreStable | scripts/run-migrations.js:21-112 | Splitting any returned statement again yields exactly that statement. |
| SplitFilter.FilterDropsExactly | scripts/run-migrations.js:110-111 | Exactly what the comment filter drops: white space and line comments, alone or around one stretch from an opening mark to some later closing mark. |
| SplitFilter.CodeBetweenBlocksIsDropped | scripts/run-migrations.js:110-111 | Any code between two block comments is dropped with them. |
| SplitFilter.FilterAgainstAutomaton | scripts/run-migrations.js:21-111 | The filter against the splitter's own automaton, on every text: text without code is dropped exactly when it ends outside a block comment and, if its only block comment is `/*/`, has a stretch all the same; text with code is dropped exactly when it has a stretch. |
| SplitFilter.FilterIsExactWithoutBlocks | scripts/run-migrations.js:110-111 | Without an opening block mark the filter drops exactly the texts in which the automaton meets no code. |
| BotControl.StartsAtMostOnce | engine/src/application/bot-manager.ts:1124-1308 | Over every run of commands, engine restarts and redelivered commands included, no preparation is started twice, and the runners that tick are exactly those of registered runs. |
| BotControl.StartsOnlyMatched | engine/src/application/bot-manager.ts:1124-1200 | A start happens only for a preparation whose run, strategy, version and session all match, and consumes it. |
| BotControl.RedeliveryIsReacknowledged | engine/src/application/bot-manager.ts:1124-1160 | A redelivered authorization is acknowledged again and changes nothing, whatever commands came in between, as long as none of them ended the runs of its bot. |
| BotControl.VersionsClimb | engine/src/application/bot-manager.ts:976-1044 | Within one engine process a bot's preparation version never falls. |
| BotControl.PreparationIsNewer | engine/src/application/bot-manager.ts:976-1044 | From any state, within one engine process, every new preparation carries a version above all earlier ones of its bot. |
| BotControl.FailedAuthorizationLeavesNothing | engine/src/application/bot-manager.ts:1258-1308 | A failed authorization leaves the bot with no preparation, no registered run and no ticking runner. |
| BotControl.StopLeavesNothing | engine/src/application/bot-manager.ts:333-451 | After any run of commands, a BOT_STOP leaves the bot with no registered run, no ticking runner and no preparation, every runner that still ticks belongs to another bot, and the other bots are untouched; the reply says which there was. |
| BotControl.PanicSilences | engine/src/application/bot-manager.ts:469-566 | After any run of commands, an EMERGENCY_STOP leaves the bot with no registered run and no ticking runner, every preparation where it was, and the other bots untouched. |
| BotControl.BotsAreIsolated | engine/src/application/bot-manager.ts:899-1309 | No command for one bot changes another bot's version, preparations, runs or runners. |
| BotControl.AuthorizedRunTicks | engine/src/application/bot-manager.ts:1114-1309 | An authorized run is registered for exactly its preparation, and a new runner ticks for it. |
| BotControl.OtherRunsStand | engine/src/application/bot-manager.ts:1114-1309 | An authorization that does not fail leaves every other run of the session as it was, prepared or running. |
| BotControl.MismatchChangesNothing | engine/src/application/bot-manager.ts:1124-1200 | An authorization of another strategy, version or session than what is prepared, or already runs, under its run id changes nothing, and is answered stale or not prepared. |
| BotControl.RunsOutliveReports | engine/src/application/bot-manager.ts:1258-1308 | A run that already runs is not ended by the authorization of another, unless that start fails. |
| BotControl.PreparedRunsAreSpecs | engine/src/application/bot-manager.ts:976-1044 | A prepared session holds exactly the runs it was asked for, each with its last spec, under one new version, and nothing earlier. |
| BotControl.NothingOldStartsAfterStop | engine/src/application/bot-manager.ts:333-451 | Nothing prepared before a BOT_STOP can start after it, whatever commands follow, redelivered starts and engine restarts included: every later start is of a preparation of a later process, or of a version above any used before. |
| BotControl.PanicLeavesPreparations | engine/src/application/bot-manager.ts:469-566 | After an EMERGENCY_STOP, of a running bot or not, some later run of commands starts a preparation made before it if and only if the bot had one left. |
| BotControl.PanicThenStart | engine/src/application/bot-manager.ts:469-566 | A concrete run in which a run prepared before the emergency stop starts after it. |
| BotControl.PanicOnPreparedOnly | engine/src/application/bot-manager.ts:469-566 | A session prepared but not running: the emergency stop answers BOT_NOT_FOUND and leaves it startable, where BOT_STOP discards it. |
| BotControl.OldAuthorizationStartsExactly | engine/src/application/bot-manager.ts:1107-1180 | An authorization starts a run exactly when the bot has an equal preparation, with the same run, strategy, version and session; the process that made it plays no part. |
| BotControl.RestartNeedsItsSession | engine/src/application/bot-manager.ts:1107-1180 | What the session correlation keeps apart: after an engine restart nothing starts unless a BOT_START of its own session was handled since. |
| BotControl.RestartThenOldAuthorization | engine/src/application/bot-manager.ts:1107-1113 | What it does not: when that BOT_START is handled again, the authorization of the first process starts a run of the second. |
| BotManagement.BotManager.constructor | engine/src/application/bot-manager.ts:140-152 | A new engine process remembers no version, preparation or run. |
| BotManagement.BotManager.HandleStart | engine/src/application/bot-manager.ts:899-1104 | The maps end as the protocol says: whole-session preparation under one new version, or none. |
| BotManagement.BotManager.AuthorizeStart | engine/src/application/bot-manager.ts:1114-1309 | The maps, runners and reply end as the protocol says, loop by loop. |
| BotManagement.BotManager.HandleStop | engine/src/application/bot-manager.ts:333-451 | The maps and runners end as the protocol says, loop by loop: nothing of the bot is left (`BotControl.StopLeavesNothing`). |
| BotManagement.BotManager.HandleEmergencyStop | engine/src/application/bot-manager.ts:469-566 | The maps and runners end as the protocol says: no run of the bot is left and its preparations stay (`BotControl.PanicSilences`). |
| EmergencyFlatten.Account.CreateOrder | engine/src/application/bot-manager.ts:824-836 | An order executes up to its size; a reduce-only one is capped by the position it opposes, any other opens or flips what is left. |
| EmergencyFlatten.ReduceOnlyShrinks | engine/src/application/bot-manager.ts:830-833 | With the flag, no order grows or flips a position, however stale the read it was sized by. |
| EmergencyFlatten.StaleSliceFlips | engine/src/application/bot-manager.ts:830-833 | Without it, a slice sized by a stale read flips the position. |
| EmergencyFlatten.SizeSlice | engine/src/application/bot-manager.ts:775-821 | A slice is clipped exactly when the book inside the band binds below the last rung, and then to that book. |
| EmergencyFlatten.InBandExactly | engine/src/application/bot-manager.ts:775-821 | A resting level counts as fillable exactly when crossing to it costs at most the band's basis points of the mark. |
| EmergencyFlatten.RungsWiden | engine/src/application/bot-manager.ts:79-88 | Supporting fact: The rungs start at 100 basis points, widen strictly with every read without progress up to the fourth, and end at 300. |
| EmergencyFlatten.RungsReachMore | engine/src/application/bot-manager.ts:775-821 | A wider rung never reaches less of the book. |
| EmergencyFlatten.OneSliceIsEnough | engine/src/application/bot-manager.ts:722-887 | With truthful reads, time left, no late fills and a venue that fills each slice whole, depth absent or covering the position, a run of the flatten sends one order and ends flat. |
| EmergencyFlatten.ReportShared | engine/src/application/bot-manager.ts:696-720 | A shared position is read and reported, never touched; silence only if the read said flat. |
| EmergencyFlatten.ClosePosition | engine/src/application/bot-manager.ts:722-887 | While time is left, the read succeeds and shows a position and fewer than four reads in a row stalled, an order goes out for that read, up to five; so it stops early only for one of those reasons. Each order is reduce-only, opposite to its read, positive, no larger than it, clipped to the book only below the last rung, and on the rung the reads without progress have reached. The position never grows or flips, a clean report is given exactly when the last read was flat, and with truthful reads, time left, no late fills and a venue that fills the slice whole, one order closes the position and the outcome is clean. |
| FillDelivery.ReportIsSafe | engine/src/application/trade-reporter.ts:207-266 | From the journal write on, at every crash point a fill passed on is journaled, accepted by the stream, or rejected to the caller; it is rejected exactly when no durable copy could be written. A crash before the write leaves everything as it was. |
| FillDelivery.ReportDelivers | engine/src/application/trade-reporter.ts:207-266 | An undisturbed report puts the fill on the stream once and takes it, and nothing else, out of the journal exactly when the stream acknowledged it and the clear was written. |
| FillDelivery.SafeForGood | engine/src/application/trade-reporter.ts:207-346 | A fill once journaled or accepted stays so under every run of reports, replays, crashes and lost integrity. |
| FillDelivery.PrefixPublished | engine/src/application/trade-reporter.ts:302-322 | A replay publishes exactly the prefix it counts, and perhaps the entry it stopped at. |
| FillDelivery.ReplayLeavesSuffix | engine/src/application/trade-reporter.ts:302-322 | The journal keeps exactly the entries not counted if and only if every clear along the way was written. |
| FillDelivery.CountedAndKept | engine/src/application/trade-reporter.ts:302-322 | A fill whose clear was not written: counted as replayed, nothing reported as remaining, and still journaled. |
| FillDelivery.DistinctForGood | engine/src/infrastructure/state/pending-fill-journal.ts:341-372 | The journal never lists a fill twice, over every run. |
| FillDelivery.SinkIsExact | engine/src/application/trade-reporter.ts:274-282 | A sink keyed on fill id records every accepted fill exactly once, however often it was delivered. |
| FillDelivery.Drained | engine/src/application/trade-reporter.ts:283-346 | After any run, one undisturbed replay empties the journal, and everything ever safe is recorded at the sink exactly once. |
| FillReporting.LedgerTradeReporter.ReportFill | engine/src/application/trade-reporter.ts:207-266 | The journal and the stream end as the delivery protocol says at every crash point. |
| FillReporting.LedgerTradeReporter.ReplayPendingFills | engine/src/application/trade-reporter.ts:283-346 | The loop refines the replay; replayed plus remaining is what the journal held, and an unverifiable journal is neither touched nor reported clean. |
| FillReporting.LedgerTradeReporter.ClearPendingFill | engine/src/infrastructure/state/pending-fill-journal.ts:385-411 | Only the named entry leaves the journal, in order, and only when its integrity is known. |
| CommandConsumer.AckOnlyWhenSettled | engine/src/protocol/command-consumer.ts:139-208 | Whatever fails, an entry that is acknowledged is malformed, remembered, or durably marked right after. |
| CommandConsumer.AcksExactly | engine/src/protocol/command-consumer.ts:139-208 | Exactly when processing acknowledges an entry: the acknowledgement works, and the entry is malformed, known to be settled, or was completed, refused, or thrown back on its tenth delivery or a later one. |
| CommandConsumer.SettlingMarks | engine/src/protocol/command-consumer.ts:118-176 | With every store working, exactly those outcomes mark and remember the command, and every unknown command is dispatched. |
| CommandConsumer.AckedIsMarked | engine/src/protocol/command-consumer.ts:118-132 | With durable markers every acknowledged entry is malformed or marked, over every run, and markers only grow. |
| CommandConsumer.NeverDispatchedAgain | engine/src/protocol/command-consumer.ts:102-111 | With durable markers a marked command is never dispatched again, over every run with restarts. |
| CommandConsumer.HandledAtMostOnce | engine/src/protocol/command-consumer.ts:139-176 | However often an entry is redelivered and wherever the process dies, at most one completion of a command gets as far as its mark. |
| CommandConsumer.CompletionsAreBounded | engine/src/protocol/command-consumer.ts:139-176 | A handler completes at most once, and once more for every completion the process died on before marking it; a command not marked has only such completions. |
| CommandConsumer.CompletesAgainExactly | engine/src/protocol/command-consumer.ts:139-176 | In every state a durable run reaches, a command in the stream can be completed, again or for the first time, if and only if it is not marked: every completion so far was lost. |
| CommandConsumer.CompletionsRepeat | engine/src/protocol/command-consumer.ts:166-168 | With every store working, for every n a run in which one command completes n + 1 times. |
| CommandConsumer.DispatchesAreCapped | engine/src/protocol/command-consumer.ts:188-207 | With readable counters and durable markers an entry is dispatched at most ten times, and once more for every time the process died between dispatching and marking it; so at most ten times when no dispatch kills the process. |
| CommandConsumer.DeathsAreNotCapped | engine/src/protocol/command-consumer.ts:188-207 | That bound is reached for every number of deaths: the consumer counts only the dispatches it lives through. |
| CommandConsumer.MemoryIsNewest | engine/src/protocol/command-consumer.ts:118-131 | With or without Redis, the in-memory set is always the newest part of what this process marked: all of it, or at least 5,000 of it, and never over 10,000. |
| CommandConsumer.RecentIsNotDispatched | engine/src/protocol/command-consumer.ts:102-131 | None of the last 5,000 commands a process settled is dispatched again, whatever Redis does. |
| CommandListening.CommandListener.Process | engine/src/protocol/command-consumer.ts:139-208 | The set, the markers, the acknowledgements and the dispatches end as the protocol says for every outcome, failure and crash. |
| CommandListening.CommandListener.MarkProcessed | engine/src/protocol/command-consumer.ts:118-132 | The in-place trim keeps exactly the newest half. |
| CommandListening.CommandListener.RecoverPending | engine/src/protocol/command-consumer.ts:335-359 | A recovery pass is a run of the protocol: every entry claimed first, then processed in order while the process lives. |

## Left out

- OrderManagement.OrderManager.MarkBooked: the methods that take a client order id require it to be its slot's newest, as every caller in the repository passes it; records under older ids are only read there.
- OrderManagement.OrderManager.BeginSubmit: generations are unbounded naturals in the run theorems; the cap of 36^3 - 1 and its refusal are in `ClientOrderIds`.
- GridTrading.GridTradingStrategy.BookSegment: the tick's halt after a fill that could not be journaled (`ledgerHalted`) and the reports sent after booking; `FillDelivery` has the rejection itself.
- GridTrading.GridTradingStrategy.Tick: a mark that is not a number, the position cross-check that only logs, and the throttle intervals, whose decisions are parameters; the final tick validation cannot refuse, because lines and exits are tick multiples by construction.
- GridTrading.GridTradingStrategy.ReconcileSymbol: the orphan list and the counters of the startup report, and the refusals of `requireSafeToInitialize` that abort startup.
- ReconciliationService.OrderReconciliationService.EnsureSlotOrder: market rules and market status are folded into one boundary answer; order types other than limit, and the text patterns that classify refusals, are not modelled.
- GridTicks.Operate: ticks and stops of one strategy object; a restart of the whole grid is `GridSnapshots` and `ReconcileSymbol`, level by level, and the interval timer that calls the tick is left out.
- GridExits.GridNeverLoses: a tick with more than eight decimals, whose lines the averaged entry could round past.
- NormalExits.NormalExitsNeverLose: assumes a line price of at most eight decimals and that every price the venue reports respects the limit of its order, which is what the property is about; the price booked for it is `BookedPrices.EveryRowIsPriced`; exits forced by the stop-loss are excluded.
- FillIds.SegmentsHaveDistinctIds: sha256 itself; injectivity on the hashed texts is assumed by comparing the texts.
- ClientOrderIds.ShortScopesShareIdsExactly: scopes long enough to be hashed, whose ids differ as far as the truncated digests do.
- BotManagement.BotManager.HandleStart: credentials, venue connections and initialization failures are one outcome parameter; commands are handled one at a time, so a start cancelled in flight is not modelled.
- BotManagement.BotManager.HandleEmergencyStop: cancelling open orders venue-side; the flatten is `EmergencyFlatten`.
- EmergencyFlatten.ClosePosition: the lookup of co-tenants, and the wall clock, which is a parameter of each slice; error texts.
- FillDelivery.Drained: entries are their fill ids; the journal's file format, its previous copy and the recovery of damaged bytes are one flag saying whether integrity is known, and restored integrity means the entries are all there again.
- CommandListening.CommandListener.Process: marker expiry is an event of its own; what the handlers do is an outcome parameter, and the routing of command types is left out.
- SplitStatements.Split: which migrations are pending, and running them.
- Records are values kept in one array and two maps; the aliasing of level objects between strategy and manager is the shared array.
- Floating point: the noise washing of `numberToDecimalString`, and float subtraction before rounding to eight places.
- Adapters, Redis, HTTP, signing, credentials, snapshot files, time throttles, telemetry, logging, configuration validation, residual-capacity checks, the backend's wiring and the frontend.
