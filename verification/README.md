# Epigone in Dafny

A model of the parts of Epigone that carry state, protocol or arithmetic, with proofs of what
they promise: the shared request budget, the hand-over of event production between two lanes,
the diffs that turn observations into events, the inference of withdrawals, order pricing and
stake caps, the copy executor, and the Loss Budget.

`dafny verify dfyconfig.toml` checks everything.

## How it is built

Clocks are integer microseconds. Budget tokens are integer millionths of a weight, which makes a
second's refill and a weight's gate window exact. Dollars, prices and sizes are reals, rounded
explicitly to the grid of 10^-k where the source rounds. A database row or table is a field or a
map; a transaction is one step. What lies outside (the exchange's answers and whether it holds
a reduce-only order to reducing, clocks, marks, halts, configuration) is a parameter every theorem quantifies over.

| file | what it models |
|---|---|
| `Budget.dfy` | the shared token bucket: reserves, gate, settlement into debt, the blocking `spend` loop |
| `LaneAuthority.dfy`, `LaneLocks.dfy` | who produces events: the decision over whole runs, and the row-lock protocol under every interleaving |
| `KeyedDiff.dfy` | what both diffs share: exactly one decision owed per key, and memory advanced by decisions |
| `PositionDiff.dfy`, `PositionHistory.dfy` | the position diff and its memory table; the event log over whole runs |
| `OrderDiff.dfy`, `OrderBook.dfy` | the order diff; the order lane against the exchange's own book |
| `Withdrawals.dfy` | the withdrawal inference against an account's true bookkeeping |
| `Reals.dfy`, `Pricing.dfy`, `Mirroring.dfy`, `RiskPolicy.dfy` | size and price rounding, drift of a mirrored position, leverage, caps and clamping |
| `CopyClaims.dfy` | write-ahead claims over many instances and crashes |
| `CopyCycle.dfy`, `CopyOrders.dfy`, `CopyBooks.dfy`, `CopyRuns.dfy` | one sub through a cycle of entries, exits and flips; exactly which orders are sent; the books kept of them; two cycles in figures |
| `LossBudget.dfy`, `BudgetMachine.dfy` | the loss measure and its ledger; the armed, warned, breached, disabled machine under interleaving |
| `AssetIds.dfy` | coins and the ids orders name them by |

A specification function states what a step computes; the classes and loops beside it are proved
equal to it; the theorems are about the function, over all runs.

## What the proofs found

Where a promise holds only under a condition, the condition is proved exact where that was possible and a
concrete run shows the failure.

- The 1140 figure of `src/epigone/budget.py` bounds stretches that end in a grant. Settlements can carry a
  minute past it, but only by the debt they leave (`RollingMinuteWithDebt`, `SettlementsCanExceedTheCap`).
- `_apply_updates` (`src/epigone/ws/order_lane.py`) classifies a whole frame against memory read once. An
  unrecognised status that closes a frame undoes an earlier update of the same frame; the frame is applied as its
  updates in turn would be if and only if that does not happen (`FrameMatchesStreamIffSafe`).
- `src/epigone/withdrawals.py` says the 5% allowance covers the residue of a snapshot without coin units. It covers
  a marked-down leg's residue if and only if the leg's unrealized PnL was at most 5% of its notional
  (`UnitlessMarkDown`), and otherwise an untouched position can be reported as a withdrawal (`UnitlessFalseAlarm`).
- A scale's kind is decided in dollars and mirrored in coins. A leader who buys through a fall is reported as scaling
  out, and the copy sells; mirroring tracks the leader if and only if the two directions agree (`TracksIffAgrees`,
  `BoughtButCopiedAsSold`).
- A bracket leg rounds toward entry, and arms strictly on its own side of entry if and only if some legal price lies
  between (`RightSideIffRoom`); on a coarse asset a take-profit can arm at entry (`TakeProfitAtEntry`).
- The stake caps hold at the mark. A buy can take one percent more at its limit, and keeps the caps wherever it fills
  if and only if its limit does (`WorstFillWithinOnePercent`, `BuyFitsIffItsLimitDoes`, `CapCanBePassedByAFill`). A
  sell's limit is a floor: a short filled above the mark takes more, with no bound (`SellFitsUpToTheCaps`).
- A cycle's working copy stays true to the venue if and only if every order is answered for
  (`CycleStaysTrueIffClear`): a lost answer is harmless exactly when nothing had executed, and a filled scale-in
  exactly when it is on the side held. Two runs the leader's log allows show both failures: an open whose answer is
  lost, a close that finds no position, and an open that lands on the first (`LostAnswerIsDoubled`); a flip whose
  close leaves a residue, and a scale-in on the new side (`ScaleInOntoResidue`); `CopyRuns.dfy` gives each in
  figures. Neither ever gives a coin two live episodes (`NeverTwoLive`), and each event still sends at most one opening order.
- Reduce-only is what keeps an exit from a stale working copy off the other side. From a true one the sizes do it
  alone, unless a trim's coin sizes more than double (`TrueExitNeverReverses`, `TrimPastHeld`).
- A close rounds its size down, so off the asset's grid an episode ends over less than one quantum still held
  (`EpisodeEndsIffFlat`).
- The order lane reads, and only then subscribes; a change in that window is heard by neither (`src/epigone/ws/order_lane.py`
  says so). Memory is true right after every resync (`LifeStaysTrue`), and between resyncs of exactly the orders the
  window left alone or the stream has been about since (`TrueIffUnmovedOrHeardOf`). A departure the window swallows
  lingers for the whole connection (`SwallowedDepartureLingers`), and the next resync reports it, so across a gap that
  lost nothing a resync is silent if and only if the window healed (`EveryResyncIsExact`).
- A baseline or resync takes a partly filled order's starting size to be what remains of it: starting sizes are only
  bounded by the truth (`BaselineAgrees`, `LifeStaysTrue`).
- The Loss Budget's compare-and-set is on terms, not on time: a verdict measured before the budget was raised and put
  back still lands (`BreachLandsIffTermsStand`, `RestoredNumberLetsAnOldVerdictLand`), and can leave a breached row
  that was never warned (`RestoredNumberBreachesUnwarned`), which is so if and only if a first breach lands on a row
  without a warning from a read that saw one (`WarnedThroughoutIffNothingUnwarns`).
- `deposits_since` (`src/epigone/execute/subs.py`) says a tie never invents loss. The arming clock is the cycle's
  start and the equity is read later, so a top-up recorded in between is in the baseline and also added back:
  a loss nobody made, of exactly its amount (`MisstampedTopUp`). One executor arms before it provisions
  (`src/epigone/execute/executor.py:351-368`), so that order needs a second instance topping up the same sub.

## Model

| member | source | states |
|---|---|---|
| `WeightBudget.TokensAccounted` | src/epigone/budget.py:223-303 | over any interleaving of grants, refusals and settlements, weight billed plus tokens left plus what a full bucket turned away is exactly the tokens at the start plus 15 a second of the stored clock's advance; that clock never goes back; the bucket never exceeds 240 |
| `WeightBudget.TransactionIsExact` | src/epigone/budget.py:223-303 | one transaction in the documented figures: 15 weight a second up to 240, granted if and only if weight and reserve fit and the gate is open, a grant billed once and a settlement always, the gate closed a twentieth of a second a weight; an absent row is seeded full |
| `WeightBudget.StretchBill` | src/epigone/budget.py:240-303 | any stretch of transactions bills at most one burst plus the refill of the stored clock's advance since its first, plus the debt it leaves |
| `WeightBudget.GrantLeavesReserve` | src/epigone/budget.py:240-259 | a grant leaves its spender's own reserve in the bucket, after any history |
| `WeightBudget.RollingBound` | src/epigone/budget.py:52-58 | for any spenders, reserves and skewed clocks, a stretch whose clock readings span a length and that ends in a grant bills at most 240 + 15 per second of it, less that grant's reserve |
| `WeightBudget.RollingMinute` | src/epigone/budget.py:50-58 | a rolling minute that ends in a grant bills at most 1140, under the 1200 cap |
| `WeightBudget.RollingMinuteWithDebt` | src/epigone/budget.py:215-230 | any rolling minute bills at most 1140 plus the debt it leaves: only settlements exceed the figure |
| `WeightBudget.SettlementsCanExceedTheCap` | src/epigone/budget.py:223-230 | a concrete settlement bills more than the per-minute cap |
| `WeightBudget.WindowsDisjoint` | src/epigone/budget.py:282-303 | the gate windows of all grants and settlements of a run are pairwise disjoint, in commit order, each weight/20 s long; the gate never moves back and rises by at least what was billed |
| `WeightBudget.GatePaces` | src/epigone/budget.py:77-94 | grants whose clocks read a time in an interval total at most 20 per second of it plus the last grant's weight, whatever the skew |
| `WeightBudget.OneGrantIsNotSpread` | src/epigone/budget.py:240-259 | that last weight is needed: one grant lands whole at one instant |
| `WeightBudget.BlockedAttemptsAreOneRefill` | src/epigone/budget.py:240-280 | any number of blocked attempts, by anyone, leave the row one lazy refill to the latest of their clocks would |
| `WeightBudget.BlockedAttemptsInvisible` | src/epigone/budget.py:240-280 | the next transaction after blocked attempts is granted, bills and commits exactly as without them |
| `WeightBudget.WaitCoversShortfall` | src/epigone/budget.py:240-259 | the wait a blocked attempt reports, even landing a microsecond short, leaves only that microsecond missing |
| `WeightBudget.NeverWaitsTooLong` | src/epigone/budget.py:240-259 | and at no clock before that wait is over would the spend be granted |
| `WeightBudget.FitsAfterTheFloor` | src/epigone/budget.py:96-100 | one pacing floor later the missing microsecond has passed and the spend is granted |
| `WeightBudget.Clock.Sleep` | src/epigone/budget.py:201-213 | a sleep ends at most one microsecond early |
| `WeightBudget.SharedWeightBudget.TrySpend` | src/epigone/budget.py:240-303 | one attempt commits exactly the specified row, reports a wait of zero if and only if it was granted, and otherwise the longer of the token and gate waits |
| `WeightBudget.SharedWeightBudget.Spend` | src/epigone/budget.py:201-213 | a weight is refused if and only if it and the reserve exceed capacity; otherwise an uncontended spend ends within a fixed number of attempts though sleeps land early, leaving the row one attempt at its last clock would |
| `WeightBudget.SharedWeightBudget.Settle` | src/epigone/budget.py:215-230 | a settlement bills in full, into debt if need be, and pushes the gate on; a weight of zero or less changes nothing |
| `LaneAuthority.WsOwnershipIsJustified` | src/epigone/lane_authority.py:196-250 | after any run the websocket owns production only off probation and only if the last transaction was an evaluation that saw it enabled, fresh and covering the poll set |
| `LaneAuthority.EvaluationMoves` | src/epigone/lane_authority.py:196-280 | the whole row after one evaluation, in the documented figures: the kill switch at once, a websocket kept exactly while alive within 45 s and covering, a poller handed off exactly after 300 s of probation, covered and resynced, whatever reason stood before |
| `LaneAuthority.ProbationHasHistory` | src/epigone/lane_authority.py:259-280 | a running probation names the clock of an evaluation since which every look was healthy and production did not move |
| `LaneAuthority.PromotionIsEarned` | src/epigone/lane_authority.py:196-280 | the websocket gains production only after at least 300 s of evaluations, all enabled and fresh, begun no earlier than the last transfer, with the poll set fitting one address and resynced since that transfer |
| `LaneAuthority.PromotionIffEarned` | src/epigone/lane_authority.py:196-280 | over any run in clock order, from any row the poller owns off probation, an evaluation while the poller owns hands production to the websocket if and only if some earlier evaluation began at least 300 s of healthy looks and the last finds the poll set covered and resynced since the transfer; a re-enabled switch included |
| `LaneAuthority.PromotionsAreRare` | src/epigone/lane_authority.py:66-72 | a stretch whose clocks span T holds at most 1 + T/300 s promotions |
| `LaneAuthority.LaneAuthorityRow.TakeOwnership` | src/epigone/lane_authority.py:167-193 | the row becomes the new owner's, off probation, since now |
| `LaneAuthority.LaneAuthorityRow.RecordProbation` | src/epigone/lane_authority.py:259-280 | only the probation clock changes, and nothing is written when it is the same |
| `LaneAuthority.LaneAuthorityRow.EvaluateAuthority` | src/epigone/lane_authority.py:196-250 | one evaluation moves the row exactly as the decision `EvaluationMoves` pins |
| `LaneAuthority.LaneAuthorityRow.HandbackBlocked` | src/epigone/lane_authority.py:283-336 | handback is blocked if and only if the poll set does not fit or some wallet has not resynced since production moved |
| `LaneLocks.StepKeepsInvariant` | src/epigone/position_publish.py:39-76 | every step of producers and transferrers keeps lock compatibility, the truth of held ownership answers and journals that mix no lanes |
| `LaneLocks.EpochsNeverMix` | src/epigone/lane_authority.py:155-193 | in every interleaving with aborts anywhere, each committed authoritative event's source owns production at its place in commit order |
| `LaneLocks.OneLanePerEpoch` | src/epigone/lane_authority.py:155-193 | two authoritative events with no transfer committed between them come from one lane |
| `LaneLocks.OwnershipReadStaysTrue` | src/epigone/lane_authority.py:155-164 | a positive ownership answer stays true until its transaction ends or overwrites it itself |
| `LaneLocks.ProducersDoNotWaitForEachOther` | src/epigone/lane_authority.py:155-164 | while no transfer holds the row, a producer reads its ownership and commits an event with it, whoever else is reading, authoritative if and only if it owns production |
| `LaneLocks.TransferWaitsOnlyForLocks` | src/epigone/lane_authority.py:167-193 | and a transfer goes through from any state in which nobody else holds a lock |
| `LaneLocks.AbsentRowProtectsNothing` | src/epigone/lane_authority.py:139-164 | from an absent row a concrete run commits an authoritative event in the other lane's epoch |
| `KeyedDiff.DiffAssembled` | src/epigone/position_diff.py:110-166 | departures over memory followed by decisions over the present keys are exactly the one decision owed each key |
| `KeyedDiff.DiffAppliedAt` | src/epigone/position_snapshots.py:50-85 | applying a diff leaves at each key what that key's own decision keeps |
| `KeyedDiff.NewsAbout` | src/epigone/position_diff.py:169-171 | the events a diff emits about a key are exactly that key's own, whatever order decisions are in |
| `KeyedDiff.NewsKeepsOrder` | src/epigone/position_diff.py:169-171 | the events emitted are the decisions' events and no others, in the order of the decisions |
| `KeyedDiff.LastItemStands` | src/epigone/position_diff.py:128-142 | of several items under one key the last is the one observed |
| `KeyedDiff.DistinctKeysKeepOrder` | src/epigone/position_diff.py:128-142 | items of distinct keys are decided in their own order |
| `PositionDiff.Closes` | src/epigone/position_diff.py:110-166 | a close for each remembered coin no longer held and no other, whatever order memory is walked in |
| `PositionDiff.Present` | src/epigone/position_diff.py:110-166 | one open, flip, scale or silent update for each held coin, in order |
| `PositionDiff.DiffPositions` | src/epigone/position_diff.py:110-166 | the result owes each coin exactly its one decision, closes first; `EveryLookTellsTruly` says what that decision has to be |
| `PositionDiff.AppliedDiffIsObservation` | src/epigone/position_snapshots.py:50-85 | applying the diff of an observation makes memory that observation, each coin with the clock its position opened at |
| `PositionDiff.SnapshotTable.ApplyChanges` | src/epigone/position_snapshots.py:50-85 | the loop advances one trader's memory by all decisions in order and touches no other trader's |
| `PositionDiff.SnapshotTable.Remember` | src/epigone/position_snapshots.py:88-128 | one coin's row is replaced and no other changes |
| `PositionDiff.SnapshotTable.Observe` | src/epigone/position_snapshots.py:39-85 | one pass diffs and advances together: memory ends as the observation, others untouched |
| `PositionHistory.LogIsPerCoin` | src/epigone/position_diff.py:110-166 | over any run what the log says of a coin depends on that coin's observations alone |
| `PositionHistory.LogReplaysToMemory` | src/epigone/position_diff.py:110-248 | over any run each coin's events form a word open (scale or flip)* close, every close, flip and scale naming the side and opening clock it acts on, and replaying it gives the side and clock memory holds |
| `PositionHistory.EveryLookTellsTruly` | src/epigone/position_diff.py:110-248 | over any run, what each look says of a coin is what happened to it, figure by figure: open, close and flip at the sides and sizes memory and observation hold; a scale if and only if the dollar size moved by at least a quarter of what memory held, in if it grew and out if it shrank, from memory's sizes to the observation's |
| `PositionHistory.MemoryIsTheLookBefore` | src/epigone/position_snapshots.py:39-85 | and what memory holds at each look is, field by field, what the look before it saw of that coin |
| `PositionHistory.MemoryIsLastObservation` | src/epigone/position_snapshots.py:50-85 | memory advanced by every decision ever written, diff after diff, holds of each coin just what the last observation does |
| `PositionHistory.SilentDrift` | src/epigone/position_diff.py:203-229 | over n observations without an event a position stays on its side, since its clock, within (3/4)^n to (5/4)^n of its size |
| `PositionHistory.SilentGrowth` | src/epigone/position_diff.py:203-229 | a concrete position grows 90% in three silent looks |
| `OrderDiff.FamiliesAreExact` | src/epigone/order_events.py:82-110 | open, filled and triggered are exactly those words; a status is a rejection if and only if it names one, a cancellation if and only if it names one and no rejection |
| `OrderDiff.StreamTellsTruly` | src/epigone/order_diff.py:209-259 | every update is news with the exchange's own word, clock and figures; it forgets its order if and only if it names an end or is a fill of everything, and otherwise remembers it as told, an unknown word touching nothing |
| `OrderDiff.ResyncTellsTruly` | src/epigone/order_diff.py:150-206 | a resync says gone as memory knew the order, placed or filled as the read has it, field by field |
| `OrderDiff.LearnedIsKept` | src/epigone/ws/order_lane.py:709-746 | through any decisions that keep an order, no field once observed is blanked, and the newest observation stands |
| `OrderDiff.Departures` | src/epigone/order_diff.py:150-206 | one gone for each remembered order not resting and no other |
| `OrderDiff.Present` | src/epigone/order_diff.py:150-206 | placed for a new order, filled for a shrunk one, silence otherwise, a known order's starting size kept |
| `OrderDiff.DiffOpenOrders` | src/epigone/order_diff.py:150-206 | the result owes each order exactly its one decision, departures first |
| `OrderBook.StreamTrueIffWasOrTouched` | src/epigone/order_diff.py:209-259 | whatever memory held before, after a stream it is true of an order if and only if it was before or some update was about that order |
| `OrderBook.LosslessStream` | src/epigone/order_diff.py:209-259 | from any memory true in ids and sizes, whatever starting sizes it holds, folding every streamed update keeps it equal to the exchange's book through any run of placements, fills, triggers, cancels and rejects |
| `OrderBook.SilentResync` | src/epigone/order_diff.py:150-259 | after a lossless stream from such a memory a resync emits nothing and moves nothing |
| `OrderBook.ResyncNews` | src/epigone/order_diff.py:150-206 | a resync says of one order gone, placed, filled or nothing, each exactly when it departed, arrived, shrank or neither |
| `OrderBook.ResyncedMemory` | src/epigone/order_diff.py:186-196 | applying a resync makes memory the book, and known starting sizes survive |
| `OrderBook.OrdersOnlyShrink` | src/epigone/order_diff.py:166-173 | on the exchange a resting order only shrinks, nothing else about it moves, and a departed id never returns |
| `OrderBook.ResyncSilentIffTrue` | src/epigone/order_diff.py:150-206 | of memory that is at worst behind the exchange, a resync is silent if and only if that memory was true |
| `OrderBook.ResyncAfterLoss` | src/epigone/order_diff.py:150-259 | after any lost run of updates a resync says exactly one thing of each order that departed, arrived or shrank and nothing of the rest; memory equals the book again, and the starting size memory knew of a surviving order is kept |
| `OrderBook.BaselineAgrees` | src/epigone/ws/order_lane.py:572-604 | a REST baseline is true in ids and sizes, though a partly filled order's starting size is only what remains of it |
| `OrderBook.TrueIffUnmovedOrHeardOf` | src/epigone/ws/order_lane.py:28-37 | after a resync, the window before its subscription and any stream, memory is true of an order if and only if the window left its presence and size alone or the stream has been about it since |
| `OrderBook.LifeStaysTrue` | src/epigone/ws/order_lane.py:447-505 | from a baseline, through any number of windows, streams, gaps and resyncs, memory equals the exchange's book in ids and sizes right after every resync, with no condition, and every starting size lies between what rests and the truth |
| `OrderBook.EveryResyncIsExact` | src/epigone/ws/order_lane.py:28-37 | every resync of such a life says of each order exactly what became of it since memory last heard of it; across a gap that lost nothing it is silent if and only if every order its window moved was heard of again |
| `OrderBook.SwallowedDepartureLingers` | src/epigone/ws/order_lane.py:28-37 | an order that leaves in the window stays in memory for the whole connection, whatever is streamed, and the next resync says it is gone, whatever its own gap lost |
| `OrderBook.FrameAt` | src/epigone/ws/order_lane.py:656-679 | a frame leaves an order as its last update does, an unrecognised one leaving what memory held before the frame |
| `OrderBook.FrameMatchesStreamIffSafe` | src/epigone/ws/order_lane.py:656-699 | a frame applies as its updates in turn would, from every memory, if and only if no unrecognised update closes what it says of an order it also recognised |
| `Withdrawals.ReadPriorBook` | src/epigone/withdrawals.py:243-256 | the loop's accumulators are the retained PnL and departed notional of the whole prior book |
| `Withdrawals.FractionIsTheShare` | src/epigone/withdrawals.py:259-279 | what is still held of a position is none when gone or flipped, all when it did not shrink or had no size, and otherwise exactly its share, in coins where both looks have them |
| `Withdrawals.DetectWithdrawal` | src/epigone/withdrawals.py:189-240 | a withdrawal is reported if and only if a fresh enough baseline with positive equity exists and the outflow is at least $1,000, at least a quarter of it and more than 5% of departed notional; the amount is that outflow |
| `Withdrawals.BooksAfter` | src/epigone/withdrawals.py:49-72 | through any run of fills, transfers and other coins' trades, a coin traded one way realizes within 5% of notional of what its gone size held at the last mark |
| `Withdrawals.CashFlow` | src/epigone/withdrawals.py:22-27 | an account's collateral moves by what was realized and transferred and nothing else |
| `Withdrawals.OutflowIdentity` | src/epigone/withdrawals.py:22-47 | for any run, outflow is the money that left plus what departed size held at the last mark beyond what it realized |
| `Withdrawals.OutflowIsClose` | src/epigone/withdrawals.py:145-157 | in an ordinary interval the outflow is within 5% of departed notional of the money that left |
| `Withdrawals.NoFalseAlarm` | src/epigone/withdrawals.py:49-72 | with no money leaving on balance, no book of longs and shorts with opens, scale-ins, partial closes, closes and flips is ever reported |
| `Withdrawals.LargeWithdrawalsAreReported` | src/epigone/withdrawals.py:189-240 | a withdrawal that clears the gates by what departed size could hide is always reported |
| `Withdrawals.QuietBookIsExact` | src/epigone/withdrawals.py:62-67 | when nothing departed, a report is made if and only if $1,000 and a quarter of the account left, and for the true amount |
| `Withdrawals.UnitlessMarkDown` | src/epigone/withdrawals.py:259-279 | without coin units the allowance covers a marked-down leg's residue if and only if its PnL was at most 5% of notional |
| `Withdrawals.UnitlessFalseAlarm` | src/epigone/withdrawals.py:259-279 | a concrete untouched position without units is reported as a withdrawal |
| `Pricing.RoundSizeTruncates` | src/epigone/execute/pricing.py:51-67 | a size is expressible if and only if the precision is on the wire and it is at least one quantum; what is sent is the largest expressible size not above it |
| `Pricing.ClampNeverGrows` | src/epigone/execute/pricing.py:70-85 | a clamp never grows a size and shrinks it at least as much as its stake |
| `Pricing.QuantizeIsClose` | src/epigone/execute/pricing.py:152-157 | rounding lands on the grid within one step on the side asked for, and at zero only rounding down below one quantum |
| `Pricing.ShiftBringsToOne` | src/epigone/execute/pricing.py:148-151 | the adjusted exponent found below one is the shift that brings the price between one and ten |
| `Pricing.RoundedPriceIsLegal` | src/epigone/execute/pricing.py:134-157 | a rounded price has at most 6 - szDecimals decimals and is an integer or has at most five figures, also when rounding up crosses a power of ten |
| `Pricing.RoundPriceIsNearestLegal` | src/epigone/execute/pricing.py:134-157 | a price is refused if and only if it is not positive or no legal price stands at or below it when rounding down; otherwise the result is the nearest price the venue accepts on the side asked, a legal price having at most 6 - szDecimals decimals and being an integer or at most five figures |
| `Pricing.LimitNeverBeyondTheCap` | src/epigone/execute/pricing.py:160-175 | a buy's limit is the highest legal price not above the mark moved by the cap, a sell's the lowest not below it |
| `Pricing.EveryMarkIsPriceable` | src/epigone/execute/pricing.py:160-175 | at one percent a mark prices an order if and only if it is positive and, for a buy, some legal price stands within the one percent |
| `Pricing.LegNeverWider` | src/epigone/execute/pricing.py:178-193 | a bracket leg above entry arms at the highest legal price not past the percentage configured, one below at the lowest |
| `Pricing.RightSideIffRoom` | src/epigone/execute/pricing.py:178-193 | a leg arms strictly on its own side of entry if and only if some legal price lies past entry and no further than the target |
| `Pricing.TickOfMoveIsRoom` | src/epigone/execute/pricing.py:178-193 | a move of at least the asset's finest step and a ten-thousandth of the target is enough room, which a caller can test before arming |
| `Pricing.TakeProfitAtEntry` | src/epigone/execute/pricing.py:178-193 | a concrete 10% take-profit on a coarse asset arms at entry |
| `Mirroring.OneScaleTracks` | src/epigone/execute/pricing.py:106-131 | one scale mirrored in its own direction lands within a quantum of proportion, short when growing and over when shrinking |
| `Mirroring.DriftIsBounded` | src/epigone/execute/pricing.py:51-67 | after any run of scales the copy differs from the opening size times all ratios by at most the quantum times the sum of the ratios' products after each scale, skipped scales included |
| `Mirroring.TracksIffAgrees` | src/epigone/execute/executor.py:2340-2346 | mirroring tracks the leader from every holding if and only if the event's kind and its coin sizes agree on direction |
| `Mirroring.BoughtButCopiedAsSold` | src/epigone/position_diff.py:203-229 | a concrete leader who buys through a fall is reported as scaling out, and the copy sells |
| `RiskPolicy.LeverageIsCapped` | src/epigone/execute/policy.py:246-281 | an opening leverage is at least 1, the largest not above the ask, the backstop and the asset's maximum, and mirroring never asks more than the leader runs |
| `RiskPolicy.OpenAskExactly` | src/epigone/execute/executor.py:1927-1944 | an open asks if and only if its leverage is known and its base stake, levered, buys a quantum, and then for all of that it can express |
| `RiskPolicy.ShareExactly` | src/epigone/execute/pricing.py:106-131 | a scale mirrors exactly the share of what is held that the leader moved, truncated to the asset's precision, and fails if and only if there is none |
| `RiskPolicy.ScaleAskExactly` | src/epigone/execute/executor.py:1911-1926 | a scale-in asks for exactly that share at the whole leverage its position runs at, with the margin it takes as its stake |
| `RiskPolicy.EntryOrderExactly` | src/epigone/execute/policy.py:488-556 | an entry is sent if and only if what is asked, or failing that all the tighter cap leaves, makes a position of $10 before and after sizing; and it is granted and sized for exactly that |
| `RiskPolicy.OpenAskIsBacked` | src/epigone/execute/executor.py:1927-1944 | an open's size takes at most its base stake in margin |
| `RiskPolicy.ScaleAskIsBacked` | src/epigone/execute/executor.py:1911-1926 | a scale-in's derived stake covers the margin its size takes |
| `RiskPolicy.EntryWithinCaps` | src/epigone/execute/policy.py:488-556 | whatever the precision and whatever is committed, an entry that is sent fits both stake caps on top of it, is worth at least the venue's minimum and is no larger than asked |
| `RiskPolicy.WorstFillWithinOnePercent` | src/epigone/execute/executor.py:1753-1797 | a buy filled anywhere up to its limit takes at most one percent more margin than granted |
| `RiskPolicy.BuyFitsIffItsLimitDoes` | src/epigone/execute/executor.py:1753-1797 | every fill a buy may get fits both caps if and only if a fill at its limit does |
| `RiskPolicy.SellFitsUpToTheCaps` | src/epigone/execute/executor.py:1753-1797 | a sell fits both caps at the mark and below; at any price it fits if and only if its notional there is within what the caps leave times the leverage; nothing bounds its fill, so at some price it does not |
| `RiskPolicy.CapCanBePassedByAFill` | src/epigone/execute/executor.py:1753-1797 | a concrete $100 cap is filled at $101 |
| `CopyClaims.StepKeeps` | src/epigone/execute/executor.py:2540-2657 | every step of every instance, producer and retention keeps one claim per event and the tallies of what each holder has sent |
| `CopyClaims.NeverDoubled` | src/epigone/execute/executor.py:1706-1733 | in every interleaving with crashes anywhere an event is claimed at most once and causes at most one opening order and three closing ones, over all instances |
| `CopyClaims.OrdersFollowTheirClaim` | src/epigone/execute/executor.py:2540-2570 | every order follows a claim of its event and an attempt at its leg by the same instance, a flip's unclaimed open leg included |
| `CopyClaims.MissedStaysMissed` | src/epigone/migrations/0029_position_events.sql:88-107 | once an event is claimed and its claimer is gone, no continuation sends another order for it, not even after retention drops the claim |
| `CopyClaims.OutstandingCanBeCopied` | src/epigone/execute/executor.py:1706-1733 | no event is ever stuck: from any state an idle instance can claim an outstanding one and send its order, for an exit up to three, and after a flip's close its open without another claim |
| `CopyClaims.BacklogGoesOn` | src/epigone/execute/executor.py:1685-1697 | a refusal on the wire, a halt, a deferral, a lost claim or an unreadable sub costs no later event of the backlog its turn |
| `CopyClaims.OldestFirst` | src/epigone/position_events.py:198-272 | in every interleaving what an instance has in hand is older than all it has left, which is oldest first |
| `CopyClaims.EventTables.RecordEvents` | src/epigone/position_events.py:116-195 | a batch inserts its events under fresh identities and drops everything expired with its claims, as the protocol's steps do |
| `CopyClaims.EventTables.ClaimEvent` | src/epigone/position_events.py:275-298 | the first claimer of a present event wins, any other loses, and a pruned event is a foreign key error |
| `CopyClaims.EventTables.OutstandingEvents` | src/epigone/position_events.py:198-272 | the backlog is every unclaimed event and no other, oldest first |
| `CopyCycle.CommittedWithout` | src/epigone/execute/policy.py:284-295 | the committed stake is the same whichever position is counted first |
| `CopyCycle.PlannedEntryWithinCaps` | src/epigone/execute/executor.py:1735-1797 | every entry the cycle plans, open or scale-in, fits both caps on top of all the working copy holds |
| `CopyCycle.ReduceIsSafe` | src/epigone/execute/executor.py:2421-2478 | the retry sends at most three orders, none above its target, moves the venue by exactly what it reports unless an answer was lost and by no more than the target even then, raises if and only if its last answer was lost, and moves nothing if and only if none of its orders executed |
| `CopyCycle.ExitStaysWithinTarget` | src/epigone/execute/executor.py:2298-2397 | from any working copy, stale or not, and any answers, an exit moves only its own coin, only in the closing direction, by no more than its target, with at most three orders each within that target |
| `CopyCycle.ExitNeverReverses` | src/epigone/execute/executor.py:2298-2397 | from any working copy, stale or not, an exit whose orders the venue holds to reducing only shrinks its coin's holding toward zero |
| `CopyCycle.TrueExitNeverReverses` | src/epigone/execute/executor.py:2298-2397 | from a true working copy so does an exit at a venue that honours only order sizes, through partial fills, retries and lost answers, as long as a trim's coin sizes differ by no more than the leader held |
| `CopyCycle.TrimWithinHeld` | src/epigone/execute/executor.py:2340-2346 | a trim whose coin sizes differ by no more than the leader held is sized within what is held |
| `CopyCycle.TrimPastHeld` | src/epigone/execute/executor.py:2340-2346 | any other is sized past some holding, whatever the precision |
| `CopyCycle.ExitKeepsGoodIff` | src/epigone/execute/executor.py:2298-2397 | an exit keeps the working copy true to the venue, one live episode a coin and episodes on the side held, if and only if a lost last answer followed orders none of which executed |
| `CopyCycle.EntryKeepsGoodIff` | src/epigone/execute/executor.py:1735-1863 | an entry does if and only if its order executed nothing or was answered as a fill on the side held; what it opens, it opens on nothing |
| `CopyCycle.HandleKeepsGoodIff` | src/epigone/execute/executor.py:1706-1733 | one event does, a flip's two legs included, if and only if each of its orders is so answered for; its opens land on nothing either way |
| `CopyCycle.CycleStaysTrueIffClear` | src/epigone/execute/executor.py:1670-1703 | over a whole backlog in any order, with partial fills, rejects, halts, lost claims and lost answers, the sub is true after every event if and only if every order is answered for; then no open was sent onto anything |
| `CopyCycle.NeverTwoLive` | src/epigone/execute/executor.py:1670-1703 | over any backlog, whatever is lost and whichever side is held, no coin ever has two live episodes |
| `CopyCycle.EpisodeEndsIffFlat` | src/epigone/execute/executor.py:2480-2536 | a close ends its episode if and only if the venue is left with just what sizing cut off: nothing on the asset's grid, otherwise less than one quantum, which stays in the working copy with no episode over it |
| `CopyCycle.FlipOpensOnlyFromFlat` | src/epigone/execute/executor.py:1716-1729 | a flip whose close leg lost the claim, raised, was halted or left a residue or a live episode sends no open leg; the open leg only goes out over an empty holding |
| `CopyOrders.ExitSendsIffDue` | src/epigone/execute/executor.py:2298-2397 | an exit sends an order if and only if there is a live episode, a held size, an orderable coin, a target of a quantum worth $10 at the position's own price, the claim, no halt and a first price; no clock, age or wind-down plays a part; the first order is for the whole target, in the closing direction |
| `CopyOrders.PlanIsTarget` | src/epigone/execute/executor.py:2298-2397 | the target is all that is held, or for a trim the share the leader sold, as far as the precision expresses it, and there is one if and only if that is worth sending |
| `CopyOrders.ExitOwnsUnlessCutShort` | src/epigone/execute/executor.py:2298-2397 | the event is this instance's own after an exit, sent or skipped, unless the claim was lost, a halt met something to send or an answer was lost; a lost claim or a halt changes nothing |
| `CopyOrders.AttemptIsForTheRemainder` | src/epigone/execute/executor.py:2448-2465 | an attempt goes out if and only if its price exists and a quantum remains, for all of the remainder that can be expressed |
| `CopyOrders.ExitRetriesRemainder` | src/epigone/execute/executor.py:2421-2478 | an exit is retried to three orders, and stops short only because nothing remains, an answer was lost, a halt was seen or what remains has no price or size; no retry follows a halt |
| `CopyOrders.DueCloseLeavesTheRemainder` | src/epigone/execute/executor.py:2298-2397 | from true books a close that is due and whose first order fills in full leaves the venue less than a quantum and ends the episode |
| `CopyOrders.EntrySendsIffPermitted` | src/epigone/execute/executor.py:1999-2090 | an entry sends if and only if it is not winding down, at most five minutes old, orderable, a scale-in of something live and held or an open of nothing held on a leader of $100 in a copyable market, claimed, not halted, its leverage set, and what it wants is an order; then exactly that order, and otherwise nothing moves |
| `CopyOrders.TurnEntersIfDue` | src/epigone/execute/executor.py:1706-1710 | an open or scale-in event sends its one order exactly when that is due |
| `CopyOrders.TurnExitsIfDue` | src/epigone/execute/executor.py:1711-1728 | a close, scale-out or flip that is due sends first of all the whole of what it closes |
| `CopyOrders.FlipGoesOnToOpen` | src/epigone/execute/executor.py:1716-1729 | a flip whose close is done and owned goes on to its open exactly when that is due from where the close left the sub |
| `CopyOrders.WindDownOnlyCloses` | src/epigone/execute/executor.py:2014-2029 | whatever a backlog holds, a cycle that is winding down sends closing orders only |
| `CopyOrders.BacklogIsItsEvents` | src/epigone/execute/executor.py:1685-1697 | a backlog is its events one after another, whatever became of the one before |
| `CopyBooks.EpisodesFollowPositions` | src/epigone/execute/executor.py:2480-2536 | over any backlog a coin's live episode is for what its position holds, within a quantum |
| `CopyBooks.ExitStakesTheRest` | src/epigone/execute/executor.py:2693-2730 | an exit leaves the rest staked at its own entry price and leverage and moves no other coin |
| `CopyBooks.EntryStakesWhatItHolds` | src/epigone/execute/executor.py:2247-2272 | a filled entry stakes all then held at the fill's price and the leverage judged |
| `CopyCycle.ScaleInTrueIffSameSide` | src/epigone/execute/executor.py:2249-2272 | the working copy stays true through a filled scale-in if and only if the event's side is the side held |
| `CopyCycle.ScaleInOntoResidue` | src/epigone/execute/executor.py:1716-1729 | the run in which they differ: a flip whose close leaves a residue, then the leader's scale-in on the new side, after which the working copy says what the venue does not hold |
| `CopyRuns.AScaleInLandsOnAResidue` | src/epigone/execute/executor.py:1716-1729 | that run in figures: long two coins at $100, a flip's close that fills one and is halted, a scale-in of the new short filled onto the other |
| `CopyCycle.LostAnswerIsDoubled` | src/epigone/execute/executor.py:1690-1697 | the run open, close, open of one coin: the first open executes without an answer, the close is skipped for want of a local position, and the second open is sent onto the first |
| `CopyRuns.ASecondOpenLandsOnTheFirst` | src/epigone/execute/executor.py:1690-1697 | that run in figures: from nothing, one coin at $100 bought without an answer, a close, and a second coin bought onto it |
| `CopyCycle.ReduceRemainder` | src/epigone/execute/executor.py:2421-2478 | the loop sends the orders and reports the fills the specified retry does |
| `CopyCycle.CycleState.CommittedStake` | src/epigone/execute/policy.py:284-295 | the loop totals the margin of every position |
| `CopyCycle.CycleState.ApplyFill` | src/epigone/execute/executor.py:2693-2730 | nothing left is no position; otherwise that coin is held on that side at that size and leverage |
| `CopyCycle.CycleState.SettleExit` | src/epigone/execute/executor.py:2480-2536 | a full exit with nothing remaining ends its episode, any other adopts what is left |
| `CopyCycle.CycleState.RunExit` | src/epigone/execute/executor.py:2298-2397 | an exit leaves exactly the specified outcome, skips and halts included; `CopyOrders.ExitSendsIffDue` says when that sends |
| `CopyCycle.CycleState.SettleEntry` | src/epigone/execute/executor.py:2247-2272 | a fill opens an episode or grows the live one, and the working copy with it |
| `CopyCycle.CycleState.RunEntry` | src/epigone/execute/executor.py:1735-1863 | an entry leaves exactly the specified outcome, every skip included; `CopyOrders.EntrySendsIffPermitted` says which those are |
| `CopyCycle.CycleState.HandleEvent` | src/epigone/execute/executor.py:1706-1733 | one event's legs, in order, leave exactly the specified outcome |
| `CopyCycle.CycleState.DrainBacklog` | src/epigone/execute/executor.py:1670-1703 | the backlog loop ends as the specified fold: never with two live episodes of a coin, and from a true start with every order answered for it ends true with every open sent onto nothing |
| `LossBudget.ReenableRules` | src/epigone/execute/subs.py:198-292 | the ledger survives a restatement if and only if the sub is enabled and a number named, the marks if and only if the number did not move on an enabled sub; a disabled sub starts over |
| `LossBudget.StagesAreExact` | src/epigone/execute/policy.py:340-351 | a loss is a breach from the whole budget and a warning from four fifths of it |
| `LossBudget.LossIdentity` | src/epigone/execute/policy.py:298-325 | for any history the measured loss is minus the trading result since arming plus exactly what the audit trail misreads |
| `LossBudget.LossIsMinusTheResult` | src/epigone/execute/subs.py:541-585 | with every top-up truly recorded on its side of the arming, the loss is minus the trading result, whatever was funded |
| `LossBudget.MisstampedTopUp` | src/epigone/execute/executor.py:988-1032 | one top-up stamped on the wrong side of the arming reads as profit or as loss of exactly its amount |
| `BudgetMachine.BreachIsBacked` | src/epigone/execute/subs.py:469-512 | in every interleaving whose armings never share a clock, a breach mark means a loss measured in the current arming met the current budget, and the schema's checks hold |
| `BudgetMachine.BackedThroughoutIffNothingMixes` | src/epigone/execute/subs.py:469-512 | whatever the clocks, a breach is backed at every point of a run if and only if no judgement lands a first breach from a read of another arming that no verdict of this one backs |
| `BudgetMachine.CyclesNeverMoveMarks` | src/epigone/execute/subs.py:469-512 | no executor step, in any state, clears or moves a mark, a baseline or a budget |
| `BudgetMachine.MarksStandWithoutCopy` | src/epigone/execute/subs.py:469-512 | nor does any run without a restatement |
| `BudgetMachine.MarkReturnsIff` | src/epigone/execute/subs.py:469-512 | a run leaves a mark on a row that did not carry it if and only if some judgement at that clock lands a first breach and no later restatement clears it |
| `BudgetMachine.CancelledWindDownFinishesIff` | src/epigone/execute/subs.py:515-538 | once a standing breach is cleared, a cycle that still believes in it disables the row if and only if the row is enabled and a later judgement bearing the cleared mark's clock landed a first breach that stands |
| `BudgetMachine.CancelledWindDownNeverDisables` | src/epigone/execute/subs.py:515-538 | so it never does while no later verdict bears that clock |
| `BudgetMachine.BreachLandsIffTermsStand` | src/epigone/execute/executor.py:899-945 | a first breach lands if and only if the row still carries the number it was judged by, in the arming it was measured from |
| `BudgetMachine.WarnedThroughoutIffNothingUnwarns` | src/epigone/execute/executor.py:912-921 | a breached row carries a warning at every point of a run if and only if no judgement lands a first breach on a row without a warning from a read that saw one |
| `BudgetMachine.RestoredNumberLetsAnOldVerdictLand` | src/epigone/execute/executor.py:1051-1114 | a concrete run raises and restores the number under a cycle whose old verdict then lands and disables |
| `BudgetMachine.RestoredNumberBreachesUnwarned` | src/epigone/execute/executor.py:912-921 | a concrete run leaves a breached row unwarned |
| `BudgetMachine.SharedClockMixesArmings` | src/epigone/execute/subs.py:442-512 | when two armings share a clock, a concrete verdict of the first lands in the second |
| `BudgetMachine.SharedVerdictClockDisables` | src/epigone/execute/subs.py:515-538 | when two verdicts share a clock, a cycle that believes in the cleared breach disables the row by the new one |
| `BudgetMachine.CopySubRow.Reenable` | src/epigone/execute/subs.py:198-292 | the update leaves exactly the specified row and the schema's checks |
| `BudgetMachine.CopySubRow.DisableSub` | src/epigone/execute/subs.py:295-316 | only `enabled` changes, and a mapping is reported if and only if it was enabled |
| `BudgetMachine.CopySubRow.ArmBudget` | src/epigone/execute/subs.py:442-466 | a baseline lands if and only if a budget waits for one, and never replaces one |
| `BudgetMachine.CopySubRow.RecordBudgetSpend` | src/epigone/execute/subs.py:469-512 | the write lands if and only if its terms still stand, and never moves a set mark |
| `BudgetMachine.CopySubRow.DisableForSpentBudget` | src/epigone/execute/subs.py:515-538 | the row is disabled if and only if it is enabled and carries that very breach |
| `BudgetMachine.CopySubRow.JudgeLossBudget` | src/epigone/execute/executor.py:868-986 | one judgement writes the specified marks; from an unmoved row what it believes is what it wrote: the loss is baseline plus deposits less equity, a breach mark if it was there or the loss meets the budget, a warning if it was there or the loss meets four fifths; a moved row is left alone |
| `AssetIds.PlaceRoundTrip` | src/epigone/gateway/__init__.py:626-631 | venue and index are recovered from any id within the arithmetic's room, and every id names one place |
| `AssetIds.FetchAssetSpecs` | src/epigone/gateway/__init__.py:661-698 | the nested walk builds the specified map, or fails |
| `AssetIds.LastAssetStands` | src/epigone/gateway/__init__.py:681-697 | a name repeated in a universe is its last asset's, and one already mapped is overwritten |
| `AssetIds.MissingVenueRaises` | src/epigone/gateway/__init__.py:689-692 | the fetch fails if and only if a wanted venue is not listed |
| `AssetIds.IdsNameOneCoin` | src/epigone/gateway/__init__.py:661-698 | distinct mapped coins have distinct ids, and each id points back at its coin with its precision |
| `AssetIds.EveryAssetHasItsOwnId` | src/epigone/gateway/__init__.py:661-698 | with distinct namespaced coins every covered asset is mapped to the id of its own place |
| `AssetIds.VenuesCollideIffTooLarge` | src/epigone/gateway/__init__.py:626-631 | two venues share an id if and only if the earlier universe reaches past the strides between them |

## Left out

- WeightBudget.SharedWeightBudget.Spend: bounds an uncontended spend; under contention other spenders may take the tokens forever, and the source promises no fairness.
- CopyCycle.HandleKeepsGoodIff: assumes an exit cannot take more than is held, because the venue holds its orders to reducing or a trim's coin sizes do not more than double (`TrimPastHeld` shows sizes alone need the second).
- CopyCycle.TrueExitNeverReverses: assumes a true working copy and a bounded trim; from a stale one the venue's reduce-only does it (`ExitNeverReverses`).
- BudgetMachine.BreachIsBacked: assumes two armings never share a clock reading, because without it is false (`SharedClockMixesArmings`); `BackedThroughoutIffNothingMixes` gives the exact condition for any clocks.
- BudgetMachine.CancelledWindDownNeverDisables: assumes no later verdict bears the cleared breach's clock, because without it is false (`SharedVerdictClockDisables`); `CancelledWindDownFinishesIff` gives the exact condition.
- CopyClaims.EventTables.OutstandingEvents: omits the consumer, `authoritative` and `traders` filters of src/epigone/position_events.py:198-272; the protocol's reading step takes any part of the backlog, so its safety holds under any filter.
- Withdrawals.NoFalseAlarm: assumes one trade direction per coin, closing fills within 5% of the last mark, and no fees, funding or positions opened and closed between two looks, which the source names as its own residues.
- Mirroring.DriftIsBounded: is about scales that fill fully and are not clamped or refused as dust.
- AssetIds.IdsNameOneCoin: assumes a core universe of at most 110000 and builder universes of at most 10000 (`VenuesCollideIffTooLarge` shows the room is needed).
- Consumption metering, rate-limit events and the in-process `WeightBudget` of the request budget: bookkeeping, or the same bucket without sharing.
- Decimal's 28-digit context and float rounding: reals are exact, so an estimate that errs by float rounding is not modelled.
- The websocket lane's pending and coalesced frames, `updated_at` columns, and the poller's drift comparison: only the transfer a drift causes is modelled.
- A position change carries the snapshot memory should hold, where the source carries the position and its opening clock separately.
- Position and order alerts, their floors and muting; order-event claims, which repeat the position-event claims.
- The Liquidity Floor's two thresholds, judging provisioning and exits, and all verdict prose: the entry pipeline takes their answers as inputs.
- Provisioning, adoption and funding of subs, bracket placement and maintenance, and the classification of vanished positions: dominated by exchange responses.
- The working copy reads each sub once a cycle from the exchange; that read, and the reconcile that adopts sizes between cycles, are not modelled: a cycle starts from any state.
- Bot commands, keyboards, menus and notices; HTTP, websocket and signing clients; keystore and configuration; SQL text, pools and timeouts; screener and focus-market queries.
