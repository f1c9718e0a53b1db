# EdgePilot: the trade ledger and its derived figures

This Dafny project models the parts of EdgePilot that keep money and shares straight, and
the engines that read bar streams. Every operation is described by functions on values;
code that updates state in place, or loops, is a method or class proved equal to those
functions; and the theorems are about the functions, for all inputs, runs and interleavings.

* **Ledger** (`Records`, `Ledger`, `LedgerSafety`, `LedgerAccounts`, `ImportProtocol`,
  `LedgerService`, `ImportRouting`, `ExitCash`, `Lifecycle`): positions, execution fills and
  journal trades as a state machine. Steps are importing a CSV row, reconciling a fill, and
  creating, planning, activating, moving the stop of, cancelling, reducing and closing a
  position. `ImportProtocol` adds whole files and importers racing under the unique key; the
  last three say what each step does to the rows it acts on and to the money.
* **Replay** (`ReplayOrder`, `CostReplay`, `CashConservation`, `ReplayCover`, `StoredPosition`,
  `StoredRun`, `RealizedPnl`, `RealizedEvents`, `OpenPositions`, `MarketValue`, `Equity`,
  `RealizedPast`, `LateDecisions`, `PastQuantity`, `EquityRun`, `Repricing`, `Drawdown`):
  analytics re-derives cost, fees, realized legs, open quantities, equity and drawdowns from
  fills, journal and snapshots; the theorems compare them with the cash that moved, with the
  stored position, between windows, and between the incremental and the full computation.
* **Bar streams** (`Bars`, `BarTable`, `StratSignals`, `StratMeaning`, `StratPlan`,
  `PlanMeaning`, `StratTheorems`, `Outcomes`, `OutcomeMeaning`, `PaFacts`, `FactsMeaning`):
  Strat signals and pending plans, scanner outcomes as bars arrive, daily facts. The modules
  on meaning read each result off the stored prices alone.
* **Sizing and budget** (`PortfolioRisk`, `RiskMeaning`, `CandidatePlan`, `SizingMeaning`):
  portfolio risk, plan sizing, guardrails, and the preview against the create.

Money, prices and quantities are reals. `round(x, 6)` and `round(x, 4)` are modelled as
written in `Rounding`: nearest multiple of the unit, ties to even, so every bound below
includes the rounding. `x or y` on numbers treats an absent and a zero `x` alike (`Wrappers`).
Times are integers, ids are datatypes, a fill's key stands for the digest of its idempotency
key. What the code requires of its data is explicit: row quantities are positive multiples of
0.000001 (type `Row`), fees are non-negative where the clamped fee pool matters (`CleanFill`),
request values pass the schemas (`ValidInput`, `ValidRequest`).

## Findings

Where a promise stops, one lemma gives an input on which it fails and one states the exact
condition under which it holds.

* A new buy that names a review position standing for an unmatched sell adds its shares to
  the sell's: `NamedUnmatchedSellGoesWrong`, `AdmissibleIsExact`.
* A failed row is tried again by the next import of its file: `RejectedRowsAreRetried`,
  `OverlapSafeExactly`.
* `entry_price or price` forgets the cost of shares stored at zero: `ZeroEntryIsForgotten`,
  `BuyAgreesExactly`.
* The as-of quantity of a position opened by hand drops its manual baseline once a fill is
  attached to it: `ManualBaselineIsDropped`, `ShowsStoredQuantityExactly`.
* For a past time it shows, of a hand-opened position, what later trims sold instead of what
  was held: `TrimHidesThePast`, `PastQuantityExactly`.
* The incremental equity differs from the full one for a starting equity at an exact half
  unit: `HalfUnitStartDrifts`, `IncrementalEquity`.
* A sell that met an empty replay is priced at its position's stored entry, which a later buy
  moves; the equity continued from a snapshot then differs: `HandOpenedPastIsOpen` with
  `OpenPastDrifts`, `ContinuesExactly`.
* A negative equity can break the pairwise meaning of the drawdown: `NegativeEquityGoesWrong`,
  `SeriesExactly`.
* An average true range of zero makes `_no_chase_rules` divide by zero: `FlatBarsRaise`,
  `PlanFailsExactly`.
* A bar stored out of order changes an outcome that was settled, its trigger or its reference:
  `FilledInBarMovesTheTrigger` and `LateBarMovesTheReference`, `MaturesExactly` and
  `ReferenceStaysExactly`.
* A plan that is already there keeps its levels while the preview shows the requested ones,
  so the preview and the budget it guards can be missed: `KeptLevelsBreakTheBudget`,
  `PreviewMatchesExactly` and `BudgetKeptExactly`.

## Model

| member | source | states |
|---|---|---|
| Ledger.FindFill | backend/app/services/execution_import_service.py:735-743 | looking a fill up by its key finds a stored fill with that key, and finds none exactly if there is none |
| LedgerSafety.BuySafe | backend/app/services/execution_import_service.py:705-716 | a buy on a sound position leaves an open, priced, sound one holding exactly the old quantity (nothing for a plan) plus the bought one, realized PnL untouched |
| LedgerSafety.SellSafe | backend/app/services/execution_import_service.py:717-731 | a sell takes its quantity away exactly, closes the position exactly when nothing is left, and books exactly its own realized PnL |
| LedgerSafety.NeverDividesByZero | backend/app/services/execution_import_service.py:709-713 | on a sound position the weighted average never divides by zero, for every positive quantity in the stored unit |
| LedgerSafety.StepSafe | backend/app/services/business/positions.py:379-591 | every validated import, reconcile, plan or lifecycle step keeps the ledger safe |
| LedgerSafety.RunSafe | backend/app/services/execution_import_service.py:446-732 | every ledger reachable by any run is safe: quantities never negative, open and reduced positions priced and held, closed and cancelled ones empty, no key owning two fills |
| LedgerSafety.TerminalIsFrozen | backend/app/services/execution_import_service.py:469-470 | closed and cancelled positions are absorbing: no run of any steps changes any field of theirs |
| LedgerSafety.FillsOnlyAdvance | backend/app/services/execution_import_service.py:542-629 | along any run no fill disappears or changes its execution data, and its reconciliation decision is taken at most once |
| LedgerSafety.OriginIsKept | backend/app/services/business/positions.py:413-431 | along any run a position past planning never returns to it, keeps its symbol and, once set, its entry date and initial stop, and no journal row is lost |
| LedgerSafety.RMultipleCountsRisk | backend/app/services/business/positions.py:53-62 | an exit k initial risks above the entry is worth k after rounding, and one at the stop minus one |
| LedgerAccounts.StepAccounts | backend/app/services/execution_import_service.py:575-629 | one step of any kind changes what fills and trades leave unexplained of a quantity only by what was opened by hand |
| LedgerAccounts.QuantityIsConserved | backend/app/services/business/positions.py:479-517 | over every interleaving of steps a position that is neither planned nor an unmatched sell holds its manual baseline plus non-ignored buys minus sells minus journal exits, exactly |
| LedgerAccounts.AdmissibleIsExact | backend/app/services/execution_import_service.py:446-472 | importing a row keeps every quantity explained if and only if it is no new buy that names, under its symbol, a position still standing for an unmatched sell |
| LedgerAccounts.NamedUnmatchedSellGoesWrong | backend/app/services/execution_import_service.py:469-472 | the excluded input exists: an unmatched sell of one share and a buy naming its review position leave two shares where the fills net to none |
| LedgerAccounts.ApplyRealizes | backend/app/services/execution_import_service.py:723-729 | a fill changes realized PnL by nothing if it is a buy and by its own rounded gain if it is a sell |
| LedgerAccounts.StepRealizes | backend/app/services/business/positions.py:479-591 | one step changes realized PnL by exactly the journal PnL it writes plus what its sell fill books |
| LedgerAccounts.RealizedIsConserved | backend/app/services/business/positions.py:479-591 | over every valid run realized PnL is exactly its initial value plus journal net PnL plus the deltas of the sell fills |
| ImportRouting.UnnamedRowIsRouted | backend/app/services/execution_import_service.py:446-505 | an unnamed new row is applied to a position of its symbol, as a matched fill or with the error of the application, if exactly one is planned, open or reduced; if none or more are, every position stays and a review position with the row's own quantity, price and date appears |
| ImportRouting.NamedRowIsRouted | backend/app/services/execution_import_service.py:655-680 | a named new row is applied to the position it names or finds none; a row whose key is stored changes nothing |
| ImportRouting.BuyIsApplied | backend/app/services/execution_import_service.py:705-716 | a buy adds its shares, sets the entry date once, and puts the entry price where all shares cost what the old ones did at theirs and the new ones do at the row's; nothing else changes |
| ImportRouting.SellIsApplied | backend/app/services/execution_import_service.py:717-731 | a sell earns its cash, fees off, less the cost of its shares at the entry price, takes the shares and closes at zero; otherwise it raises what is wrong with the position; nothing else changes |
| ImportRouting.BindIsImport | backend/app/services/execution_import_service.py:575-653 | binding the fill of a row under review leaves every other position as importing the row with the target's name would have, and succeeds exactly when that does |
| ExitCash.TrimEarns | backend/app/services/business/positions.py:462-517 | a trim books, on the position and on its journal row, the cash of the shares sold less their cost, once rounded; the R multiple is measured from entry to stop |
| ExitCash.CloseEarns | backend/app/services/business/positions.py:520-591 | a close does the same for all shares and leaves none |
| ExitCash.JournalIsCash | backend/app/services/business/positions.py:479-591 | over any valid run the journal PnL of a position is the cash of its exits less the cost of what was exited, up to half a unit for each exit |
| Lifecycle.ActivationTells | backend/app/services/business/positions.py:379-410 | a plan is activated exactly with a positive quantity, its own or the given one, and a stop below the entry price |
| Lifecycle.StopTells | backend/app/services/business/positions.py:413-431 | the stop moves on every unfinished position; the first stop moves with it only on a plan or if there was none |
| Lifecycle.TrimSucceedsExactly | backend/app/services/business/positions.py:462-478 | a trim succeeds exactly on an open or reduced, priced position that holds more than is trimmed |
| Lifecycle.CloseSucceedsExactly | backend/app/services/business/positions.py:520-545 | a close succeeds exactly on a priced position with shares, neither planned nor finished, for all of its shares |
| Lifecycle.PlanTells | backend/app/services/business/positions.py:158-205 | a plan request changes of a plan already there only what it lacks, of any other row nothing, and creates the plan if there is no row; a blocked one changes nothing |
| Lifecycle.PlanIsIdempotent | backend/app/services/business/positions.py:240-283 | asking for a plan with a quantity twice leaves what asking once does, even if the second time it would be blocked |
| Lifecycle.ConfirmTells | backend/app/services/execution_import_service.py:555-572 | confirming an undecided fill succeeds exactly for a priced buy and keeps its review position as an open one |
| Lifecycle.OnlyUndecidedAreReconciled | backend/app/services/execution_import_service.py:542-552 | only an active, undecided fill of a position under review can be reconciled |
| LedgerService.TradeLedger.ApplyFillToPosition | backend/app/services/execution_import_service.py:705-732 | the in-place update yields the position the accounting theorems speak of; a raise leaves the table untouched |
| LedgerService.TradeLedger.CreateFillAtomically | backend/app/services/execution_import_service.py:446-505 | the savepoint inserts fill and position change together, or undoes both on a key conflict or a failing row |
| LedgerService.TradeLedger.ImportFile | backend/app/services/execution_import_service.py:85-139 | the row loop leaves the books, the counts and the status of the import protocol below |
| LedgerService.TradeLedger.ReconcileFillWith | backend/app/services/execution_import_service.py:257-319 | confirm, bind and ignore perform the reconcile step, or report its error and change nothing |
| LedgerService.TradeLedger.AddCandidatePlan | backend/app/services/business/positions.py:147-205 | creating or completing a plan performs the plan step, or reports its error and changes nothing |
| LedgerService.TradeLedger.ActivatePlan | backend/app/services/business/positions.py:379-410 | activation performs its step, or reports its error and changes nothing |
| LedgerService.TradeLedger.MoveStop | backend/app/services/business/positions.py:413-431 | a stop update performs its step, or reports its error and changes nothing |
| LedgerService.TradeLedger.CancelPlan | backend/app/services/business/positions.py:434-459 | cancelling performs its step, or reports its error and changes nothing |
| LedgerService.TradeLedger.Trim | backend/app/services/business/positions.py:462-517 | a reduction performs its step on position and journal together, or reports its error and changes neither |
| LedgerService.TradeLedger.CloseOut | backend/app/services/business/positions.py:520-591 | a close performs its step on position and journal together, or reports its error and changes neither |
| LedgerService.TablesAreSafe | backend/app/services/business/positions.py:379-591 | the tables are at every moment those of the run of all operations performed on them, so with validated requests they are safe |
| ImportProtocol.EveryRowIsCounted | backend/app/services/execution_import_service.py:85-129 | imported, skipped and failed rows add up to the rows read, for any file on any ledger |
| ImportProtocol.StatusTells | backend/app/services/execution_import_service.py:852-857 | completed is reported exactly when every row of a non-empty file was imported or skipped, failed exactly when no row was |
| ImportProtocol.ImportedAreStored | backend/app/services/execution_import_service.py:85-124 | what is counted as imported is what was stored: one new fill for each, in that order |
| ImportProtocol.ImportIsRun | backend/app/services/execution_import_service.py:85-124 | importing a file is a run of single-row imports, so every theorem about runs holds of it |
| ImportProtocol.RunKeepsReviewsHaveFills | backend/app/services/execution_import_service.py:682-702 | on every reachable ledger each review position has its fill, so a position id conflicts only where the key does |
| ImportProtocol.NoopExactly | backend/app/services/execution_import_service.py:85-124 | importing a file changes nothing if and only if each of its parsed rows is stored or rejected |
| ImportProtocol.OverlapSafeExactly | backend/app/services/execution_import_service.py:85-124 | importing A and then A followed by B leaves the same books as importing A followed by B once, for every B, if and only if after the first import each parsed row of A is stored or would be rejected again |
| ImportProtocol.CleanImportIsOverlapSafe | backend/app/services/execution_import_service.py:85-124 | so it is safe for any A that imports without failed rows, any B and any reachable ledger |
| ImportProtocol.ReimportSkipsEverything | backend/app/services/execution_import_service.py:93-99 | importing a clean file again skips each of its rows, fails none and changes nothing |
| ImportProtocol.RejectedRowsAreRetried | backend/app/services/execution_import_service.py:93-124 | the law fails on this input: a sell listed before the buy that opens its plan is rejected once and applied by the second import of the same file |
| ImportProtocol.MoveOnLedger | backend/app/services/execution_import_service.py:100-124 | a move of an importer changes the ledger only by one successful insert of its next row under a new key; conflicts and failures leave it untouched |
| ImportProtocol.RacesAreSerializable | backend/app/services/execution_import_service.py:93-124 | for every interleaving of any number of importers the ledger equals one serial import, without skip or failure, of a log of distinct new rows, and every passed row is stored or rejected |
| ImportProtocol.RacesKeepKeysUnique | backend/app/services/execution_import_service.py:746-765 | every interleaving keeps the ledger safe: a key never owns two fills, also next to what was stored before |
| ReplayOrder.OrderIsUnique | backend/app/services/analytics_service.py:227-235 | time, buys first, then fill id decide the replay order completely: two ordered lists of the same fills are equal |
| ReplayCover.OrderIsChronological | backend/app/services/analytics_service.py:227-237 | the replayed list is the one listing of the fills in which time ascends, on one timestamp no sell is before a buy, and on one timestamp and side the ids ascend |
| ReplayCover.NeverOversellsExactly | backend/app/services/analytics_service.py:227-237 | a replay never sells more than it holds if and only if at no time more had been sold than bought, over all fills of a position: a buy on the timestamp of a sell is there to be sold |
| ReplayCover.CoveredFillsConserveCash | backend/app/services/analytics_service.py:255-330 | for such fills the legs add up to the net cash and the inventory left, up to one unit per sell |
| ReplayCover.LegTells | backend/app/services/analytics_service.py:255-330 | a sell with a known cost realizes its cash, fees off, less the cost of its shares and its share of the entry fees; its R multiple is the journal's for an exit at that cost |
| ReplayOrder.SortForReplay | backend/app/services/analytics_service.py:227-235 | sorting a position's fills yields that order |
| CostReplay.FillCostState.Buy | backend/app/services/analytics_service.py:267-276 | the buy helper updates the cost state as the conservation theorems assume |
| CostReplay.FillCostState.Sell | backend/app/services/analytics_service.py:279-329 | the sell helper updates the cost state and emits a leg exactly for a reported sell of known cost |
| CostReplay.FillsByPosition | backend/app/services/analytics_service.py:250-264 | the grouped dictionary holds, per position with any, the last row of each usable fill id |
| CostReplay.ReplayPosition | backend/app/services/analytics_service.py:226-246 | replaying one position emits the legs of its reported sells in order |
| CostReplay.ReplayPositions | backend/app/services/analytics_service.py:219-247 | the loop over positions files each position's legs under its id, and no entry where there are none |
| CostReplay.FillRealizedLegs | backend/app/services/analytics_service.py:201-247 | grouping, sorting and replaying all positions gives exactly the legs the window theorems speak of |
| CashConservation.BuyConserves | backend/app/services/analytics_service.py:267-276 | a buy moves exactly its price and fees into inventory cost plus fee pool |
| CashConservation.SellConserves | backend/app/services/analytics_service.py:279-329 | a sell's leg, its net cash and the change of inventory balance within 0.000001, counting the cost of shares sold but not held |
| CashConservation.CashIsConserved | backend/app/services/analytics_service.py:267-329 | for every replay the legs equal sell cash minus buy cash and fees plus remaining cost and fee pool, less uncovered cost, within 0.000001 per sell; overselling included |
| CashConservation.CoveredCashIsConserved | backend/app/services/analytics_service.py:267-329 | the same without any uncovered cost when no sell exceeds what is held at its turn |
| StoredPosition.BuyAgrees | backend/app/services/execution_import_service.py:705-716 | after the same buy, on a plan or on held shares not stored at zero, the stored quantity equals the replayed one and the entry price drifts from the average cost by at most half a unit more |
| StoredPosition.BuyAgreesExactly | backend/app/services/execution_import_service.py:708-713 | every next buy on held shares keeps that if and only if their stored entry price is not zero |
| StoredPosition.SellAgrees | backend/app/services/execution_import_service.py:717-731 | after the same sell quantities still agree exactly and the price drift is unchanged |
| StoredPosition.StoredRefinesReplay | backend/app/services/execution_import_service.py:705-732 | for a plan changed only by fills in replay order, no buy meeting held shares stored at zero: equal quantities, entry price within 0.0000005 per buy of average cost while shares are held, stored realized PnL equal to legs plus charged entry fees within 0.000001 per sell plus the price bound times the quantity sold |
| StoredRun.ImportsFold | backend/app/services/execution_import_service.py:85-124 | after any run of imports, of rows for whatever positions, a position is the fold of the fills attached to it |
| StoredRun.LedgerRefinesReplay | backend/app/services/analytics_service.py:201-247 | the same refinement on the ledger: a plan's row after such a run agrees with the replay of the stored fills sorted as analytics sorts them |
| StoredPosition.RMultiplesAgree | backend/app/services/analytics_service.py:599-610 | analytics and journal measure the same R multiple for an exit at the stored entry price |
| StoredPosition.ZeroEntryExactly | backend/app/services/execution_import_service.py:708-713 | the first buy stores a zero entry price if and only if its price is at most half a unit |
| StoredPosition.ZeroEntryIsForgotten | backend/app/services/execution_import_service.py:708 | a buy onto shares stored at zero breaks the refinement: it prices them at its own price, 100 against an average cost below 51 |
| StoredPosition.ClosedEntryIsKept | backend/app/services/analytics_service.py:327-329 | once all is sold the replay forgets its cost while the position keeps its entry price, so the price bound speaks of held shares |
| RealizedPnl.LegsIgnoreInputOrder | backend/app/services/analytics_service.py:201-264 | neither order nor repetition of the input fills changes any position's legs |
| RealizedPnl.LegsIgnoreLaterFills | backend/app/services/analytics_service.py:219-247 | the legs of a report are settled: extending the basis by any later fills leaves them equal |
| RealizedPnl.WindowLegsConcatenate | backend/app/services/analytics_service.py:70-84 | the legs of a window are those of its first part followed by those of its second, for every split |
| RealizedPnl.EventIsSumOfLegs | backend/app/services/analytics_service.py:356-372 | rounding an event's sum loses nothing: its PnL is exactly the sum of its fill legs and journal legs |
| RealizedPnl.WindowSumsAdd | backend/app/services/analytics_service.py:178-198 | event sums of adjacent windows add up exactly, journals included, with or without a lower end |
| RealizedPnl.RealizedWindowsAdd | backend/app/services/analytics_service.py:64-105 | realized PnL over [a, c] is exactly that over [a, b] plus that over [b + 1, c], for every a, b and c |
| RealizedEvents.AggregateIsBetween | backend/app/services/analytics_service.py:375-391 | an event's R multiple lies between the smallest and largest of its legs, rounding included, and is absent exactly when no leg has one |
| RealizedEvents.AggregateBalances | backend/app/services/analytics_service.py:375-391 | around an event's R multiple the deviations of its legs, weighted by quantity, cancel up to its rounding; without any quantity the plain deviations do |
| RealizedEvents.JournalRowCounts | backend/app/services/analytics_service.py:332-353 | a journal row counts once, under its position or under itself, with its net PnL or, if that is all, its gross PnL |
| RealizedEvents.AddJournalLegs | backend/app/services/analytics_service.py:332-353 | the journal loop appends to each key exactly the legs of its journal rows, keeping what was there |
| RealizedEvents.CollectLegs | backend/app/services/analytics_service.py:178-198 | fills and journal together give exactly the legs by key of the window theorems |
| RealizedEvents.EventsFromLegs | backend/app/services/analytics_service.py:356-372 | one event per key, and their PnL adds up to the reported sum |
| RealizedEvents.Realize | backend/app/services/analytics_service.py:178-198 | the whole computation returns the events of a report and the sum the window theorems split |
| OpenPositions.QuantitiesFromFills | backend/app/services/analytics_service.py:450-461 | the dictionary has a position exactly if a non-ignored fill is attached to it, with buys minus sells |
| OpenPositions.ExitQuantities | backend/app/services/analytics_service.py:464-475 | the dictionary holds what the journal exited from each position by then |
| OpenPositions.RunningQuantities | backend/app/services/analytics_service.py:478-494 | the dictionary has a position exactly if a journal row is running, with the running quantity |
| OpenPositions.OpenPositionsAsOf | backend/app/services/analytics_service.py:419-447 | the loop keeps exactly the started positions whose derived quantity is positive |
| OpenPositions.QuantityAsOfNow | backend/app/services/analytics_service.py:438-444 | as of now a live position with fills shows its stored quantity less what is unexplained; without fills the stored one |
| OpenPositions.ShowsStoredQuantityExactly | backend/app/services/analytics_service.py:419-447 | on every reachable ledger the as-of-now quantity of a live position equals the stored one if and only if no fill is attached to it or nothing was put on it by hand |
| OpenPositions.ManualBaselineIsDropped | backend/app/services/analytics_service.py:438-444 | a position of ten opened by hand and a bought fill of five: fifteen are stored, five are shown |
| PastQuantity.PastQuantityExactly | backend/app/services/analytics_service.py:438-444 | for a position open at a past time, the grown ledger still shows the quantity stored then if and only if, where fills had reached it, nothing had been put on it by hand, and where none had, it has since been exited in full or not touched; over all admissible runs of later-dated steps |
| PastQuantity.TrimHidesThePast | backend/app/services/analytics_service.py:478-494 | of ten shares opened by hand four are sold at time 2: analytics shows four at time 1 |
| OpenPositions.UnrealizedPnl | backend/app/services/analytics_service.py:394-416 | the loop sums marked gains, with the stored value where a live position has no mark, and rounds once |
| MarketValue.UnrealizedIsWorthLessCost | backend/app/services/analytics_service.py:394-416 | unrealized PnL is what the open shares are worth at their closes, less their cost, plus the stored figures of live positions without a close, rounded once |
| MarketValue.UnrealizedFollowsCloses | backend/app/services/analytics_service.py:394-416 | a close that rises by d raises unrealized PnL by d for every share open in the symbol, up to rounding |
| Equity.EquityAsOf | backend/app/services/analytics_service.py:628-710 | both branches over the event loops: starting equity plus everything realized, or snapshot plus what came after it and the change of unrealized PnL |
| Equity.RoundThenAdd | backend/app/services/analytics_service.py:696 | rounding before adding a grid amount equals rounding after, if and only if no exact half unit meets an odd number of units |
| Equity.RealizedSplitsAt | backend/app/services/analytics_service.py:640-710 | what is realized until t is exactly what is realized until s plus what is realized after s with the whole history as basis |
| Equity.IncrementalEquity | backend/app/services/analytics_service.py:640-710 | the snapshot branch at any t returns the from-scratch equity if and only if the starting equity is not an exact half unit changed by an odd number of units |
| Equity.SnapshotEqualsScratch | backend/app/services/analytics_service.py:640-710 | for a starting equity in whole units the two branches are equal at every t after s |
| Equity.HalfUnitStartDrifts | backend/app/services/analytics_service.py:696-710 | a start of 10000.0078125 and one hand-opened share whose close rises by one unit: the two branches over that ledger show two equities |
| Equity.LedgerEquityIsIncremental | backend/app/services/analytics_service.py:628-710 | on one safe ledger, with open quantities and unrealized PnL derived from its own tables, continuing from a snapshot gives the equity of a full computation |
| MarketValue.EquityIsWorth | backend/app/services/analytics_service.py:698-710 | the equity of a ledger is the starting equity, what has been realized, and what the open shares are worth beyond their cost |
| MarketValue.SnapshotCarriesOn | backend/app/services/analytics_service.py:681-696 | carried on from a snapshot it is the snapshot's, what has been realized since, and what unrealized PnL has gained since |
| MarketValue.EquityFollowsCloses | backend/app/services/analytics_service.py:628-710 | a close that rises by d raises equity by d for every share open in the symbol, up to rounding |
| RealizedPast.RealizedPastStays | backend/app/services/analytics_service.py:201-247 | what is realized up to a time stays if the tables' past stays and no position priced by its stored entry is repriced |
| LateDecisions.DecisionMovesPast | backend/app/services/execution_import_service.py:542-629 | on any reached ledger, confirming or ignoring a review fill, however old, leaves what is realized up to any time as it was, and binding it moves that by exactly what it does to the target's own legs |
| LateDecisions.BindMovesThePast | backend/app/services/execution_import_service.py:575-608 | a sell left unmatched at time 1 and bound later books a gain of ten at time 1 |
| EquityRun.EquityContinues | backend/app/services/analytics_service.py:640-710 | a snapshot taken during a run still gives the full equity after the run has gone on with steps dated later, confirming and ignoring older fills included, if every position is finished or none of its sells so far met an empty replay |
| Repricing.ContinuesExactly | backend/app/services/analytics_service.py:291-297 | that condition is exact: it holds if and only if every such later run, time and set of closes gives equal equities |
| Repricing.OpenPastDrifts | backend/app/services/analytics_service.py:291-297 | where it does not hold, one later buy reprices a past leg and the two equities differ |
| Repricing.HandOpenedPastIsOpen | backend/app/services/analytics_service.py:291-297 | such a ledger is reached by opening a position by hand and importing a sell of it |
| Drawdown.MaxDrawdown | backend/app/services/analytics_service.py:875-884 | the running-peak loop over recorded equities, absent ones skipped, returns the rounded worst change from the peak |
| Drawdown.LoopIsWorstChange | backend/app/services/analytics_service.py:875-884 | that value is the minimum of 0 and (e_j - e_i) / e_i over all i <= j with e_i > 0, if no negative equity follows two different positive ones |
| Drawdown.NonNegativeIsWorstChange | backend/app/services/analytics_service.py:875-884 | so it is for equities that are never negative |
| Drawdown.SeriesExactly | backend/app/services/analytics_service.py:881-883 | for every series the loop returns the pairwise minimum if and only if each equity, when added, was not negative, or fell from one positive level only, or no further from the lowest positive one than the worst change so far |
| Drawdown.NextEquityExactly | backend/app/services/analytics_service.py:881-883 | one snapshot of that: on a history with the meaning, the next equity keeps it if and only if it meets the condition |
| Drawdown.MeaningOfPrefix | backend/app/services/analytics_service.py:881-883 | a meaning once lost never returns: a series that has it had it before its last equity |
| Drawdown.WorstChangeIsUnique | backend/app/services/analytics_service.py:875-884 | the declarative meaning determines one value |
| Drawdown.NegativeEquityGoesWrong | backend/app/services/analytics_service.py:881-883 | with a negative equity after two levels the pairwise meaning fails, on a three-snapshot series |
| Drawdown.MaxIsAtLeastCurrent | backend/app/services/analytics_service.py:887-908 | over the same snapshots the maximum drawdown is never milder than the current one, rounding included |
| Drawdown.CurrentIsWorstToLast | backend/app/services/analytics_service.py:887-908 | the current drawdown is zero if no equity is positive, and else, unless the last equity is negative, the worst change from any positive equity to the last one |
| StratSignals.CalculateSignals | backend/app/services/strat_service.py:188-233 | the loop with its three carried variables returns exactly the declarative signals, also across bars without full prices |
| StratMeaning.SignalsTell | backend/app/services/strat_service.py:188-233 | one signal for every bar with its prices that follows one with its prices, in order; its types name the sides broken, and its setup, levels, invalidation, continuity and score follow from what the last three bars broke |
| StratSignals.SignalIsLocal | backend/app/services/strat_service.py:188-233 | a bar's signal is a function of that bar and the three before it |
| StratSignals.SignalsArePrefix | backend/app/services/strat_service.py:188-233 | later bars never change or remove a signal already given |
| StratSignals.SignalsMirror | backend/app/services/strat_service.py:405-472 | negating all prices mirrors every signal: long and short, 2U and 2D, breakout and breakdown, trigger and stop |
| StratPlan.ComputeAverageTrueRange | backend/app/services/strat_service.py:536-556 | the loop with its carried close averages the last fourteen true ranges, or as many as there are |
| StratPlan.CountConsecutive | backend/app/services/strat_service.py:569-579 | the backward loop counts the unbroken run of bars of the given type at the end |
| StratPlan.MotherGuards | backend/app/services/strat_service.py:621-641 | the inside-bar guards raise exactly when a positive mother range is divided by a zero average range |
| StratPlan.OpeningGuards | backend/app/services/strat_service.py:595-620 | the guards on risk, distance, extension and consecutive bars, raising exactly on a zero average range under an extended trigger |
| StratPlan.AppendNoChaseRules | backend/app/services/strat_service.py:582-656 | all guards in order of appending, raising exactly when one of its divisions is by zero |
| StratPlan.CalculateTriggerPlan | backend/app/services/strat_service.py:263-373 | the plan over the loops is the plan of the forecast theorems, or the division error |
| PlanMeaning.PlanTells | backend/app/services/strat_service.py:263-373 | every figure of a plan from the prices: pattern from what the last bars broke, trigger one tick beyond the last bar, stop at its other side, risk and limit between them, the count of rises in a row, the distance from the average |
| PlanMeaning.PlanBlockedExactly | backend/app/services/strat_service.py:582-656 | each guard is there exactly under its own condition, and a pending plan is blocked if and only if its risk is too wide, it is too far above the average, it is the third rise in a row, or the mother bar is too large |
| PlanMeaning.AverageSpans | backend/app/services/strat_service.py:536-556 | the average true range is the mean span, previous close included, of the last fourteen bars, or of all if there are fewer |
| PlanMeaning.RangeOfNext | backend/app/services/strat_service.py:536-552 | a bar with its prices adds its true range from the latest close before it, however long ago; any other bar adds none |
| StratTheorems.PlanFailsExactly | backend/app/services/strat_service.py:602-641 | the computation raises if and only if a pattern is pending, the average true range is zero, and the trigger lies above the 20-day average or the pattern's mother bar has a range |
| StratTheorems.FlatEndRaises | backend/app/services/strat_service.py:602-617 | any complete history whose last fifteen bars trade at one price, not below the 20-day average, raises for a long plan |
| StratTheorems.FlatBarsRaise | backend/app/services/strat_service.py:602-617 | twenty bars, five at 5 and fifteen at 10, raise with their own calculated 20-day average of 8.75 |
| StratTheorems.LongForecastExactly | backend/app/services/strat_service.py:440-456 | if the next bar keeps the latest low, a long plan's pattern, direction and stop are realised if and only if the next bar makes a higher high |
| StratTheorems.ShortForecastExactly | backend/app/services/strat_service.py:440-456 | the same for short plans and a lower low |
| StratTheorems.TriggerIsBeyond | backend/app/services/strat_service.py:475-484 | after rounding, the pending trigger still lies strictly beyond the latest bar, for every price |
| StratTheorems.ForecastIsRealised | backend/app/services/strat_service.py:280-320 | a plan whose trigger the next bar reaches without breaking the other side becomes that bar's signal with the same pattern, direction and stop, on or off the price grid |
| StratTheorems.GuardsAgree | backend/app/services/strat_service.py:582-656 | guards depend on the window only through the mother bar and the count being at least three |
| StratTheorems.WindowLosesNothing | backend/app/services/strat_service.py:245-260 | on complete history the plan from the last 40 bars has the status, pattern, prices, average range and guard codes of the plan from all bars, or both raise; its 2U count is the full one capped at 39 |
| Outcomes.FirstIndexAtOrAbove | backend/app/services/scanner_outcome_service.py:209-216 | the scan finds the first bar at or above the threshold |
| Outcomes.FirstIndexAtOrBelow | backend/app/services/scanner_outcome_service.py:219-226 | the scan finds the first bar at or below the threshold |
| Outcomes.HorizonMetrics | backend/app/services/scanner_outcome_service.py:181-196 | the loop fills each horizon with its return and excursions, absent without reference or enough bars |
| BarTable.Ascend | backend/app/services/scanner_outcome_service.py:101-111 | bars are read in the order of their timestamps, each once, whatever order they were stored in |
| Outcomes.OutcomeTable.Calculate | backend/app/services/scanner_outcome_service.py:18-61 | the upsert stores exactly the evaluation of the bars in the table, queried in time order, and touches no other candidate |
| OutcomeMeaning.EvaluationTells | backend/app/services/scanner_outcome_service.py:74-206 | everything an outcome says, from the stored bars: the reference is the latest one up to the detection, the next sixty without a gap count, the trigger is dated by the first of them to touch it, the stop by the first to fall to it from then on, and each full horizon measures its close, highest high and lowest low against the reference |
| Outcomes.ReferenceStaysExactly | backend/app/services/scanner_outcome_service.py:74-90 | the reference moves if and only if a bar arrives that is later than it and not later than the detection |
| Outcomes.LateBarMovesTheReference | backend/app/services/scanner_outcome_service.py:74-90 | a bar stored late, before a detection newer than all bars, replaces the reference |
| Outcomes.PrefixExactly | backend/app/services/scanner_outcome_service.py:93-111 | new bars keep the reference and the bars counted as a prefix if and only if each is older than the reference or later than the last bar counted |
| Outcomes.EvaluationMatures | backend/app/services/scanner_outcome_service.py:114-178 | as bars arrive in that order, or are rewritten in it, trigger, stop and every metric stay once set, a stop before the trigger never reverts or changes after the trigger, status only advances, and 60 bars is a fixed point |
| Outcomes.MaturesExactly | backend/app/services/scanner_outcome_service.py:93-178 | outcomes mature for all prices, triggers and stops if and only if the stored times arrive in that order |
| Outcomes.FilledInBarMovesTheTrigger | backend/app/services/scanner_outcome_service.py:101-111 | a bar filled in between the detection and the newest one moves the trigger from day 10 to day 5 |
| Outcomes.WideBarHidesTheOrder | backend/app/services/scanner_outcome_service.py:135-147 | on given prices the order is more than needed: behind a bar wider than all others a filled-in bar changes nothing, for every trigger and stop |
| Outcomes.StopFollowsTrigger | backend/app/services/scanner_outcome_service.py:135-146 | a stop is reported only with a trigger and never earlier than it |
| Outcomes.ReturnIsWithinExcursions | backend/app/services/scanner_outcome_service.py:181-196 | at every available horizon the adverse excursion is at most the forward return, and that at most the favourable one |
| Outcomes.ExcursionsAreNested | backend/app/services/scanner_outcome_service.py:181-196 | a longer horizon never has a smaller favourable or larger adverse excursion |
| PaFacts.Calculate | backend/app/services/pa_calculator.py:17-135 | the loop that builds its range percentages as it goes returns the declarative facts of the sorted history |
| FactsMeaning.ColumnsAre | backend/app/services/pa_calculator.py:17-36 | closes, daily returns, true ranges and range shares are taken from each bar and the one before it |
| FactsMeaning.FactsAreListed | backend/app/services/pa_calculator.py:17-135 | there is one fact for each bar that has all its prices, under its time and in order |
| FactsMeaning.AverageIsMean | backend/app/services/pa_calculator.py:178-185 | an average times its window is the sum of the last values, and absent unless all of them are there |
| FactsMeaning.RankIs | backend/app/services/pa_calculator.py:210-218 | a percentile rank is the share of a full window of values that are at most the latest |
| FactsMeaning.OwnIs | backend/app/services/pa_calculator.py:45-135 | a bar's own figures: prices, range, its share of the close, and where in the range the close lies |
| FactsMeaning.TrendTells | backend/app/services/pa_calculator.py:45-135 | the averages of 20, 50 and 200 closes, the distance from and the side of each, and how the shortest has moved in five bars |
| FactsMeaning.ExtremesTell | backend/app/services/pa_calculator.py:45-135 | the extremes of 252 and 60 bars, the distance from them, the depth of the base, and whether the bar reaches the extreme of the bars before it |
| FactsMeaning.ReturnsTell | backend/app/services/pa_calculator.py:45-135 | volume against its average, the returns over 1, 21, 63, 126 and 252 bars, and the largest daily return of twenty with the risk it signals |
| FactsMeaning.VolatilityTells | backend/app/services/pa_calculator.py:45-135 | the average ranges of 5, 14 and 20 bars, their contraction, and the rank of the relative range in 252 bars |
| PaFacts.SortAscends | backend/app/services/pa_calculator.py:18 | bars are processed in time order |
| PaFacts.SortKeepsAll | backend/app/services/pa_calculator.py:18 | sorting loses and invents no bar |
| PaFacts.FactsOfPrefix | backend/app/services/pa_calculator.py:45-135 | the facts of a bar do not depend on any bar after it |
| PaFacts.NoLookAhead | backend/app/services/pa_calculator.py:17-135 | adding later bars, in any input order, leaves the earlier result as an exact prefix, percentile ranks included |
| PaFacts.NewExtremeIsOwnPrice | backend/app/services/pa_calculator.py:99-100 | a reported new 52-week extreme is the bar's own high or low |
| PaFacts.LevelsNest | backend/app/services/pa_calculator.py:67-70 | the reported year's range holds the quarter's, which holds the bar's, which holds its close, rounding included |
| PaFacts.TrendFactsAgree | backend/app/services/pa_calculator.py:90-95 | each above-average flag and the rounded distance to that average tell the same side |
| PaFacts.RankIsShare | backend/app/services/pa_calculator.py:210-218 | a volatility rank is positive and at most one, and is one exactly when the bar's value is the largest of its window |
| Bars.MaxOfIsMax | backend/app/services/pa_calculator.py:187-191 | a rolling maximum is a value present in the window that none exceeds, and absent exactly if none is present |
| Bars.MinOfIsMin | backend/app/services/pa_calculator.py:194-198 | a rolling minimum is a value present in the window that none undercuts, and absent exactly if none is present |
| PortfolioRisk.SumRisks | backend/app/services/portfolio_risk_service.py:68-71 | the sum over items is their total risk, absent amounts counting as zero |
| PortfolioRisk.TallySymbols | backend/app/services/portfolio_risk_service.py:80-87 | the running dictionary holds, for exactly the symbols present, the total and the number of their items |
| PortfolioRisk.RankBuckets | backend/app/services/portfolio_risk_service.py:89-98 | the sorted list holds each symbol's bucket once, in descending risk |
| PortfolioRisk.CheckBudget | backend/app/services/portfolio_risk_service.py:100-106 | the appended notices are those the next theorem tells apart |
| PortfolioRisk.NoticesTell | backend/app/services/portfolio_risk_service.py:100-106 | exceeded is shown exactly over budget, low exactly when one more trade of full size would use the budget up, the limit exactly at the maximal number of positions; with neither budget notice such a trade fits |
| PortfolioRisk.Summarize | backend/app/services/portfolio_risk_service.py:43-135 | the whole summary of a set of items, with the symbols ranked |
| RiskMeaning.PortfolioTells | backend/app/services/portfolio_risk_service.py:43-60 | the portfolio holds the planned, open and reduced positions, each once |
| RiskMeaning.ItemTells | backend/app/services/portfolio_risk_service.py:138-160 | an item shows what its shares lose from entry down to the stop in force, a stop of zero counting as none, and that loss as a share of the account |
| RiskMeaning.SummaryTells | backend/app/services/portfolio_risk_service.py:43-135 | the total is the exact sum of the items, what is left is the budget less it, and the shares shown are theirs |
| RiskMeaning.PartsTell | backend/app/services/portfolio_risk_service.py:76-135 | the risk by status and every bucket are the exact sums of their own items, counted, with their share of the account |
| RiskMeaning.RiskIsLossAtStop | backend/app/services/portfolio_risk_service.py:27-33 | the risk shown for an open position is exactly what closing it at its stop loses |
| PortfolioRisk.StatusesPartition | backend/app/services/portfolio_risk_service.py:119-130 | planned, open and reduced risk add up to the total, although each is rounded on its own |
| PortfolioRisk.SymbolsPartition | backend/app/services/portfolio_risk_service.py:80-87 | grouping by symbol loses no risk, for any items |
| PortfolioRisk.BucketsAddUp | backend/app/services/portfolio_risk_service.py:89-98 | the rounded symbol buckets add up to the rounded total exactly |
| CandidatePlan.VolatilityMultiplier | backend/app/services/business/candidates.py:47-54 | scaling never enlarges a position and never shrinks it below half |
| SizingMeaning.LevelsFallBack | backend/app/services/business/candidates.py:209-218 | entry and stop are the request's, else the candidate's, an armed confirmation first, else those of its plans, zero counting as absent |
| SizingMeaning.ScaleTells | backend/app/services/business/candidates.py:47-54 | the size is halved above a volatility rank of 0.8, cut to three quarters from 0.6 on, and else kept |
| SizingMeaning.SizeTells | backend/app/services/business/candidates.py:220-240 | as many shares are suggested as fit the limit per trade whole, scaled and made whole again; the request's number goes first; the plan risks them all |
| SizingMeaning.GuardrailsTell | backend/app/services/business/candidates.py:317-362 | each of the ten notices is shown exactly under its own condition, and no other notice is |
| SizingMeaning.ProfileTells | backend/app/services/business/positions.py:36-44 | the exit profile is the exit plan's, and two strategies have their own without one |
| CandidatePlan.CandidatePlanGuardrails | backend/app/services/business/candidates.py:317-362 | the appended list is the guardrails of the blocking theorem |
| CandidatePlan.PreviewCandidatePlan | backend/app/services/business/candidates.py:184-314 | the preview over the loops is the one the theorems below speak of: sizing, portfolio before and after, guardrails |
| CandidatePlan.PlanCandidate | backend/app/services/business/positions.py:115-205 | creating the plan on the ledger performs the step the preview theorems speak of, or reports its error and changes nothing |
| CandidatePlan.BlockedExactly | backend/app/services/business/candidates.py:317-362 | a plan is blocked if and only if a level is missing or misplaced, the total risk after it is over budget, or its quantity exceeds the volatility-adjusted size |
| CandidatePlan.PlannedQuantity | backend/app/services/business/positions.py:197-198 | the quantity a created plan gets is the previewed one |
| CandidatePlan.PreviewIsWhatHappens | backend/app/services/business/candidates.py:221-280 | without an existing plan, creating succeeds if and only if the preview has no blocking guardrail, and every figure of the portfolio is then the previewed one |
| CandidatePlan.PreviewMatchesExactly | backend/app/services/business/candidates.py:240-260 | with or without an existing plan, a successful create gives the previewed portfolio if and only if there was none or it holds no level but the previewed ones |
| CandidatePlan.RiskAfterPlan | backend/app/services/business/positions.py:167-205 | the total risk after a successful request is exactly that of the other positions plus that of the plan's row |
| CandidatePlan.PlanStaysInBudget | backend/app/services/business/candidates.py:343-344 | a successful request keeps total risk within (max_total_risk_pct + 0.0000005) times equity if there was no plan yet, or if the levels an incomplete plan keeps risk no more than the previewed ones |
| CandidatePlan.BudgetKeptExactly | backend/app/services/business/candidates.py:343-344 | given the row of a plan already there and the request, every safe ledger holding that row ends within the budget guard after a successful request if and only if the request lacks a level, or fills the row in and either is blocked on its own or leaves the row risking no more than the preview shows |
| CandidatePlan.KeptLevelsBreakTheBudget | backend/app/services/business/positions.py:158-180 | two requests from an empty ledger: the first stores a plan at 5000 over 1 without quantity; the second fills it in behind a preview that shows 50 and blocks nothing; its risk is 249950, beyond the budget |
| CandidatePlan.DefaultSizeFits | backend/app/services/business/candidates.py:220-240 | a default-sized plan has positive risk of at most the limit per trade, scaled by the volatility multiplier |
| CandidatePlan.SuggestedSizeExactly | backend/app/services/business/candidates.py:220-236 | without volatility scaling a whole number of shares fits the limit per trade if and only if it is at most the suggested quantity |
| CandidatePlan.LedgerRiskAddsUp | backend/app/services/portfolio_risk_service.py:60-135 | on any ledger planned, open and reduced risk make up the total, and so do the symbol buckets |

## Left out

- HTTP routes, sessions, migrations, authentication, tenants, notifications and audit rows: plumbing around the modelled operations.
- CSV and date parsing, digests and UUIDs: rows arrive normalized or malformed, keys are injective and not reused by hand-made positions.
- The generic PATCH of a position and hand-written journal rows: both overwrite ledger fields freely, so no ledger law survives them.
- Hand-made positions with arbitrary fields: `Create` starts a sound position that is not awaiting review.
- Fields that carry no law: current_r, asset type, strategy name of a position, currency, broker ids, raw rows, notes, update times.
- Nullable quantity, time and fee columns of stored fills: the import never writes them absent.
- OpenPositions.OpenPositionsAsOf: a position without entry date counts as started, where the code uses its creation time; the ledger keeps no creation times.
- Equity.EquityAsOf: does not model the branch for a snapshot without recorded unrealized PnL, a heuristic that does not refine the full computation.
- Lookup of snapshots, latest closes and facts by query: they are parameters of the functions.
- Win rate, profit factor, expectancy, strategy breakdown, execution quality, closed-position count and open-risk percentage: single expressions over the modelled events and positions.
- Order of risk items by update time and of buckets with equal risk: items are a dictionary, the ranking is proved to be descending.
- Scanner scoring, exit alerts, explanations and the job runner: threshold tables.
- Floating point: sums and products are exact, only the written roundings round.
- ImportProtocol.RacesAreSerializable: rows interleave at the grain of existence check and atomic insert; a lost update inside the database below that grain is not modelled.
- PastQuantity.PastQuantityExactly: speaks of positions with an entry date, which activation and imported buys set, and of later runs that bind no older fill.
- OpenPositions.ShowsStoredQuantityExactly: speaks of ledgers whose rows all lie in the past and whose journal rows have exits, as reduce and close write them.
