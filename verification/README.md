# Project Fifty: verified model of the execution kernel and the replay engine

This project models the two cores of Project Fifty in Dafny and proves what their design promises.

**The event-sourced execution kernel.** `ExecutionKernel` turns trade proposals into at most one broker order each.
It keeps eight dictionaries in memory and rebuilds all of them from an append-only ledger. Here it is a class whose
methods append events and update the same fields; its invariant says that a kernel started now on the same ledger
would hold exactly the same dictionaries. Every event a method appends is *legal* for the history before it
(`ExecutionLedger.LegalNext`), so everything proved about legal ledgers holds for every interleaving of proposals,
broker answers, cancellations, reconciliations and restarts, cut off after any event. Around it: the order life
cycle, the risk gate, the persisted control mode, the cumulative-fill replay and the two other readers of the same
reports, the simulated broker with books of its own, the query-before-retry submission of the Alpaca adapter, and
the hash chain of the local ledger.

**The replay and rebalance engine.** One rebalance (sales, then purchases), the backtest loop around it, walk-forward
windows over it, and what live trading shares with it: the economic rebalance policy, the proposal builder, the
"hold still" target, the confirmed selection and the windowed history fetch.

Exceptions are outcomes (`Result`), with the state as it was when they were raised. Amounts are exact reals.

## How the files fit together

| files | content |
|---|---|
| `Wrappers`, `Folds`, `Domain`, `MapSum`, `Arithmetic`, `Symbols`, `Contracts` | shared vocabulary, loops that stop, sums over dictionaries, sorted iteration |
| `Reconciler`, `Telescoping`, `RestartViews` | the cumulative-fill replay, what it adds up to, and the readers that must agree with it |
| `RiskEngine`, `OrderStateMachine`, `Control` | the gate, the life cycle, the control mode |
| `ExecutionLedger`, `Hydration`, `LedgerTheorems`, `PendingOrders` | events, what is rebuilt from them, legal ledgers and their theorems, the restart list |
| `Books`, `KernelSteps`, `KernelAnswers`, `Kernel` | prices, reservations and orders, what each step writes, what the kernel's answers mean for the orders, the kernel class |
| `Fills`, `Solvency`, `ShareCover`, `ShareRuns` | what was filled, cash cover over whole runs, the shares open sales may still take, share cover over whole runs |
| `SolvencyExamples`, `DoubleSale` | ledgers that meet the assumptions, and ledgers on which shares are sold twice |
| `SimulatedBroker`, `Lockstep`, `AlpacaSubmit`, `AlpacaSession`, `HashChain` | two sets of books, at most one order over whole sessions, the chain |
| `RebalancePolicy`, `Rebalancing`, `RebalanceTheorems`, `Turnover` | the plan, one rebalance, its laws, and what it reports |
| `Backtest`, `BacktestTheorems`, `BacktestPoints`, `NoLookAhead`, `WalkForward` | the run, its invariants, its points on the history, its independence of the future, its windows |
| `ProposalBuilding`, `ProposalTheorems`, `ProposalMeaning`, `Preserve` | proposals, the orders they become, the gaps they close, standing still |
| `Confirmed`, `ConfirmedTheorems`, `ConfirmedSelection`, `MarketData` | confirmed selection, what it guarantees, the procedure it carries out, windowed fetch |

## What the code does, where that shapes a statement

- A proposal overwrites the cost estimate of its key before a duplicate key is refused (kernel.py:198). That matters
  only while the order of that key waits for shares. `Solvency.CoverAfterProposal` and `Solvency.CashAfterProposal`
  give the exact condition: the cover survives if and only if the growth of the estimate fits into the cash that is not
  committed. Every other re-use is harmless, and `Solvency.ReusedKeyBreaksCover` derives a harmful one.
- Open sales reserve nothing (kernel.py:203-214): no decision on another key depends on them
  (`ShareCover.OpenSalesAreInvisible`), so the same shares can be sold twice. `DoubleSale.SoldTwice` opens both sales on
  any legal ledger that holds shares, `DoubleSale.FilledTwice` appends both fills, after which the ledger can be
  replayed no more. Cash stays covered all the same as long as replay succeeds (`Solvency.AlwaysSolvent`), and want of
  shares is the only way for it to fail. `ShareCover.CoveredAfterIntent` says exactly when a further sale is still
  covered; where all are, `ShareRuns.NeverSoldShort` shows that replay never fails.
- A purchase reserves its whole estimate until nothing remains to be filled (kernel.py:128-132).
- The portfolio can be read if and only if every held symbol has been reported at a positive price, or is TEST while
  nothing has (`Solvency.BooksAreReadable`); a purchase filled for nothing is a fair one after which it cannot
  (`SolvencyExamples.FreeFillHasNoMark`).
- A report is recorded before its transition is checked (kernel.py:276-282), so a refused transition leaves the
  report in the ledger.
- Any report with a positive price marks its symbol, also one without a fill (kernel.py:92-97): the report of a
  cancellation carries the price of the cancelling proposal (`Books.MarkIsLastPrice`, `KernelAnswers.TellsOfCancel`).
- Replay ignores quantities on a CANCELLED report (reconcile.py:40-41).
- The sums over final fills hold throughout a replay if and only if no new fill turns its order around after a fill
  that was worth something (`Telescoping.TelescopesExactly`); `Telescoping.TelescopingNeedsOneSide` is a list with such
  a turn.
- The event identifier is outside the hash (local.py:14-29), and it is the only thing that is:
  `HashChain.OnlyIdentifiersCanChange`.
- A builder with neither a policy nor a minimum order size proposes to reduce every unchanged position that has shares
  by nothing, an order the intent's validators refuse to construct. `Preserve.NothingProposed` gives the exact
  condition, and `ProposalTheorems.MinimumMeansOrders` shows that a minimum order size rules such orders out.
- In walk-forward evaluation a window has one point per test bar exactly when its start covers the warm-up
  (`WalkForward.WindowHasTestBars`).

## Model

| member | source | states |
|---|---|---|
| Domain.CreateIntent | src/project_fifty/domain/models.py:152-194 | an intent exists only with strictly positive quantity, price and notional, and the notional is their product |
| Reconciler.ReplayEvents | src/project_fifty/portfolio/reconcile.py:20-107 | the loop and the final marking compute the fold over the reports, including which error is raised |
| Reconciler.ApplyReports | src/project_fifty/portfolio/reconcile.py:27-101 | the loop over the reports, its six running variables and early exits, is that fold |
| Reconciler.MarkToMarket | src/project_fifty/portfolio/reconcile.py:103-107 | the marked value is cash plus the sum over all positions, in any order of iteration |
| Reconciler.Step | src/project_fifty/portfolio/reconcile.py:34-101 | a successful step keeps every held quantity strictly positive |
| Reconciler.ReplayFailurePersists | src/project_fifty/portfolio/reconcile.py:51-56 | a regression or short failure is raised again by every extension of the list |
| Telescoping.StepFill | src/project_fifty/portfolio/reconcile.py:43-101 | one first-delivered fill moves cash, applied amounts and exactly one holding by its increments over the order's previous fill |
| Telescoping.StepRefuses | src/project_fifty/portfolio/reconcile.py:34-101 | a report raises exactly if it is new and in another currency, or a fill whose figures have fallen or that sells more than is held; which of these is the error |
| Telescoping.ReplayApplied | src/project_fifty/portfolio/reconcile.py:29-49 | after any successful replay the applied amounts are those of each order's last fill report |
| Telescoping.ReplayTelescopes | src/project_fifty/portfolio/reconcile.py:20-107 | cash is the start plus the signed final amounts of every order, and every holding the signed sum of final quantities |
| Telescoping.RedeliveryIsHarmless | src/project_fifty/portfolio/reconcile.py:34-37 | a report delivered again at any later point changes neither result nor error |
| Telescoping.StepCashExactly | src/project_fifty/portfolio/reconcile.py:43-101 | after a new fill the cash follows the sum over final amounts if and only if the order keeps its side, or its previous fill was worth nothing |
| Telescoping.StepHeldExactly | src/project_fifty/portfolio/reconcile.py:43-101 | the same for the holdings: side and symbol are kept, or the previous fill was of no shares |
| Telescoping.TelescopesExactly | src/project_fifty/portfolio/reconcile.py:20-107 | the sums for cash, and those for holdings, hold at every point of a successful replay if and only if no new fill turns its order around |
| Telescoping.TelescopingNeedsOneSide | src/project_fifty/portfolio/reconcile.py:43-101 | a list with such a turn, for which the sum fails |
| RestartViews.ExpectedPositionQuantities | src/project_fifty/session/runtime_state.py:49-91 | the loop computes its fold over the reports, with its own error cases |
| RestartViews.ExpectedQuantitiesAgree | src/project_fifty/session/runtime_state.py:49-91 | whenever replay succeeds, the expected quantities succeed with exactly its quantity map |
| RestartViews.SharesRefuse | src/project_fifty/session/runtime_state.py:60-84 | the expected quantities refuse exactly falling quantities and sales of more than is held |
| RestartViews.ComputeExecutionMetrics | src/project_fifty/session/observation.py:181-214 | turnover, fees, slippage and filled-order count over the final amounts of every order, with its own error cases |
| RestartViews.FinalsAgree | src/project_fifty/session/observation.py:181-214 | whenever replay succeeds, the metrics succeed over exactly the applied quantities, amounts and fees of the replay |
| RestartViews.FinalsRefuse | src/project_fifty/session/observation.py:181-206 | the metrics refuse exactly falling quantities, amounts and fees |
| RestartViews.MetricsAreTotals | src/project_fifty/session/observation.py:181-214 | turnover, fees and slippage are totals over the last fill of every order, and an order counts as filled if that fill is of any shares |
| RestartViews.MetricsAccountForCash | src/project_fifty/session/observation.py:181-214 | start minus replayed cash is purchases minus sales plus fees, and turnover is purchases plus sales |
| RiskEngine.Evaluate | src/project_fifty/risk/engine.py:23-101 | a proposal is approved if and only if symbol, currency, key, costs, age of the price, kill switch, mode, cancel target, amounts, side, position, limit and cash all permit it |
| RiskEngine.RefusedForTheFirstReason | src/project_fifty/risk/engine.py:35-101 | a refusal gives the first reason, in the source's order, that speaks against the proposal |
| OrderLifeCycle.OrderStateMachine.Transition | src/project_fifty/execution/state_machine.py:53-65 | succeeds exactly on the edges of the table and otherwise leaves the status |
| OrderLifeCycle.RunsNeverGoBack | src/project_fifty/execution/state_machine.py:5-50 | along every run an order never returns to an earlier phase, and a terminal status is final |
| OrderLifeCycle.TableIs | src/project_fifty/execution/state_machine.py:5-50 | the table in one rule: which status may follow which |
| OrderLifeCycle.NeverStuck | src/project_fifty/execution/state_machine.py:17-46 | a submitted order that is not over can always still be filled, cancelled, or be found to be unknown |
| Control.LedgerBackedControlState.Restore | src/project_fifty/control/persistence.py:12-21 | the restored mode is the last recorded target |
| Hydration.Modes | src/project_fifty/control/persistence.py:12-21 | it is NORMAL without one |
| Control.LedgerBackedControlState.TransitionMode | src/project_fifty/control/persistence.py:61-76 | mode and ledger change together, nothing leaves DEAD, and the live mode stays the one a restart would restore |
| ExecutionLedger.OrderFor | src/project_fifty/execution/kernel.py:154-191 | whatever order is derived carries the proposal's key, symbol, price and currency and the side of its action |
| Books.OrderIsAskedFor | src/project_fifty/execution/kernel.py:154-191 | it leads to exactly the shares the proposal asks for; when there is none, and when it is an error |
| Books.MarkIsLastPrice | src/project_fifty/execution/kernel.py:92-97 | a symbol is marked at its last positive price; TEST at one while nothing has a price |
| Books.PortfolioIsWorth | src/project_fifty/execution/kernel.py:92-104 | the portfolio is the replayed cash and positions, worth the cash and every position at its price |
| Books.FilledIsLargest | src/project_fifty/execution/kernel.py:117-125 | what counts as filled is the largest cumulative fill reported of the key, or nothing |
| Books.UnfilledReserves | src/project_fifty/execution/kernel.py:106-133 | an order of which nothing is filled reserves its notional and its whole estimate |
| Books.FillReleases | src/project_fifty/execution/kernel.py:126-132 | every further share filled frees its price, the last one the estimate as well |
| Books.AvailableIsTheRest | src/project_fifty/execution/kernel.py:135-137 | what is available is what the reservations leave |
| ExecutionLedger.Extend | src/project_fifty/execution/kernel.py:59-90 | appending a legal event keeps the ledger legal and moves the hydrated state by that one event |
| ExecutionLedger.LegalPrefix | src/project_fifty/execution/kernel.py:59-90 | a crash after any event leaves a legal ledger from which hydration succeeds |
| ExecutionLedger.LegalHydrates | src/project_fifty/execution/kernel.py:59-90 | hydration never fails on a legal ledger |
| Hydration.KnownKeys | src/project_fifty/execution/kernel.py:66-79 | a key is known if and only if it was approved or something was reported of it |
| Hydration.Estimates | src/project_fifty/execution/kernel.py:61-65 | the estimate of a key is that of its last proposal |
| Hydration.Orders | src/project_fifty/execution/kernel.py:70-73 | the order of a key is the one opened last, under its own identifier |
| Hydration.BrokerLinks | src/project_fifty/execution/kernel.py:80-81 | a broker order is linked to the key of the last report of it about an opened order |
| Hydration.Statuses | src/project_fifty/execution/kernel.py:82-90 | the status of an order is the target of its last recorded transition |
| LedgerTheorems.LegalStructured | src/project_fifty/execution/kernel.py:33-90 | on every legal ledger the dictionaries fit each other: intents keyed by their key with known keys and distinct identifiers, reports with known keys, machines only for opened orders |
| LedgerTheorems.AtMostOneApproval | src/project_fifty/risk/engine.py:48-49 | a key is approved at most once in any legal ledger |
| LedgerTheorems.AtMostOneIntent | src/project_fifty/execution/kernel.py:207-241 | a key has at most one order intent |
| LedgerTheorems.IntentsAreStable | src/project_fifty/execution/kernel.py:239-241 | an opened intent is never replaced by anything that follows |
| LedgerTheorems.AttemptChain | src/project_fifty/execution/kernel.py:197-247 | every submission attempt ends an unbroken run of seven events that starts with the proposal of its order |
| LedgerTheorems.AtMostOneAttempt | src/project_fifty/execution/kernel.py:193-247 | a key, and an order identifier, has at most one submission attempt |
| LedgerTheorems.NoExposureUnderRestriction | src/project_fifty/risk/engine.py:58-63 | no purchase is submitted while the recorded mode is SAFE or DEAD |
| LedgerTheorems.DeadIsForever | src/project_fifty/control/persistence.py:61-76 | once DEAD is recorded, the restored mode of every longer ledger is DEAD |
| Kernel.ExecutionKernel.constructor | src/project_fifty/execution/kernel.py:33-57 | starting on a legal ledger succeeds, writes nothing, and establishes the recovery invariant |
| Kernel.ExecutionKernel.HydrateFromLedger | src/project_fifty/execution/kernel.py:59-90 | the loop over all events computes the hydration fold, or fails where it does |
| Kernel.ExecutionKernel.AuthorizedPortfolio | src/project_fifty/execution/kernel.py:92-104 | the replayed books marked at the last positive fill prices, or the replay's error |
| Kernel.ExecutionKernel.ReservationOf | src/project_fifty/execution/kernel.py:106-132 | what one open purchase reserves, or the error of an overfilled one |
| Kernel.ExecutionKernel.ReservedCash | src/project_fifty/execution/kernel.py:106-133 | the sum of the reservations of all open purchases in any order of iteration, or the error if any is overfilled |
| Kernel.ExecutionKernel.TransitionOrder | src/project_fifty/execution/kernel.py:139-152 | moves and records exactly the allowed transitions, and keeps the recovery invariant either way |
| Kernel.ExecutionKernel.RecordReport | src/project_fifty/execution/kernel.py:332-340 | a report enters the ledger and the dictionaries once |
| Kernel.ExecutionKernel.EnterSafeMode | src/project_fifty/execution/kernel.py:365-367 | the mode becomes SAFE, recorded, unless it is DEAD |
| Kernel.ExecutionKernel.AppendReconciliation | src/project_fifty/execution/kernel.py:342-354 | the ledger then ends with the replayed portfolio and a snapshot of its value, its cash, the reserved sum and what is left; or it stops at the first error with what was written |
| Kernel.ExecutionKernel.Judge | src/project_fifty/execution/kernel.py:202-214 | intent, books and verdict; an approved order is of a new key and a permitted symbol, at a price that is not stale and within the limit, and is covered by cash or position |
| KernelAnswers.ApprovedMayReach | src/project_fifty/execution/kernel.py:202-241 | what an approval says of the order it approves, on the books at that moment |
| KernelAnswers.OpenedMetTheRules | src/project_fifty/execution/kernel.py:202-241 | every order in a legal ledger met every one of these rules when it was approved |
| Kernel.ExecutionKernel.Propose | src/project_fifty/execution/kernel.py:193-247 | approved orders are handed over, approved cancellations requested, everything else ends with the verdict; the events written and the dictionaries after them, field by field |
| Kernel.ExecutionKernel.OpenAndAdvance | src/project_fifty/execution/kernel.py:239-247 | the intent is opened and walked to the submission attempt without a failing transition |
| KernelAnswers.SubmissionAnswers | src/project_fifty/execution/kernel.py:248-255 | a submitted order gets whichever status the broker answers, UNKNOWN for none of its own |
| Kernel.ExecutionKernel.CompleteSubmission | src/project_fifty/execution/kernel.py:248-261 | and no other order changes; the answer is recorded, a terminal order is over for reservations and restarts, and the books are reconciled unless the order is unknown |
| KernelAnswers.CancellationReleases | src/project_fifty/execution/kernel.py:297-303 | a cancelled order that the life cycle lets go has the status CANCELLED, exactly what it reserved is free again, and no other order changes |
| KernelAnswers.CancelledOrders | src/project_fifty/execution/kernel.py:294-305 | it is then neither an open purchase nor an order to look up after a restart; without such an order every status stays |
| Kernel.ExecutionKernel.HandleCancel | src/project_fifty/execution/kernel.py:285-330 | the same for every answer to a cancellation: what becomes of the orders, the report without a fill, the mode, and the error where the order was over by other means |
| Kernel.ExecutionKernel.HandleProposal | src/project_fifty/execution/kernel.py:193-261 | for every proposal and every broker answer: refused or to hold, nothing but the verdict; an order met every rule, was submitted once and has the status answered; a cancellation as above; the exact events, outcome and mode, and the recovery invariant |
| KernelAnswers.ReportMoves | src/project_fifty/execution/kernel.py:276-283 | a report is recorded and its order gets the reported status wherever the life cycle allows it, and no other order changes |
| KernelAnswers.ReportEnds | src/project_fifty/execution/kernel.py:276-283 | after a report of a terminal status the order is over for the reservations and the restart, and after any other it is not |
| Kernel.ExecutionKernel.Reconcile | src/project_fifty/execution/kernel.py:263-283 | the three refusals, which enter safe mode and change no dictionary; otherwise the report is taken, and either it disagrees with the life cycle, which enters safe mode too, or the books are reconciled |
| Fills.PreviousFill | src/project_fifty/execution/kernel.py:106-127 | with one broker order per key, the reservations and the replay agree on how much of a key was filled |
| ShareCover.FairSaleIsHeld | src/project_fifty/portfolio/reconcile.py:89-92 | while the held shares cover the open sales, replaying a fair sale never raises for want of shares |
| ShareCover.CoveredAfterFill | src/project_fifty/portfolio/reconcile.py:58-101 | a fair fill keeps the shares of every symbol covering its open sales |
| ShareCover.CoveredAfterIntent | src/project_fifty/execution/kernel.py:239-241 | a further sale is covered together with the open ones if and only if the shares are there for all of them |
| ShareCover.LoneSaleFits | src/project_fifty/risk/engine.py:87-91 | the risk engine's position test is enough while no other sale of the symbol is open |
| ShareCover.DecisionsSeePurchases | src/project_fifty/execution/kernel.py:106-133 | a decision depends on the reports, the open purchases with their estimates, and whether its own key is known, and on nothing else in the dictionaries |
| ShareCover.OpenSalesAreInvisible | src/project_fifty/execution/kernel.py:203-214 | a sale that was proposed, approved, opened and moved to any status, with every dictionary it changes, changes no decision on another key: nothing is reserved for it |
| ShareCover.TwoSales | src/project_fifty/portfolio/reconcile.py:89-92 | two sales, each within the position, can both be replayed exactly if the shares last for both; otherwise the second raises |
| DoubleSale.ExitOpens | src/project_fifty/execution/kernel.py:193-241 | on any legal ledger that can be read and reserved, an EXIT with a new key is approved and opened for the whole position |
| DoubleSale.SoldTwice | src/project_fifty/execution/kernel.py:203-241 | on any such ledger two EXITs of the same shares are both approved and opened; the open sales are then owed twice what is held, and the shares no longer cover them |
| DoubleSale.FilledTwice | src/project_fifty/portfolio/reconcile.py:89-92 | and if the broker fills both, the ledger is still legal, still fair if it was, and its replay raises for want of shares |
| DoubleSale.OneDoubleSale | src/project_fifty/execution/kernel.py:193-241 | one such ledger in numbers: a purchase, its fill, two exits and their fills |
| Solvency.CommitmentsNonNegative | src/project_fifty/execution/kernel.py:106-133 | the commitments are non-negative, never more than what the kernel reserves, and nothing is overfilled |
| Solvency.OnlySharesCanBeMissing | src/project_fifty/portfolio/reconcile.py:34-101 | a fair report fails to replay if and only if it sells more than is held; no other error of replay is raised by it |
| Solvency.SolventAfterReport | src/project_fifty/execution/kernel.py:332-340 | a fair report keeps the cash cover, what a fill costs coming out of its own order's commitment, or else ends the replay for want of shares |
| Solvency.CashAfterIntent | src/project_fifty/risk/engine.py:93-99 | a purchase opened with the risk engine's approval is covered together with all open ones; opening a sale asks nothing of the cash |
| Solvency.CoverAfterProposal | src/project_fifty/execution/kernel.py:197-200 | a proposal keeps the cash cover if and only if the growth of a waiting order's estimate fits into the uncommitted cash |
| Solvency.CashAfterProposal | src/project_fifty/execution/kernel.py:197-200 | and it keeps the whole cash side if and only if, besides, the new estimate pays for what was already spent |
| Solvency.HarmlessReuse | src/project_fifty/execution/kernel.py:197-224 | the same estimate, or any estimate for a key whose order waits for nothing, always fits |
| Solvency.OpeningIsFunded | src/project_fifty/execution/kernel.py:203-241 | every intent in a legal ledger passed the cash test against the books as they are when it is opened |
| Solvency.AlwaysSolvent | src/project_fifty/execution/kernel.py:106-137 | after every event of a legal ledger with fair reports, however many sales overlap, cash covers all commitments, unless replay has failed, which it only does for want of shares |
| Solvency.BooksAreReadable | src/project_fifty/execution/kernel.py:92-104 | with replayed cash that is not negative, the portfolio can be marked if and only if every held symbol was reported at a positive price; otherwise the missing price is raised |
| Solvency.NeverOvercommitted | src/project_fifty/execution/kernel.py:135-137 | on every such ledger that can be replayed the reservations can be computed, available plus committed cash never exceeds the replayed cash, and the portfolio can be read exactly under the condition above |
| ShareRuns.FairReportReplays | src/project_fifty/portfolio/reconcile.py:34-101 | while the held shares cover the open sales, none of the errors of replay is raised by a fair report |
| ShareRuns.AlwaysBacked | src/project_fifty/portfolio/reconcile.py:34-101 | after every event of a legal ledger whose sales fit when opened and are filled fairly, replay succeeds and held shares cover all open sales |
| ShareRuns.NeverSoldShort | src/project_fifty/portfolio/reconcile.py:89-92 | on every such ledger at least as many shares of every symbol are held as its open sales may still take |
| Solvency.ReuseKeepsCover | src/project_fifty/execution/kernel.py:193-224 | on every legal ledger with fair reports a further proposal is legal, and where the ledger can be replayed it keeps the cover, and the cash side, exactly if its estimate fits |
| Solvency.ReusedKeyBreaksCover | src/project_fifty/execution/kernel.py:197-200 | so in every such state with a waiting purchase and a replay that succeeds some legal re-use of its key breaks the cover |
| SolvencyExamples.PurchaseWaits | src/project_fifty/execution/kernel.py:193-241 | on any account that can pay for a purchase, proposing it leads to a ledger, legal and fair to cash and shares, on which it waits |
| SolvencyExamples.OneWaitingPurchase | src/project_fifty/execution/kernel.py:193-241 | one such ledger in numbers |
| SolvencyExamples.PurchaseIsFilled | src/project_fifty/execution/kernel.py:263-283 | filling it completely, at any price from nothing to the reference price, is legal and fair |
| SolvencyExamples.FilledIsHeld | src/project_fifty/execution/kernel.py:92-104 | filled at a positive price, the books can be read and hold its shares |
| SolvencyExamples.FreeFillHasNoMark | src/project_fifty/execution/kernel.py:92-104 | filling it for nothing is legal and fair, and leaves a portfolio that cannot be marked |
| PendingOrders.ListPendingOrders | src/project_fifty/session/runtime_state.py:20-46 | the two loops list the intents whose last recorded status is not terminal, in the order of their keys |
| PendingOrders.ListIsSorted | src/project_fifty/session/runtime_state.py:34-46 | the list holds every pending order exactly once, in strictly increasing order of key |
| PendingOrders.PendingIsNonTerminal | src/project_fifty/session/runtime_state.py:20-46 | on every legal ledger these are exactly the orders a restarted kernel holds as not terminal |
| PendingOrders.LedgerReportsAreTheKernels | src/project_fifty/session/runtime_state.py:49-58 | the reports read from a legal ledger are, in order, those the kernel replays |
| SimulatedBrokers.SimulatedBroker.Submit | src/project_fifty/brokers/simulated/broker.py:69-172 | a known key is answered from memory; otherwise the exact books after a fill, or a refusal that leaves them alone |
| SimulatedBrokers.FillsAreWorse | src/project_fifty/brokers/simulated/broker.py:85-108 | an order never fills better than its reference price: a purchase pays the slippage on top, a sale loses it, and the report shows price, fee and slippage |
| SimulatedBrokers.RefusedIs | src/project_fifty/brokers/simulated/broker.py:109-148 | refused is exactly a purchase that costs more than the cash or a sale of more than is held |
| SimulatedBrokers.SimulatedBroker.Fill | src/project_fifty/brokers/simulated/broker.py:100-145 | cash, quantity and average price after a fill at the slipped price with its fee |
| SimulatedBrokers.SimulatedBroker.Cancel | src/project_fifty/brokers/simulated/broker.py:61-67 | an unknown order is a lookup failure, a filled one stays filled |
| SimulatedBrokers.BoughtAverages | src/project_fifty/brokers/simulated/broker.py:115-131 | the reconciler's and the broker's averaging, written differently, have the same mean cost |
| SimulatedBrokers.SaleReduces | src/project_fifty/brokers/simulated/broker.py:146-159 | the broker's sale takes the shares away at an unchanged average price and deletes a position that is sold out |
| SimulatedBrokers.ReducedOnce | src/project_fifty/brokers/simulated/broker.py:146-159 | that description determines the positions, so the broker's and the reconciler's sales agree |
| Lockstep.FillKeepsStep | src/project_fifty/portfolio/reconcile.py:34-101 | replaying the broker's report does to the replayed books exactly what the broker did to its own |
| Lockstep.SubmissionKeepsStep | src/project_fifty/execution/kernel.py:248-261 | completing a submission, filled, unknown or refused, keeps the two sets of books in step |
| Lockstep.ReachesBroker | src/project_fifty/risk/engine.py:84-91 | what is handed to the broker is new to it, and a sale is covered by its own position |
| Lockstep.Drive | src/project_fifty/brokers/simulated/broker.py:69-172 | any proposal driven through the kernel keeps positions equal and the cash difference constant; the broker's short-sale guard never fires |
| Lockstep.StartsInStep | src/project_fifty/brokers/simulated/broker.py:18-38 | an empty ledger and a new broker are in step, the gap being the difference of the starting amounts |
| Lockstep.Session | src/project_fifty/execution/kernel.py:193-261 | over any list of proposals and restarts, one gap from first to last, and never a refused short sale |
| Lockstep.SessionFromNothing | src/project_fifty/brokers/simulated/broker.py:18-38 | the same from an empty ledger and a new broker |
| HashChain.AcceptedMeans | src/project_fifty/ledger/local.py:43-72 | a file is accepted if and only if every line is numbered in order, points back to the line before, and carries the hash of its fields |
| HashChain.LocalAppendOnlyLedger.Load | src/project_fifty/ledger/local.py:43-72 | loading succeeds exactly on intact chains and reads back what was written; otherwise it keeps an intact prefix |
| HashChain.LocalAppendOnlyLedger.Append | src/project_fifty/ledger/local.py:74-97 | appending keeps the chain intact and the file equal to the memory |
| HashChain.SameHeadSameHistory | src/project_fifty/ledger/local.py:14-29 | two intact ledgers with the same last hash have equal length and agree on every hashed field |
| HashChain.TamperingIsNoticed | src/project_fifty/ledger/local.py:43-72 | changing a hashed field of an event breaks the chain or changes its head |
| HashChain.IdentifiersAreNotProtected | src/project_fifty/ledger/local.py:14-29 | every event identifier can be replaced without breaking the chain or changing its head |
| HashChain.OnlyIdentifiersCanChange | src/project_fifty/ledger/local.py:14-29 | replacing an event of an intact ledger goes unnoticed if and only if it differs in its identifier alone |
| AlpacaSubmit.AlpacaPaperBroker.Lookup | src/project_fifty/brokers/alpaca/broker.py:133-153 | finds an order for the key exactly if the account holds one |
| AlpacaSubmit.MapStatus | src/project_fifty/brokers/alpaca/broker.py:372-392 | which status each of the account's statuses becomes; never one of the kernel's own |
| AlpacaSubmit.ReportTells | src/project_fifty/brokers/alpaca/broker.py:318-353 | what was filled and at which price, and the slippage as the difference from the reference amount |
| AlpacaSubmit.UpdatesAreNoticed | src/project_fifty/brokers/alpaca/broker.py:337-339 | two reports of one order have the same identifier exactly if status and filled quantity are the same |
| AlpacaSubmit.AlpacaPaperBroker.Submit | src/project_fifty/brokers/alpaca/broker.py:155-202 | one request exactly if nothing speaks against it, none for a visible order; every error; after a timeout the order that is visible, or unknown |
| AlpacaSubmit.CopiesAreCalls | src/project_fifty/brokers/alpaca/broker.py:155-202 | over any history of calls, each adding what the contract of `Submit` allows, and late arrivals: with at most one call per identifier the account never holds two of its orders |
| AlpacaSubmit.NeverTwoOrders | src/project_fifty/execution/kernel.py:193-249 | on a legal ledger, one call per recorded attempt never leads to two orders for one key |
| AlpacaSubmit.LookupAloneIsNotEnough | src/project_fifty/brokers/alpaca/broker.py:160-199 | a repeated submission places a second copy exactly when an earlier request is still in flight |
| AlpacaSession.AttemptedIsKnown | src/project_fifty/execution/kernel.py:67-77 | a key with a recorded attempt is known after every restart, so a new key was never attempted |
| AlpacaSession.Drive | src/project_fifty/execution/kernel.py:193-261 | kernel and adapter run together on one proposal: at most one copy for every client identifier, and none without a recorded attempt, even if the process dies before or after the request |
| AlpacaSession.Session | src/project_fifty/execution/kernel.py:193-283 | the same over any session of proposals, reports, late landings, crashes and restarts |
| RebalancePolicy.Plan | src/project_fifty/strategies/rebalance.py:88-157 | the loop builds one instruction per symbol held or wanted, or the validation or price error |
| RebalancePolicy.PlanAnswers | src/project_fifty/strategies/rebalance.py:70-74 | a plan answers for exactly the symbols held or wanted, with their own instruction |
| RebalancePolicy.WhatThePlanExecutes | src/project_fifty/strategies/rebalance.py:96-157 | a symbol is executed if and only if its change is non-zero and worth the threshold or a forced full exit; a forced exit is never held back |
| RebalancePolicy.PlanIs | src/project_fifty/strategies/rebalance.py:72-175 | refused for another account, state or time or a missing price; otherwise one instruction per symbol held or wanted, in order, and a threshold that is the larger limit |
| RebalancePolicy.InstructionMeans | src/project_fifty/strategies/rebalance.py:96-155 | an instruction reduces risk exactly if the change is negative, says NO_CHANGE exactly if it is zero, executes exactly for its two executing reasons, and starts from the true weight |
| Rebalancing.Rebalance | src/project_fifty/backtest/engine.py:237-329 | the two loops compute the two folds, with the clamp's error |
| Rebalancing.SellTowardsFacts | src/project_fifty/backtest/engine.py:254-281 | a sale ends exactly at the target, loses exactly its reported cost, and moves one symbol |
| Rebalancing.BuyTowardsFacts | src/project_fifty/backtest/engine.py:283-327 | a purchase closes the gap at the slipped price or spends all cash, never passes the target, and never overdraws, so the clamp is the identity |
| RebalanceTheorems.NoOvershoot | src/project_fifty/backtest/engine.py:251-329 | above target a symbol ends exactly there, below it ends between, held-back and unpriced symbols are untouched, none is both sold and bought |
| RebalanceTheorems.RebalanceConserves | src/project_fifty/backtest/engine.py:237-364 | value after plus reported costs is value before, exactly; cash stays non-negative; costs are bounded by turnover times fee plus slippage/(1 - slippage) |
| RebalanceTheorems.TradesAreChanges | src/project_fifty/backtest/engine.py:272-311 | the trade count is the number of symbols whose quantity changed |
| Turnover.TurnoverIsPaid | src/project_fifty/backtest/engine.py:272-327 | turnover and costs are fixed by the quantities before and after: slipped prices, fees and slippage summed over the symbols; every position is carried at what was paid for it |
| Backtest.BacktestEngine.PortfolioNav | src/project_fifty/backtest/engine.py:331-349 | cash plus every position at its price, or at its average price where there is none |
| Backtest.BacktestEngine.TradeOnce | src/project_fifty/backtest/engine.py:125-219 | one decision on the bars known by then and its execution at the next open |
| Backtest.BacktestEngine.Run | src/project_fifty/backtest/engine.py:97-235 | the loop with its skips and errors computes the run as a fold over the benchmark's bars |
| BacktestTheorems.ContextIsValid | src/project_fifty/strategies/contracts.py:60-92 | what the strategy is shown passes the context's validators: no price or bar from after the decision |
| BacktestPoints.ContextIsShown | src/project_fifty/backtest/engine.py:125-158 | the strategy is shown exactly the bars by then, the newest closes with their times, and the portfolio at these closes |
| BacktestTheorems.TradeKeepsBooks | src/project_fifty/backtest/engine.py:159-191 | a decision fails exactly if the strategy or the plan refuses it, and loses exactly the costs it adds |
| BacktestTheorems.RunKeeps | src/project_fifty/backtest/engine.py:119-219 | every prefix of the run keeps sound books, totals that are the sums of its points, and the drawdown of its points |
| BacktestTheorems.BacktestIsSound | src/project_fifty/backtest/engine.py:97-235 | totals and average are those of the points, total costs are bounded by total turnover, the drawdown is the worst loss from any earlier value and occurs, and no run fails for cash |
| BacktestPoints.RunExecutes | src/project_fifty/backtest/engine.py:119-219 | every point comes from one decision: the target of the strategy traded at the opens of what the books are worth there, every symbol meeting its fate, with the turnover and costs of these trades, and the books worth the point's value at the closes of the bars of its execution |
| BacktestPoints.BacktestRefuses | src/project_fifty/backtest/engine.py:104-107 | what is refused before the start: too few bars of the benchmark, or a symbol without name, bars or increasing times; anything else fails only where strategy or plan does |
| BacktestPoints.ResultIsThePoints | src/project_fifty/backtest/engine.py:221-235 | the result ends at the value of its last point, returns it in proportion to the start, and counts the changes from point to point as trades |
| NoLookAhead.RunOnCut | src/project_fifty/backtest/engine.py:119-219 | up to a bar, the run cannot tell the history from its part up to any later time |
| NoLookAhead.PointsByTime | src/project_fifty/backtest/engine.py:206-219 | the points executed by a time are those produced when the loop reached the last bar by then |
| NoLookAhead.SamePastSameRun | src/project_fifty/backtest/engine.py:119-219 | two histories that agree up to T give the same books and the same error at every bar up to T |
| NoLookAhead.SamePastSamePoints | src/project_fifty/backtest/engine.py:97-235 | and the same points for every execution up to T |
| WalkForward.Evaluate | src/project_fifty/backtest/engine.py:407-441 | terminates with the closed-form number of windows, each the backtest of its slice, or with the error of the first window that fails |
| WalkForward.WindowsFit | src/project_fifty/backtest/engine.py:418-420 | the closed form counts exactly the windows that end inside the benchmark's history |
| WalkForward.WindowStopsTheRun | src/project_fifty/backtest/engine.py:419-435 | a window's result is the full history's run from its start, stopped at its end |
| WalkForward.WindowIsSlice | src/project_fifty/backtest/engine.py:419-435 | its points are the full run's points executed by its end |
| WalkForward.PointsAreBars | src/project_fifty/backtest/engine.py:119-123 | a run has one point for every bar from its first decision on |
| WalkForward.WindowHasTestBars | src/project_fifty/backtest/engine.py:413-441 | a window has exactly its test bars as points if and only if its start covers the warm-up |
| ProposalBuilding.ProposalBuilder.BuildWithPlan | src/project_fifty/strategies/proposal_builder.py:53-165 | validation, plan, loop and sort compute the list and its plan, or the first error |
| ProposalBuilding.SortSorts | src/project_fifty/strategies/proposal_builder.py:155-165 | the list is ordered by priority and symbol and is a permutation of what was collected |
| ProposalTheorems.DigitsInjective | src/project_fifty/strategies/proposal_builder.py:187-191 | different ordinals are written differently |
| ProposalTheorems.KeysDiffer | src/project_fifty/strategies/proposal_builder.py:186-195 | proposals with different ordinals have different keys, whatever characters the other parts contain |
| ProposalTheorems.BuiltIsComplete | src/project_fifty/strategies/proposal_builder.py:67-165 | reductions before purchases, distinct symbols and keys, and exactly the wanted symbols that are not held back |
| ProposalMeaning.DraftCloses | src/project_fifty/strategies/proposal_builder.py:84-153 | when a symbol is proposed, and with which action and amount: a full exit, the gap to the target, or what an empty portfolio can pay of it |
| ProposalMeaning.OfferedCloses | src/project_fifty/strategies/proposal_builder.py:173-214 | the proposal itself: price and time of the context, currency of the target, fee and slippage of the builder, identifiers |
| ProposalMeaning.BuiltCloses | src/project_fifty/strategies/proposal_builder.py:53-165 | the whole list in terms of gaps: exactly the symbols whose change is economic and worth an order, each closed by one proposal, reductions first |
| ProposalMeaning.BuildRefuses | src/project_fifty/strategies/proposal_builder.py:59-82 | a target of another account, state or time, or a symbol without a price, and nothing else is refused |
| ProposalTheorems.OnlyExecutable | src/project_fifty/strategies/proposal_builder.py:70-73 | with a policy, only symbols its plan executes are proposed |
| ProposalTheorems.ProposalBecomesOrder | src/project_fifty/strategies/proposal_builder.py:89-153 | an EXIT order sells everything, a REDUCE order leaves exactly the target, a BUY or ADD order stays within it; the only orders that cannot be constructed are for nothing |
| ProposalTheorems.MinimumMeansOrders | src/project_fifty/strategies/proposal_builder.py:107-119 | with a positive minimum order size every proposal becomes an order |
| ProposalTheorems.FirstPurchaseIsFunded | src/project_fifty/strategies/proposal_builder.py:167-171 | the first purchase into an empty portfolio is never refused for want of cash |
| ProposalTheorems.FirstDecisionIsFunded | src/project_fifty/execution/kernel.py:202-214 | nor by the kernel's own decision, in any state without an open purchase whose rebuilt portfolio is the one the builder saw; it is refused an answer only if no order can be constructed |
| Preserve.PreservePositions | src/project_fifty/strategies/low_frequency.py:195-232 | the loop returns the current weights, or the error of the first symbol without one |
| Preserve.PreserveSingle | src/project_fifty/strategies/single_market.py:164-196 | the single-market version agrees with it wherever it does not refuse the portfolio |
| Preserve.PreserveSucceeds | src/project_fifty/strategies/low_frequency.py:206-232 | holding still is possible exactly if every position is priced, worth between nothing and everything, and all together no more than everything; the weights are then their shares |
| Preserve.PreserveFails | src/project_fifty/strategies/low_frequency.py:206-215 | otherwise the first such position in order decides the error |
| Preserve.PreservedIsValid | src/project_fifty/strategies/low_frequency.py:206-232 | marked at its own prices, every portfolio has a valid target, which names all its positions if it is worth anything and none otherwise |
| Preserve.NothingExecuted | src/project_fifty/strategies/rebalance.py:103-123 | every policy's plan for that target executes nothing |
| Preserve.NothingProposed | src/project_fifty/strategies/proposal_builder.py:89-142 | the builder proposes nothing for it if and only if it has a policy or a minimum order size, or no position has shares |
| Preserve.HeldBackRebalance | src/project_fifty/backtest/engine.py:254-285 | with that plan a rebalance leaves cash and positions alone at any prices |
| Preserve.MarkedRebalance | src/project_fifty/backtest/engine.py:254-285 | without a plan it does so at the prices the portfolio was marked at |
| Confirmed.ConfirmedStrategy.RecentScoreSeries | src/project_fifty/strategies/confirmed.py:266-283 | the series of scores of the last bars, if all of them have one |
| Confirmed.ConfirmedStrategy.Retain | src/project_fifty/strategies/confirmed.py:108-129 | the incumbents without a confirmed exit, one each |
| Confirmed.ConfirmedStrategy.FindChallengers | src/project_fifty/strategies/confirmed.py:135-151 | the symbols with a confirmed entry that are not held |
| Confirmed.ConfirmedStrategy.Fill | src/project_fifty/strategies/confirmed.py:153-157 | challengers fill the free places in order |
| Confirmed.ConfirmedStrategy.Replace | src/project_fifty/strategies/confirmed.py:159-178 | each waiting challenger in turn against the then-weakest |
| Confirmed.ConfirmedStrategy.GenerateTarget | src/project_fifty/strategies/confirmed.py:70-210 | the stages in order, equal shares of the budget, and the average score, cut to the unit interval, as confidence |
| ConfirmedTheorems.WeakestIs | src/project_fifty/strategies/confirmed.py:162-162 | the weakest is one of the selected and none is below it |
| ConfirmedTheorems.KeptAre | src/project_fifty/strategies/confirmed.py:131-133 | who survives the cut, and that whoever does not is outranked by a full list |
| ConfirmedTheorems.ReplacedIs | src/project_fifty/strategies/confirmed.py:159-178 | replacements keep the number and the distinctness, and whoever leaves was the weakest when a confirmed challenger beat it |
| ConfirmedTheorems.SelectionIsConfirmed | src/project_fifty/strategies/confirmed.py:102-183 | at most the permitted number of distinct symbols; new ones passed every entry bar, none has a confirmed exit |
| ConfirmedTheorems.DroppedForAReason | src/project_fifty/strategies/confirmed.py:102-178 | an incumbent is missing only for a confirmed exit, by rank, or beaten by the margin on every aligned bar while the weakest |
| ConfirmedTheorems.NoPlaceIsWasted | src/project_fifty/strategies/confirmed.py:153-157 | with a place left over, every confirmed challenger is selected |
| ConfirmedTheorems.TargetIsValid | src/project_fifty/strategies/confirmed.py:180-210 | weights plus cash are exactly one, the budget is shared out completely, and the confidence lies in the unit interval |
| ConfirmedSelection.MeaningOf | src/project_fifty/strategies/confirmed.py:108-151 | who stays and who may enter, in terms of the scores on each of the last bars |
| ConfirmedSelection.BeatsMeans | src/project_fifty/strategies/confirmed.py:232-264 | who outdoes whom, in terms of both scores on each of the last bars |
| ConfirmedSelection.ProcedureIsUnique | src/project_fifty/strategies/confirmed.py:131-178 | keeping the best that stay, entering the best that may, and trying the waiting ones in rank against the then-lowest has one outcome |
| ConfirmedSelection.SelectionIs | src/project_fifty/strategies/confirmed.py:102-183 | that outcome is what the strategy selects |
| ConfirmedSelection.TargetIs | src/project_fifty/strategies/confirmed.py:86-210 | the target of that outcome: equal shares of the budget, the average score as confidence, or all cash |
| MarketData.CleanAgain | src/project_fifty/market_data/alpaca.py:330-335 | cleaned symbols stay as they are when a batch of them is cleaned again |
| MarketData.Client.FetchPages | src/project_fifty/market_data/alpaca.py:185-239 | succeeds exactly if every page arrives, there are not too many, and none shows a bar after the range; then it gives exactly the server's bars of the closed range, strictly increasing, however they were paged |
| MarketData.Client.GetBars | src/project_fifty/market_data/alpaca.py:157-239 | the same for every range, split or not; terminates together with the windowed version, and fails only for bad arguments where the server answers every request |
| MarketData.Client.GetBarsWindowed | src/project_fifty/market_data/alpaca.py:241-297 | for every chunk and batch size, on success, the bars of one undivided request |
| MarketData.FetchIsUnique | src/project_fifty/market_data/alpaca.py:294-297 | there is only one such answer, so any two ways of asking agree |

## Left out

- Kernel.ExecutionKernel.HandleProposal: the broker's answer, the clock and the new identifier are parameters; the order machines are entries of a dictionary instead of objects, so sharing of a machine object between dictionaries is not modelled.
- Kernel.ExecutionKernel.RecordReport: dictionaries keyed by report and broker order keep the fields the kernel reads; the JSON form of events is not modelled, an event is its own payload.
- Solvency.AlwaysSolvent: assumes fair reports (`Solvency.FairReport`): the account's currency; one fill-bearing broker order per key, with the side of the intent; cumulative quantity, amount and fee that never shrink; no purchase filled beyond the ordered quantity; a purchase that costs at most its shares at the reference price plus what is left of its estimate, and nothing once it is full or terminal; a sale whose fees do not exceed its proceeds. It also assumes that a re-used key fits (`Solvency.ReuseFits`), the exact condition for that step. Nothing is assumed of sales when they are opened.
- ShareRuns.NeverSoldShort: assumes, beyond that, fills of the order's symbol, sales that take no more than what was ordered and nothing once full or terminal (`ShareCover.FairSale`), and that a further sale fits beside the open ones (`ShareCover.SaleFits`, the exact condition for that step).
- AlpacaSubmit.AlpacaPaperBroker.Submit: asset permissions, fractionability and the account's position are inputs of one call; every failing answer and every transport error other than a timeout is one refusal, after which the order may or may not have been placed.
- Backtest.BacktestEngine.Run: the strategy is a function of its context; strategies that keep state between calls are not modelled. The hash of the market state is any function of the history.
- MarketData.Client.GetBars: the server is assumed to be a function of symbol and closed range and to show no bar from before the range; stripping and upper case are those of ASCII; parsing of a bar is left out.
- Confirmed.ConfirmedStrategy.GenerateTarget: scores and the regime's budget are arbitrary functions; the evidence dictionary and the components of a signal are left out because nothing reads them.
- ConfirmedTheorems.TargetIsValid: exact arithmetic; with 28 decimal digits three equal shares of a budget need not add up to it.
- Decimal rounding, non-finite numbers and time zones: amounts are reals and times integers.
- The in-memory control state without a ledger, and `transition_control_state` for both kinds: the ledger-backed one is the one whose mode survives a restart.
- `SimulatedBroker.get_portfolio`, `get_open_orders` and `set_mark_price`: reading and marking only.
- The Alpaca adapter's account guard, cancellation, order listing and request log: input and output.
- Quotes: `get_latest_quotes` and the quote's properties are easy members.
- The indicator formulas, regime detection and the other selection strategies: inputs of, or simpler relatives of, what is modelled. The schedule tests of the low-frequency and single-market strategies are one comparison each.
- `calculate_forward_metrics` and its drawdown over snapshots: the same loop as the backtest's drawdown.
- Session runner, agent research, settings, scripts: sequencing, validation and reporting.
