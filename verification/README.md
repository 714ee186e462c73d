# A verified model of the backtesting research lab

The repository is a research tool for trading strategies. It runs one strategy over one instrument's
bars with the Backtrader engine, persists what happened as an artifact with portfolio snapshots and
nine metrics, and searches a grid of window pairs for the pair that does best on a validation period,
which it then evaluates once on a sealed holdout period. Around that stand a few stores: bars and the
effective-dated mappings that name them, the file importer, and the schema migrations.

The project models that behaviour and proves what the repository promises about it. Money, prices and
fractions are exact reals, timestamps and dates are integers, identifiers are the position of their
draw from the id factory.

## How it is organised

| file | what it holds |
|---|---|
| `Wrappers`, `Sequences`, `Ordering`, `Exact` | options and results, first/last of a sequence, sorted lists of distinct values, real multiplication and division behind named lemmas |
| `Domain`, `Sizing`, `Engine`, `Strategy` | bars and events; how many shares an entry asks for; the per-bar trading state machine as functions; the strategy object with its mutable fields, each method equal to its function |
| `Trading`, `Signals` | what every bar of every run keeps, what a close decides, no look-ahead, when a run fails, solvency; which signals fills follow, one event per order, the warnings |
| `Fifo`, `Valuation`, `Metrics`, `Artifact` | the lot queue against a queue of single shares, the two-pointer valuation, drawdown and the nine metrics, the persisted bundle |
| `Reconciliation` | engine cash, snapshots and FIFO results agree at every bar |
| `BarStore`, `MappingStore`, `CsvChronology` | the snapshot query, the effective-dated mappings, the importer's one-pass check |
| `Backtests`, `BacktestExecution` | one backtest run with any number of executors interleaved, who of them wins, and the service as an imperative method |
| `Optimization`, `OptimizationRun` | status graph, grid, selection; creation, and an executor described by the repository call it is about to make |
| `OptimizationCreation` | which requests are accepted, what the others are answered, what is stored |
| `OptimizationLifecycle`, `OptimizationSteps`, `OptimizationSafety`, `OptimizationEvidence` | the invariant, that every call of every executor keeps it, and what follows for every schedule; what results and artifacts rest on |
| `OptimizationFeasibility`, `OptimizationOversights` | when an accepted optimization can run into an error, and requests that do |
| `OptimizationExecution`, `OptimizationService` | the store as an object, the service as methods, and the service as one of the schedules |
| `Migrations`, `MigrationRunner` | the ledger with crashes and resumption; the runner on a connection and the discovery of the list |
| `Text`, `Documents`, `RunManifests`, `ManifestReading`, `StrategyParameters` | decimals, dates and timestamps as text; canonical dictionaries; the run manifest and strategy parameters, printed and read back, and exactly what is read |

Three conventions recur.

*Objects and their specification.* Where the code updates fields, a class does the same, and each
method is proved equal to a function on the object's abstract state (`View()`); the properties are
then lemmas about those functions. `Strategy.CrossoverStrategy.RunAll` is `Engine.ExecuteGuarded`,
`Fifo.ComputeFifoRealizedPnl` is `Fifo.Replay`, `OptimizationExecution.ExecuteOptimization` ends where
one executor of `OptimizationRun.Step` ends.

*Schedules.* A run or an optimization is a store and a list of executors; `Interleave` lets them make
their repository calls in the order a schedule names. A theorem over `schedule` and `executors` is one
over every interleaving of any number of them.

*The world outside.* The indicators are arbitrary functions of the bars seen so far. The broker is an
arbitrary function of the bars seen so far, the state and the order; it resolves every order at the
open of the bar after the one it was submitted on. That it executes a buy only when its cost is covered
is a separate assumption (`Trading.ChecksCash`), made by the solvency results alone. The power function
of the annualized return is arbitrary and may raise; so may the engine library, on any bar, and the
writing of an artifact. How a decimal column of the store rounds is arbitrary too. A run that an
optimization creates can be executed by anybody: any number of outside callers contend for it, in any
order of their calls (`Env.rivals`).

## The main results

- *Accounting.* At every bar of every run, the snapshot's total equity is the initial cash plus the
  FIFO results of the fills so far plus the open quantity's gain since entry (`EquityReconciles`), and
  the recorded metrics add up the same way (`MetricsReconcile`).
- *Trading.* At most one order waits; fills alternate, land on the bar after their signal at its open,
  and agree one to one with orders, cash events and position events (`RunSound`). An order
  waits exactly when all lines signal entry, or any line exit (`SignalsDecide`), and every fill follows
  such a signal on the bar before it (`FillsFollowSignals`). There is no look-ahead: the strategy object
  computes the state machine (`CrossoverStrategy.RunAll`), and what that has reported by a bar is in the
  final report of every run that agrees up to there (`ReportsNeverRevised`).
- *Sealed holdout.* Take two databases that agree before the holdout: the same instruments, mappings and
  earlier bars, and dataset rows that differ at most in their checksum and in an end of coverage past
  that point, as two imports with the same history do (`ImportsAgree`). They give the same candidate
  results, the same selection and the same audit at every point of every schedule
  (`HoldoutCannotLeak`).
- *Evidence.* In every reachable state of an optimization every stored artifact is what the engine makes
  of the policy and the strategy's windows on the bars of the period, and a candidate's result is what
  its own two artifacts say (`AlwaysEvidence`, `ResultsFollowRuns`).
- *At most once.* However many executors race, one gets in, the engine runs once, one bundle is
  stored; the holdout runs once and is recorded once (`AtMostOnce`, `EnteredAtMostOnce`,
  `HoldoutAtMostOnce`, `RecordedAtMostOnce`).
- *Interleaved creation.* Any number of concurrent mapping requests leave a disjoint store disjoint
  exactly when no two that overlap were ever between check and insertion together
  (`DisjointIffNeverClashed`).
- *Recovery.* Migrations may crash anywhere, any number of times: what is applied is a prefix of the
  list, each migration once (`AlwaysPrefix`, `ResumeCompletes`).
- *Round trips.* Manifests and strategy parameters survive their canonical form
  (`ManifestRoundTrip`, `CanonicalFormStable`, `ParametersBuiltIff`), and a dictionary reads as a
  manifest exactly when it says it (`ManifestReadIff`).

## Where the code promises less than one might expect

- A terminal run need not have an artifact bundle: rejections before the claim, an exception from the
  engine, a missing writer, metrics that raise and a failing write leave none, the last three although
  the run may be marked completed. `Backtests.TerminalWithoutBundle` and `CompletedWithoutBundle` give
  inputs, `Backtests.BundleIff` the condition, `Artifact.BundleConsistent` says when the metrics raise.
  The repository's `README.md` says that every run's events and metrics are persisted.
- An order quantity need not be a multiple of the quantity increment, because `int()` truncates.
  `Sizing.IncrementMultipleIff` says for which increments it always is: the whole numbers and the
  fractions 1/m.
- An optimization that was accepted may still end in an unexpected error: creation does not look at
  the dataset's declared coverage and checksum, accepts a one-day partition, and checks neither the
  currency nor the policy's numbers. `OptimizationFeasibility.AcceptedRunsIff` gives the exact condition
  for a run of a partition; `OptimizationOversights` gives inputs that fail: `CreationOverlooks`,
  `ProlongedHoldoutOverlooked`, `OneDayOverlooked`. For whole executions `RunnableNeverErrs` and
  `CompletedWasRunnable` are the two halves, and `OptimizationService.ServiceCompletesIff` says when the
  service completes. Somebody else who executes one of its runs can make it end in such an error, and
  can do nothing worse: every other theorem holds with them around.
- An edited migration is refused with the database unchanged only if everything before it had been
  applied (`Migrations.EditRefusedIff`), which every history of runs of one list guarantees
  (`EditedHistoryRefused`).
- The mapping store keeps ranges disjoint for calls made one after another
  (`MappingStore.AlwaysDisjoint`); concurrent ones can break it (`RacingCallsCanOverlap`), exactly when
  two overlapping requests are between check and insertion at once (`DisjointIffNeverClashed`), which
  letting one call per source through at a time rules out (`OnePerSourceIsSafe`).
- Reading a manifest back gives decimals of equal value, and the very same representation exactly when
  the exponent was not positive (`Text.DecimalRoundTrip`).

## Model

| member | source | states |
|---|---|---|
| Sizing.SizingFitsCash | backend/app/infrastructure/engine/backtrader_adapter.py:107-116 | quantity × close ≤ budget ≤ cash × fraction ≤ cash for that budget, and the quantity is not negative |
| Sizing.BudgetExactly | backend/app/infrastructure/engine/backtrader_adapter.py:83-112 | the budget is the one amount that is whole in money units of 10^-scale, at most cash × fraction, and less than one such unit below it |
| Sizing.SizingExactly | backend/app/infrastructure/engine/backtrader_adapter.py:107-116 | the quantity is the whole part of the largest number of increments whose cost at the close the budget covers |
| Sizing.WholeIncrementSizing | backend/app/infrastructure/engine/backtrader_adapter.py:113-116 | for a whole-number increment the quantity is the largest multiple of it that this budget covers, with less than one increment's worth left |
| Sizing.IncrementMultipleIff | backend/app/infrastructure/engine/backtrader_adapter.py:115-116 | quantities are always multiples of the increment if and only if the increment is whole or a fraction 1/m |
| Sizing.NotAlwaysMultiple | backend/app/infrastructure/engine/backtrader_adapter.py:113-117 | for every other increment, a cash amount and a close whose quantity is not a multiple |
| Strategy.CrossoverStrategy.constructor | backend/app/infrastructure/engine/backtrader_adapter.py:74-83 | a new strategy holds the initial cash, no events, no orders and no failure |
| Strategy.CrossoverStrategy.Next | backend/app/infrastructure/engine/backtrader_adapter.py:95-105 | looking at a close changes the whole state as the specification says: warm-up, entry when flat, exit when long |
| Strategy.CrossoverStrategy.SubmitEntry | backend/app/infrastructure/engine/backtrader_adapter.py:107-138 | an entry submits the sized order and remembers it, or warns, or does nothing |
| Strategy.CrossoverStrategy.SubmitExit | backend/app/infrastructure/engine/backtrader_adapter.py:140-149 | an exit sells the whole position |
| Strategy.CrossoverStrategy.NotifyOrder | backend/app/infrastructure/engine/backtrader_adapter.py:151-170 | an execution is booked, a refusal recorded with its reason, an unknown order ignored |
| Strategy.CrossoverStrategy.HandleFill | backend/app/infrastructure/engine/backtrader_adapter.py:172-244 | one fill writes one order, fill, cash and position event, at this bar's open, and forgets the order |
| Strategy.CrossoverStrategy.Stop | backend/app/infrastructure/engine/backtrader_adapter.py:246-248 | a waiting order at the end marks the run failed |
| Strategy.CrossoverStrategy.RunAll | backend/app/infrastructure/engine/backtrader_adapter.py:498-548 | the object driven over all bars returns what the state-machine specification computes, or the bare engine_error result when the library raises on the way |
| Trading.RunSound | backend/app/infrastructure/engine/backtrader_adapter.py:95-244 | after every bar: at most one order waiting, fills alternating with each sell for the preceding buy's quantity, the four event records in one-to-one correspondence, cash events chained, cash and position recomputable from the fills, every fill one bar after its order at that bar's open |
| Trading.SignalsDecide | backend/app/infrastructure/engine/backtrader_adapter.py:95-149 | after a close a buy of the sized quantity waits if and only if, past the warm-up, flat and at a positive close, every line signals entry and the quantity is positive; a warning is given instead if it is not positive; a sell of the whole position waits if and only if some line signals exit past the warm-up on a long position; the order has the next id and this bar's time; otherwise nothing changes |
| Trading.DeliverOne | backend/app/infrastructure/engine/backtrader_adapter.py:151-244 | a bar settles the waiting order: one order event with its id, side, creation time, quantity and outcome; if executed, a fill of the whole order at this bar's open, cash less or plus its value and a warning when nothing was traded on the bar; if not, cash, position and fills as they were |
| Trading.FailsIff | backend/app/infrastructure/engine/backtrader_adapter.py:535-548 | a run in which the library raises nothing fails, with missing_next_bar, if and only if a buy or a sell is asked for at the close of its last bar; the result holds the events of the final state |
| Trading.NoLookAhead | backend/app/infrastructure/engine/backtrader_adapter.py:95-175 | the state after bar k is a function of the bars up to k, the signals and the broker |
| Trading.RecordsGrow | backend/app/infrastructure/engine/backtrader_adapter.py:158-243 | events reported by bar k are a prefix of those reported by any later bar |
| Trading.ReportsNeverRevised | backend/app/infrastructure/engine/backtrader_adapter.py:172-243 | what one run reported by bar k, every run that agrees up to there reports too |
| Trading.Solvent | backend/app/infrastructure/engine/backtrader_adapter.py:190-201 | with a broker that checks cash at the open, cash is never negative after any bar |
| Signals.FillsFollowSignals | backend/app/infrastructure/engine/backtrader_adapter.py:95-149 | in every run a buy is filled only on the bar after one, past the warm-up, on which every line signalled entry, and a sell only after one on which some line signalled exit, at the bar's open |
| Signals.OneEventPerOrder | backend/app/infrastructure/engine/backtrader_adapter.py:131-170 | in every run ids are drawn one per order, every order that is no longer waiting has exactly one event under its own id, in order of submission, and the waiting order has the last id drawn |
| Signals.BarWarnings | backend/app/infrastructure/engine/backtrader_adapter.py:117-129 | a bar warns of a fill without volume exactly when it executes an order and has no volume, and of a zero quantity exactly when entry is wanted and sizing leaves nothing; a run starts without warnings |
| Signals.GuardedReports | backend/app/infrastructure/engine/backtrader_adapter.py:499-517 | when the library raises, the result has no events, is failed and carries engine_error; otherwise it is that of the run; either way the ids drawn are those of the orders submitted by then |
| Fifo.ComputeFifoRealizedPnl | backend/app/domain/run_artifact.py:119-148 | the lot queue gives, sell by sell, what a queue of single shares gives, and one result per sell whatever the quantities |
| Fifo.FifoPairing | backend/app/domain/run_artifact.py:136-146 | the k-th matched sold share is the k-th bought share; shares oversold match nothing; only sell fees are subtracted |
| Fifo.SellRealizes | backend/app/domain/run_artifact.py:134-146 | a sell takes as many shares as are open, up to its quantity, next in the order of buying, and realizes its price on them less what they cost less its commission, tax and slippage |
| Fifo.OneResultPerSell | backend/app/domain/run_artifact.py:129-146 | there are as many results as sells |
| Fifo.Conservation | backend/app/domain/run_artifact.py:126-148 | realized sum = proceeds − oversold proceeds − buy cost + cost of open shares − sell fees |
| Fifo.OversoldIff | backend/app/domain/run_artifact.py:136-146 | the oversold amount is zero if and only if no sell exceeded the open shares |
| Fifo.RealizedIdentityIff | backend/app/domain/run_artifact.py:119-148 | the identity without the oversold term holds if and only if nothing was oversold |
| Valuation.BuildPortfolioSnapshots | backend/app/domain/run_artifact.py:70-116 | the two-pointer pass returns one snapshot per bar, in order, equal to its specification |
| Valuation.PointerSplits | backend/app/domain/run_artifact.py:91-101 | after a bar the pointer separates the events not after it from those after it |
| Valuation.MergeIsLastEvent | backend/app/domain/run_artifact.py:84-116 | a snapshot has its bar's number and time, the cash and quantity left by the last event not after it or the initial ones, holdings of quantity × close, and their sum as equity |
| Metrics.MaxDrawdownOf | backend/app/domain/run_artifact.py:226-236 | the running-maximum loop computes the recursive drawdown |
| Metrics.DrawdownIsWorstFall | backend/app/domain/run_artifact.py:230-236 | for non-negative equities it is in [−1, 0], no pair of points falls further, and it is 0 or attained by a pair |
| Metrics.OnlyValidExactly | backend/app/domain/run_artifact.py:281 | the snapshots that count are the valid ones, each in the place given by how many valid ones come before it |
| Metrics.ComputeMetrics | backend/app/domain/run_artifact.py:239-287 | raises exactly when there is a growth to annualize and its power raises; otherwise the nine metrics in their order, for any fills, and those of the specification for non-negative quantities |
| Metrics.NineKeys | backend/app/domain/run_artifact.py:173-287 | exactly the nine keys, each once, whatever the inputs, unless the annual power raises |
| Metrics.EquityValues | backend/app/domain/run_artifact.py:173-223 | what the equity lookups find: the capital; the last equity; the return x with capital × (1 + x) = last equity; the annual return y with 1 + y the power of their ratio, the basis and the sessions less one; and when and why each is missing |
| Metrics.TradeValues | backend/app/domain/run_artifact.py:226-271 | what the others find: the number of sells, the share of them with a positive result, the sum of the results, the share of snapshots with positive holdings, the drawdown of the snapshots' equities; and when and why each is missing |
| Metrics.FinalAndRealized | backend/app/domain/run_artifact.py:187-258 | looking up the final equity and the realized P&L finds the last snapshot's equity and the sum of the FIFO results |
| Metrics.ObjectiveFound | backend/app/domain/optimization.py:11-23 | every allowed objective is among the nine, so its lookup finds a metric |
| Artifact.BundleConsistent | backend/app/application/run_artifact_builder.py:62-149 | building raises exactly for a completed run whose annual power raises; otherwise the bundle agrees with the run's terminal status and counts its events and warnings, a failed one has neither snapshots nor metrics, a completed one the snapshots of its bars and the nine metrics of those, and an objective is "not computed" exactly for failed runs |
| Reconciliation.SnapshotIsEngineState | backend/app/domain/run_artifact.py:90-115 | the snapshot of a bar, derived from the whole run's events, shows the cash and position the engine had at that bar |
| Reconciliation.EquityReconciles | backend/app/domain/run_artifact.py:103-148 | at every bar, total equity = initial cash + FIFO realized results so far + open quantity × (close − entry price) |
| Reconciliation.StoredBarsReconcile | backend/app/infrastructure/db/bar_snapshot_repository.py:66-80 | the same for every snapshot the bar store returns, when stored times are unique |
| Reconciliation.MetricsReconcile | backend/app/application/run_artifact_builder.py:74-87 | final equity − initial = realized P&L + gain of what is open; equal when the run ends flat |
| Reconciliation.SolventDrawdown | backend/app/domain/run_artifact.py:226-236 | with a broker that checks cash, no equity of a run is negative and its drawdown is the worst fall |
| BarStore.FirstMappingIsEarliest | backend/app/infrastructure/db/bar_snapshot_repository.py:51-64 | the mapping chosen for a period names the instrument on some day of it, none that does takes effect earlier, and there is one unless none does |
| BarStore.SnapshotExactly | backend/app/infrastructure/db/bar_snapshot_repository.py:47-80 | there is a snapshot if and only if some mapping is in force on a day of the period; it holds exactly that mapping's bars stamped on one of its days, in strict time order when times are unique |
| BarStore.SnapshotIgnoresLater | backend/app/infrastructure/db/bar_snapshot_repository.py:66-80 | a period ending before a day reads nothing stamped from that day on |
| BarStore.ImportsAgree | backend/app/infrastructure/db/dataset_import_writer.py:148-193 | two imports that share their history and differ in later bars, checksum and end of coverage agree before that point |
| Backtests.AtMostOnce | backend/app/application/execute_backtest_run_service.py:39-157 | for every schedule of any number of executors: at most one claim, one engine call, one bundle, which is built from the engine's result and agrees with the run's status |
| Backtests.BundleIff | backend/app/application/execute_backtest_run_service.py:55-157 | a finished terminal run has a bundle if and only if there was an engine result and the artifact step succeeded |
| Backtests.CompletedWithoutBundle | backend/app/application/execute_backtest_run_service.py:121-157 | when the engine returns and the artifact step stores nothing, the run ends terminal without a bundle, raising unless there was no writer |
| Backtests.TerminalWithoutBundle | backend/app/application/execute_backtest_run_service.py:84-92 | an empty snapshot leaves a failed run without a bundle |
| Backtests.TerminalAbsorbs | backend/app/domain/backtest_run.py:15-27 | no call of any executor changes a terminal status, and the allowed edges are the five there are |
| Backtests.TransitionDecides | backend/app/infrastructure/db/backtest_run_repository.py:119-164 | a run moves if and only if the edge is allowed, the run exists and has the status expected; which of the three refusals it gets otherwise |
| Backtests.AloneOrLost | backend/app/application/execute_backtest_run_service.py:39-159 | however many executors race, each ends where it would have ended alone, or raises because another one moved the run first |
| Backtests.ContestEnds | backend/app/application/execute_backtest_run_service.py:94-159 | in a contest for a run an executor stores its bundle exactly when it made the claim and the artifact step succeeds |
| Backtests.QuietNeverLoses | backend/app/application/execute_backtest_run_service.py:39-99 | when nobody else takes a turn, an executor ends where it would alone |
| Backtests.AloneIsAlone | backend/app/application/execute_backtest_run_service.py:39-159 | that end is what the service does on its own |
| Backtests.FailureIsExplained | backend/app/application/execute_backtest_run_service.py:55-140 | in every schedule the stored row of a failed run carries the code of its cause: several instruments, no mapping, no bars, an exception from the engine, or the engine's own code; other rows carry none, and a completed one had a completed result |
| BacktestExecution.RunStore.TransitionStatus | backend/app/infrastructure/db/backtest_run_repository.py:119-164 | the conditional update, with its not-found, not-allowed and stale outcomes |
| BacktestExecution.RunStore.PersistArtifact | backend/app/infrastructure/db/run_artifact_writer.py:140-328 | the bundle is added, or after a failure nothing is |
| BacktestExecution.ExecuteBacktestRun | backend/app/application/execute_backtest_run_service.py:28-159 | the service leaves the store and returns or raises as one executor on its own does |
| BacktestExecution.RejectRun | backend/app/application/execute_backtest_run_service.py:55-92 | the rejections before the claim |
| Optimization.EdgesClimb | backend/app/domain/optimization.py:37-60 | the allowed edges are exactly the forward ones, failing and cancelling; each climbs in rank, at most to 5; exactly the terminal statuses have none |
| Optimization.GridIsSortedProduct | backend/app/domain/optimization.py:94-98 | the grid is the product of the declared windows, strictly sorted, each pair once |
| Optimization.GridIgnoresOrder | backend/app/domain/optimization.py:94-98 | declaring windows in another order or repeatedly gives the same grid |
| Optimization.SelectedIsBest | backend/app/domain/optimization.py:171-186 | selection returns an available candidate that no other one precedes under (value, slow, fast, id), and none only if none is available |
| Optimization.BestIsUnique | backend/app/domain/optimization.py:181-186 | two candidates that nothing precedes are the same |
| Optimization.SelectionIgnoresOrder | backend/app/domain/optimization.py:171-186 | any list of the same candidates selects the same one |
| Optimization.SelectionIgnoresIds | backend/app/application/optimization_manifest_service.py:102-106 | because window pairs are distinct, other ids select the same windows |
| OptimizationCreation.GridCounts | backend/app/domain/optimization.py:94-98 | the grid has as many pairs as distinct fast windows times distinct slow ones |
| OptimizationCreation.CreateDecides | backend/app/application/optimization_manifest_service.py:85-130 | a request is accepted if and only if its windows are positive, its periods in order, dataset and instrument known, the grid within the limit, every partition resolved and holding two bars more than each slow window it must cover, and the numbers within their columns; of several faults the first in this order is answered |
| OptimizationCreation.CreatedRecords | backend/app/application/optimization_manifest_service.py:130-220 | the stored manifest has the request's dataset, instrument, partitions, objective and policy, its decimals as the columns keep them; it counts the pending and the rejected candidates, of which there is one per declared pair, in lexicographic order, under the ids that follow |
| OptimizationLifecycle.CreatedIsInitial | backend/app/application/optimization_manifest_service.py:85-220 | an accepted request stores one candidate per pair of the grid, ids and pairs distinct, rejected or pending by the pair alone |
| OptimizationLifecycle.CreationIgnoresBars | backend/app/application/optimization_manifest_service.py:102-220 | the stored optimization does not depend on any bar |
| OptimizationLifecycle.TransitionDecides | backend/app/infrastructure/db/optimization_repository.py:308-359 | the status moves if and only if the edge is allowed and the status is the one expected; a given code is kept and nothing else changes |
| OptimizationLifecycle.RunPeriodExactly | backend/app/application/execute_optimization_service.py:98-108 | executing a created run, whoever else does: a rejection for want of bars, or the artifact built from the engine's result, or an error when that is not built or written, or the error that somebody else was first; it succeeds exactly when this caller claimed the run and its bundle is built and written |
| OptimizationLifecycle.RunPeriodOutcome | backend/app/application/execute_optimization_service.py:64-108 | the run's id is fresh and its errors are never internal ones |
| OptimizationSteps.WinnerIsTried | backend/app/application/execute_optimization_service.py:398-404 | the selected candidate is found among the listed ones, is ahead of every other one with an objective by value, slow window, fast window and id, and has a strategy, so the two assertions hold |
| OptimizationSteps.StepKept | backend/app/application/execute_optimization_service.py:145-457 | each call of an executor in a good position keeps store and executor good, and only the owner writes |
| OptimizationSteps.TurnKept | backend/app/infrastructure/db/optimization_repository.py:308-448 | with other executors in any position, the invariant is kept |
| OptimizationSteps.AlwaysInv | backend/app/application/execute_optimization_service.py:339-457 | the invariant holds after every schedule |
| OptimizationSafety.Lifecycle | backend/app/application/execute_optimization_service.py:145-457 | in every reachable state: rejected candidates unchanged, pending ones unchanged or tried; from selecting on none is pending; the selection is empty exactly when no candidate has an objective, and the audit tells every candidate's result; no run is created for the holdout before the choice, never two; exactly failed optimizations carry a code, that of no eligible candidate exactly after an empty selection; no internal error |
| OptimizationSafety.ErrorsFail | backend/app/application/execute_optimization_service.py:126-142 | in every schedule, an executor that raised anything but that it came second has left the optimization failed |
| OptimizationSafety.CompletedMeans | backend/app/application/execute_optimization_service.py:376-453 | a completed optimization selected a candidate that is ahead of every other one with an objective, and its holdout run used that candidate's windows |
| OptimizationSafety.TriedOnce | backend/app/application/execute_optimization_service.py:258-262 | a candidate that changed once never changes again |
| OptimizationSafety.AtMostFiveChanges | backend/app/domain/optimization.py:37-60 | along any schedule the status changes at most five times, only upwards |
| OptimizationSafety.HoldoutAtMostOnce | backend/app/application/execute_optimization_service.py:392-416 | at most one turn of any schedule runs the holdout |
| OptimizationSafety.RecordedAtMostOnce | backend/app/infrastructure/db/optimization_repository.py:424-448 | the holdout result is recorded exactly once or never, as the stored row shows |
| OptimizationSafety.EnteredAtMostOnce | backend/app/application/execute_optimization_service.py:347-363 | at most one executor gets past created to validating |
| OptimizationSafety.StepIgnoresHoldout | backend/app/application/execute_optimization_service.py:246-336 | every call but the holdout run does the same on databases that agree before the holdout |
| OptimizationSafety.AlwaysAlike | backend/app/domain/optimization.py:105-129 | along any schedule two such systems stay equal up to what the holdout run leaves behind |
| OptimizationSafety.HoldoutCannotLeak | backend/app/application/execute_optimization_service.py:246-336 | for any accepted request, schedule and number of executors, candidate results, selection and audit are the same in both |
| OptimizationEvidence.AlwaysEvidence | backend/app/application/execute_optimization_service.py:64-108 | in every reachable state every stored artifact is the one built from the engine's result for the manifest's policy and its strategy's windows on the bars of its period; and no strategy was run on the validation period without a completed run on the training period |
| OptimizationEvidence.ResultsFollowRuns | backend/app/application/execute_optimization_service.py:145-243 | in every reachable state a tried candidate's result is what its own artifacts say: completed only after both runs completed, with the validation run's metric as objective; failed in training, unvalidated, or failed in validation, with that reason; its warnings those of its runs |
| OptimizationEvidence.HoldoutFollowsRun | backend/app/application/execute_optimization_service.py:406-453 | the recorded holdout objective of a completed optimization is the metric of the artifact of the winner's run on the holdout period, or that this run failed |
| OptimizationFeasibility.CreatedCoversWarmup | backend/app/domain/optimization.py:149-160 | after creation, in every partition every pending candidate has its warm-up window, a signal bar and a fill bar |
| OptimizationFeasibility.CreatedIsAccepted | backend/app/application/optimization_manifest_service.py:96-123 | after creation dataset and instrument exist and every partition has a resolved, non-empty snapshot |
| OptimizationFeasibility.AcceptedRunsIff | backend/app/application/backtest_run_manifest_service.py:76-155 | a run of an accepted partition succeeds if and only if the period is inside declared coverage and ends after the day it starts, the dataset has a checksum, currency and stored numbers are valid, the artifact is built and written, and nobody else claims the run first |
| OptimizationFeasibility.RefusalsDecide | backend/app/application/backtest_run_manifest_service.py:76-155 | which error refuses a run: unknown dataset, unknown instrument, period outside coverage, then, with its id already drawn, a period that does not end after the day it starts or any other invalid part; otherwise the run is created |
| OptimizationOversights.CreationOverlooks | backend/app/application/optimization_manifest_service.py:85-130 | a negative money scale and an empty currency, and a dataset without coverage or checksum, are all accepted, and every run is then refused |
| OptimizationOversights.ProlongedHoldoutOverlooked | backend/app/application/optimization_manifest_service.py:108-123 | an accepted request stays accepted however far its holdout is prolonged; beyond declared coverage every run of it is refused |
| OptimizationOversights.OneDayOverlooked | backend/app/domain/optimization.py:122-129 | partitions of one day each are accepted when the days hold enough bars, and every run of them is refused |
| OptimizationFeasibility.RunnableNeverErrs | backend/app/application/execute_optimization_service.py:258-271 | if all three periods are runnable, an executor raises only because another came first, over an artifact, or because somebody else executed one of its runs; when neither of the latter happens no schedule meets an unexpected error |
| OptimizationFeasibility.CompletedWasRunnable | backend/app/application/execute_optimization_service.py:406-453 | an optimization that completed had all three periods runnable |
| OptimizationExecution.Ports.TransitionStatus | backend/app/infrastructure/db/optimization_repository.py:308-359 | the conditional update of the status, with its not-allowed, not-found and stale outcomes |
| OptimizationExecution.Ports.ListCandidates | backend/app/infrastructure/db/optimization_repository.py:286-306 | the candidates in order of sequence, up to the limit |
| OptimizationExecution.Ports.RecordCandidateResult | backend/app/infrastructure/db/optimization_repository.py:361-396 | exactly the rows with this id are overwritten |
| OptimizationExecution.Ports.RecordSelectionOf | backend/app/infrastructure/db/optimization_repository.py:398-422 | the selection is stored in the row with this id, nothing else changes |
| OptimizationExecution.Ports.RecordHoldoutResult | backend/app/infrastructure/db/optimization_repository.py:424-448 | the holdout result is stored in the row with this id, nothing else changes |
| OptimizationExecution.Ports.TryFail | backend/app/application/execute_optimization_service.py:126-142 | marks the optimization failed if it still is where the executor thinks, and never raises itself |
| OptimizationExecution.Ports.CreateStrategy | backend/app/application/execute_optimization_service.py:157-171 | a strategy is stored under a fresh id exactly when its windows are valid |
| OptimizationExecution.Ports.RunPeriodOf | backend/app/application/execute_optimization_service.py:64-108 | creates and executes one run; a created run is kept, with its artifact when its execution returned |
| OptimizationExecution.ExecuteCandidate | backend/app/application/execute_optimization_service.py:145-243 | ends where the executor's calls for one candidate end |
| OptimizationExecution.RunTrainValidationPhase | backend/app/application/execute_optimization_service.py:246-271 | the loop over candidates, passing over those not pending and failing the optimization on an error |
| OptimizationExecution.SelectCandidatePhase | backend/app/application/execute_optimization_service.py:274-336 | selection and audit are computed from the listed candidates and stored |
| OptimizationExecution.HoldoutPhase | backend/app/application/execute_optimization_service.py:406-457 | the one holdout run, its record and the end |
| OptimizationExecution.ExecuteOptimization | backend/app/application/execute_optimization_service.py:339-457 | the service's final store and outcome are reached by one executor making its calls in order |
| OptimizationService.AloneIsASchedule | backend/app/application/execute_optimization_service.py:339-457 | one executor on its own is one of the schedules |
| OptimizationService.ServiceKeepsLifecycle | backend/app/application/execute_optimization_service.py:339-457 | executed on a created optimization, the service returns only when it completed or failed, raises no internal error, keeps the lifecycle, and changes nothing when the id is unknown |
| OptimizationService.ServiceCompletesIff | backend/app/application/execute_optimization_service.py:339-457 | on an accepted request with runnable periods and no mishap with its runs the service returns, and the optimization is completed if some candidate got an available objective and failed otherwise |
| Migrations.RunAdvances | backend/app/infrastructure/db/migration_runner.py:69-119 | a run on a database with the first k migrations ends with the first m ≥ k, stopping at the one that failed, and with all of them when nothing fails |
| Migrations.FaultRollsBack | backend/app/infrastructure/db/migration_runner.py:96-119 | a migration in which some statement or the insertion into the ledger fails is rolled back |
| Migrations.AlwaysPrefix | backend/app/infrastructure/db/migration_runner.py:87-119 | after any number of runs failing anywhere, ledger and effects are those of a prefix, each migration once, in order, with its checksum |
| Migrations.ResumeCompletes | backend/app/infrastructure/db/migration_runner.py:87-119 | after any history one run without faults completes the list, and running again changes nothing |
| Migrations.ExtensionIsFromScratch | backend/app/infrastructure/db/migration_runner.py:69-119 | a list and then its extension leave what the extension leaves from scratch |
| Migrations.OlderListRefusedIff | backend/app/infrastructure/db/migration_runner.py:82-85 | after any runs of an extended list, the shorter list is refused as newer than known, with the database unchanged, if and only if more than it knows had been applied |
| Migrations.EditRefusedIff | backend/app/infrastructure/db/migration_runner.py:87-94 | the first edited migration is refused with the database unchanged if and only if everything before it had been applied |
| Migrations.EditedHistoryRefused | backend/app/infrastructure/db/migration_runner.py:87-94 | in every state that runs leave behind, an edit of an applied migration is refused with the database unchanged, whether or not the edited list goes on with new migrations |
| Migrations.ReadyIff | backend/app/infrastructure/db/readiness.py:10-20 | in every such state the row count matches if and only if there are migrations and all are applied |
| MigrationRunner.Connection.ApplyInTransaction | backend/app/infrastructure/db/migration_runner.py:96-119 | all of one migration, or after the rollback none of it |
| MigrationRunner.Connection.RunMigrations | backend/app/infrastructure/db/migration_runner.py:69-119 | the runner's database and error are those of the specification |
| MigrationRunner.DiscoverMigrations | backend/app/infrastructure/db/migration_runner.py:31-66 | discovery succeeds if and only if the directory exists, names are well formed, versions distinct and 1 to n all present, and returns every file's migration in order; otherwise the error names the missing directory, the first file without a proper name or with a version seen before, or where the versions first leave 1, 2, … |
| CsvChronology.RequireUniqueAndSorted | backend/app/infrastructure/ingestion/csv_parser.py:168-190 | refuses a row exactly for a repeated key or a time not after the instrument's last, and otherwise keeps the bookkeeping |
| CsvChronology.ParseCsv | backend/app/infrastructure/ingestion/csv_parser.py:193-221 | accepts a file if and only if it has rows, all fields are good and times rise strictly within each instrument, every row then holding field by field what its line says; otherwise names the first offending line, with duplicate_row exactly for a key seen before |
| CsvChronology.AcceptedRowsAreBars | backend/app/domain/market_data.py:39-44 | accepted rows pass the stored bar's guards, and an instrument's times are unique |
| MappingStore.OverlapIffSharedDay | backend/app/domain/date_ranges.py:4-7 | two non-empty ranges overlap if and only if they share a day |
| MappingStore.MappingRepository.FindOverlapping | backend/app/infrastructure/db/dataset_instrument_mapping_repository.py:86-109 | exactly the stored mappings of the source whose ranges overlap, in order |
| MappingStore.MappingRepository.CreateMapping | backend/app/application/dataset_instrument_mapping_service.py:26-65 | the checks in order, then the insertion |
| MappingStore.AlwaysDisjoint | backend/app/application/dataset_instrument_mapping_service.py:45-65 | after any sequence of calls, ranges of one source are pairwise disjoint |
| MappingStore.AtMostOneOnAnyDay | backend/app/application/dataset_instrument_mapping_service.py:45-65 | on any day at most one mapping of a source holds |
| MappingStore.CreateDecides | backend/app/application/dataset_instrument_mapping_service.py:26-65 | which request is refused and why: unknown dataset, unknown instrument, an overlap with a stored range of its source, a blank name or dates that are no range; only otherwise is it stored |
| MappingStore.RefusedIffSharesDay | backend/app/application/dataset_instrument_mapping_service.py:45-52 | a request is refused for an overlap if and only if it shares a day with a stored range of its source |
| MappingStore.NoClashIsSafe | backend/app/application/dataset_instrument_mapping_service.py:45-65 | for any callers and schedule on a disjoint store: without a clash, two overlapping requests between check and insertion at once, the store is disjoint at every point |
| MappingStore.ClashIsUnsafe | backend/app/application/dataset_instrument_mapping_service.py:45-65 | after a clash, the two overlapping requests each are stored or will be |
| MappingStore.DisjointIffNeverClashed | backend/app/application/dataset_instrument_mapping_service.py:45-65 | once all calls have returned, the store is disjoint if and only if there never was a clash |
| MappingStore.OnePerSourceIsSafe | backend/app/application/dataset_instrument_mapping_service.py:45-65 | letting one call per source through at a time keeps every store disjoint |
| MappingStore.RacingCallsCanOverlap | backend/app/application/dataset_instrument_mapping_service.py:45-65 | any two acceptable requests that overlap: both are stored when both check before either inserts, and the second is refused when the first is done |
| Text.DecimalRoundTrip | backend/app/domain/backtest_manifest.py:31-32 | reading a printed decimal gives the same number, and the same representation if and only if its exponent is not positive |
| Text.DecimalTextStable | backend/app/domain/backtest_manifest.py:31-32 | printing what was read gives the same text |
| Text.DecimalText | backend/app/domain/backtest_manifest.py:31-32 | a decimal prints as a sign if negative, at least one digit without a leading zero, and as many decimal places as its exponent asks for; the digits are its coefficient's, multiplied out |
| Text.SameNumberIff | backend/app/domain/backtest_manifest.py:31-32 | the same number is the same value coefficient × 10^exponent under one sign |
| Text.DateRoundTrip | backend/app/domain/backtest_manifest.py:121-126 | every date survives its ISO form |
| Text.DateText | backend/app/domain/backtest_manifest.py:124-129 | a date prints as four digits of the year, two of the month, two of the day, with dashes |
| Text.InstantRoundTrip | backend/app/domain/backtest_manifest.py:35-36 | every timestamp, with its offset, survives its ISO form |
| Text.InstantText | backend/app/domain/backtest_manifest.py:35-36 | a timestamp prints its date, T, hour, minute and second, a point and six digits when there are microseconds, and its offset |
| Text.OffsetText | backend/app/domain/backtest_manifest.py:35-36 | UTC prints as Z; any other offset of a minute or more, or below zero, as sign, hours and minutes |
| RunManifests.ManifestRoundTrip | backend/app/domain/backtest_manifest.py:348-423 | reading the canonical form of a valid manifest gives an equal manifest, decimals equal as numbers |
| RunManifests.CanonicalFormStable | backend/app/domain/backtest_manifest.py:348-364 | what was read is valid and has the canonical form it was read from |
| RunManifests.CanonicalFormDetermines | backend/app/domain/backtest_manifest.py:348-364 | two valid manifests have the same canonical form if and only if they read back the same |
| RunManifests.OnlyValidManifestsRead | backend/app/domain/backtest_manifest.py:324-346 | whatever reads as a manifest satisfies every constructor's guards |
| ManifestReading.ManifestReadIff | backend/app/domain/backtest_manifest.py:371-423 | a dictionary reads as a manifest if and only if it says that manifest entry by entry and the manifest is valid |
| ManifestReading.CanonicalFormSays | backend/app/domain/backtest_manifest.py:348-364 | the canonical form says the manifest, entry by entry |
| ManifestReading.CanonicalFormIsComplete | backend/app/domain/backtest_manifest.py:348-364 | every section of the canonical form has all of its keys and no others |
| ManifestReading.GuardsCompareValues | backend/app/domain/backtest_manifest.py:24-28 | the guards on decimals compare the decimal's value with 0 and 1 |
| ManifestReading.RefusalCodes | backend/app/domain/backtest_manifest.py:86-256 | which code a refused universe, period, sizing or whole manifest carries |
| ManifestReading.DistinctIffCounted | backend/app/domain/backtest_manifest.py:86-99 | instrument ids are distinct if and only if there are as many different ones as entries |
| StrategyParameters.BuildComboParameters | backend/app/domain/strategy_spec.py:229-260 | the loop over conditions returns them in order or the first error |
| StrategyParameters.BaseBuiltIff | backend/app/domain/strategy_spec.py:263-276 | a base kind is built from a dictionary if and only if the dictionary is the canonical form of valid parameters of that kind |
| StrategyParameters.ParametersBuiltIff | backend/app/domain/strategy_spec.py:229-276 | the same for all five kinds, combinations reading two or three conditions of distinct kinds |
| StrategyParameters.ParametersRoundTrip | backend/app/domain/strategy_spec.py:196-276 | valid parameters survive their canonical form |
| StrategyParameters.SmaAccepted | backend/app/domain/strategy_spec.py:28-45 | a crossover dictionary is accepted if and only if its windows are numbers with 1 ≤ fast < slow and the price field is close |
| StrategyParameters.RsiAccepted | backend/app/domain/strategy_spec.py:65-80 | a threshold dictionary is accepted if and only if the period is at least 2 and 0 < oversold < overbought < 100, all numbers |
| StrategyParameters.MacdAccepted | backend/app/domain/strategy_spec.py:101-118 | likewise for 1 ≤ fast < slow and 1 ≤ signal |
| StrategyParameters.BollingerAccepted | backend/app/domain/strategy_spec.py:138-151 | likewise for a period of at least 2 and 1 to 4 deviations |
| StrategyParameters.RefusedUnderOneCode | backend/app/domain/strategy_spec.py:229-276 | unknown kinds are refused as unsupported_kind, everything else as invalid_parameters, except that a nested kind of a condition raises |
| StrategyParameters.DistinctIffCounted | backend/app/domain/strategy_spec.py:211-215 | a combination's kinds are distinct if and only if there are as many different ones as conditions |
| StrategyParameters.WarmupIsMax | backend/app/domain/strategy_spec.py:54-221 | a strategy's warm-up is more than one bar: the slow window, the period and one, slow plus signal, or the period by kind; a combination's is that of its slowest condition |

## Left out

- Backtrader itself, indicator arithmetic and the broker's float cash: not part of this model; signals and broker are arbitrary functions of the bars seen so far, and only executed, cancelled, margin and rejected notifications are delivered (others change nothing in the code).
- Decimal arithmetic with 28 significant digits: results are exact reals, so the repository's rounding of products and quotients is not captured.
- The value of `annualized_return`: the power function is arbitrary, and so is where it raises.
- An id that the engine draws on the very bar on which the library raises: it is not counted, so a later id may take its place.
- Reproducibility manifest, provenance and checksums: SHA-256, JSON bytes and their key order are not part of this model; `RunManifests.CanonicalFormStable` is about the dictionary the checksum is taken over.
- Metadata that nothing branches on: instrument tags, currencies of events, names, clock times of status changes, artifact and bundle ids.
- `_run_period` is one step of an optimization's executor, in which outside callers of its run take their turns; other executors of the optimization touch neither that run nor, past its claim, anything else.
- An artifact that an outside caller stores for a run it won: the optimization's record of that run does not show it.
- One optimization per store: other optimizations' rows share no candidate, strategy or run with it.
- A stored run's manifest that does not read, at the start of a run's execution: the error leaves the run as it was; `RunManifests` models the reading.
- Unsupported objective keys, and decimals of a request that do not parse or are not finite: refused at creation before anything is stored; objective keys are typed here.
- Cancelling: the status graph has it, no code path uses it.
- Which of several applicable mappings is taken when two take effect on the same day: the query leaves it open, the model takes the first stored.
- SQL, connections and datetime conversion: stores are maps and sequences with atomic operations; the ledger's other columns are dropped.
- Migration statements: kept as opaque tags apart from the creation of the ledger table; which of them fails in a run is arbitrary.
- Tokenizing, decoding, headers, decimal and timezone parsing of imported files: rows start as fields that parsed or did not.
- Decimal texts with an exponent, infinities and NaN when a manifest is read: the canonical form never holds one; numbers in it are integers.
- ManifestReading.ManifestReadIff: entries are texts and integers where the record has them, dates and timestamps have the form they are printed in; Python's readers also take other ISO forms and white space, and leave other types to fail later or not at all.
- Strategy parameters given as `NaN` or an infinity, which are not JSON numbers; floats are exact.
- OptimizationExecution.Ports.ListCandidates: the store holds one optimization's candidates in their sequence, so the filter and the ordering of the query are not captured.
- Databases that change while an optimization exists, and failures of the store other than in writing an artifact.
- Strategy.CrossoverStrategy.SubmitExit: the position is an integer, so the truncation of the library's float size is not captured.
- HTTP routes, schemas, the frontend, corporate actions, aliases, instrument creation, dataset validation and data fetching: field checks and plumbing.
