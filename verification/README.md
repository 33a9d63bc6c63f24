# Verified model of the trading platform's strategy, ledger and worker core

This project models the parts of the bot platform that decide, account and coordinate: the strategy language and
its indicator resolution, the bar-by-bar backtest with its DCA ladder, the live signal and exit engines, the
regime-switching backtest, the position ledger and the fill reconciler, the run state machine, the hedge worker, and
the tree, grid, graph and pagination algorithms around them. Every claim below is proved for all inputs, all runs or
all interleavings.

## How the model is organised

The code comes twice where it changes things step by step: once as a method or a class with the source's
variables and control flow, and once as a function that says what it computes. The method is proved to compute the
function, and the promises are lemmas about the function.

| part | files |
|---|---|
| shared values | `Wrappers`, `Market`, `Reals` |
| indicators and signals | `Ema`, `Indicators`, `IndicatorCache`, `Signals`, `SignalLaws`, `Strategy`, `Proximity` |
| patterns | `Patterns` (detectors and series), `PatternMeanings`, `PatternHindsight`, `PatternRuns` |
| DCA | `DcaPlanning`, `DcaLadder`, `DslValidator` |
| backtest | `Backtest` (the meaning), `BacktestEngine` (the loop), `BacktestInvariants`, `RunReasons`, `TradeLog`, `TradeLabels`, `TrailLabels`, `NoLookAhead` |
| live engines | `LiveEngine`, `Separation`, `LiveParity`, `SideModes`, `LiveLadder` |
| adaptive backtest | `Adaptive` (the meaning), `AdaptiveEngine` (the loop), `AdaptiveEntries`, `AdaptiveCollapse` |
| runs and hedges | `RunLifecycle`, `Hedge` |
| ledger | `PositionLedger`, `OpenRaces`, `Reconciler`, `Exposure`, `FillTracking`, `FillCosts` |
| sweeps, graphs, candles | `SweepPatch`, `SweepGrid`, `GraphCompiler`, `Pagination` |
| candles and strategies of the examples | `Scenarios` |

Prices and quantities are exact reals; a candle's prices are positive. The EMA, the volume series and constants are
computed by the model. Every other indicator is a parameter, the *library*: a function from a computation and the
candles to its lines. A theorem about runs asks of the library only what the strategy at hand reads of it: `Settled`
says that these values, at the bars of a prefix, do not depend on the candles after it. Values read through causal
computations are settled on every prefix (`Indicators.ValueIsCausal`; `Ema.EmaIsCausal` proves it for the EMA loop).
The four pattern series are computed by the model as well, and are not all settled: see below. A block type,
operator or signal kind is parsed from its string once (`BlockOf`, `OpOf`, `KindOf`); the rest of the model works on
the parsed value.

## Where an obvious statement fails

Each of these is kept as the code has it, with the exact condition and, where that needs a run to reach, an example:

- **Pattern blocks look ahead.** A fair value gap is marked at the candle before the one that closes it, an order
  block at a candle before its impulse, and a swing counts before the candles that confirm it. Per bar the
  dependence is exact for gaps (the next candle), for blocks (an impulse within the lookback) and for sweeps (the
  warm-up only: a detected sweep never moves); a structure shift is settled once the swings behind it are confirmed
  and there are two (`PatternHindsight.GapHindsightExactly`, `PatternHindsight.BlockHindsightExactly`,
  `PatternHindsight.SweepHindsightExactly`, `PatternHindsight.ShiftSettles`, `PatternRuns.ShiftHindsightExample`). For
  each of the four kinds there is a strategy whose run over a prefix, and whose live run, part from the full run
  (`PatternRuns.PatternsPeek`). So, of all sets of pattern kinds a strategy may read, exactly the empty one rules
  look-ahead out and keeps the live engines with the backtest (`PatternRuns.NoLookAheadExactlyWithoutPatterns`,
  `PatternRuns.LiveParityExactlyWithoutPatterns`); one that reads sweeps alone is settled from the first prefix long
  enough to detect any (`PatternRuns.SweepRunsSettle`).
- **Fills at the next open see one bar ahead of a prefix.** A prefix run that leaves by indicator on its own last
  bar falls back to that bar's close, so its trade differs from the full run's; this is the only way the prefix
  property fails (`NoLookAhead.NoLookAheadNextOpen`, `NoLookAhead.NextOpenExample`).
- **Costs help shorts.** The exit multiplier lowers the price a short buys back at, so a flat short under costs logs
  a profit (`TradeLabels.CostsHelpShorts`), although the comment at `apps/api/src/lib/dslEvaluator.ts:933-938` calls
  the cost symmetric.
- **Stop, target and trailing exits carry labels that ignore costs.** Each label tells the truth exactly if the level
  after costs is on the expected side of the entry; for percentages that is a condition on the strategy and its costs
  alone (`TradeLabels.FixedLabelsMatchExactly`, `TradeLabels.PercentLabelsMatchExactly`). So it is for a trailing stop:
  with activation `a`, callback `c`, exit multiplier `m` and `r` what the trail keeps of the entry, every trailing
  label of every run is true exactly if, for longs, `r = (1 + a/100)(1 - c/100)` has `r*m > 1`, and for shorts
  `r = (1 - a/100)(1 + c/100)` has `r <= 1` and `r*m < 1` (a long callback or short activation of 100% never leaves by
  trail: `TrailLabels.TrailLabelsMatchExactly`). Runs that log a losing trade as a win:
  `TradeLabels.ThinTargetExample`, `TrailLabels.LosingWinExample`.
- **`fixed_price` levels are computed as percentages** by every engine, where `docs/10-strategy-dsl.md:158` calls them
  absolute prices. A level lands on the price it names for one value per entry and side only
  (`Strategy.FixedPriceIsHitExactly`, `Strategy.FixedPriceExample`).
- **The backtest chooses sides with its own code**, without the sign mode and with a resolver that passes four
  parameters (`LiveParity.ResolversPart`, `SideModes.SidesAgreeExactly`, `LiveParity.ExitsAgreeExactly`).
- **The adaptive backtest omits slippage on exits** and ignores the taker fee. Given the same options, the two
  programs log the same trades exactly when nothing fires, or the fees they read agree and there is no slippage
  (`AdaptiveCollapse.CollapseExactly`, `AdaptiveCollapse.OrdinaryCollapseExactly`,
  `AdaptiveCollapse.DivergenceExamples`).
- **A close of exactly the remainder plus the tolerance** is neither refused nor full, and leaves an open position
  below zero; no other operation ever does (`PositionLedger.SoundExactlyUnlessOverdrawn`,
  `PositionLedger.OverdrawnExample`).
- **An add after a partial close re-averages quantity that is already gone**, so realised profit departs from cash
  flow by a drift the model computes (`PositionLedger.CashFlowLaw`, `PositionLedger.LateAddDrifts`,
  `PositionLedger.DriftExample`).
- **Two opens can both pass the guard.** The guard reads and then inserts, with no unique index behind it: a step
  leaves two positions open on one symbol exactly if it inserts beside one opened since the read
  (`OpenRaces.StepKeepsOneOpenExactly`, `OpenRaces.DoubleOpenExample`). Calls one after another keep one
  (`PositionLedger.OneOpenPerSymbol`).
- **A fill counter that runs backwards on a cancelled order** is followed by the intent but not by the position
  (`Reconciler.StepConserves`, `Reconciler.RollbackExample`).
- **An entry fill is added to the active position whatever its side**, so an order that sells while its run is long
  makes the long larger. One fill keeps the signed exposure in step with what the orders bought exactly if the
  order's side matches its position (`Exposure.FillBalancesExactly`, `Exposure.ExposureIsNetBought`,
  `Exposure.OppositeEntryExample`).
- **A further part of an order is booked at the order's average so far**, not at its own price, so the ledger's cost
  leaves what was paid unless the average stands still (`FillCosts.CostStepExactly`, `FillCosts.CostsAreReported`); a
  unit at 100 and one at 200 are booked at 250 (`FillCosts.TwoPricesExample`).
- **Every reading of a DCA fill takes a rung of the live ladder**, also a further part of an order already counted. The
  ladder counts orders exactly if each reached it in one reading (`FillTracking.RungsAreOrdersExactly`); a base order
  that fills in two parts loses its first safety order (`FillTracking.PartialBaseExample`). Fills past a full ladder,
  or without the DCA mark, leave the ladder behind the position for good (`FillTracking.LaddersFollowExactly`).
- **A full live ladder accepts a fill of order -1**, the marker of its fullness, and starts over; its callers check
  the index (`LiveLadder.LivesAreOkExactly`, `LiveLadder.OverfillReopens`).
- **A hedge's status can move backwards under interleaving**, because neither kind of status write checks the status
  it was planned on. A step fails to advance a status exactly when it writes another over CLOSED or FAILED, emits the
  exit of a hedge that has failed meanwhile, or opens one that is already closing (`Hedge.StepRegressesExactly`); so
  a final status is lost exactly in the first two ways (`Hedge.FinalStatusLostExactly`). Reached are CLOSING to OPEN,
  FAILED to CLOSING and CLOSED to FAILED (`Hedge.InterleavedCallsRegress`, `Hedge.EmittingCallsRegress`,
  `Hedge.ClosedBecomesFailed`, the last two through the manual retry at `apps/api/src/routes/intents.ts:195-225`). A
  guard on the status read, or calls that do not interleave, rule all of them out (`Hedge.GuardedRunsNeverRegress`,
  `Hedge.AtomicCallsNeverRegress`).
- **The exposure check is skipped for a ladder without safety orders**; only the schema's minimum of one keeps that
  case out (`DslValidator.NoSafetyOrdersEscapeTheCap`, `DslValidator.EscapeExample`).
- **A swept parameter named like an inherited property** (`toString`) is added to nodes that do not own it, since
  `in` sees prototypes (`SweepPatch.KeysPreservedExactly`).
- **A swept parameter named `nodeId` hides its node from the parameters after it**, since the node's id is then a
  number. The last parameter for a key wins exactly if it comes no later, or repeats the last value that does
  (`SweepPatch.LastWinsExactly`, `SweepPatch.RenamingExample`).
- **The sweep guard undercounts.** It misses every step that fits into the loop's epsilon, and one more when the range
  falls short of another step by no more than the rest of the epsilon (`SweepGrid.GuardShortfall`). It is off by at
  most one on all ranges exactly for steps of at least the epsilon (`SweepGrid.AtMostOneShortExactly`); at a step of
  1e-12 it sees 2 runs of 1002 (`SweepGrid.TinyStepExample`). Below a step of 1e-8 two values of a range can round to
  the same number (`SweepGrid.ValuesIncreaseExactly`).
- **A block given only a period** compiles to a length, which most blocks read differently
  (`GraphCompiler.PeriodOnlyNodes`).
- **Candle fetching drops the newest candles**, not the oldest, when the range exceeds a cap that is no multiple of
  the page size (`Pagination.NewestIsKeptExactly`, `Pagination.NewestDroppedExample`).

## Model

| member | source | states |
|---|---|---|
| Ema.CalcEMA | apps/api/src/lib/indicators/ema.ts:14-31 | The two loops fill the array with nothing before the seed bar and, from there on, the recursive average with the plain mean of the first closes as seed |
| Ema.EmaIsCausal | apps/api/src/lib/indicators/ema.ts:14-31 | The average at a bar is the same on every extension of the candles up to that bar |
| Ema.EmaWithinCloses | apps/api/src/lib/indicators/ema.ts:14-31 | Smoothing never leaves the range of the closes read so far |
| Indicators.ValueIsCausal | apps/api/src/lib/dslEvaluator.ts:295-451 | Whatever block and parameters are asked for, the value at a bar needs no later candle if the computation asked for does not; the EMA, volume and constants never do |
| Patterns.DetectFairValueGaps | apps/api/src/lib/patterns/fairValueGap.ts:38-87 | The loop finds, bar by bar, the gaps each candle closes over the one before it, recorded at that earlier candle |
| Patterns.FindSwingPoints | apps/api/src/lib/patterns/liquiditySweep.ts:54-81 | The scan finds exactly the bars that top or bottom all neighbours within the swing length, in order |
| Patterns.DetectLiquiditySweeps | apps/api/src/lib/patterns/liquiditySweep.ts:90-139 | The nested loop, with its early exit and age limit, finds for each bar all swings behind it that its wick passes and its close does not |
| Patterns.DetectOrderBlocks | apps/api/src/lib/patterns/orderBlock.ts:64-135 | With its sliding range sum, the loop finds for each impulse the last opposing candle within the lookback, each candle once |
| Patterns.DetectMarketStructureShifts | apps/api/src/lib/patterns/marketStructureShift.ts:53-159 | With its running swing counts and broken set, the loop performs for each bar at most one bullish and one bearish break of the latest unbroken swings |
| Patterns.ComputeFvgSeries | apps/api/src/lib/runtime/patternEngine.ts:34-51 | The series shows the last gap recorded at each bar, nothing before the third, zero elsewhere |
| Patterns.ComputeSweepSeries | apps/api/src/lib/runtime/patternEngine.ts:57-76 | Likewise for sweeps, undefined throughout on data too short to detect one |
| Patterns.ComputeOrderBlockSeries | apps/api/src/lib/runtime/patternEngine.ts:82-99 | Likewise for order blocks |
| Patterns.ComputeShiftSeries | apps/api/src/lib/runtime/patternEngine.ts:105-126 | Likewise for structure shifts, two for a change of character |
| PatternHindsight.GapHindsightExactly | apps/api/src/lib/patterns/fairValueGap.ts:38-87 | A bar of the gap series reads the same on a prefix exactly unless it is the last there and the next candle closes a gap over it |
| PatternHindsight.SweepHindsightExactly | apps/api/src/lib/patterns/liquiditySweep.ts:90-139 | A bar of the sweep series reads the same on a prefix exactly unless the prefix is too short to detect anything and the data is not: unconfirmed swings are never swept |
| PatternHindsight.BlockHindsightExactly | apps/api/src/lib/patterns/orderBlock.ts:64-135 | A bar of the order block series reads the same on a prefix exactly unless only an impulse after the prefix makes it a block |
| PatternHindsight.BlockSettles | apps/api/src/lib/patterns/orderBlock.ts:96-122 | So it is settled once the lookback has passed |
| PatternHindsight.ShiftSettles | apps/api/src/lib/patterns/marketStructureShift.ts:53-159 | A bar of the shift series is settled once the swings behind it are confirmed, on a prefix with two swings |
| PatternMeanings.GapSeriesMeans | apps/api/src/lib/patterns/fairValueGap.ts:38-87 | A bar of the gap series is bearish, bullish or silent exactly by the prices its neighbours leave untraded and the ratio of that to its body |
| PatternMeanings.SwingPointsExactly | apps/api/src/lib/patterns/liquiditySweep.ts:54-81 | The swing points are exactly the highs and lows beyond those of every bar within the swing length on both sides |
| PatternMeanings.SweepSeriesMeans | apps/api/src/lib/patterns/liquiditySweep.ts:90-139 | A bar of the sweep series is bullish only if its wick takes out a swing low that its close wins back, bearish only for a swing high, silent only if it does neither |
| PatternMeanings.BlockSeriesMeans | apps/api/src/lib/patterns/orderBlock.ts:64-135 | A bar of the order block series is bullish exactly if it closes down and is the last to do so before an upward impulse within the lookback, bearish the other way round |
| PatternMeanings.TrueRangeSpans | apps/api/src/lib/patterns/orderBlock.ts:42-55 | The true range spans the bar and the close before it |
| PatternMeanings.ShiftStepMeans | apps/api/src/lib/patterns/marketStructureShift.ts:76-132 | A bar adds at most an upward and a downward break, each beyond a swing no bar had broken, doubled exactly against a trend in both highs and lows |
| PatternMeanings.ReportsAreBreaks | apps/api/src/lib/patterns/marketStructureShift.ts:71-134 | Over a whole run as many breaks are reported as swings are broken, so none twice |
| PatternRuns.ShiftHindsightExample | apps/api/src/lib/patterns/marketStructureShift.ts:61-64 | A break over the only swing is reported once a later candle has made a second one |
| PatternRuns.SweepRunsSettle | apps/api/src/lib/patterns/liquiditySweep.ts:90-139 | A strategy whose only patterns are sweeps reads settled values on every prefix long enough to detect one |
| PatternRuns.PatternsPeek | apps/api/src/lib/runtime/patternEngine.ts:34-126 | For each pattern kind, a strategy that reads it logs, over three of four candles and live, a trade that the run over all four does not |
| PatternRuns.NoLookAheadExactlyWithoutPatterns | apps/api/src/lib/dslEvaluator.ts:396-428 | With the platform's own pattern series and any causal other indicators, all strategies reading only the given pattern kinds are free of look-ahead exactly if there are none of them |
| PatternRuns.LiveParityExactlyWithoutPatterns | apps/api/src/lib/dslEvaluator.ts:396-428 | Likewise for agreement of the live engines with the frictionless backtest |
| IndicatorCache.PatternKeyInjective | apps/api/src/lib/dslEvaluator.ts:396-428 | The four pattern kinds share one map safely: equal composite keys mean the same computation with the same numbers |
| IndicatorCache.Key2Injective | apps/api/src/lib/dslEvaluator.ts:277-289 | A two-number key determines both numbers |
| IndicatorCache.Key3Injective | apps/api/src/lib/dslEvaluator.ts:352-363 | A three-number key determines all three numbers |
| IndicatorCache.Cache.GetIndicatorValues | apps/api/src/lib/dslEvaluator.ts:295-451 | A call on a consistent cache returns the direct computation for its parameters and leaves every entry equal to the direct computation of every key that could find it |
| IndicatorCache.AnswerAll | apps/api/src/lib/dslEvaluator.ts:239-451 | Over any sequence of calls on one cache, each call returns what an uncached call would |
| Signals.CapIsSound | apps/api/src/lib/dslEvaluator.ts:622-693 | The depth cap never makes a signal fire that would not fire without it |
| Signals.CapIsExact | apps/api/src/lib/dslEvaluator.ts:622-693 | Signals of height at most five are evaluated exactly |
| Signals.NestingAgainstCap | apps/api/src/lib/dslEvaluator.ts:622-693 | A leaf under `n` single-child conjunctions fires uncapped exactly when the leaf does, and capped only if the nesting also leaves it a level |
| Signals.ConfirmComposes | apps/api/src/lib/dslEvaluator.ts:680-690 | Confirming over `n` bars a confirmation over `m` bars is confirming over `n + m - 1` bars |
| Signals.SignalIsCausal | apps/api/src/lib/dslEvaluator.ts:622-693 | A signal at a bar of a prefix is the same on all candles whenever the indicators named in its tree are |
| SignalLaws.CrossIsChangeOfSide | apps/api/src/lib/dslEvaluator.ts:659-678 | Where both series are defined, a crossover fires exactly on a bar that is above after one that was not, a crossunder exactly on one that is below after one that was not |
| SignalLaws.CrossingsBalance | apps/api/src/lib/dslEvaluator.ts:659-678 | Over any stretch on which two series are defined and never equal, crossovers less crossunders is what the fast series gained: one, minus one or none, by where it began and ended |
| SignalLaws.CrossoversAlternate | apps/api/src/lib/dslEvaluator.ts:659-678 | Between two crossovers there is a crossunder |
| SignalLaws.ComparisonsPartition | apps/api/src/lib/dslEvaluator.ts:582-600 | Of below, equal and above exactly one fires on two values; the other two operators are their unions, and an unknown one never fires |
| SignalLaws.UndefinedNeverFires | apps/api/src/lib/dslEvaluator.ts:679-689 | No comparison fires where one of its values is not there |
| SignalLaws.BandsPartition | apps/api/src/lib/dslEvaluator.ts:622-647 | A band as a conjunction fires exactly inside it, as a disjunction exactly outside, wherever there is a value |
| SignalLaws.ConfirmedFor | apps/api/src/lib/dslEvaluator.ts:649-657 | A confirmed comparison fires exactly where it has held on that many bars in a row |
| SignalLaws.NothingNeverFires | apps/api/src/lib/dslEvaluator.ts:622-647 | A composition of no conditions never fires |
| SignalLaws.SignalDefaults | apps/api/src/lib/dslEvaluator.ts:622-693 | Without an operator a comparison asks for above; without a number a confirmation asks for three bars |
| SignalLaws.OperatorNames | apps/api/src/lib/dslEvaluator.ts:582-600 | What each operator name makes of two numbers, all other names comparing false |
| SignalLaws.KindNames | apps/api/src/lib/dslEvaluator.ts:622-693 | Each signal type is denoted by exactly its name |
| SignalLaws.BlockNames | apps/api/src/lib/dslEvaluator.ts:295-451 | In whatever case it is written, a name denotes an indicator exactly if it is one of its names |
| SignalLaws.CaseIsIgnored | apps/api/src/lib/dslEvaluator.ts:305-305 | Writing any letters of a name in capitals changes nothing |
| SignalLaws.DefaultsSpelledOut | apps/api/src/lib/dslEvaluator.ts:295-451 | A reference asks for what it asks for with its defaults and precedences written out; numbers its block does not read change nothing |
| SignalLaws.LinesAreRead | apps/api/src/lib/dslEvaluator.ts:295-451 | The bands, the MACD lines and the profile levels are each read off the line of their computation that is named after them |
| SignalLaws.NumbersReachTheirNames | apps/api/src/lib/dslEvaluator.ts:295-451 | A number given in a reference reaches the computation under its own name |
| Strategy.GatesAreCausal | apps/api/src/lib/dslEvaluator.ts:704-771 | The signal and the proximity gate at a bar of a prefix are the same on all candles whenever what they read is |
| Strategy.SidesAreCausal | apps/api/src/lib/dslEvaluator.ts:704-771 | So are both side choices, given the one indicator of the side condition |
| Strategy.LevelsAreCausal | apps/api/src/lib/dslEvaluator.ts:777-828 | So are the stop and target levels, given the ATR where a level reads it |
| Strategy.FixedPriceIsHitExactly | apps/api/src/lib/dslEvaluator.ts:777-828 | A stop or target given as an absolute price is placed at that price exactly for one value per entry and side |
| Strategy.FixedPriceExample | apps/api/src/lib/dslEvaluator.ts:777-828 | A stop meant at 95 for a long entered at 100 sits at 5 |
| Proximity.FilterKeepsBand | apps/api/src/lib/dslEvaluator.ts:704-726 | With a positive level, or a distance from any, the backtest enters exactly what it enters without the filter if the close lies within the threshold of the level, and nothing otherwise; without a level the filter changes nothing |
| Proximity.LiveFilterKeepsBand | apps/api/src/lib/signalEngine.ts:104-114 | So do live entries |
| DcaPlanning.StepsAreGeometric | apps/api/src/lib/dcaPlanning.ts:135-143 | Price steps grow by the step scale, and the cumulative deviation is the closed form of their geometric series |
| DcaPlanning.SizesAreGeometric | apps/api/src/lib/dcaPlanning.ts:309-317 | Order sizes grow by the volume scale, and the exposure is the closed form of their series |
| DcaPlanning.ChecksDecideValidity | apps/api/src/lib/dcaPlanning.ts:107-129 | Checking the last deviation alone decides whether every deviation of the ladder stays below 100% |
| DcaPlanning.ValidateDcaConfig | apps/api/src/lib/dcaPlanning.ts:107-129 | Reports the first failing check in the source's order, and none exactly for usable ladders |
| DcaPlanning.CalculateMaxDeviation | apps/api/src/lib/dcaPlanning.ts:135-143 | The loop computes the ladder's last deviation |
| DcaPlanning.CalculateMaxExposure | apps/api/src/lib/dcaPlanning.ts:309-317 | The loop computes the capital of the whole ladder |
| DcaPlanning.CalculateAvgEntry | apps/api/src/lib/dcaPlanning.ts:247-257 | The loop computes total cost over total quantity, zero without fills |
| DcaPlanning.AverageIsCostPerQty | apps/api/src/lib/dcaPlanning.ts:247-257 | The average times the quantity is the cost, and of no quantity it is zero |
| DcaPlanning.TriggersOrdered | apps/api/src/lib/dcaPlanning.ts:187-205 | Triggers of a valid ladder are positive, beyond the entry, and each strictly beyond the one before |
| DcaPlanning.BuildLadder | apps/api/src/lib/dcaPlanning.ts:176-217 | On a valid configuration the schedule loop never takes its defensive breaks: all levels are built, and the totals are the ladder's exposure and quantity |
| DcaPlanning.GenerateSafetyOrderSchedule | apps/api/src/lib/dcaPlanning.ts:165-234 | Succeeds exactly for a valid configuration and a positive entry; otherwise returns the first reason; the schedule's capital is the maximum exposure |
| DcaLadder.FillKeepsLadder | apps/api/src/lib/dcaPlanning.ts:353-378 | Filling the next rung keeps the fills, quantity, cost, average and levels those of the base order and the first rungs |
| DcaLadder.FillImprovesAverage | apps/api/src/lib/dcaPlanning.ts:353-378 | Each fill moves the average strictly between the new trigger and the old average |
| DcaLadder.FillMovesTakeProfit | apps/api/src/lib/dcaPlanning.ts:269-277 | The target moves with the average: always for longs, for shorts exactly when the take profit is below 100% |
| DcaLadder.LevelsBracketAverage | apps/api/src/lib/dcaPlanning.ts:259-301 | On every rung the stop lies on the losing side of the average and the target on the winning one, each by its percentage of it |
| DcaLadder.TriggerBeyondAverage | apps/api/src/lib/dcaPlanning.ts:165-378 | Every pending trigger lies strictly beyond the current average entry |
| DcaLadder.WorstCaseIsFullLadder | apps/api/src/lib/dcaPlanning.ts:219-234 | The schedule's worst-case average is the average a position has once every rung filled one by one |
| DcaLadder.FillReached | apps/api/src/lib/dslEvaluator.ts:1023-1051 | The head-popping loop fills, in order, the longest run of reached orders at the head and keeps the rest pending |
| DcaLadder.PopsExactlyReached | apps/api/src/lib/dslEvaluator.ts:1023-1051 | On a ladder, that run contains an order exactly if the bar reached its trigger |
| DcaLadder.FillManyKeepsLadder | apps/api/src/lib/dslEvaluator.ts:1023-1051 | Several fills on one bar land that many rungs further down the same ladder |
| DslValidator.ValidateDca | apps/api/src/lib/dslValidator.ts:342-412 | Each of the four DCA errors is reported exactly when its condition holds, with the deviation or exposure it names |
| DslValidator.AcceptedExactly | apps/api/src/lib/dslValidator.ts:369-410 | Missing or non-positive fields switch the checks off and missing scales count as one; otherwise no errors means exactly version 2, a cap, a last deviation below 100% and the whole ladder within the cap |
| DslValidator.AcceptanceCapsExposure | apps/api/src/lib/dslValidator.ts:342-412 | For schema-conforming input, no errors means exactly version 2, a cap, a valid ladder, and every prefix of the ladder within the cap |
| DslValidator.NoSafetyOrdersEscapeTheCap | apps/api/src/lib/dslValidator.ts:382-410 | Without the schema, acceptance implies the cap exactly if there is a safety order or the base order happens to fit |
| DslValidator.EscapeExample | apps/api/src/lib/dslValidator.ts:382-410 | A base order of 1000 without safety orders is accepted under a cap of 100 |
| BacktestEngine.Evaluation.RecordTrade | apps/api/src/lib/dslEvaluator.ts:965-1010 | Logs the trade with its costs and ladder data, moves cumulative profit, peak and drawdown, and goes flat |
| BacktestEngine.Evaluation.FillSafetyOrders | apps/api/src/lib/dslEvaluator.ts:1021-1051 | Leaves the position on the ladder state after the reached orders, with its average and levels |
| BacktestEngine.Evaluation.TrackTrailingStop | apps/api/src/lib/dslEvaluator.ts:1068-1105 | Updates water mark, activation and stop price of the side's trail, and reports whether the bar hit it |
| BacktestEngine.Evaluation.FindExit | apps/api/src/lib/dslEvaluator.ts:1053-1165 | Returns the first exit of stop, trail, indicator, target and time, at its price, time and outcome; without one only the trail has moved |
| BacktestEngine.Evaluation.CheckExits | apps/api/src/lib/dslEvaluator.ts:1017-1165 | The exit half of the loop body performs one step of the run's meaning |
| BacktestEngine.Evaluation.CheckEntry | apps/api/src/lib/dslEvaluator.ts:1168-1276 | The entry half does too: side, signal, proximity gate, fill mode, levels and ladder |
| BacktestEngine.Evaluation.StartLadder | apps/api/src/lib/dslEvaluator.ts:1236-1276 | Sets up the ladder at the effective entry and lets it override both levels |
| BacktestEngine.Evaluation.Evaluate | apps/api/src/lib/dslEvaluator.ts:1015-1289 | The bar loop and the final close compute the fold over the candles |
| BacktestEngine.RunDslBacktest | apps/api/src/lib/dslEvaluator.ts:851-1316 | The report's log is the run's; trades, wins, total profit and maximum drawdown are those of the log |
| BacktestInvariants.RunInvariant | apps/api/src/lib/dslEvaluator.ts:1015-1277 | At every bar of every run the open position has a positive entry and, with a ladder, exactly the fills, levels and pending orders of some rung |
| BacktestInvariants.ExposureNeverExceedsCap | apps/api/src/lib/dslValidator.ts:382-410 | If the validator accepts a DCA strategy, no backtest ever commits more than `risk.maxPositionSizeUsd`: not after any bar, the last included, nor between a bar's fills and its exits |
| BacktestInvariants.BarFillsExactlyReached | apps/api/src/lib/dslEvaluator.ts:1023-1051 | On every bar of every run, a pending safety order fills exactly if the bar reached its trigger |
| BacktestInvariants.FillsNeverWorsenEntry | apps/api/src/lib/dslEvaluator.ts:1023-1051 | Whatever number of orders fill on a bar, the entry the position is measured against strictly improves |
| RunReasons.BarLeavesExactly | apps/api/src/lib/dslEvaluator.ts:1017-1165 | On every bar of every run, an open position with the bar's fills is left exactly if a reason is due, in terms of the candle: for the first due of stop, trail, indicator, target and time, at its price less costs; else only the trail moves |
| RunReasons.BarEntersExactly | apps/api/src/lib/dslEvaluator.ts:1168-1276 | On every bar that finds a run flat it enters exactly if the signal fires, a side is taken by the source and operators named, the filter lets it through and it can fill; at the fill mode's price plus costs |
| RunReasons.LevelsAsConfigured | apps/api/src/lib/dslEvaluator.ts:777-828 | A position opened without a ladder has its stop on the losing and its target on the winning side, at the exit section's percentages, else the entry's, else the risk per trade and twice that |
| RunReasons.LadderTakesOverStop | apps/api/src/lib/dslEvaluator.ts:1236-1276 | A ladder's first stop is the strategy's own exactly unless that lies on the winning side of the entry, and its target the ladder's percentage in favour |
| RunReasons.TrailFollowsBestPrice | apps/api/src/lib/dslEvaluator.ts:1068-1105 | Over every run without safety orders, the trailing stop is the callback from the best price since the signal's close, active exactly once that has moved by the activation |
| RunReasons.EndLeavesExactly | apps/api/src/lib/dslEvaluator.ts:1279-1289 | Data that ends in a position closes it at the last close less costs, and adds nothing else to the log |
| RunReasons.PnlIsReturn | apps/api/src/lib/dslEvaluator.ts:965-1010 | Every logged profit is the trade's return on its entry |
| TradeLog.LogIsChronological | apps/api/src/lib/dslEvaluator.ts:965-1289 | In every fill mode trades have non-negative length and duration, and each ends strictly before the next begins |
| TradeLog.ReportIsAccounted | apps/api/src/lib/dslEvaluator.ts:965-1010 | Cumulative profit is the log's sum, the peak its largest prefix sum, and the maximum drawdown its largest fall from an earlier prefix sum to a later one |
| TradeLabels.ComputedOutcomesMatchPnl | apps/api/src/lib/dslEvaluator.ts:1108-1289 | Indicator, time and end-of-data exits are labelled by the sign of the logged profit |
| TradeLabels.FixedLabelsMatchExactly | apps/api/src/lib/dslEvaluator.ts:1053-1165 | A logged stop's LOSS is a loss exactly if the stop after costs is worse than the entry, a logged target's WIN a profit exactly if the target after costs is better |
| TrailLabels.TrailLabelsMatchExactly | apps/api/src/lib/dslEvaluator.ts:1070-1105 | For every activation, callback and costs: all trailing exits on a side are labelled by the sign of their profit, in all runs of all strategies, with or without a ladder, exactly if what the trail keeps of the entry still gains after costs (for shorts, before costs too) |
| TrailLabels.RunTrailsWell | apps/api/src/lib/dslEvaluator.ts:1021-1105 | At every bar of every run an active stop lies at or beyond its multiple of the current entry, also after safety orders moved the entry, and so did the stop of every logged trailing exit |
| TrailLabels.LosingWinExample | apps/api/src/lib/dslEvaluator.ts:1070-1105 | With a trail of 1% and 0.9% and costs of 0.1%, a run logs a WIN that lost money |
| TradeLabels.PercentLabelsMatchExactly | apps/api/src/lib/dslEvaluator.ts:1053-1165 | For levels in percent, with or without a ladder, that is a condition on percentage, side and exit multiplier alone |
| TradeLabels.ThinTargetExample | apps/api/src/lib/dslEvaluator.ts:1147-1160 | A run with costs of 0.1% and a target of 0.05% logs a WIN that lost money |
| TradeLabels.CostsHelpShorts | apps/api/src/lib/dslEvaluator.ts:933-938 | A round trip at one price loses on a long and wins on a short exactly when there are costs |
| NoLookAhead.StatesAgree | apps/api/src/lib/dslEvaluator.ts:1015-1277 | If the values the strategy reads are settled on a prefix, the whole state of a run on it equals that of the full run at every bar that needs nothing beyond it |
| NoLookAhead.NoLookAheadAtBar | apps/api/src/lib/dslEvaluator.ts:1015-1277 | For fills at the bar's open or close, and settled values, the prefix run's trades before its final close open the full run's log |
| NoLookAhead.NoLookAheadNextOpen | apps/api/src/lib/dslEvaluator.ts:1125-1145 | For fills at the next open the same holds exactly unless the prefix ends on an indicator exit; up to its last bar but one it always holds |
| NoLookAhead.NextOpenExample | apps/api/src/lib/dslEvaluator.ts:1125-1145 | A run over three of four candles logs a trade that the run over all four does not |
| LiveEngine.TrailingStopState.constructor | apps/api/src/lib/exitEngine.ts:66-73 | A fresh state has both marks at the entry price and is inactive |
| LiveEngine.TrailingStopState.Track | apps/api/src/lib/exitEngine.ts:150-203 | Updates the carried state in place like one bar of the backtest's trail, and reports a hit |
| LiveEngine.TrailingStopState.EvaluateExit | apps/api/src/lib/exitEngine.ts:108-268 | Returns the decision and leaves the trailing state that the specification gives for one tick |
| LiveEngine.MissingLevelsAreEntryLevels | apps/api/src/lib/exitEngine.ts:126-143 | A position lacking a level is decided as one carrying the two levels `evaluateEntry` gives at its average price on the same window |
| LiveEngine.MissingAtrIsNoDistance | apps/api/src/lib/dslEvaluator.ts:777-828 | Where an ATR level has no ATR value at the bar, stop and target lie on the entry price itself |
| LiveEngine.LevelsBracketPrice | apps/api/src/lib/dslEvaluator.ts:777-828 | A positive level, in percent or of the ATR, puts the stop on the losing side of the price and the target as far on the winning side |
| LiveParity.ResolversPart | apps/api/src/lib/dslEvaluator.ts:876-890 | The backtest's resolver and the live one ask for different computations exactly on non-default MACD periods and profile bins |
| SideModes.SidesAgreeExactly | apps/api/src/lib/dslEvaluator.ts:1171-1187 | Live and backtest sides agree on all data and libraries exactly if the side is fixed, no test can hold, the condition compares prices through a reference both read alike, or the sign mode agrees by accident: unknown indicators, the average over one bar, and constants by their sign, source and operators |
| LiveParity.ExitsAgreeExactly | apps/api/src/lib/exitEngine.ts:206-230 | Live and backtest indicator exits agree on all data exactly if both read the reference alike or the operator is unknown |
| LiveParity.EntriesMatch | apps/api/src/lib/signalEngine.ts:82-136 | On a window ending at a bar, and settled values, `evaluateEntry` opens exactly what the frictionless backtest opens at that bar |
| LiveParity.ExitsMatch | apps/api/src/lib/exitEngine.ts:108-268 | On such a window `evaluateExit` with the carried trail closes exactly when, why and where the backtest does |
| LiveParity.LiveRefinesBacktest | apps/api/src/lib/exitEngine.ts:108-268 | If the values the strategy reads are settled on every window, driving the live engines bar by bar gives at every bar the position and the trades of the frictionless backtest at the close |
| AdaptiveEngine.RunAdaptiveBacktest | apps/api/src/lib/adaptiveStrategy.ts:152-400 | The report's log, regime log and drawdown are those of the adaptive fold |
| AdaptiveEngine.Evaluation.Evaluate | apps/api/src/lib/adaptiveStrategy.ts:235-382 | The bar loop, classifying every bar, and the final close compute the fold over the candles |
| AdaptiveEngine.Evaluation.RecordTrade | apps/api/src/lib/adaptiveStrategy.ts:197-233 | Logs the trade with its entry regime, moves cumulative profit, peak and drawdown, and goes flat |
| AdaptiveEngine.Evaluation.TrackTrailingStop | apps/api/src/lib/adaptiveStrategy.ts:255-285 | Updates water mark, activation and stop price of the side's trail, and reports whether the bar hit it |
| AdaptiveEngine.Evaluation.FindExit | apps/api/src/lib/adaptiveStrategy.ts:240-336 | Returns the first exit of stop, trail, indicator, target and time, filled at the close where the trigger has no price; without one only the trail has moved |
| AdaptiveEngine.Evaluation.CheckExits | apps/api/src/lib/adaptiveStrategy.ts:240-336 | The exit half of the loop body performs one step of the fold |
| AdaptiveEngine.Evaluation.CheckEntry | apps/api/src/lib/adaptiveStrategy.ts:337-370 | The entry half does too: regime gate, the regime's strategy, side, signal and levels |
| Adaptive.FinalTradesCarryEntryRegime | apps/api/src/lib/adaptiveStrategy.ts:235-382 | With ascending times, every trade's regime is the one in the regime log at its entry bar, and is never neutral |
| AdaptiveEntries.EntersExactly | apps/api/src/lib/adaptiveStrategy.ts:337-370 | Flat before a bar, a run enters on it exactly if the trend strategy asks above the trend threshold, or the range strategy at or below that and below the range threshold; at the close plus costs |
| AdaptiveEntries.TradesAreJustified | apps/api/src/lib/adaptiveStrategy.ts:235-382 | Every trade of every run was asked for at its entry bar, on its side, by the strategy of the regime it carries, and the ADX was in that regime |
| AdaptiveEntries.AdaptiveReportIsAccounted | apps/api/src/lib/adaptiveStrategy.ts:197-233 | The adaptive report's profit is the sum of its log, its peak the largest prefix sum, its drawdown the largest fall from an earlier one |
| AdaptiveCollapse.CollapseExactly | apps/api/src/lib/adaptiveStrategy.ts:152-400 | With one entry for both regimes and no neutral bar, adaptive and plain backtest given the same options log the same trades exactly when nothing fires, or their fees agree and there is no slippage (or every exit is worth zero) |
| AdaptiveCollapse.OrdinaryCollapseExactly | apps/api/src/lib/adaptiveStrategy.ts:152-400 | With levels the schema admits and non-negative volatility the exception disappears |
| AdaptiveCollapse.DivergenceExamples | apps/api/src/lib/adaptiveStrategy.ts:157-174 | Slippage alone, and a taker fee alone, make the logs differ |
| RunLifecycle.GraphIsAcyclic | apps/api/src/lib/stateMachine.ts:16-40 | The terminal set is exactly the states without edges, and every edge goes down in rank |
| RunLifecycle.StepKeepsInv | apps/api/src/lib/stateMachine.ts:112-183 | Each read or commit of any of the calls keeps the run's path, version count, stamps and the calls' stale knowledge consistent |
| RunLifecycle.TraceKeepsInv | apps/api/src/lib/stateMachine.ts:112-183 | So does every interleaving of any number of calls |
| RunLifecycle.HistoryIsAPath | apps/api/src/lib/stateMachine.ts:112-183 | Under any interleaving the events are a path from CREATED to the current state, the version counts them, and they are at most six |
| RunLifecycle.SixIsReached | apps/api/src/lib/stateMachine.ts:16-26 | Some run makes six transitions |
| RunLifecycle.NoDoubleWin | apps/api/src/lib/stateMachine.ts:137-160 | Two calls that read the same version never both succeed |
| RunLifecycle.TerminalIsFinal | apps/api/src/lib/stateMachine.ts:28-40 | Once a run is terminal neither its row nor its events ever change |
| RunLifecycle.CallSucceedsExactly | apps/api/src/lib/stateMachine.ts:112-183 | From every reachable state an undisturbed call succeeds, and stamps the row, exactly from the states listed with its target: to FAILED from every state but CREATED and the terminal ones, to STOPPING and TIMED_OUT from STARTING, SYNCING and RUNNING; else it is refused and changes nothing |
| RunLifecycle.StartIsKept | apps/api/src/lib/stateMachine.ts:143 | Once a run has been RUNNING its start never changes again |
| RunLifecycle.RunStore.UpdateWhereVersion | apps/api/src/lib/stateMachine.ts:145-160 | The guarded update replaces the row and counts one, or changes nothing and counts zero |
| RunLifecycle.RunStore.Transition | apps/api/src/lib/stateMachine.ts:112-183 | An undisturbed call is its read followed by its commit, with the outcome both give |
| Hedge.IntentIdInjective | apps/api/src/lib/hedgeBotWorker.ts:177-224 | The rendered intent id determines hedge, category and leg, so the unique index separates legs |
| Hedge.TraceKeepsInv | apps/api/src/lib/hedgeBotWorker.ts:273-400 | Every interleaving of calls and fills keeps the legs paired, the status backed by its legs, and each call's stale plan harmless to them |
| Hedge.LegsMatchStatus | apps/api/src/lib/hedgeBotWorker.ts:177-400 | A hedge has zero or two legs of each type, opposite and of one positive quantity; OPEN, CLOSING and CLOSED have both entries filled, CLOSED all four with spot and perpetual exposure opposite |
| Hedge.ClosedIsFlat | apps/api/src/lib/hedgeBotWorker.ts:340-400 | A closed hedge is flat on both sides exactly if it left with the quantity it entered |
| Hedge.NetIsEntryLessExit | apps/api/src/lib/hedgeBotWorker.ts:177-224 | Under any interleaving a hedge is long spot by what its entry filled less its exit, and short the perpetual by the same of its perpetual legs |
| Hedge.OpenIsHedgedExactly | apps/api/src/lib/hedgeBotWorker.ts:310-340 | An OPEN hedge holds its positive entry quantity in spot and is short as much exactly if no exit leg has filled |
| Hedge.FillMovesNet | apps/api/src/lib/hedgeBotWorker.ts:177-224 | A leg that fills moves its side alone: spot entries and perpetual exits up, spot exits and perpetual entries down |
| Hedge.CallDecidesExactly | apps/api/src/lib/hedgeBotWorker.ts:273-400 | What a whole call does from each status: when it enters and leaves, with which legs, and how it judges placed ones |
| Hedge.CallsReadTheirStatus | apps/api/src/lib/hedgeBotWorker.ts:287-290 | A call in flight was loaded at the status its stage stands for |
| Hedge.FreshCallsNeverRegress | apps/api/src/lib/hedgeBotWorker.ts:273-400 | A call whose hedge still has the status it read only ever advances it |
| Hedge.StepRegressesExactly | apps/api/src/lib/hedgeBotWorker.ts:177-400 | In every run, an operation fails to advance a hedge's status exactly if it writes another over a final one, emits the exit of a hedge that has failed, or opens one that is closing; the status is then not the one the call read |
| Hedge.FinalStatusLostExactly | apps/api/src/lib/hedgeBotWorker.ts:177-400 | For every step of every run: CLOSED or FAILED changes exactly if a call writes another status it had judged before, or emits the exit of a failed hedge that has none |
| Hedge.GuardedRunsNeverRegress | apps/api/src/lib/hedgeBotWorker.ts:273-400 | In every run whose calls only proceed while the status is the one they read, statuses only ever advance, and CLOSED and FAILED stay |
| Hedge.AtomicCallsNeverRegress | apps/api/src/lib/hedgeBotWorker.ts:273-400 | A call run without interference only ever advances a status, and leaves CLOSED and FAILED alone |
| Hedge.InterleavedCallsRegress | apps/api/src/lib/hedgeBotWorker.ts:310-400 | Some interleaving turns CLOSING back into OPEN |
| Hedge.EmittingCallsRegress | apps/api/src/lib/hedgeBotWorker.ts:177-224 | Some interleaving turns FAILED into CLOSING by emitting an exit |
| Hedge.ClosedBecomesFailed | apps/api/src/lib/hedgeBotWorker.ts:340-400 | Some interleaving turns CLOSED into FAILED: a failed exit leg judged before its retry filled |
| Hedge.HedgeStore.EmitHedgeIntents | apps/api/src/lib/hedgeBotWorker.ts:177-224 | Inserts both legs and the status, or changes nothing if either id is taken |
| Hedge.HedgeStore.SummariseLegStates | apps/api/src/lib/hedgeBotWorker.ts:239-261 | Reports both legs filled, any leg failed, and the pair's presence as they are |
| Hedge.HedgeStore.AdvanceHedge | apps/api/src/lib/hedgeBotWorker.ts:273-400 | An undisturbed call does what the protocol's load and following operations do |
| PositionLedger.PositionManager.OpenPosition | apps/api/src/lib/positionManager.ts:159-218 | Opens a row with its first event, or refuses with the bot's open position on the symbol and changes nothing |
| PositionLedger.PositionManager.AddToPosition | apps/api/src/lib/positionManager.ts:226-279 | Averages in on lifetime totals with an event, or refuses a missing or closed row |
| PositionLedger.PositionManager.ClosePosition | apps/api/src/lib/positionManager.ts:292-363 | Closes partly or within the tolerance fully, realising profit, or refuses a missing, closed or overdrawn row |
| PositionLedger.PositionManager.UpdateSLTP | apps/api/src/lib/positionManager.ts:369-416 | Sets, clears or keeps each level, with one event per given level |
| PositionLedger.PositionManager.ApplyPartialFill | apps/api/src/lib/positionManager.ts:443-471 | An entry fill adds and an exit fill closes |
| PositionLedger.PerformKeepsInv | apps/api/src/lib/positionManager.ts:159-416 | Every accepted operation keeps each row equal to the replay of its events, and its totals and cash-flow law |
| PositionLedger.ReplayRebuildsRow | apps/api/src/lib/positionManager.ts:159-416 | After any sequence of operations, folding a position's events rebuilds its numbers; average times quantity is the cost; entered minus held is the total closed; profit is the sum the events record; the last event's snapshot is the row's numbers |
| PositionLedger.CashFlowLaw | apps/api/src/lib/positionManager.ts:226-363 | A closed position's profit is exit proceeds minus cost (negated for shorts) plus the drift of late adds, so it equals cash flow exactly when the drift is zero |
| PositionLedger.AddsFirstMeansNoDrift | apps/api/src/lib/positionManager.ts:226-363 | There is no drift when adds precede closes |
| PositionLedger.LateAddDrifts | apps/api/src/lib/positionManager.ts:236-243 | An add after a close drifts exactly if its price differs from the average |
| PositionLedger.CloseStaysSound | apps/api/src/lib/positionManager.ts:305-313 | An accepted close leaves the row open exactly while something remains, unless the quantity is the remainder plus the whole tolerance |
| PositionLedger.SoundExactlyUnlessOverdrawn | apps/api/src/lib/positionManager.ts:159-416 | Over every run of operations, all rows are open exactly while something remains, after each operation, if and only if no accepted close took exactly the remainder plus the tolerance |
| PositionLedger.OverdrawnExample | apps/api/src/lib/positionManager.ts:305-313 | The run that opens one unit and closes one unit plus the tolerance leaves the row open below zero |
| PositionLedger.OneOpenPerSymbol | apps/api/src/lib/positionManager.ts:159-180 | Over every run of operations one after another, no bot has two positions open on one symbol |
| OpenRaces.StepKeepsOneOpenExactly | apps/api/src/lib/positionManager.ts:163-197 | With the read and the insert of an open as two steps: in every interleaving a step leaves two positions open exactly if it inserts beside one opened since its read |
| OpenRaces.CollisionFreeRuns | apps/api/src/lib/positionManager.ts:163-197 | Interleavings without such an insert, as a unique index would enforce, keep one open position per bot and symbol |
| OpenRaces.UndisturbedOpen | apps/api/src/lib/positionManager.ts:159-218 | Read and insert without anything between them are the ledger's open |
| OpenRaces.DoubleOpenExample | apps/api/src/lib/positionManager.ts:163-197 | Two opens that both read before either inserts leave two open positions |
| PositionLedger.DriftExample | apps/api/src/lib/positionManager.ts:236-243 | A run of open, partial close, add and close realises more profit than its cash flow |
| PositionLedger.ClosingAtMarkConservesEquity | apps/api/src/lib/positionManager.ts:562-570 | Closing at the mark turns unrealised into realised profit and keeps their sum |
| Reconciler.RoutedMovesHoldings | apps/api/src/lib/botWorker.ts:983-1200 | An accepted fill moves the held quantity by the fill, up to less than one tolerance on a full close; its part in the ladder moves none |
| Reconciler.RoutesExactly | apps/api/src/lib/botWorker.ts:1032-1156 | An entry adds to the latest open position of its run on its symbol, an exit closes the open one it names or else that one; without one, exactly an entry's first fill opens one or is refused with its ladder, and everything else is dropped |
| Reconciler.StepConserves | apps/api/src/lib/botWorker.ts:826-974 | One poll of one intent conserves fills exactly unless the counter of a cancelled or rejected order runs backwards |
| Reconciler.RefusedChangesNothing | apps/api/src/lib/botWorker.ts:909-950 | A fill the ledger refuses leaves intent and ledger as they were, to be seen again |
| Reconciler.FillsAreConserved | apps/api/src/lib/botWorker.ts:826-974 | Over every run with monotone counters, held quantity plus fills routed to no position equals entry minus exit fills, within one tolerance per full close |
| Reconciler.RollbackExample | apps/api/src/lib/botWorker.ts:856-950 | A run in which the exchange takes a unit back while cancelling ends unconserved |
| Reconciler.SweepIsARun | apps/api/src/lib/botWorker.ts:826-974 | One poll of the worker ends where polling some intents one by one would, so whole-run results apply to it |
| Reconciler.SweepReachesExactly | apps/api/src/lib/botWorker.ts:826-974 | An intent gets its turn exactly if it is among the first open ones the poll covers and its order can be read; it is then reconciled as it was before the poll, and otherwise stays as it was |
| Reconciler.SweepConserves | apps/api/src/lib/botWorker.ts:826-974 | A poll in which no order takes reported fills back conserves fills |
| Reconciler.Worker.ReconcileEntryFill | apps/api/src/lib/botWorker.ts:983-1127 | The first fill opens, with the levels of the ladder a DCA base order activates; later ones add and take the ladder's next rung with its levels; one without a position is dropped |
| Reconciler.Worker.ReconcileExitFill | apps/api/src/lib/botWorker.ts:1132-1200 | Closes the named or the active position and ends its ladder with it, or drops the fill |
| Reconciler.Worker.ReconcileIntent | apps/api/src/lib/botWorker.ts:856-974 | One intent's pass updates ledger and intent as one step of the specification |
| Reconciler.Worker.ReconcilePlacedIntents | apps/api/src/lib/botWorker.ts:826-974 | The poll takes the first twenty open intents in order and skips those whose order cannot be read |
| Reconciler.PolledUntilReportedDone | apps/api/src/lib/botWorker.ts:905-950 | A poll that moves an intent takes over the exchange's counter, price and final status; the intent is polled again exactly until its order is reported filled, cancelled or rejected; without new fills only a cancelled or rejected order moves anything |
| Exposure.PositionsTakeTheirOrdersSide | apps/api/src/lib/botWorker.ts:1032-1046 | Over every run, a position is long exactly if the entry order that opened it bought, whatever was routed to it since |
| Exposure.OpensAsOrdered | apps/api/src/lib/botWorker.ts:1032-1046 | A position opened without a ladder carries its order's bot, run, symbol and levels, and the first fill as quantity and price |
| Exposure.FillBalancesExactly | apps/api/src/lib/botWorker.ts:983-1158 | An accepted fill moves the signed exposure by what its order bought, up to a full close's rounding, exactly if the order's side matches the position; else it goes wrong by twice the fill |
| Exposure.ExposureIsNetBought | apps/api/src/lib/botWorker.ts:826-974 | Over every run of matching fills the exposure of all positions is what the orders bought less what they sold, within one tolerance per full close |
| Exposure.OppositeEntryExample | apps/api/src/lib/botWorker.ts:1050-1062 | An entry that sells while its run is long leaves two held where nothing net was bought |
| LiveLadder.HandleKeepsOkExactly | apps/api/src/lib/runtime/dcaEngine.ts:153-328 | Every transition keeps the ladder priced by its fills and filled in sequence, except exactly a fill of order -1 on a full ladder |
| LiveLadder.LivesAreOkExactly | apps/api/src/lib/runtime/dcaEngine.ts:110-328 | Over every sequence of fills, completions and cancellations, each order fills at most once and in order, with average and levels those of the fills, exactly if that never happens |
| LiveLadder.OverfillReopens | apps/api/src/lib/runtime/dcaEngine.ts:205-276 | That fill makes the first order pending again |
| LiveLadder.EndsExactly | apps/api/src/lib/runtime/dcaEngine.ts:283-328 | Completing ends an active ladder, cancelling any that has not ended; both keep fills and levels |
| LiveLadder.EndedForGood | apps/api/src/lib/runtime/dcaEngine.ts:153-328 | Over whole lives, a ladder that has ended stays exactly as it ended |
| LiveLadder.ChangesAreReported | apps/api/src/lib/runtime/dcaEngine.ts:153-276 | A fill reports changed exit levels exactly if the ladder took it |
| LiveLadder.ReplayChangesExactly | apps/api/src/lib/runtime/dcaEngine.ts:141-276 | Every transition is idempotent, except that one on a ladder without safety orders |
| LiveLadder.LiveLadderIsBacktestLadder | apps/api/src/lib/runtime/dcaEngine.ts:153-276 | Fed whole fills at its own levels, the live ladder goes through the states of the backtest's |
| LiveLadder.EvaluateTriggeredSOs | apps/api/src/lib/runtime/dcaEngine.ts:344-371 | The scan returns the orders from the next one on that the price has reached, up to the first it has not |
| LiveLadder.TriggersExactlyPending | apps/api/src/lib/runtime/dcaEngine.ts:344-371 | On every sound ladder these are exactly the unfilled orders the price has reached |
| LiveLadder.GetRemainingExposure | apps/api/src/lib/runtime/dcaEngine.ts:386-393 | The loop adds up the sizes of the orders from the next one on |
| LiveLadder.RemainingIsRest | apps/api/src/lib/runtime/dcaEngine.ts:386-393 | Which is the whole ladder's exposure less that of the orders filled |
| FillTracking.LaddersFollowExactly | apps/api/src/lib/botWorker.ts:983-1127 | Over every run whose orders bring ladders as the worker initialises them, each position with a ladder carries the ladder's side and levels, and has entered the ladder's quantity exactly if no fill ever added to it past the ladder |
| FillTracking.AgreementIsFull | apps/api/src/lib/botWorker.ts:1043-1127 | Where the quantities agree, so do cost and average |
| FillTracking.CloseEndsLadderExactly | apps/api/src/lib/botWorker.ts:1151-1175 | An exit fill ends the active ladder of its position exactly if it leaves nothing held, and no other ladder |
| FillTracking.LaddersEndWithPositions | apps/api/src/lib/botWorker.ts:983-1175 | Over every such run, a ladder still active has an open position with something held |
| FillTracking.RungPerReading | apps/api/src/lib/botWorker.ts:1064-1098 | Every fill that reaches a ladder takes its next rung, whichever order it is a part of |
| FillTracking.RungsAreOrdersExactly | apps/api/src/lib/botWorker.ts:1064-1098 | Over every run, a ladder counts the orders that reached it exactly if none did in a second reading |
| FillTracking.PartialBaseExample | apps/api/src/lib/botWorker.ts:1064-1098 | A base order that fills in two parts leaves a ladder that never triggers its first safety order at any price |
| FillCosts.CostStepExactly | apps/api/src/lib/botWorker.ts:882-892 | An accepted entry fill moves the booked cost away from the reported one by the earlier quantity times the move of the average, and keeps them together exactly on a first part or at an unchanged average |
| FillCosts.BookedAtReportedPrice | apps/api/src/lib/botWorker.ts:880-888 | An accepted entry fill is booked at the average price reported, without one at the order's, or the intent's |
| FillCosts.CostsAreReported | apps/api/src/lib/botWorker.ts:856-974 | Over every run of such fills the cost of all positions equals the entry counters at their average prices |
| FillCosts.TwoPricesExample | apps/api/src/lib/botWorker.ts:882-892 | A unit at 100 and then one at 200 are booked at 250 |
| SweepPatch.PatchRecord | apps/api/src/lib/dslSweepParam.ts:37-45 | The parameter loop patches one node with every parameter in list order |
| SweepPatch.OneWalkIsEnough | apps/api/src/lib/dslSweepParam.ts:21-60 | For any tree and any list, one walk with all parameters equals one walk per parameter, with duplicates and replaced subtrees |
| SweepPatch.LastWins | apps/api/src/lib/dslSweepParam.ts:14-45 | For any list: each key of a node gets the value of the last parameter that names it among those up to the first that targets the node's `nodeId`, and keeps its own otherwise; after that one the node is no longer found |
| SweepPatch.LastWinsExactly | apps/api/src/lib/dslSweepParam.ts:14-45 | On every node with an id, the last parameter of the whole list wins for a key exactly if it is among those, or repeats the value of the last that is |
| SweepPatch.RenamingExample | apps/api/src/lib/dslSweepParam.ts:37-45 | A list that targets `nodeId` and then `x` leaves `x` as it was |
| SweepPatch.KeysPreservedExactly | apps/api/src/lib/dslSweepParam.ts:37-45 | A patch changes a node's keys exactly if it names an inherited property the matching node does not own |
| SweepPatch.WalkKeepsKeys | apps/api/src/lib/dslSweepParam.ts:21-60 | Over the whole tree and at every depth, a walk with ordinary names keeps shapes and keys; it only puts numbers in place |
| SweepGrid.ExpandValues | apps/api/src/lib/sweepGrid.ts:31-40 | The loop yields, in order, the rounded value of each step that stays within the end and the epsilon |
| SweepGrid.ValuesIncreaseExactly | apps/api/src/lib/sweepGrid.ts:31-40 | The values of every range increase strictly exactly for steps of at least 1e-8 |
| SweepGrid.ValuesAreNearest | apps/api/src/lib/sweepGrid.ts:31-40 | Each value is a whole multiple of 1e-8 within half of that of its place in the range |
| SweepGrid.GuardShortfall | apps/api/src/routes/lab.ts:1021 | For every positive step, the loop makes as many runs more than the route counts as whole steps fit into the epsilon, and one more exactly if the range falls short of another step by at most the rest of it |
| SweepGrid.AtMostOneShortExactly | apps/api/src/routes/lab.ts:1021 | No range is undercounted by more than one exactly for steps of at least the epsilon |
| SweepGrid.TinyStepExample | apps/api/src/routes/lab.ts:1021-1031 | At a step of 1e-12 the route counts 2 runs where the loop makes 1002 |
| SweepGrid.GridSize | apps/api/src/lib/sweepGrid.ts:42-64 | There are as many combinations as the product of the counts |
| SweepGrid.GridIsMixedRadix | apps/api/src/lib/sweepGrid.ts:42-64 | The `k`-th combination picks the mixed-radix digits of `k`, last parameter fastest, each under its parameter's block and name; a number has only one sequence of digits |
| SweepGrid.Enumeration.Recurse | apps/api/src/lib/sweepGrid.ts:50-61 | Appends every completion of the shared stack in order and leaves the stack as it was |
| SweepGrid.EnumerateGrid | apps/api/src/lib/sweepGrid.ts:42-64 | The enumeration is the whole grid; no parameters give no combinations |
| GraphCompiler.BuildContext | apps/api/src/lib/compiler/graphCompiler.ts:58-79 | The index answers every lookup as filtering the raw node and edge lists in order would; of several nodes with an id, the last |
| GraphCompiler.EdgesIntoAreListed | apps/api/src/lib/compiler/graphCompiler.ts:62-67 | The edges listed for a node are all those into it and no others, each as often as the graph has it |
| GraphCompiler.NodesOfAreListed | apps/api/src/lib/compiler/graphCompiler.ts:69-73 | The nodes listed for a block type are all of that type and no others, each as often as the graph has it |
| GraphCompiler.WiredExactly | apps/api/src/lib/compiler/graphCompiler.ts:100-123 | A handle's node is the last of the name that the first edge into the handle comes from, and none exactly if there is no such edge or name |
| GraphCompiler.CompilerPreservesMeaning | apps/api/src/lib/compiler/graphCompiler.ts:100-138 | For cross and compare sources whose inputs are determined, the compiled signal fires exactly when the graph does: the crossing of the two nodes' values named by the mode, or the test named by the operator, read from nodes and edges |
| GraphCompiler.CompileEntrySignal | apps/api/src/lib/compiler/graphCompiler.ts:58-138 | Indexing the raw graph and extracting its entry yields a signal that fires on all data and bars exactly when the graph does, given determined inputs |
| GraphCompiler.NodePreservedExactly | apps/api/src/lib/compiler/graphCompiler.ts:85-94 | A node's compiled reference has the node's value on all data exactly if the one number it carries determines the computation |
| GraphCompiler.LengthOnlyNodes | apps/api/src/lib/compiler/graphCompiler.ts:85-94 | Constants, and blocks given nothing but a length, are determined |
| GraphCompiler.PeriodOnlyNodes | apps/api/src/lib/compiler/graphCompiler.ts:85-94 | Blocks given nothing but a period are determined exactly where the period is read as a length or happens to be the default |
| GraphCompiler.LengthAndPeriodNodes | apps/api/src/lib/compiler/graphCompiler.ts:85-94 | Of a node given length and period the length is kept, faithfully exactly where the block does not read the period or it says the same |
| Pagination.Collect | apps/api/src/lib/bybitCandles.ts:119-162 | The request loop ends with the cursor strictly falling, having collected whole pages of the newest candles in range, each once |
| Pagination.SortedIsUnique | apps/api/src/lib/bybitCandles.ts:164-165 | Sorting candles with distinct times gives the market's own order |
| Pagination.FetchCandles | apps/api/src/lib/bybitCandles.ts:112-167 | The result is, of the newest whole pages in range, the oldest `maxCandles` |
| Pagination.ResultProperties | apps/api/src/lib/bybitCandles.ts:112-167 | It is strictly ascending, in range, within the cap, and the whole range exactly when the range fits the cap |
| Pagination.NewestIsKeptExactly | apps/api/src/lib/bybitCandles.ts:112-167 | It ends with the newest candle exactly if the range fits or the cap is a whole number of pages |
| Pagination.NewestDroppedExample | apps/api/src/lib/bybitCandles.ts:164-167 | With a cap of one and two candles in range, the older one is returned |

## Left out

- Indicators other than the EMA, volume, constants and the four patterns: a parameter of the model, one value per candle and line; `mtf/*` and indicator references with a source timeframe are not part of this model.
- An EMA length, swing length or ATR period of a pattern that is not a positive integer goes to the library; the source would index its array with it. Findings of the pattern detectors keep the bar and the series value; price bounds, timestamps and `findFvgFillIndex` are left out.
- PatternHindsight.ShiftSettles: gives the bars that are settled; a bar of the shift series that is not may still read the same.
- PositionLedger: apart from opens (`OpenRaces`), operations are atomic; the transactions of adds, closes and level moves read before they write.
- LiveLadder: timestamps, log texts and the structural checks of `deserializeDcaState` are left out.
- Floating point: arithmetic is exact, and report rounding, sharpe, profit factor, expectancy and win rate are left out. The 1e-8 rounding of sweep values and the 1e-12 tolerance of the ledger are kept.
- JSON parsing: block types, operators and signal kinds are read by ASCII case folding and literal comparison; Unicode case rules are not modelled. The schema's ranges enter as `InSchema`.
- IndicatorCache.AnswerAll: speaks of a finite set of machine numbers whose printing is injective and free of underscores, which is what composite keys rely on; number formatting itself is not modelled.
- Basis points are non-negative, candle prices and traded quantities positive, as the routes and the exchange deliver them. A profit percentage over a zero entry, which no run reaches, is zero in the model.
- LiveParity.LiveRefinesBacktest: holds for strategies both engines read alike (`Parity`), without costs and safety orders; the strategy tick of the worker (placing orders, bar counting by wall clock) is not part of this model.
- Reconciler: order readings are inputs; a crash between routing a fill and updating the intent or the ladder, other metadata fields, cooldowns and notifications are left out. A stored ladder state reads back as it was written. The tallies of dropped fills, rounding and full closes are ghost state.
- Hedge: the balance gate's classification is an input; several runs, credentials and the hedge routes' own writes are left out. A filled intent stays filled, as the pipeline promises.
- RunLifecycle: event payloads, metrics and the callers' reactions to errors are left out; database operations are atomic.
- SweepPatch: trees are values, so cloning and in-place assignment on the clone become a new tree; key order is list order, and assigning the name `__proto__`, which sets no property, is left out.
- GraphCompiler: block handlers, assembly, validation and issues of `compileGraph` are left out; `and_gate` and `or_gate` sources compile to a signal that never fires, on which preservation is not claimed beyond both sides being false.
- Pagination: the exchange is an oracle over a fixed ascending market that returns the newest page of the requested window; network errors are left out. `Array.sort` is an insertion sort.
- HTTP routes, authentication, persistence plumbing, logging, notifications, encryption and the web application.
- `errorClassifier`, `riskManager`, `recoveryManager`, `stateReconciler`, `safetyGuards`, `dataQuality` and the kill switch: short decisions that would add only easy members.
