# Trading platform verification

A Dafny model of the parts of this trading platform that carry state, arithmetic or a protocol, with proofs about every
input, every run or every interleaving. Time is a `real` that never goes back; floating-point numbers are exact reals;
every answer from another service is a parameter, failures included. `dafny verify dfyconfig.toml` checks everything.

| files | subject |
|---|---|
| `RedisStore`, `RunLock`, `LockProtocol` | the distributed run lock: Redis commands and Lua scripts as atomic steps, the client classes, and the protocol of any number of instances |
| `Ratios`, `BacktestSignals`, `BacktestEngine`, `BacktestTheorems` | SMA-crossover signals, the single-position simulator, and what its report means |
| `SignalFusion`, `FusionTheorems`, `FusionWeights` | weighted voting over signal sources |
| `SignalSources`, `RiskManager`, `EmissionGate`, `DecisionModels`, `Coordinator`, `CoordinatorTheorems`, `PipelineSymmetry` | the five sources, risk limits, deduplication and emission, opportunity scores, and the loop over all symbols |
| `OrchestrationState`, `Validation`, `Promotion`, `Monitoring`, `OrchestrationLoop`, `OrchestrationTheorems` | the life of a strategy from discovery to retirement |
| `Resilience` | circuit breaker and retry with backoff |
| `Builtins`, `Wrappers` | `max`, `min`, `abs`, products, slices; options and results |
| `SlidingWindow`, `ApiKeyRateLimiter`, `GatewayRateLimiter`, `SignalCache`, `LatencyWindow` | rate limiters, two-tier cache, latency buffer |

Classes of the program are classes here: their methods are proved against a function of the old state (`AcquireOutcome`,
`Check`, `Process`, `Retry`, `Cycle`, ...), and the theorems are about those functions.

## Assumptions

- Mutual exclusion needs three things of the environment, written out in `LockProtocol.Assumed`: a holder leaves before
  its TTL ends, an instance whose heartbeat lapsed never acts again, and the delay from stamp to SET plus the delay from
  GET to age test stay within 30 s. Lemmas beside the theorem show what happens when each is dropped, and that the
  30 s are exact.
- Equity, drawdown and ledger results need positive closes and a positive initial capital. Trades follow each other
  candle by candle whenever nothing is bought at a zero close, and in time if timestamps strictly increase.
- A sleep between retries may last longer than asked, by at most the `slack` of `NoCallAfterTripping`.
- Cache results need data types without a colon.

## Where the code differs from what it says

- Nothing outside tests starts the heartbeat thread. A lock held without a heartbeat is taken by the next caller
  (`HolderIsSafeIffItsHeartbeatLives`).
- Weighted majority is described as preferring HOLD on a tie. With all scores at 0 it answers BUY
  (`TieGivesHoldIffAnyConfidence`, `NoConfidenceMeansBuy`). The one production caller cannot produce that input: no
  source speaks with a confidence below 0.30 (`SourcesAreConfident`), so there ties do give HOLD
  (`TieInPipelineGivesHold`).
- The latency list is described as a rolling window. It drops its smallest sample and keeps the largest ones
  (`RollingIffNothingLeftWasLarger`). With the configured window of 10, one slow symbol makes it advise skipping once
  three symbols have been timed, and no later cycle ever handles a symbol, since a skipped cycle records nothing and
  nothing outside tests resets it (`OneSlowSampleIsEnough`, `SlowSymbolStopsThePipeline`).
- The degraded TTLs of the cache are meant to serve older values, but entries are stored for the normal TTL only. With
  the local fallback and no lost request the degraded flag never changes an answer (`FaultFreeCacheIsAMap`).
  Without the fallback it does so exactly where `DegradedMattersIff` says, such as after a slow write
  (`DegradedServesALateWrite`); with it, a lost delete is an example (`DegradedServesALostInvalidation`).
- HALF_OPEN is described as letting one request through. It lets any number through until one is recorded
  (`HalfOpenAdmitsAnyNumber`, `OneProbeIff`). No caller in the repository asks twice before recording: `run_cycle` and
  `retry_with_backoff` ask, call and record in one thread, one after the other.
- The breaker of the signal service guards promotion and monitoring, but never opens: promotion cannot fail, and its
  success clears the one failure monitoring may have left (`SignalBreakerNeverOpens`).
- A live allocation is described as moving to its cap or floor. It stops short of either by up to 0.001
  (`AllocationFollowsSharpe`).
- The gateway limiter takes a window per call, but a call with a narrow window makes a later one with a wide window
  forget admissions (`WideningTheWindowForgets`, `CountIsExactIff`). Every caller uses the default window.
- Nothing outside tests closes signals, so at most `max_concurrent_signals` are ever emitted
  (`WithoutClosesEmissionEnds`).
- Discovery is meant to return new names only, but the names parsed from the language model's summary bypass that
  filter. A live strategy that is discovered again is overwritten without a retirement entry
  (`LedgerIsExactIff`, `RediscoveryHappens`).
- The periods of a strategy depend on the character sum of its id modulo 20 only, so at most 20 strategies differ; the
  two `max` calls that guard them never apply (`PeriodsOfHash`, `SamePeriodsIff`).
- Scores of the pipeline start at 17.5, since confidence is at least 0.30 and the freshness points are constant.

## Model

| member | source | states |
|---|---|---|
| `RunLocks.AcquireOutcome` | services/autonomous_runner/run_lock.py:73-93 | A client told it holds the lock holds it, whatever requests or replies are lost; no other symbol is touched; with every request served it succeeds exactly when the lock is free or judged stale |
| `RunLocks.RunLock.Acquire` | services/autonomous_runner/run_lock.py:73-93 | SET NX EX with the reply lost, the request lost, or neither |
| `RunLocks.RunLock.Release` | services/autonomous_runner/run_lock.py:27-38 | Deletes the lock if and only if the caller owns it |
| `RunLocks.HeartbeatManager.Beat` | services/autonomous_runner/run_lock.py:164-173 | A beat that arrives keeps this instance, and no other, alive for every moment of the next 30 s and none after |
| `RunLocks.HeartbeatManager.Stop` | services/autonomous_runner/run_lock.py:151-162 | A stop that arrives leaves this instance, and no other, dead at every moment |
| `RunLocks.StaleLockRecovery.CheckAndRecover` | services/autonomous_runner/run_lock.py:189-257 | GET, age test, EXISTS and the recovery script leave exactly the state of the sequential definition; the counter moves exactly when a lock is taken |
| `RunLocks.LockManager.Acquire` | services/autonomous_runner/run_lock.py:273-280 | SET first, stale recovery second; refines AcquireOutcome |
| `RunLocks.LockManager.Release` | services/autonomous_runner/run_lock.py:282-284 | Only the owner releases |
| `LockProtocol.LiveLockOnlyYieldsToItsOwnerOrARecovery` | services/autonomous_runner/run_lock.py:27-49 | With no assumption at all: a live lock changes only by expiry, by its owner, or by a recovery that observed this very owner |
| `LockProtocol.NextKeepsInv` | services/autonomous_runner/run_lock.py:189-257 | The protocol invariant is kept by each of the thirteen kinds of step |
| `LockProtocol.MutualExclusion` | services/autonomous_runner/run_lock.py:62-109 | At most one live instance is in a symbol's critical section in every interleaving, under the three stated assumptions |
| `LockProtocol.ExclusionIffDelaysFit` | services/autonomous_runner/run_lock.py:22-24 | Exclusion holds if and only if the delay from stamp to SET and from GET to age test add up to at most 30 s |
| `LockProtocol.SlowObserverBreaksExclusion` | services/autonomous_runner/run_lock.py:207-222 | For any longer delays, the run that meets every other assumption and ends with two live holders |
| `LockProtocol.HolderIsSafeIffItsHeartbeatLives` | services/autonomous_runner/run_lock.py:211-222 | A second caller gets in exactly when the holder's heartbeat is absent or its stamp is over 120 s old |
| `LockProtocol.OverstayingHolderIsJoined` | services/autonomous_runner/run_lock.py:22-24 | A holder past its TTL shares the section with the next caller |
| `LockProtocol.UninterruptedAcquire` | services/autonomous_runner/run_lock.py:273-280 | The protocol's atomic steps in a row compute what the sequential classes compute |
| `LockProtocol.CrashedOwnerIsReplaced` | services/autonomous_runner/run_lock.py:164-173 | 30 s after its last beat a crashed owner no longer blocks: an uncontended acquire succeeds and the key names the caller |
| `BacktestSignals.GenerateSignals` | services/backtest_api/engine.py:54-84 | The loop fills the signals with the crossovers of the two averages, which SignalsAreCrossovers and FirstSignals put in sums of closes |
| `BacktestSignals.SignalsAreCrossovers` | services/backtest_api/engine.py:71-82 | Past the first index: buys exactly when long * (sum of the last short closes) exceeds short * (sum of the last long closes) and did not one candle earlier; sells likewise below |
| `BacktestSignals.FirstSignals` | services/backtest_api/engine.py:71-82 | The same at the first index, where the earlier long sum counts as 0; no signal before it |
| `BacktestSignals.AverageOfConstant` | services/backtest_api/engine.py:72-73 | The average of a window of equal closes is that close |
| `BacktestSignals.PeriodsOfHash` | services/backtest_api/engine.py:64-66 | With r the character sum modulo 20, the long period is 15 + r and the short one 10 or 20 below it, so neither max ever applies |
| `BacktestSignals.SamePeriodsIff` | services/backtest_api/engine.py:64-66 | Two ids select the same periods if and only if their character sums agree modulo 20 |
| `BacktestSignals.OrderOfCharactersIsIrrelevant` | services/backtest_api/engine.py:64-66 | The order of parts of an id does not matter; what one character adds; two ids with their periods |
| `BacktestSignals.PrevIsOneBefore` | services/backtest_api/engine.py:71-76 | Past the first candidate index the "previous" averages at i are the averages at i - 1 |
| `BacktestSignals.FirstPrevLongIsZero` | services/backtest_api/engine.py:76 | At i = long_period the slice from -1 is empty for every length |
| `BacktestSignals.NoBuyAtFirstIndex` | services/backtest_api/engine.py:71-82 | With positive closes that index never buys |
| `BacktestSignals.SignalLooksOnlyBack` | services/backtest_api/engine.py:71-82 | A signal depends on nothing but earlier closes |
| `BacktestEngine.SimulateCandles` | services/backtest_api/engine.py:108-161 | The loop over candles equals the recursive simulation, or divides by zero exactly when a position is opened at a zero close |
| `BacktestEngine.RunBacktest` | services/backtest_api/engine.py:87-207 | The whole run, empty input and division errors included |
| `BacktestEngine.PositionFollowsSignals` | services/backtest_api/engine.py:117-137 | The open position is determined by the signals alone |
| `BacktestTheorems.CurveIsCompoundedEquity` | services/backtest_api/engine.py:139-155 | Every curve point is the capital compounded over the candles held |
| `BacktestTheorems.FinalCapitalIsLastEquity` | services/backtest_api/engine.py:163-173 | The forced close changes nothing: final capital is the last curve point |
| `BacktestTheorems.LedgerExplainsResult` | services/backtest_api/engine.py:172-196 | Final capital is initial capital times the product of exit over entry, stays positive, and exceeds it by gross profit minus gross loss |
| `BacktestTheorems.ProfitFactorMeans` | services/backtest_api/engine.py:191-196 | A profit factor of at least 1 means exactly that the trades did not lose on balance |
| `BacktestTheorems.ProfitFactorIs` | services/backtest_api/engine.py:191-196 | The factor times gross loss is gross profit; without losses it is 999.99, or 0 if nothing was won |
| `BacktestTheorems.WinRateMeans` | services/backtest_api/engine.py:187-189 | The win rate times the number of trades is the number of trades with a profit; 1 exactly when all won, 0 exactly when none did |
| `BacktestTheorems.ReturnsCompoundToResult` | services/backtest_api/engine.py:157-161 | The product of one plus each period return is final over initial |
| `BacktestTheorems.ReportedDrawdownIsTheMaximum` | services/backtest_api/engine.py:145-147 | The one-pass drawdown is the maximum of (E_i - E_j)/E_i over all i <= j, and lies in [0, 1) |
| `BacktestTheorems.CurveDrawdownIsFall` | services/backtest_api/engine.py:145-155 | The drawdown of each curve point is the deepest fall to it from any equity so far |
| `BacktestTheorems.TradesNeverOverlap` | services/backtest_api/engine.py:120-170 | Trades are ordered and never overlap, candle by candle, whatever the timestamps; in time too if time increases |
| `BacktestTheorems.PositionFollowsTheAverages` | services/backtest_api/engine.py:71-82 | Open means short average not below long; flat after a close means not above |
| `BacktestTheorems.BacktestLooksOnlyBack` | services/backtest_api/engine.py:87-161 | The curve of a prefix of the candles is the prefix of the curve |
| `SignalFusion.FuseSignals` | services/autonomous_runner/signal_fusion.py:103-189 | The three loops compute the fused signal of the votes, which FusionWeights puts in sums of weights, and every weight becomes the configured one or 0.10 |
| `SignalFusion.ApplyWeights` | services/autonomous_runner/signal_fusion.py:132-134 | Every source gets the weight configured for it, or 0.10 |
| `SignalFusion.TallyVotes` | services/autonomous_runner/signal_fusion.py:136-152 | The normalized weighted tally |
| `SignalFusion.ResolveWeightedMajority` | services/autonomous_runner/signal_fusion.py:192-210 | An answer other than HOLD beats every rival with a positive score by at least 0.10 |
| `SignalFusion.MostConfident` | services/autonomous_runner/signal_fusion.py:213-219 | A vote of maximal confidence |
| `SignalFusion.ResolveConservative` | services/autonomous_runner/signal_fusion.py:222-237 | Acts only on a top score of at least 0.60 |
| `SignalFusion.FusedConfidence` | services/autonomous_runner/signal_fusion.py:240-266 | Confidence stays in [0.30, 0.95] |
| `FusionTheorems.TieGivesHoldIffAnyConfidence` | services/autonomous_runner/signal_fusion.py:136-204 | Over sources with positive weights a top tie gives HOLD exactly when some source has confidence, and BUY otherwise |
| `FusionTheorems.NoConfidenceMeansBuy` | services/autonomous_runner/signal_fusion.py:192-204 | A concrete input where the documented tie rule fails: one SELL source without confidence yields BUY |
| `FusionTheorems.OrderOfSourcesIsIrrelevant` | services/autonomous_runner/signal_fusion.py:136-189 | Permuting the sources changes nothing, under weighted majority (the default) and conservative resolution |
| `FusionTheorems.OrderDecidesHighestConfidenceIff` | services/autonomous_runner/signal_fusion.py:213-219 | Under highest confidence the order matters exactly when two sources of the highest confidence disagree |
| `FusionTheorems.FusionIsSymmetric` | services/autonomous_runner/signal_fusion.py:136-189 | Swapping BUY and SELL in the sources swaps them in the result and changes nothing else |
| `FusionTheorems.FusedActionIsSymmetricIff` | services/autonomous_runner/signal_fusion.py:192-210 | The swap carries over to the action exactly when BUY and SELL are not tied at the top without a positive score |
| `FusionTheorems.SymmetricIffAnyConfidence` | services/autonomous_runner/signal_fusion.py:136-210 | Over sources with positive weights the swap carries over to the action exactly when some source has confidence |
| `FusionTheorems.FusionIsMonotone` | services/autonomous_runner/signal_fusion.py:136-210 | More confidence in a BUY source never moves the action toward SELL |
| `FusionTheorems.UnanimousSourcesGainATenth` | services/autonomous_runner/signal_fusion.py:136-266 | Sources that agree in action and confidence get that action, agreement 1 and 0.10 more confidence, within [0.30, 0.95] |
| `FusionTheorems.FusedRange` | services/autonomous_runner/signal_fusion.py:172-189 | Confidence and agreement ranges; full agreement exactly when every source agrees |
| `FusionWeights.ScoreIsShareOfWeight` | services/autonomous_runner/signal_fusion.py:132-152 | A score times the sum of the configured weights is the sum of weight times confidence over the votes for its action |
| `FusionWeights.FusedActionIff` | services/autonomous_runner/signal_fusion.py:130-210 | Exactly when the answer is BUY, SELL or HOLD, over those sums: most support, and a lead of a tenth of the total weight over supported rivals |
| `FusionWeights.ConservativeActsIff` | services/autonomous_runner/signal_fusion.py:222-237 | Conservative resolution acts exactly when the leader has at least 60% of the total weight |
| `FusionWeights.SurestSourceIsFollowed` | services/autonomous_runner/signal_fusion.py:213-219 | Highest confidence answers with a source that no other is surer than |
| `FusionWeights.NoOverrideMeansDefaults` | services/autonomous_runner/signal_fusion.py:46-52 | Without an override the five sources weigh 0.40, 0.15, 0.20, 0.15 and 0.10; any non-empty override replaces them all |
| `FusionWeights.TwoSources` | services/autonomous_runner/signal_fusion.py:130-210 | Of two sources that disagree the one with the larger weight times confidence wins, if it leads by a tenth of both weights; otherwise HOLD |
| `FusionWeights.ConsensusOutweighsSentiment` | services/autonomous_runner/signal_fusion.py:46-52 | With the default weights a consensus of 0.60 to SELL overrides a sentiment of 0.85 to BUY |
| `FusionWeights.FusedConfidenceMeans` | services/autonomous_runner/signal_fusion.py:172-266 | For any sources and strategy: halfway between the answer's share of the weight and the mean confidence of its voters, plus 0.10 from four fifths, 0.05 from three fifths agreement; 0.30 without voters |
| `RiskManagement.HardReasons` | services/autonomous_runner/risk_manager.py:53-111 | No rejection reason exactly when all six limits hold |
| `RiskManagement.PositionSize` | services/autonomous_runner/risk_manager.py:166-179 | The size fits the position limit and the remaining exposure |
| `RiskManagement.AdjustmentIsBounded` | services/autonomous_runner/risk_manager.py:181-200 | Behind the hard checks the penalties take less than 0.09 + 0.10 |
| `RiskManagement.AdjustmentIsFreeIff` | services/autonomous_runner/risk_manager.py:181-200 | Confidence is untouched exactly while exposure is within 70% and the daily loss within 50% of their limits |
| `RiskManagement.PositionSizeFollowsConfidenceAndRoom` | services/autonomous_runner/risk_manager.py:166-179 | Size grows with confidence, shrinks with exposure, and takes all the room at full confidence |
| `RiskManagement.ApprovedSignalFits` | services/autonomous_runner/risk_manager.py:48-144 | What an approval of a non-HOLD signal guarantees about limits, confidence and size |
| `RiskManagement.ApprovedIff` | services/autonomous_runner/risk_manager.py:48-144 | HOLD is approved and changes nothing; any other signal exactly when the six limits hold and its confidence less 0.3 of the exposure share over 70% and 0.2 of the loss share over 50% is at least the minimum |
| `RiskManagement.CalmApprovalIff` | services/autonomous_runner/risk_manager.py:119-144 | Within 70% and 50% the six limits alone decide, confidence is kept, and the size is the room times the confidence |
| `RiskManagement.SizeIsRoomTimesConfidence` | services/autonomous_runner/risk_manager.py:166-179 | The size is the room under both limits times the confidence, at most all of it |
| `RiskManagement.RejectionNamesTheLimits` | services/autonomous_runner/risk_manager.py:53-117 | The reasons name exactly the limits that are not kept |
| `RiskManagement.RiskManager.CheckSignal` | services/autonomous_runner/risk_manager.py:48-144 | Verdict and pruned history, the division by zero at exposure limit 0 included; ApprovedIff says when it approves |
| `RiskManagement.RiskManager.RecordSignalEmitted` | services/autonomous_runner/risk_manager.py:146-149 | The record of an emission |
| `RiskManagement.RiskManager.RecordSignalClosed` | services/autonomous_runner/risk_manager.py:151-156 | Close: active count floored at 0, daily result, drawdown raised |
| `RiskManagement.RiskManager.UpdatePortfolioExposure` | services/autonomous_runner/risk_manager.py:158-160 | Exposure replaced, nothing else |
| `RiskManagement.RiskManager.ResetDaily` | services/autonomous_runner/risk_manager.py:162-164 | Daily result reset; drawdown and active count kept |
| `EmissionGate.EmissionLimits` | services/autonomous_runner/coordinator.py:414-437 | Over every run: hourly limit per symbol in every window, 900 s between equal emissions, active count within its limit |
| `EmissionGate.WithoutClosesEmissionEnds` | services/autonomous_runner/risk_manager.py:151-156 | Without closes the pipeline emits at most max_concurrent_signals signals ever |
| `EmissionGate.DrawdownIsWorstLoss` | services/autonomous_runner/risk_manager.py:151-164 | The recorded drawdown is the running maximum of the daily loss over all resets |
| `EmissionGate.DrawdownHaltsForever` | services/autonomous_runner/risk_manager.py:104-117 | Once it reaches the limit no signal other than HOLD is ever approved again, and nothing is emitted |
| `Coordinator.PenaltyIsBounded` | services/autonomous_runner/batch_processor.py:66-72 | Which missing sources cost what; 0.35 in all at most |
| `Coordinator.FusedForRange` | services/autonomous_runner/coordinator.py:338-367 | Degraded or not, confidence stays in [0.30, 0.95] and is never raised |
| `Coordinator.SilenceMeansHold` | services/autonomous_runner/coordinator.py:338-353 | Without any source the answer is HOLD with confidence 0.35 |
| `Coordinator.DegradationCosts` | services/autonomous_runner/coordinator.py:354-367 | Missing sources change nothing but the confidence, by 0.20, 0.10 and 0.05, down to 0.30 at most |
| `SignalSources.StrategyOpinion` | services/autonomous_runner/coordinator.py:482-561 | No opinion exactly on an empty list; otherwise the side of the larger count, none when equal, with a confidence in [0.30, 0.95] whatever the scores |
| `SignalSources.FetchStrategySignal` | services/autonomous_runner/coordinator.py:505-555 | The counting loop and the tiers give that opinion |
| `SignalSources.RegimeOpinion` | services/autonomous_runner/coordinator.py:579-605 | Takes a side exactly on a price change over 2 or under -2 with a volume ratio over 1.5; confidence in [0.30, 0.80] |
| `SignalSources.SentimentOpinion` | services/autonomous_runner/coordinator.py:628-652 | The side of the larger count of recent signals, with a confidence in [0.30, 0.70] |
| `SignalSources.PredictionOpinion` | services/autonomous_runner/coordinator.py:676-710 | The side whose accuracy is ahead by more than 0.1, HOLD otherwise; confidence in [0.30, 0.80] |
| `SignalSources.LearningOpinion` | services/autonomous_runner/coordinator.py:733-766 | An opinion exactly from three decisions on: BUY exactly from a win rate of 0.65, SELL exactly up to 0.35; confidence in [0.35, 0.75] |
| `SignalSources.SourcesAreConfident` | services/autonomous_runner/coordinator.py:482-769 | Whatever the services answer, no source speaks with a confidence below 0.30 |
| `SignalSources.StrategyConfidence` | services/autonomous_runner/coordinator.py:532-546 | The tier by the fifths of the strategies that agree, times 0.8 plus a fifth of their mean score, within [0.30, 0.95] |
| `SignalSources.OtherConfidences` | services/autonomous_runner/coordinator.py:585-756 | What the other confidences are where no bound cuts them off, and at the bounds |
| `PipelineSymmetry.SourcesMirrored` | services/autonomous_runner/coordinator.py:482-769 | Answers with BUY for SELL, rises for falls and wins for losses give the opposite opinions, equally sure |
| `PipelineSymmetry.FusedMirrored` | services/autonomous_runner/coordinator.py:304-367 | Opposite opinions give the opposite fused signal, degradation included |
| `PipelineSymmetry.MirroredMarketMirroredDecision` | services/autonomous_runner/coordinator.py:291-480 | So mirrored answers give the opposite decision with the same confidence, agreement, score, risk verdict and size |
| `Coordinator.TieInPipelineGivesHold` | services/autonomous_runner/coordinator.py:304-357 | Whatever the services answer, a top tie gives HOLD in the pipeline |
| `Coordinator.SignalCoordinator.FuseSources` | services/autonomous_runner/coordinator.py:304-367 | Gathering, fusing and degrading the five sources |
| `Coordinator.SignalCoordinator.EmitOrSkip` | services/autonomous_runner/coordinator.py:415-437 | Sent exactly when 900 s have passed since the last equal emission; what is recorded then |
| `Coordinator.SignalCoordinator.ProcessSymbol` | services/autonomous_runner/coordinator.py:291-480 | One symbol: gate, latency sample, decision with its exact score and position size, log and entry price after the run |
| `Coordinator.SignalCoordinator.TrySymbol` | services/autonomous_runner/coordinator.py:260-282 | A symbol whose lock is not obtained is skipped; an obtained lock is released even after an exception |
| `Coordinator.SignalCoordinator.ProcessAllSymbols` | services/autonomous_runner/coordinator.py:235-289 | The batched double loop is one pass per symbol in order, for every positive batch size; skip, zero and negative batch sizes |
| `Coordinator.SignalCoordinator.AppendDecision` | services/autonomous_runner/coordinator.py:450-453 | The kept log is always the newest decisions: all, or at least 500 |
| `Coordinator.SignalCoordinator.GetRecentDecisions` | services/autonomous_runner/coordinator.py:866-868 | For limits up to 500 the answer is the end of the full log |
| `CoordinatorTheorems.PipelineKeepsEmissionLimits` | services/autonomous_runner/coordinator.py:235-289 | The emission limits over every interleaving of cycles, closes, resets and other Redis clients |
| `CoordinatorTheorems.OnceSlowNeverAgain` | services/autonomous_runner/coordinator.py:245-249 | Once the scheduler says skip, no later cycle handles any symbol |
| `CoordinatorTheorems.SlowSampleCatchesUp` | services/autonomous_runner/adaptive_scheduler.py:54-101 | With a window of 3 to 100 samples, a slow latency recorded at any time gives skip advice as soon as three samples exist, after whatever events |
| `CoordinatorTheorems.SlowSymbolStopsThePipeline` | services/autonomous_runner/coordinator.py:372-374 | So one symbol slower than the p99 threshold, in any cycle, ends all later cycles once three symbols have been timed, in that cycle or in later ones |
| `CoordinatorTheorems.CycleLeavesNoLock` | services/autonomous_runner/coordinator.py:262-282 | A cycle whose requests are served leaves no live lock of its own behind |
| `DecisionModels.AgentDecision.ComputeOpportunityScore` | services/autonomous_runner/decision_models.py:96-162 | Score, tier and factors |
| `DecisionModels.ScoreRange` | services/autonomous_runner/decision_models.py:96-162 | Scores of fused signals lie in [17.5, 98.75] |
| `DecisionModels.ScoreRangeIsTight` | services/autonomous_runner/decision_models.py:96-162 | Both ends are reached |
| `DecisionModels.ScoreIsMonotone` | services/autonomous_runner/decision_models.py:96-176 | More confidence or agreement never lowers the score |
| `DecisionModels.ScoreParts` | services/autonomous_runner/decision_models.py:96-185 | The five parts as functions of confidence, price move, agreement and volatility; a missing or non-positive volatility is worth 7.5 points |
| `PipelineSymmetry.ScoreIgnoresSide` | services/autonomous_runner/decision_models.py:164-176 | BUY and SELL score alike, and so do a rise and a fall |
| `DecisionModels.TierQueryIsExactIff` | services/autonomous_runner/decision_queries.py:319-325 | The half-open ranges select each tier exactly if and only if the score is in [0, 100) |
| `DecisionModels.TierQueryIsExact` | services/autonomous_runner/decision_queries.py:319-325 | So they are exact for every decision the pipeline builds |
| `Resilience.CircuitBreaker.AllowRequest` | services/agent_orchestration/resilience.py:40-53 | Rejects exactly while open and not yet recovered |
| `Resilience.CircuitBreaker.Succeed` | services/agent_orchestration/resilience.py:55-60 | A success closes the breaker |
| `Resilience.CircuitBreaker.Fail` | services/agent_orchestration/resilience.py:62-72 | A failure counts and may open it |
| `Resilience.BreakerInvHolds` | services/agent_orchestration/resilience.py:40-72 | In every run: closed exactly while fewer than threshold failures are counted |
| `Resilience.ProbesAreSpaced` | services/agent_orchestration/resilience.py:40-72 | Calls admitted after opening with no success between are at least recovery_seconds apart |
| `Resilience.HalfOpenAdmitsAnyNumber` | services/agent_orchestration/resilience.py:40-53 | Unless it is open, a breaker admits every request until one is recorded |
| `Resilience.OneProbeIff` | services/agent_orchestration/resilience.py:40-53 | Of the requests put to an open breaker with nothing recorded between, at most one is admitted exactly when the last but one comes before recovery |
| `Resilience.RetryWithBackoff` | services/agent_orchestration/resilience.py:78-147 | The retry loop equals its recursive definition: ending, calls, sleeps, breaker |
| `Resilience.RetryIsBounded` | services/agent_orchestration/resilience.py:105-147 | At most max_attempts calls; sleeps form the capped geometric sequence with a bounded total |
| `Resilience.SleepsNeverShrink` | services/agent_orchestration/resilience.py:105-147 | With a base delay within the cap, sleeps never shrink and never pass the cap |
| `Resilience.SleepsInClosedForm` | services/agent_orchestration/resilience.py:105-147 | The i-th sleep is the base delay times the multiplier to the i, up to the maximum from the second on |
| `Resilience.RetryEndsAs` | services/agent_orchestration/resilience.py:105-147 | Which ending belongs to which calls: the last one decides, all before it were transient, and only an open breaker stops before the attempts are used up |
| `Resilience.UnguardedRetryReturns` | services/agent_orchestration/resilience.py:105-147 | Without a breaker the first attempt that is not transient has its value returned or its error raised |
| `Resilience.TrippedRetryCallsAgainIff` | services/agent_orchestration/resilience.py:114-138 | After an attempt that leaves the breaker open there is another call exactly when recovery has passed by the next request |
| `Resilience.NoCallAfterTripping` | services/agent_orchestration/resilience.py:105-147 | With base and maximum delay shorter than recovery by more than a sleep may overrun, no call follows one that left the breaker open |
| `OrchestrationState.Orchestration.AddCandidate` | services/agent_orchestration/state.py:122-124 | A fresh record under the name, whatever was there |
| `OrchestrationState.Orchestration.AdvanceToValidation` | services/agent_orchestration/state.py:126-130 | The record changes in place, if there is one |
| `OrchestrationState.Orchestration.Promote` | services/agent_orchestration/state.py:132-143 | Phase, allocation and history entry |
| `OrchestrationState.Orchestration.Retire` | services/agent_orchestration/state.py:145-156 | History entry and removal |
| `OrchestrationState.Orchestration.GetPromotedStrategies` | services/agent_orchestration/state.py:158-164 | Exactly the promoted records, each once |
| `Validation.AggregatePasses` | services/agent_orchestration/validation.py:134-158 | Averages of passing metrics pass |
| `Validation.AveragesHideAFailure` | services/agent_orchestration/validation.py:103-113 | The check per symbol is not implied by the averages |
| `Validation.RankedIsSorted` | services/agent_orchestration/validation.py:129-131 | The ranking is a descending permutation |
| `Validation.RankingIsStable` | services/agent_orchestration/validation.py:129-131 | Equal Sharpe ratios keep their order |
| `Validation.ValidatedEarnedIt` | services/agent_orchestration/validation.py:54-131 | Every validated candidate had a Sharpe ratio of at least 0.5, a win rate of at least 0.45, a drawdown of at least -0.30 and 5 trades on every symbol and in the aggregate |
| `Validation.EarnedIsValidated` | services/agent_orchestration/validation.py:54-131 | Every candidate that met these numbers is validated |
| `Validation.AggregateMeans` | services/agent_orchestration/validation.py:134-158 | Every average times the number of symbols is the sum over them; trades are summed |
| `Validation.AggregateOfTwo` | services/agent_orchestration/validation.py:134-158 | The aggregate of two symbols, field by field |
| `Validation.ValidationRaisesIff` | services/agent_orchestration/validation.py:74-131 | Validation raises exactly when some candidate has a backtest that raises after all its earlier symbols passed |
| `Validation.BacktestOnSymbols` | services/agent_orchestration/validation.py:92-113 | The inner loop with its two early exits |
| `Validation.ValidateCandidates` | services/agent_orchestration/validation.py:74-131 | The outer loop, a raised exception included |
| `Promotion.PromoteWinners` | services/agent_orchestration/promotion.py:15-53 | The loop over the first two, skipping what is live |
| `Promotion.PromotesExactlyTheFirst` | services/agent_orchestration/promotion.py:26-53 | Exactly the first two become live, and nothing stops being live |
| `Monitoring.NewAllocation` | services/agent_orchestration/monitoring.py:67-75 | An allocation in [0.01, 0.25] stays there |
| `Monitoring.AllocationFollowsSharpe` | services/agent_orchestration/monitoring.py:67-96 | The stored allocation stays in range, grows exactly on a Sharpe ratio of at least 0.7 below 0.249, and shrinks exactly on one of at most 0.3 above 0.011 |
| `Monitoring.MonitorPromotedStrategies` | services/agent_orchestration/monitoring.py:15-98 | The loop over a snapshot of live records, updated and retired in place, an exception in the middle included; MonitoringOutcome says what becomes of each |
| `Monitoring.FailureEndsTheLoop` | services/agent_orchestration/monitoring.py:37-50 | Nothing happens to the strategies after the one that raises |
| `Monitoring.MonitoringOutcome` | services/agent_orchestration/monitoring.py:37-98 | Retired exactly on a Sharpe ratio below 0 in metrics that were read; every other one stays live with a quarter more from 0.7 up to 0.25, a quarter less up to 0.3 down to 0.01, or the same, and is reported exactly when that changed |
| `Monitoring.UpdatedFollows` | services/agent_orchestration/monitoring.py:67-96 | The new allocation in numbers, case by case |
| `OrchestrationLoop.RunCycle` | services/agent_orchestration/orchestration_loop.py:19-164 | One cycle: state, three breakers and statistics |
| `OrchestrationLoop.Discover` | services/agent_orchestration/orchestration_loop.py:51-78 | Discovery behind its breaker; an exception while adding keeps the names already added, counts as a failure and passes none on |
| `OrchestrationLoop.ValidatePhase` | services/agent_orchestration/orchestration_loop.py:80-104 | Validation behind its breaker |
| `OrchestrationLoop.PromotePhase` | services/agent_orchestration/orchestration_loop.py:106-124 | Promotion behind the signal breaker |
| `OrchestrationLoop.MonitorPhase` | services/agent_orchestration/orchestration_loop.py:126-149 | Monitoring behind the same breaker |
| `OrchestrationTheorems.CycleLedger` | services/agent_orchestration/orchestration_loop.py:60-149 | Per name, promotions minus retirements follow what is live, plus one for each rediscovery of a live name; allocations in range; at most two promotions |
| `OrchestrationTheorems.RunLedger` | services/agent_orchestration/state.py:122-156 | The same over every run from the empty state |
| `OrchestrationTheorems.LedgerIsExactIff` | services/agent_orchestration/discovery.py:195-212 | The ledger is exact if and only if no live name is ever discovered again, names added before an exception included |
| `OrchestrationTheorems.RediscoveryHappens` | services/agent_orchestration/discovery.py:170-184 | Two concrete cycles in which it is not |
| `OrchestrationTheorems.PromotedEarnedIt` | services/agent_orchestration/promotion.py:26-53 | What goes live met every threshold on every symbol, and no candidate left behind has a higher Sharpe ratio |
| `OrchestrationTheorems.BestTwoGoLive` | services/agent_orchestration/promotion.py:26-53 | Unless skipped, exactly the two best validated candidates go live, at 0.05 |
| `OrchestrationTheorems.StatsMatchHistories` | services/agent_orchestration/orchestration_loop.py:115-149 | The reported counts are the growth of the histories, except that a monitoring phase that raised reports 0 |
| `OrchestrationTheorems.StatsSayWhatHappened` | services/agent_orchestration/orchestration_loop.py:51-149 | The statistics name exactly the skipped phases, with 0 for what they would have counted |
| `OrchestrationTheorems.FailingDiscoveryIsSuspended` | services/agent_orchestration/orchestration_loop.py:51-78 | Failed discoveries in a row are counted; as many as the threshold suspend discovery, which is then skipped exactly before recovery |
| `OrchestrationTheorems.FailingValidationIsSuspended` | services/agent_orchestration/orchestration_loop.py:80-104 | The same for validations that raise |
| `OrchestrationTheorems.SignalBreakerSeesEveryCall` | services/agent_orchestration/orchestration_loop.py:106-149 | Over every run the shared breaker sees two calls per cycle, each recorded before the next is asked |
| `OrchestrationTheorems.CycleKeepsSignalClosed` | services/agent_orchestration/orchestration_loop.py:106-149 | From closed, one cycle opens the shared breaker exactly when monitoring raises and the threshold is at most 1 |
| `OrchestrationTheorems.SignalBreakerNeverOpens` | services/agent_orchestration/orchestration_loop.py:106-149 | With a threshold of at least 2 it never opens: after any run it is closed with at most one failure, and no promotion or monitoring is ever skipped |
| `SlidingWindow.PruningIsInvisible` | services/api_key_api/app.py:100-110 | The pruned log is the full admission history on the window, and decides like it |
| `SlidingWindow.NoWindowOverLimit` | services/api_key_api/app.py:100-110 | No window of that length, wherever it starts, holds more admissions than the limit |
| `ApiKeyRateLimiter.RateLimiter.IsAllowed` | services/api_key_api/app.py:100-110 | Admitted exactly when the full history has room; a rejected request leaves no trace |
| `GatewayRateLimiter.RateLimiter.Check` | services/agent_gateway/main.py:234-265 | Per endpoint and address: admission and remaining are those of the full admission history unless an earlier call pruned it beyond this window; a rejected call adds nothing |
| `GatewayRateLimiter.DecisionIsExact` | services/agent_gateway/main.py:243-247 | The pruned log decides and counts like the full history when no earlier call used a later cutoff |
| `GatewayRateLimiter.ConstantWindowForgetsNothing` | services/agent_gateway/main.py:243-245 | A bucket always asked with one window meets that condition |
| `GatewayRateLimiter.CountIsExactIff` | services/agent_gateway/main.py:243-247 | With positive windows the count is exact if and only if no admission lies between the call's cutoff and the latest earlier one |
| `GatewayRateLimiter.WideningTheWindowForgets` | services/agent_gateway/main.py:243-247 | Three concrete calls, narrow window then wide, of which one too many is admitted |
| `GatewayRateLimiter.NoBucketOverLimit` | services/agent_gateway/main.py:234-265 | With one positive window no stretch of that length holds more admissions of a bucket than its limit |
| `SignalCache.FullKeyIsInjective` | services/autonomous_runner/signal_cache.py:165-166 | Keys never collide when data types contain no colon |
| `SignalCache.ColonInDataTypeCollides` | services/autonomous_runner/signal_cache.py:165-166 | With a colon they do |
| `SignalCache.TypesCollideIff` | services/autonomous_runner/signal_cache.py:165-166 | Two data types have colliding entries exactly when one, with its colon, begins the other |
| `SignalCache.SignalCache.Get` | services/autonomous_runner/signal_cache.py:74-113 | Redis first, local fallback second, expired local entry deleted |
| `SignalCache.SignalCache.Put` | services/autonomous_runner/signal_cache.py:115-138 | Both tiers written, Redis only if it can be |
| `SignalCache.SignalCache.Invalidate` | services/autonomous_runner/signal_cache.py:140-148 | Both tiers cleared |
| `SignalCache.FaultFreeCacheIsAMap` | services/autonomous_runner/signal_cache.py:74-148 | Without failures the cache is a plain map: with the local fallback, one with the normal TTL, whether or not degraded values are asked for; without it, the one Redis keeps |
| `SignalCache.ValueLivesForItsTtl` | services/autonomous_runner/signal_cache.py:18-38 | With the default configuration a value is read for 300, 60 or 10 s by its data type, or 60 s for an unknown one |
| `SignalCache.RedisServesForItsTtl` | services/autonomous_runner/signal_cache.py:18-38 | Without the fallback: that long after storing, unless older than the TTL the reader asks for, 600 s and 120 s when degraded |
| `SignalCache.DegradedMattersIff` | services/autonomous_runner/signal_cache.py:74-148 | Without failures the degraded flag changes an answer exactly when there is no local fallback, Redis still holds the entry, and its age passes one of the two TTLs only |
| `SignalCache.DegradedServesALateWrite` | services/autonomous_runner/signal_cache.py:74-138 | A concrete run in which it does |
| `SignalCache.DegradedServesALostInvalidation` | services/autonomous_runner/signal_cache.py:140-148 | And one with the local fallback, after an invalidation that Redis missed |
| `SignalCache.FaultyCacheNeverInvents` | services/autonomous_runner/signal_cache.py:74-113 | Under any failures a returned value was put under that key less than the normal TTL ago |
| `SignalCache.LostPutIsSeenIff` | services/autonomous_runner/signal_cache.py:74-138 | A put that Redis missed is seen within its TTL exactly when Redis no longer serves an earlier value of the key, or the same one; otherwise the latest earlier value is read |
| `LatencyWindow.BufferHoldsTheLargest` | services/autonomous_runner/adaptive_scheduler.py:54-58 | The buffer is sorted and holds the window_size largest samples |
| `LatencyWindow.RollingIffNothingLeftWasLarger` | services/autonomous_runner/adaptive_scheduler.py:54-58 | The buffer is the rolling window exactly when no sample that should have left is larger than one of the last |
| `LatencyWindow.NotARollingWindow` | services/autonomous_runner/adaptive_scheduler.py:54-58 | A concrete run in which it does not |
| `LatencyWindow.GetState` | services/autonomous_runner/adaptive_scheduler.py:60-101 | p95 <= p99; skip exactly when p99 of at least three samples is over its threshold |
| `LatencyWindow.PercentilesNeverFall` | services/autonomous_runner/adaptive_scheduler.py:54-71 | Once full, neither percentile ever decreases |
| `LatencyWindow.SkipIffEnoughSlow` | services/autonomous_runner/adaptive_scheduler.py:60-101 | For every window: the advice is to skip exactly when the slow samples since the last reset, times 100, reach the number of samples held |
| `LatencyWindow.ReducedIffEnoughSlow` | services/autonomous_runner/adaptive_scheduler.py:60-101 | Batch and timeout change exactly when the slow samples, times 20, reach that number |
| `LatencyWindow.OneSlowSampleIsEnough` | services/autonomous_runner/adaptive_scheduler.py:60-101 | With a window of 3 to 100 samples one slow sample, ever, is enough |
| `LatencyWindow.SkipIsForeverIff` | services/autonomous_runner/adaptive_scheduler.py:60-74 | Skip advice outlasts every further sample exactly when there are enough slow samples for a full window |
| `LatencyWindow.SmallOrFullWindowSkipsForever` | services/autonomous_runner/adaptive_scheduler.py:60-74 | So it always does with a window of at most 100, or a full one |
| `LatencyWindow.LargeWindowCanRecover` | services/autonomous_runner/adaptive_scheduler.py:60-74 | With a larger window the 101st sample can end it |
| `LatencyWindow.AdaptiveScheduler.RecordLatency` | services/autonomous_runner/adaptive_scheduler.py:54-58 | The in-place insert and pop keep that buffer |
| `LatencyWindow.AdaptiveScheduler.Reset` | services/autonomous_runner/adaptive_scheduler.py:103-105 | Only a reset forgets |

## Left out

- Floating-point rounding everywhere, the Sharpe ratio with its square root, and the final rounding of the backtest report.
- Clock skew: the run lock model has one clock, read by server and clients alike. Malformed lock JSON is not modelled.
- Other clients' commands between the commands of one `Coordinator` pass: `LockProtocol` covers those interleavings.
- CycleLeavesNoLock: only cycles whose Redis requests are all served; a lost release leaves the lock to its TTL.
- The order in which a dictionary lists live strategies: the orchestration results hold for whatever order it is.
- Keys of stored candidate metrics that are not numbers (`symbols_tested`, `per_symbol`), and sharing of a metrics dictionary between a candidate and the validated list.
- Two breakers of one cycle being the same object: `RunCycle` asks for distinct ones, as the loop creates them.
- The parsing of JSON answers into the readings of the five sources, and their caching: the parsed values are parameters.
- `run_discovery` and its dedup: a parameter that may return any list, names or not, or raise.
- Saving and loading orchestration state as JSON, `cycle_stats`, and timestamps of history entries.
- The cache's `clear` and hit rate, and JSON encoding of cached values.
- `calculate_confidence` of signal_fusion.py: the pipeline never calls it.
- Reasoning strings, warnings, metrics counters, JSONB truncation, database and event-bus writes.
- `services/autonomous_runner/retry.py`, whose loop repeats the retry loop covered here with random jitter.
- `BatchProcessor` thread pools, HTTP routes, SQL, LLM calls, Kafka, authentication, dashboards.
