/** Risk limits on emitted signals. */
module RiskManagement {
  import opened Builtins
  import opened Wrappers
  import opened SlidingWindow
  import opened SignalFusion

  const HOUR: real := 3600.0

  datatype RiskConfig = RiskConfig(
    maxConcurrent: int,
    maxPerSymbolPerHour: int,
    minConfidence: real,
    maxExposure: real,
    maxPosition: real,
    maxDailyLoss: real,
    maxDrawdown: real)

  datatype Risk = Risk(history: map<string, seq<real>>, active: int, dailyPnl: real, maxDrawdown: real, exposure: real)

  const NO_RISK := Risk(map[], 0, 0.0, 0.0, 0.0)

  datatype Reason =
    | LowConfidence | TooManyActive | RateLimited | ExposureFull | DailyLoss | DrawdownLimit | AdjustedTooLow

  /** `DividedByZero` is the exception raised when the exposure limit is 0 and the exposure negative. */
  datatype CheckResult =
    | Checked(approved: bool, adjusted: Option<real>, size: real, reasons: seq<Reason>)
    | DividedByZero

  function HistoryOf(r: Risk, symbol: string): seq<real> {
    if symbol in r.history then r.history[symbol] else []
  }

  /** The limits checked before any adjustment, in order. */
  function HardReasons(r: Risk, c: RiskConfig, recent: nat, confidence: real): (reasons: seq<Reason>)
    ensures reasons == [] <==>
              && confidence >= c.minConfidence && r.active < c.maxConcurrent && recent < c.maxPerSymbolPerHour
              && r.exposure < c.maxExposure && r.dailyPnl > -c.maxDailyLoss && r.maxDrawdown < c.maxDrawdown
  {
    (if confidence < c.minConfidence then [LowConfidence] else [])
    + (if r.active >= c.maxConcurrent then [TooManyActive] else [])
    + (if recent >= c.maxPerSymbolPerHour then [RateLimited] else [])
    + (if r.exposure >= c.maxExposure then [ExposureFull] else [])
    + (if r.dailyPnl <= -c.maxDailyLoss then [DailyLoss] else [])
    + (if r.maxDrawdown >= c.maxDrawdown then [DrawdownLimit] else [])
  }

  lemma MemberOfSix(a: seq<Reason>, b: seq<Reason>, c: seq<Reason>, d: seq<Reason>, e: seq<Reason>, f: seq<Reason>,
                    x: Reason)
    ensures x in a + b + c + d + e + f <==> x in a || x in b || x in c || x in d || x in e || x in f
  {
  }

  /** A rejection names every limit that is not kept, and no other. */
  lemma {:induction false} RejectionNamesTheLimits(r: Risk, c: RiskConfig, recent: nat, confidence: real,
                                                   reason: Reason)
    ensures reason in HardReasons(r, c, recent, confidence) <==>
              match reason
              case LowConfidence => confidence < c.minConfidence
              case TooManyActive => r.active >= c.maxConcurrent
              case RateLimited => recent >= c.maxPerSymbolPerHour
              case ExposureFull => r.exposure >= c.maxExposure
              case DailyLoss => r.dailyPnl <= -c.maxDailyLoss
              case DrawdownLimit => r.maxDrawdown >= c.maxDrawdown
              case AdjustedTooLow => false
  {
    MemberOfSix(if confidence < c.minConfidence then [LowConfidence] else [],
                if r.active >= c.maxConcurrent then [TooManyActive] else [],
                if recent >= c.maxPerSymbolPerHour then [RateLimited] else [],
                if r.exposure >= c.maxExposure then [ExposureFull] else [],
                if r.dailyPnl <= -c.maxDailyLoss then [DailyLoss] else [],
                if r.maxDrawdown >= c.maxDrawdown then [DrawdownLimit] else [], reason);
  }

  /** `_calculate_position_size` */
  function PositionSize(r: Risk, c: RiskConfig, confidence: real): (size: real)
    ensures 0.0 <= size
    ensures c.maxPosition >= 0.0 && r.exposure <= c.maxExposure ==>
              size <= c.maxPosition && r.exposure + size <= c.maxExposure
  {
    var cap := Min(c.maxPosition, c.maxExposure - r.exposure);
    Max(0.0, Min(cap, Times(cap, confidence)))
  }

  function Penalty(ratio: real, from: real, rate: real): real {
    if ratio > from then (ratio - from) * rate else 0.0
  }

  function Ratio(x: real, y: real): real
    requires y != 0.0
  {
    x / y
  }

  /** `_adjust_confidence` */
  function AdjustConfidence(r: Risk, c: RiskConfig, confidence: real): (adjusted: real)
    requires c.maxExposure != 0.0 && (r.dailyPnl < 0.0 ==> c.maxDailyLoss != 0.0)
    ensures adjusted >= 0.0 && (confidence >= 0.0 ==> adjusted <= confidence)
  {
    var afterExposure := confidence - Penalty(Ratio(r.exposure, c.maxExposure), 0.7, 0.3);
    if r.dailyPnl < 0.0 then Max(0.0, afterExposure - Penalty(Ratio(-r.dailyPnl, c.maxDailyLoss), 0.5, 0.2))
    else Max(0.0, afterExposure)
  }

  lemma RatioBelowOne(x: real, y: real)
    requires y > 0.0 && x < y
    ensures Ratio(x, y) < 1.0
  {
    var q := x / y;
    assert q * y == x;
  }

  /** Behind the hard checks the exposure penalty is below 0.09 and the loss penalty below 0.10. */
  lemma AdjustmentIsBounded(r: Risk, c: RiskConfig, confidence: real)
    requires c.maxExposure > 0.0 && r.exposure < c.maxExposure && r.dailyPnl > -c.maxDailyLoss
    ensures AdjustConfidence(r, c, confidence) > confidence - (0.09 + 0.10) || confidence < 0.0
  {
    RatioBelowOne(r.exposure, c.maxExposure);
    if r.dailyPnl < 0.0 {
      RatioBelowOne(-r.dailyPnl, c.maxDailyLoss);
    }
  }

  lemma RatioAtMost(x: real, y: real, part: real)
    requires y > 0.0
    ensures Ratio(x, y) <= part <==> x <= Times(part, y)
  {
    var q := x / y;
    assert q * y == x;
    if q <= part {
      assert (part - q) * y >= 0.0;
    } else {
      assert (q - part) * y > 0.0;
    }
  }

  /** Confidence is left alone exactly while exposure is within 70% and the daily loss within 50% of their limits. */
  lemma AdjustmentIsFreeIff(r: Risk, c: RiskConfig, confidence: real)
    requires confidence > 0.0 && c.maxExposure > 0.0 && c.maxDailyLoss > 0.0
    ensures AdjustConfidence(r, c, confidence) == confidence <==>
              r.exposure <= Times(0.7, c.maxExposure) && -r.dailyPnl <= Times(0.5, c.maxDailyLoss)
  {
    RatioAtMost(r.exposure, c.maxExposure, 0.7);
    if r.dailyPnl < 0.0 {
      RatioAtMost(-r.dailyPnl, c.maxDailyLoss, 0.5);
    } else {
      assert Times(0.5, c.maxDailyLoss) > 0.0;
    }
  }

  /**
   Under both limits, more confidence never gets less, more exposure never gets more, and full confidence gets all the
   room.
   */
  lemma PositionSizeFollowsConfidenceAndRoom(r: Risk, c: RiskConfig, confidence: real, surer: real, exposure: real)
    requires 0.0 <= confidence <= surer && r.exposure <= exposure <= c.maxExposure && c.maxPosition >= 0.0
    ensures PositionSize(r, c, confidence) <= PositionSize(r, c, surer)
    ensures PositionSize(r.(exposure := exposure), c, confidence) <= PositionSize(r, c, confidence)
    ensures PositionSize(r, c, 1.0) == Min(c.maxPosition, c.maxExposure - r.exposure)
  {
    var room, less := Min(c.maxPosition, c.maxExposure - r.exposure), Min(c.maxPosition, c.maxExposure - exposure);
    TimesIsMonotone(confidence, surer, room);
    TimesIsMonotone(less, room, confidence);
    assert Times(room, 1.0) == room;
  }

  /** Under both limits the position is the room there is, times the confidence; beyond full confidence all of it. */
  lemma {:induction false} SizeIsRoomTimesConfidence(r: Risk, c: RiskConfig, confidence: real)
    requires confidence >= 0.0 && r.exposure <= c.maxExposure && c.maxPosition >= 0.0
    ensures PositionSize(r, c, confidence)
         == Times(Min(c.maxPosition, c.maxExposure - r.exposure), Min(1.0, confidence))
  {
    var room := Min(c.maxPosition, c.maxExposure - r.exposure);
    TimesIsMonotone(0.0, confidence, room);
    assert Times(room, 0.0) == 0.0 && Times(room, 1.0) == room;
    if confidence <= 1.0 {
      TimesIsMonotone(confidence, 1.0, room);
    } else {
      TimesIsMonotone(1.0, confidence, room);
    }
  }

  // ---- Operations ----

  /** `check_signal`. HOLD is approved before anything is read or pruned. */
  function Check(r: Risk, c: RiskConfig, symbol: string, action: Action, confidence: real,
                 now: real): (Risk, CheckResult) {
    if action == HOLD then (r, Checked(true, Some(confidence), 0.0, []))
    else
      var recent := After(HistoryOf(r, symbol), now - HOUR);
      var r' := r.(history := r.history[symbol := recent]);
      var hard := HardReasons(r, c, |recent|, confidence);
      if hard != [] then (r', Checked(false, None, 0.0, hard))
      else if c.maxExposure == 0.0 then (r', DividedByZero)
      else
        var adjusted := AdjustConfidence(r, c, confidence);
        if adjusted < c.minConfidence then (r', Checked(false, Some(adjusted), 0.0, [AdjustedTooLow]))
        else (r', Checked(true, Some(adjusted), PositionSize(r, c, confidence), []))
  }

  /**
   What approval of a signal other than HOLD means: every limit held when it was checked, the confidence lost less than
   0.19 to the penalties and is still at its minimum, and the position is the confidence's share of the room under both
   limits.
   */
  lemma ApprovedSignalFits(r: Risk, c: RiskConfig, symbol: string, action: Action, confidence: real, now: real)
    requires action != HOLD && c.maxPosition >= 0.0 && c.maxExposure > 0.0 && confidence >= 0.0
    ensures var result := Check(r, c, symbol, action, confidence, now).1;
            result.Checked? && result.approved ==>
              && r.active < c.maxConcurrent && |After(HistoryOf(r, symbol), now - HOUR)| < c.maxPerSymbolPerHour
              && r.dailyPnl > -c.maxDailyLoss && r.maxDrawdown < c.maxDrawdown
              && result.adjusted.Some? && confidence - 0.19 < result.adjusted.value <= confidence
              && result.adjusted.value >= c.minConfidence
              && 0.0 <= result.size <= c.maxPosition && r.exposure + result.size <= c.maxExposure
              && result.size == Times(Min(c.maxPosition, c.maxExposure - r.exposure), Min(1.0, confidence))
  {
    if r.exposure < c.maxExposure && r.dailyPnl > -c.maxDailyLoss {
      AdjustmentIsBounded(r, c, confidence);
      SizeIsRoomTimesConfidence(r, c, confidence);
    }
  }

  /** The six limits a signal other than HOLD is checked against before any adjustment. */
  predicate WithinLimits(r: Risk, c: RiskConfig, symbol: string, confidence: real, now: real) {
    && confidence >= c.minConfidence && r.active < c.maxConcurrent
    && |After(HistoryOf(r, symbol), now - 3600.0)| < c.maxPerSymbolPerHour
    && r.exposure < c.maxExposure && r.dailyPnl > -c.maxDailyLoss && r.maxDrawdown < c.maxDrawdown
  }

  /**
   Exactly when a signal is approved: it is HOLD, which changes nothing and takes no position, or the six limits hold,
   and what the penalties leave of its confidence is at least the minimum. Exposure beyond 70% of its limit costs 0.3 of
   the excess share, a daily loss beyond 50% of its limit 0.2 of it. An exposure limit of 0 divides by zero.
   */
  lemma {:induction false} ApprovedIff(r: Risk, c: RiskConfig, symbol: string, action: Action, confidence: real,
                                       now: real)
    ensures var (after, result) := Check(r, c, symbol, action, confidence, now);
            action == HOLD ==> after == r && result == Checked(true, Some(confidence), 0.0, [])
    ensures var result := Check(r, c, symbol, action, confidence, now).1;
            action != HOLD ==>
            && (result.DividedByZero? <==> WithinLimits(r, c, symbol, confidence, now) && c.maxExposure == 0.0)
            && (result.Checked? && result.approved <==>
                  && WithinLimits(r, c, symbol, confidence, now) && c.maxExposure != 0.0
                  && var exposure, loss := r.exposure / c.maxExposure,
                                           if r.dailyPnl < 0.0 then -r.dailyPnl / c.maxDailyLoss else 0.0;
                     var left := confidence - (if exposure > 0.7 then 0.3 * (exposure - 0.7) else 0.0)
                                            - (if loss > 0.5 then 0.2 * (loss - 0.5) else 0.0);
                     left >= c.minConfidence || c.minConfidence <= 0.0)
  {
  }

  /**
   Within 70% of the exposure and 50% of the daily loss limit, the six limits alone decide; the confidence stays as it
   is, and the position is the room under both limits times the confidence.
   */
  lemma {:induction false} CalmApprovalIff(r: Risk, c: RiskConfig, symbol: string, action: Action, confidence: real,
                                           now: real)
    requires action != HOLD && 0.0 < confidence <= 1.0
    requires c.maxExposure > 0.0 && c.maxDailyLoss > 0.0 && c.maxPosition >= 0.0
    requires r.exposure <= Times(0.7, c.maxExposure) && -r.dailyPnl <= Times(0.5, c.maxDailyLoss)
    ensures var result := Check(r, c, symbol, action, confidence, now).1;
            && result.Checked? && (result.approved <==> WithinLimits(r, c, symbol, confidence, now))
            && (result.approved ==>
                  && result.adjusted == Some(confidence)
                  && result.size == Times(Min(c.maxPosition, c.maxExposure - r.exposure), confidence))
  {
    AdjustmentIsFreeIff(r, c, confidence);
    if r.exposure < c.maxExposure {
      SizeIsRoomTimesConfidence(r, c, confidence);
    }
  }

  /** `record_signal_emitted` */
  function Emitted(r: Risk, symbol: string, now: real): Risk {
    r.(history := r.history[symbol := HistoryOf(r, symbol) + [now]], active := r.active + 1)
  }

  /** `record_signal_closed` */
  function Closed(r: Risk, pnl: real): Risk {
    var daily := r.dailyPnl + pnl;
    r.(active := if r.active > 1 then r.active - 1 else 0,
       dailyPnl := daily,
       maxDrawdown := if daily < -r.maxDrawdown then Abs(daily) else r.maxDrawdown)
  }

  class RiskManager {
    const config: RiskConfig
    var signalHistory: map<string, seq<real>>
    var activeSignals: int
    var dailyPnl: real
    var maxDrawdown: real
    var exposure: real

    function View(): Risk
      reads this
    {
      Risk(signalHistory, activeSignals, dailyPnl, maxDrawdown, exposure)
    }

    constructor (config: RiskConfig)
      ensures this.config == config && View() == NO_RISK
    {
      this.config := config;
      signalHistory, activeSignals, dailyPnl, maxDrawdown, exposure := map[], 0, 0.0, 0.0, 0.0;
    }

    /** An approved signal other than HOLD fits under the position and the exposure limit. */
    method CheckSignal(symbol: string, action: Action, confidence: real, now: real) returns (result: CheckResult)
      modifies this
      ensures (View(), result) == Check(old(View()), config, symbol, action, confidence, now)
      ensures result.Checked? ==> (result.approved <==> result.reasons == [])
      ensures result.Checked? && result.approved && action != HOLD && config.maxPosition >= 0.0 ==>
                0.0 <= result.size <= config.maxPosition && exposure + result.size <= config.maxExposure
    {
      if action == HOLD {
        return Checked(true, Some(confidence), 0.0, []);
      }
      var recent := After(if symbol in signalHistory then signalHistory[symbol] else [], now - HOUR);
      var reasons := HardReasons(View(), config, |recent|, confidence);
      signalHistory := signalHistory[symbol := recent];
      if reasons != [] {
        return Checked(false, None, 0.0, reasons);
      }
      if config.maxExposure == 0.0 {
        return DividedByZero;
      }
      var size := PositionSize(View(), config, confidence);
      var adjusted := AdjustConfidence(View(), config, confidence);
      if adjusted < config.minConfidence {
        return Checked(false, Some(adjusted), 0.0, [AdjustedTooLow]);
      }
      return Checked(true, Some(adjusted), size, []);
    }

    method RecordSignalEmitted(symbol: string, now: real)
      modifies this
      ensures View() == Emitted(old(View()), symbol, now)
    {
      signalHistory := signalHistory[symbol := HistoryOf(View(), symbol) + [now]];
      activeSignals := activeSignals + 1;
    }

    method RecordSignalClosed(pnl: real)
      modifies this
      ensures View() == Closed(old(View()), pnl)
    {
      activeSignals := if activeSignals - 1 > 0 then activeSignals - 1 else 0;
      dailyPnl := dailyPnl + pnl;
      if dailyPnl < -maxDrawdown {
        maxDrawdown := Abs(dailyPnl);
      }
    }

    method UpdatePortfolioExposure(exposure: real)
      modifies this
      ensures View() == old(View()).(exposure := exposure)
    {
      this.exposure := exposure;
    }

    method ResetDaily()
      modifies this
      ensures View() == old(View()).(dailyPnl := 0.0)
    {
      dailyPnl := 0.0;
    }
  }
}
