/** Risk check, deduplication and emission of one pipeline run, and what every sequence of runs keeps. */
module EmissionGate {
  import opened Builtins
  import opened Wrappers
  import opened SlidingWindow
  import opened SignalFusion
  import opened RiskManagement

  const DEDUP_WINDOW: real := 900.0

  /** The clock readings of one run: risk check, dedup test, emission, dedup stamp, risk record. */
  datatype Moments = Moments(check: real, dedup: real, emit: real, stamp: real, record: real)

  predicate Ordered(m: Moments) {
    m.check <= m.dedup <= m.emit <= m.stamp <= m.record
  }

  datatype Emission = Emission(symbol: string, action: Action, at: real, recordedAt: real)

  /** `emissions` is the whole history; the program keeps only `risk` and `recent`. */
  datatype Gate = Gate(risk: Risk, recent: map<(string, Action), real>, emissions: seq<Emission>)

  const CLOSED_GATE := Gate(NO_RISK, map[], [])

  datatype Verdict = Rejected | Held | Duplicate | Sent | Crashed

  function LastEmit(recent: map<(string, Action), real>, symbol: string, action: Action): real {
    if (symbol, action) in recent then recent[(symbol, action)] else 0.0
  }

  /** Step 5 of `_process_symbol`, after the risk check has answered. */
  function Settle(g: Gate, result: CheckResult, symbol: string, action: Action, m: Moments): (Gate, Verdict) {
    if result.DividedByZero? then (g, Crashed)
    else if !result.approved then (g, Rejected)
    else if action == HOLD then (g, Held)
    else if m.dedup - LastEmit(g.recent, symbol, action) < DEDUP_WINDOW then (g, Duplicate)
    else (Gate(Emitted(g.risk, symbol, m.record), g.recent[(symbol, action) := m.stamp],
               g.emissions + [Emission(symbol, action, m.emit, m.record)]), Sent)
  }

  /** Steps 3 and 5 of `_process_symbol`. */
  function Process(g: Gate, c: RiskConfig, symbol: string, fused: FusedSignal, m: Moments): (Gate, Verdict) {
    var (risk, result) := Check(g.risk, c, symbol, fused.action, fused.confidence, m.check);
    Settle(g.(risk := risk), result, symbol, fused.action, m)
  }

  datatype Op =
    | Run(symbol: string, fused: FusedSignal, m: Moments)
    | Close(pnl: real)
    | SetExposure(exposure: real)
    | ResetDaily

  function Step(g: Gate, c: RiskConfig, op: Op): Gate {
    match op
    case Run(symbol, fused, m) => Process(g, c, symbol, fused, m).0
    case Close(pnl) => g.(risk := Closed(g.risk, pnl))
    case SetExposure(x) => g.(risk := g.risk.(exposure := x))
    case ResetDaily => g.(risk := g.risk.(dailyPnl := 0.0))
  }

  function GateAfter(c: RiskConfig, ops: seq<Op>): Gate {
    if ops == [] then CLOSED_GATE else Step(GateAfter(c, ops[..|ops| - 1]), c, ops[|ops| - 1])
  }

  /** Runs follow each other in time; closes, exposure updates and resets come anywhere between them. */
  ghost predicate InTimeOrder(ops: seq<Op>) {
    && (forall op :: op in ops && op.Run? ==> Ordered(op.m))
    && (forall i, j :: 0 <= i < j < |ops| && ops[i].Run? && ops[j].Run? ==> ops[i].m.record <= ops[j].m.check)
  }

  // ---- What the gate keeps ----

  function SentTimes(emissions: seq<Emission>, symbol: string): (times: seq<real>) {
    if emissions == [] then []
    else
      var init, e := SentTimes(emissions[..|emissions| - 1], symbol), emissions[|emissions| - 1];
      if e.symbol == symbol then init + [e.at] else init
  }

  function Recorded(emissions: seq<Emission>, symbol: string): (times: seq<real>) {
    if emissions == [] then []
    else
      var init, e := Recorded(emissions[..|emissions| - 1], symbol), emissions[|emissions| - 1];
      if e.symbol == symbol then init + [e.recordedAt] else init
  }

  /** The pruned history of a symbol agrees with all its recorded emissions on the hour before `now`. */
  ghost predicate HistoryAgrees(g: Gate, symbol: string, now: real) {
    After(HistoryOf(g.risk, symbol), now - HOUR) == After(Recorded(g.emissions, symbol), now - HOUR)
  }

  ghost predicate WindowHolds(emissions: seq<Emission>, symbol: string, lo: real, limit: int) {
    Within(SentTimes(emissions, symbol), lo, lo + HOUR) <= if limit > 0 then limit else 0
  }

  ghost predicate Spaced(emissions: seq<Emission>) {
    forall i, j ::
      (0 <= i < j < |emissions| && emissions[i].symbol == emissions[j].symbol
       && emissions[i].action == emissions[j].action) ==>
        emissions[j].at - emissions[i].at >= 900.0
  }

  ghost predicate RecentCovers(g: Gate) {
    forall e :: e in g.emissions ==> (e.symbol, e.action) in g.recent && e.at <= g.recent[(e.symbol, e.action)]
  }

  ghost predicate Inv(g: Gate, c: RiskConfig, now: real) {
    && 0 <= g.risk.active && (g.risk.active <= c.maxConcurrent || g.risk.active == 0)
    && (forall e :: e in g.emissions ==> e.at <= e.recordedAt)
    && (forall symbol :: HistoryAgrees(g, symbol, now))
    && (forall symbol, lo :: WindowHolds(g.emissions, symbol, lo, c.maxPerSymbolPerHour))
    && RecentCovers(g) && Spaced(g.emissions)
  }

  lemma {:induction false} SentWithinRecorded(emissions: seq<Emission>, symbol: string, lo: real, hi: real,
                                              cutoff: real)
    requires cutoff <= lo && forall e :: e in emissions ==> e.at <= e.recordedAt
    ensures Within(SentTimes(emissions, symbol), lo, hi) <= |After(Recorded(emissions, symbol), cutoff)|
  {
    if emissions != [] {
      var init, e := emissions[..|emissions| - 1], emissions[|emissions| - 1];
      SentWithinRecorded(init, symbol, lo, hi, cutoff);
      assert e in emissions;
      AfterSnoc(Recorded(init, symbol), e.recordedAt, cutoff);
      assert (SentTimes(init, symbol) + [e.at])[..|SentTimes(init, symbol)|] == SentTimes(init, symbol);
    }
  }

  lemma {:induction false} LaterAgreement(g: Gate, symbol: string, now: real, later: real)
    requires HistoryAgrees(g, symbol, now) && now <= later
    ensures HistoryAgrees(g, symbol, later)
  {
    AfterAfter(HistoryOf(g.risk, symbol), now - HOUR, later - HOUR);
    AfterAfter(Recorded(g.emissions, symbol), now - HOUR, later - HOUR);
  }

  /** The check prunes the history of its symbol and nothing else. */
  lemma {:induction false} CheckKeepsAgreement(g: Gate, c: RiskConfig, symbol: string, fused: FusedSignal, now: real,
                                               other: string)
    requires HistoryAgrees(g, other, now)
    ensures var (risk, result) := Check(g.risk, c, symbol, fused.action, fused.confidence, now);
            && risk.active == g.risk.active
            && HistoryAgrees(g.(risk := risk), other, now)
            && (result.Checked? && result.approved && fused.action != HOLD && other == symbol ==>
                  |After(Recorded(g.emissions, symbol), now - HOUR)| < c.maxPerSymbolPerHour
                  && g.risk.active < c.maxConcurrent)
  {
    AfterAfter(HistoryOf(g.risk, other), now - HOUR, now - HOUR);
  }

  lemma {:induction false} EmissionKeepsAgreement(g: Gate, symbol: string, e: Emission, other: string, now: real)
    requires HistoryAgrees(g, other, now) && e.symbol == symbol && now <= e.recordedAt
    ensures HistoryAgrees(Gate(Emitted(g.risk, symbol, e.recordedAt), g.recent, g.emissions + [e]), other, e.recordedAt)
  {
    var g' := Gate(Emitted(g.risk, symbol, e.recordedAt), g.recent, g.emissions + [e]);
    LaterAgreement(g, other, now, e.recordedAt);
    assert g'.emissions[..|g.emissions|] == g.emissions;
    if other == symbol {
      AfterSnoc(HistoryOf(g.risk, symbol), e.recordedAt, e.recordedAt - HOUR);
      AfterSnoc(Recorded(g.emissions, symbol), e.recordedAt, e.recordedAt - HOUR);
    }
  }

  lemma {:induction false} EmissionKeepsWindow(emissions: seq<Emission>, e: Emission, symbol: string, lo: real,
                                               now: real, limit: int)
    requires forall x :: x in emissions ==> x.at <= x.recordedAt
    requires WindowHolds(emissions, symbol, lo, limit) && now <= e.at
    requires symbol == e.symbol ==> |After(Recorded(emissions, symbol), now - HOUR)| < limit
    ensures WindowHolds(emissions + [e], symbol, lo, limit)
  {
    assert (emissions + [e])[..|emissions|] == emissions;
    if symbol == e.symbol {
      var sent := SentTimes(emissions, symbol);
      assert (sent + [e.at])[..|sent|] == sent;
      if lo < e.at <= lo + HOUR {
        SentWithinRecorded(emissions, symbol, lo, lo + HOUR, now - HOUR);
      }
    }
  }

  /** A run that ends in an emission was approved and not a duplicate; what it leaves behind. */
  lemma SendLeaves(g: Gate, c: RiskConfig, symbol: string, fused: FusedSignal, m: Moments)
    requires Process(g, c, symbol, fused, m).1 == Sent
    ensures var (risk, result) := Check(g.risk, c, symbol, fused.action, fused.confidence, m.check);
            var e := Emission(symbol, fused.action, m.emit, m.record);
            && fused.action != HOLD && result.Checked? && result.approved
            && m.dedup - LastEmit(g.recent, symbol, fused.action) >= DEDUP_WINDOW
            && Process(g, c, symbol, fused, m).0
               == Gate(Emitted(risk, symbol, m.record), g.recent[(symbol, fused.action) := m.stamp], g.emissions + [e])
  {
  }

  lemma SendKeepsSpacing(g: Gate, e: Emission, dedup: real)
    requires Spaced(g.emissions) && RecentCovers(g)
    requires dedup - LastEmit(g.recent, e.symbol, e.action) >= DEDUP_WINDOW && dedup <= e.at
    ensures Spaced(g.emissions + [e])
  {
    assert forall x :: x in g.emissions && x.symbol == e.symbol && x.action == e.action ==> e.at - x.at >= DEDUP_WINDOW;
  }

  lemma SendKeepsRecent(g: Gate, risk: Risk, e: Emission, stamp: real)
    requires RecentCovers(g) && e.at <= stamp
    requires forall x :: x in g.emissions && x.symbol == e.symbol && x.action == e.action ==> x.at <= stamp
    ensures RecentCovers(Gate(risk, g.recent[(e.symbol, e.action) := stamp], g.emissions + [e]))
  {
  }

  lemma {:induction false} SendKeepsHistory(g: Gate, c: RiskConfig, symbol: string, fused: FusedSignal, m: Moments,
                                            other: string)
    requires HistoryAgrees(g, other, m.check) && Ordered(m) && Process(g, c, symbol, fused, m).1 == Sent
    ensures HistoryAgrees(Process(g, c, symbol, fused, m).0, other, m.record)
  {
    var checked := g.(risk := Check(g.risk, c, symbol, fused.action, fused.confidence, m.check).0);
    SendLeaves(g, c, symbol, fused, m);
    CheckKeepsAgreement(g, c, symbol, fused, m.check, other);
    EmissionKeepsAgreement(checked, symbol, Emission(symbol, fused.action, m.emit, m.record), other, m.check);
  }

  lemma {:induction false} SendKeepsWindow(g: Gate, c: RiskConfig, symbol: string, fused: FusedSignal, m: Moments,
                                           other: string, lo: real)
    requires HistoryAgrees(g, symbol, m.check) && forall x :: x in g.emissions ==> x.at <= x.recordedAt
    requires WindowHolds(g.emissions, other, lo, c.maxPerSymbolPerHour)
    requires Ordered(m) && Process(g, c, symbol, fused, m).1 == Sent
    ensures WindowHolds(g.emissions + [Emission(symbol, fused.action, m.emit, m.record)], other, lo,
                        c.maxPerSymbolPerHour)
  {
    SendLeaves(g, c, symbol, fused, m);
    CheckKeepsAgreement(g, c, symbol, fused, m.check, symbol);
    EmissionKeepsWindow(g.emissions, Emission(symbol, fused.action, m.emit, m.record), other, lo, m.check,
                        c.maxPerSymbolPerHour);
  }

  lemma {:induction false} SendKeepsActive(g: Gate, c: RiskConfig, symbol: string, fused: FusedSignal, m: Moments)
    requires Inv(g, c, m.check) && Process(g, c, symbol, fused, m).1 == Sent
    ensures 0 <= Process(g, c, symbol, fused, m).0.risk.active <= c.maxConcurrent
  {
    SendLeaves(g, c, symbol, fused, m);
    assert HistoryAgrees(g, symbol, m.check);
    CheckKeepsAgreement(g, c, symbol, fused, m.check, symbol);
  }

  lemma {:induction false} SendKeepsInv(g: Gate, c: RiskConfig, symbol: string, fused: FusedSignal, m: Moments)
    requires Inv(g, c, m.check) && Ordered(m) && Process(g, c, symbol, fused, m).1 == Sent
    ensures Inv(Process(g, c, symbol, fused, m).0, c, m.record)
  {
    var g', e := Process(g, c, symbol, fused, m).0, Emission(symbol, fused.action, m.emit, m.record);
    SendLeaves(g, c, symbol, fused, m);
    SendKeepsActive(g, c, symbol, fused, m);
    forall other
      ensures HistoryAgrees(g', other, m.record)
    {
      assert HistoryAgrees(g, other, m.check);
      SendKeepsHistory(g, c, symbol, fused, m, other);
    }
    forall other, lo
      ensures WindowHolds(g'.emissions, other, lo, c.maxPerSymbolPerHour)
    {
      assert HistoryAgrees(g, symbol, m.check) && WindowHolds(g.emissions, other, lo, c.maxPerSymbolPerHour);
      SendKeepsWindow(g, c, symbol, fused, m, other, lo);
    }
    SendKeepsSpacing(g, e, m.dedup);
    SendKeepsRecent(g, g'.risk, e, m.stamp);
  }

  lemma {:induction false} RunKeepsInv(g: Gate, c: RiskConfig, symbol: string, fused: FusedSignal, m: Moments)
    requires Inv(g, c, m.check) && Ordered(m)
    ensures Inv(Process(g, c, symbol, fused, m).0, c, m.record)
  {
    if Process(g, c, symbol, fused, m).1 == Sent {
      SendKeepsInv(g, c, symbol, fused, m);
    } else {
      var g' := Process(g, c, symbol, fused, m).0;
      forall other
        ensures HistoryAgrees(g', other, m.record)
      {
        CheckKeepsAgreement(g, c, symbol, fused, m.check, other);
        LaterAgreement(g', other, m.check, m.record);
      }
    }
  }

  lemma {:induction false} WaitKeepsInv(g: Gate, c: RiskConfig, now: real, later: real)
    requires Inv(g, c, now) && now <= later
    ensures Inv(g, c, later)
  {
    forall symbol
      ensures HistoryAgrees(g, symbol, later)
    {
      LaterAgreement(g, symbol, now, later);
    }
  }

  lemma {:induction false} InvHolds(c: RiskConfig, ops: seq<Op>, now: real)
    requires InTimeOrder(ops) && forall op :: op in ops && op.Run? ==> op.m.record <= now
    ensures Inv(GateAfter(c, ops), c, now)
  {
    if ops != [] {
      var n := |ops| - 1;
      var init, op := ops[..n], ops[n];
      var g := GateAfter(c, init);
      assert forall i :: 0 <= i < n ==> init[i] == ops[i];
      assert op in ops;
      if op.Run? {
        forall o | o in init && o.Run?
          ensures o.m.record <= op.m.check
        {
          var i :| 0 <= i < n && init[i] == o;
          assert ops[i].Run? && ops[n].Run?;
        }
        InvHolds(c, init, op.m.check);
        RunKeepsInv(g, c, op.symbol, op.fused, op.m);
        WaitKeepsInv(GateAfter(c, ops), c, op.m.record, now);
      } else {
        InvHolds(c, init, now);
        var g' := GateAfter(c, ops);
        assert g'.emissions == g.emissions && g'.recent == g.recent && g'.risk.history == g.risk.history;
        assert forall symbol :: HistoryAgrees(g, symbol, now) ==> HistoryAgrees(g', symbol, now);
      }
    }
  }

  // ---- Theorems over every run ----

  ghost predicate Past(ops: seq<Op>, now: real) {
    forall op :: op in ops && op.Run? ==> op.m.record <= now
  }

  lemma {:induction false} SomeNow(ops: seq<Op>) returns (now: real)
    ensures Past(ops, now)
  {
    now := 0.0;
    if ops != [] {
      var init, last := ops[..|ops| - 1], ops[|ops| - 1];
      now := SomeNow(init);
      assert forall op :: op in ops ==> op in init || op == last;
      if last.Run? && last.m.record > now {
        now := last.m.record;
      }
    }
  }

  /**
   In every run of the sequential pipeline, interleaved with closes, exposure updates and daily resets: no hour,
   wherever it starts, holds more emissions of a symbol than its limit; two emissions of one symbol and action are at
   least 900 seconds apart; and the active count stays between 0 and its limit.
   */
  lemma {:induction false} EmissionLimits(c: RiskConfig, ops: seq<Op>, symbol: string, lo: real)
    requires InTimeOrder(ops)
    ensures var g := GateAfter(c, ops);
            && Within(SentTimes(g.emissions, symbol), lo, lo + 3600.0)
               <= (if c.maxPerSymbolPerHour > 0 then c.maxPerSymbolPerHour else 0)
            && Spaced(g.emissions)
            && 0 <= g.risk.active <= (if c.maxConcurrent > 0 then c.maxConcurrent else 0)
  {
    var now := SomeNow(ops);
    InvHolds(c, ops, now);
    assert WindowHolds(GateAfter(c, ops).emissions, symbol, lo, c.maxPerSymbolPerHour);
  }

  /** Without closes, the pipeline emits at most `max_concurrent_signals` signals in its whole life. */
  lemma {:induction false} WithoutClosesEmissionEnds(c: RiskConfig, ops: seq<Op>)
    requires forall op :: op in ops ==> !op.Close?
    ensures var g := GateAfter(c, ops);
            g.risk.active == |g.emissions| <= (if c.maxConcurrent > 0 then c.maxConcurrent else 0)
  {
    if ops != [] {
      var init := ops[..|ops| - 1];
      assert forall op :: op in init ==> op in ops;
      WithoutClosesEmissionEnds(c, init);
      assert ops[|ops| - 1] in ops;
    }
  }

  /** The profit of the day so far. */
  function DailyPnl(ops: seq<Op>): real {
    if ops == [] then 0.0
    else
      var op, before := ops[|ops| - 1], DailyPnl(ops[..|ops| - 1]);
      if op.Close? then before + op.pnl else if op.ResetDaily? then 0.0 else before
  }

  /** The worst daily loss seen at any moment, across all resets. */
  function WorstLoss(ops: seq<Op>): real {
    if ops == [] then 0.0 else Max(WorstLoss(ops[..|ops| - 1]), -DailyPnl(ops))
  }

  /** The recorded maximum drawdown is the running maximum of the daily loss. */
  lemma {:induction false} DrawdownIsWorstLoss(c: RiskConfig, ops: seq<Op>)
    ensures GateAfter(c, ops).risk.dailyPnl == DailyPnl(ops)
    ensures GateAfter(c, ops).risk.maxDrawdown == WorstLoss(ops) >= 0.0
    ensures -DailyPnl(ops) <= WorstLoss(ops)
  {
    if ops != [] {
      DrawdownIsWorstLoss(c, ops[..|ops| - 1]);
    }
  }

  lemma OverLimitIsRejected(r: Risk, c: RiskConfig, symbol: string, fused: FusedSignal, now: real)
    requires r.maxDrawdown >= c.maxDrawdown && fused.action != HOLD
    ensures var result := Check(r, c, symbol, fused.action, fused.confidence, now).1;
            result.Checked? && !result.approved && DrawdownLimit in result.reasons
  {
  }

  lemma OverLimitEmitsNothing(g: Gate, c: RiskConfig, op: Op)
    requires g.risk.maxDrawdown >= c.maxDrawdown
    ensures Step(g, c, op).emissions == g.emissions
  {
    if op.Run? && op.fused.action != HOLD {
      OverLimitIsRejected(g.risk, c, op.symbol, op.fused, op.m.check);
    }
  }

  lemma {:induction false} EmissionsStop(c: RiskConfig, ops: seq<Op>, more: seq<Op>)
    requires WorstLoss(ops) >= c.maxDrawdown
    ensures GateAfter(c, ops + more).emissions == GateAfter(c, ops).emissions
    ensures GateAfter(c, ops + more).risk.maxDrawdown == WorstLoss(ops + more) >= c.maxDrawdown
  {
    DrawdownIsWorstLoss(c, ops + more);
    if more == [] {
      assert ops + more == ops;
    } else {
      var n := |more| - 1;
      var before := ops + more[..n];
      assert (ops + more)[..|ops + more| - 1] == before;
      EmissionsStop(c, ops, more[..n]);
      OverLimitEmitsNothing(GateAfter(c, before), c, more[n]);
    }
  }

  /**
   Once the worst loss has reached the drawdown limit no signal other than HOLD is ever approved again, whatever is
   reset, so nothing is emitted.
   */
  lemma DrawdownHaltsForever(c: RiskConfig, ops: seq<Op>, more: seq<Op>, symbol: string, fused: FusedSignal, now: real)
    requires WorstLoss(ops) >= c.maxDrawdown
    ensures var g := GateAfter(c, ops + more);
            var result := Check(g.risk, c, symbol, fused.action, fused.confidence, now).1;
            && (fused.action != HOLD ==> result.Checked? && !result.approved && DrawdownLimit in result.reasons)
            && g.emissions == GateAfter(c, ops).emissions
    ensures WorstLoss(ops + more) >= c.maxDrawdown
  {
    EmissionsStop(c, ops, more);
    if fused.action != HOLD {
      OverLimitIsRejected(GateAfter(c, ops + more).risk, c, symbol, fused, now);
    }
  }
}
