/** `RateLimiter` of the agent gateway: one log per endpoint and address, the limit and window given at each call. */
module GatewayRateLimiter {
  import opened SlidingWindow

  datatype Verdict = Verdict(allowed: bool, limit: int, remaining: int, reset: int)

  /** Python's `int`: truncation toward zero. */
  function Truncate(x: real): (n: int)
    ensures x >= 0.0 ==> n as real <= x < n as real + 1.0
    ensures x <= 0.0 ==> n as real - 1.0 < x <= n as real
  {
    if x >= 0.0 then x.Floor else -(-x).Floor
  }

  // ---- The calls made on one bucket ----

  datatype Call = Call(at: real, limit: int, window: real)

  function Cutoff(call: Call): real {
    call.at - call.window
  }

  /** The log the limiter keeps, pruned at every call. */
  function LogAfter(calls: seq<Call>): seq<real> {
    if calls == [] then []
    else
      var last := calls[|calls| - 1];
      PruneAndAppend(LogAfter(calls[..|calls| - 1]), Request(last.at, last.limit), last.window)
  }

  /** What the pruned log decides about a further call. */
  predicate Allows(calls: seq<Call>, call: Call) {
    |After(LogAfter(calls), Cutoff(call))| < call.limit
  }

  /** The times of all admitted calls, never pruned. */
  function Admitted(calls: seq<Call>): seq<real> {
    if calls == [] then []
    else
      var init, last := calls[..|calls| - 1], calls[|calls| - 1];
      Admitted(init) + if Allows(init, last) then [last.at] else []
  }

  /** No earlier call pruned the log beyond this cutoff. */
  predicate NothingForgotten(calls: seq<Call>, cutoff: real) {
    forall i :: 0 <= i < |calls| ==> Cutoff(calls[i]) <= cutoff
  }

  predicate CallsInOrder(calls: seq<Call>) {
    forall i, j :: 0 <= i < j < |calls| ==> calls[i].at <= calls[j].at
  }

  lemma {:induction false} KeptIsHistory(log: seq<real>, history: seq<real>, call: Call, cutoff: real)
    requires After(log, cutoff) == After(history, cutoff) && Cutoff(call) <= cutoff
    ensures var allowed := |After(log, Cutoff(call))| < call.limit;
            After(PruneAndAppend(log, Request(call.at, call.limit), call.window), cutoff)
            == After(history + (if allowed then [call.at] else []), cutoff)
  {
    AfterAfter(log, Cutoff(call), cutoff);
    AfterSnoc(After(log, Cutoff(call)), call.at, cutoff);
    AfterSnoc(history, call.at, cutoff);
    assert history + [] == history;
  }

  /** The pruned log is the full admission history beyond every cutoff it was pruned at. */
  lemma {:induction false} LogIsHistory(calls: seq<Call>, cutoff: real)
    requires NothingForgotten(calls, cutoff)
    ensures After(LogAfter(calls), cutoff) == After(Admitted(calls), cutoff)
  {
    if calls != [] {
      var init, last := calls[..|calls| - 1], calls[|calls| - 1];
      assert forall i :: 0 <= i < |init| ==> init[i] == calls[i];
      LogIsHistory(init, cutoff);
      KeptIsHistory(LogAfter(init), Admitted(init), last, cutoff);
    }
  }

  /** So the decision is the one the full history would give, and so is the number that remains. */
  lemma {:induction false} DecisionIsExact(calls: seq<Call>, call: Call)
    requires NothingForgotten(calls, Cutoff(call))
    ensures Allows(calls, call) <==> Admits(Admitted(calls), Request(call.at, call.limit), call.window)
    ensures |After(LogAfter(calls), Cutoff(call))| == |After(Admitted(calls), Cutoff(call))|
  {
    LogIsHistory(calls, Cutoff(call));
  }

  /** A bucket that is always asked with one window forgets nothing it needs. Every caller uses the default window. */
  lemma ConstantWindowForgetsNothing(calls: seq<Call>, call: Call)
    requires CallsInOrder(calls + [call]) && forall c :: c in calls ==> c.window == call.window
    ensures NothingForgotten(calls, Cutoff(call))
  {
    forall i | 0 <= i < |calls|
      ensures Cutoff(calls[i]) <= Cutoff(call)
    {
      assert (calls + [call])[i] == calls[i] && (calls + [call])[|calls|] == call;
    }
  }

  // ---- When a call widens the window ----

  function Horizon(calls: seq<Call>): real
    requires calls != []
  {
    var last := Cutoff(calls[|calls| - 1]);
    if |calls| == 1 then last
    else
      var before := Horizon(calls[..|calls| - 1]);
      if before > last then before else last
  }

  lemma {:induction false} AfterLater(log: seq<real>, early: real, late: real)
    ensures After(After(log, late), early) == After(log, if late > early then late else early)
  {
    if late <= early {
      AfterAfter(log, late, early);
    } else if log != [] {
      var init, t := log[..|log| - 1], log[|log| - 1];
      AfterLater(init, early, late);
      AfterSnoc(After(init, late), t, early);
    }
  }

  ghost predicate PositiveWindows(calls: seq<Call>) {
    forall c :: c in calls ==> c.window > 0.0
  }

  lemma {:induction false} KeptBeyondHorizon(log: seq<real>, history: seq<real>, horizon: real, call: Call)
    requires log == After(history, horizon) && horizon < call.at && call.window > 0.0
    ensures var allowed := |After(log, Cutoff(call))| < call.limit;
            PruneAndAppend(log, Request(call.at, call.limit), call.window)
            == After(history + (if allowed then [call.at] else []),
                     if horizon > Cutoff(call) then horizon else Cutoff(call))
  {
    AfterLater(history, Cutoff(call), horizon);
    AfterSnoc(history, call.at, if horizon > Cutoff(call) then horizon else Cutoff(call));
    assert history + [] == history;
  }

  lemma {:induction false} LogIsHistoryBeyondHorizon(calls: seq<Call>)
    requires calls != [] && CallsInOrder(calls) && PositiveWindows(calls)
    ensures LogAfter(calls) == After(Admitted(calls), Horizon(calls))
    ensures Horizon(calls) < calls[|calls| - 1].at
  {
    var n := |calls| - 1;
    var init, last := calls[..n], calls[n];
    assert last in calls && forall c :: c in init ==> c in calls;
    if n == 0 {
      assert init == [];
      KeptBeyondHorizon([], [], Cutoff(last), last);
    } else {
      assert CallsInOrder(init) && init[n - 1] == calls[n - 1];
      LogIsHistoryBeyondHorizon(init);
      KeptBeyondHorizon(LogAfter(init), Admitted(init), Horizon(init), last);
    }
  }

  lemma {:induction false} AfterSplits(log: seq<real>, early: real, late: real)
    requires early <= late
    ensures |After(log, early)| == |After(log, late)| + Within(log, early, late)
  {
    if log != [] {
      AfterSplits(log[..|log| - 1], early, late);
    }
  }

  /**
   With positive windows the count a call sees is that of the full history if and only if no admission lies between the
   call's cutoff and the latest cutoff the bucket was pruned at.
   */
  lemma {:induction false} CountIsExactIff(calls: seq<Call>, call: Call)
    requires calls != [] && CallsInOrder(calls) && PositiveWindows(calls)
    ensures |After(LogAfter(calls), Cutoff(call))| == |After(Admitted(calls), Cutoff(call))| <==>
              Horizon(calls) <= Cutoff(call) || Within(Admitted(calls), Cutoff(call), Horizon(calls)) == 0
  {
    LogIsHistoryBeyondHorizon(calls);
    AfterLater(Admitted(calls), Cutoff(call), Horizon(calls));
    if Cutoff(call) < Horizon(calls) {
      AfterSplits(Admitted(calls), Cutoff(call), Horizon(calls));
    }
  }

  lemma {:induction false} OneMoreCall(calls: seq<Call>, call: Call)
    ensures LogAfter(calls + [call]) == PruneAndAppend(LogAfter(calls), Request(call.at, call.limit), call.window)
    ensures Admitted(calls + [call]) == Admitted(calls) + if Allows(calls, call) then [call.at] else []
  {
    assert (calls + [call])[..|calls|] == calls;
  }

  /**
   What a verdict says about the calls on its bucket. Admission and `remaining` are those of the full admission history,
   unless an earlier call pruned the log beyond this call's window; a rejected call adds nothing to the history.
   */
  ghost predicate Reports(v: Verdict, before: seq<Call>, call: Call) {
    var history, after := Admitted(before), Admitted(before + [call]);
    && after == history + (if v.allowed then [call.at] else [])
    && v.remaining >= 0 && (!v.allowed ==> v.remaining == 0)
    && (NothingForgotten(before, Cutoff(call)) ==>
          && (v.allowed <==> Admits(history, Request(call.at, call.limit), call.window))
          && (v.allowed ==> v.remaining == call.limit - |After(history, Cutoff(call))| - 1)
          && (v.allowed && call.window > 0.0 ==> v.remaining == call.limit - |After(after, Cutoff(call))|))
  }

  lemma {:induction false} VerdictReports(v: Verdict, before: seq<Call>, call: Call)
    requires v.allowed <==> Allows(before, call)
    requires v.remaining == if v.allowed then call.limit - |After(LogAfter(before), Cutoff(call))| - 1 else 0
    ensures Reports(v, before, call)
    ensures LogAfter(before + [call]) == PruneAndAppend(LogAfter(before), Request(call.at, call.limit), call.window)
  {
    OneMoreCall(before, call);
    AfterSnoc(Admitted(before), call.at, Cutoff(call));
    if NothingForgotten(before, Cutoff(call)) {
      DecisionIsExact(before, call);
    }
  }

  // ---- A constant window is a sliding window ----

  function Requests(calls: seq<Call>): (requests: seq<Request>)
    ensures |requests| == |calls|
    ensures forall i :: 0 <= i < |calls| ==> requests[i] == Request(calls[i].at, calls[i].limit)
  {
    seq(|calls|, i requires 0 <= i < |calls| => Request(calls[i].at, calls[i].limit))
  }

  lemma {:induction false} HistoryIsAdmissions(calls: seq<Call>, window: real)
    requires CallsInOrder(calls) && forall c :: c in calls ==> c.window == window
    ensures Admitted(calls) == Admissions(Requests(calls), window)
  {
    if calls != [] {
      var init, last := calls[..|calls| - 1], calls[|calls| - 1];
      assert calls == init + [last];
      assert Requests(calls)[..|init|] == Requests(init);
      HistoryIsAdmissions(init, window);
      ConstantWindowForgetsNothing(init, last);
      DecisionIsExact(init, last);
      assert Admitted(init) + [] == Admitted(init);
    }
  }

  /** No window of that length, wherever it starts, holds more admissions of one bucket than its limit. */
  lemma {:induction false} NoBucketOverLimit(calls: seq<Call>, window: real, limit: nat, lo: real)
    requires CallsInOrder(calls) && window > 0.0
    requires forall c :: c in calls ==> c.window == window && c.limit <= limit
    ensures Within(Admitted(calls), lo, lo + window) <= limit
  {
    var requests := Requests(calls);
    HistoryIsAdmissions(calls, window);
    forall r | r in requests
      ensures r.limit <= limit
    {
      var i :| 0 <= i < |requests| && requests[i] == r;
      assert calls[i] in calls;
    }
    NoWindowOverLimit(requests, window, limit, lo);
  }

  // ---- The class ----

  class RateLimiter {
    var windows: map<string, map<string, seq<real>>>
    ghost var calls: map<(string, string), seq<Call>>    // every call ever made, by endpoint and address

    function Log(endpoint: string, ip: string): seq<real>
      reads this`windows
    {
      if endpoint in windows && ip in windows[endpoint] then windows[endpoint][ip] else []
    }

    ghost function Calls(endpoint: string, ip: string): seq<Call>
      reads this`calls
    {
      if (endpoint, ip) in calls then calls[(endpoint, ip)] else []
    }

    ghost predicate Valid()
      reads this
    {
      forall endpoint, ip :: Log(endpoint, ip) == LogAfter(Calls(endpoint, ip))
    }

    constructor ()
      ensures Valid() && forall endpoint, ip :: Calls(endpoint, ip) == []
    {
      windows, calls := map[], map[];
    }

    method Put(endpoint: string, ip: string, log: seq<real>)
      modifies this`windows
      ensures Log(endpoint, ip) == log
      ensures forall e, i :: (e, i) != (endpoint, ip) ==> Log(e, i) == old(Log(e, i))
    {
      if endpoint !in windows {
        windows := windows[endpoint := map[]];
      }
      windows := windows[endpoint := windows[endpoint][ip := log]];
    }

    /** The program text of `check`, on the log alone. */
    method PruneAndCount(endpoint: string, ip: string, limit: int, window: int, now: real) returns (v: Verdict)
      modifies this`windows
      ensures Log(endpoint, ip) == PruneAndAppend(old(Log(endpoint, ip)), Request(now, limit), window as real)
      ensures forall e, i :: (e, i) != (endpoint, ip) ==> Log(e, i) == old(Log(e, i))
      ensures var count := |After(old(Log(endpoint, ip)), now - window as real)|;
              && (v.allowed <==> count < limit) && v.remaining == if v.allowed then limit - count - 1 else 0
      ensures v.limit == limit && v.reset == Truncate(now + window as real)
    {
      var kept := After(Log(endpoint, ip), now - window as real);
      Put(endpoint, ip, kept);
      var remaining := if limit - |kept| > 0 then limit - |kept| else 0;
      var reset := Truncate(now + window as real);
      if |kept| >= limit {
        return Verdict(false, limit, 0, reset);
      }
      Put(endpoint, ip, kept + [now]);
      return Verdict(true, limit, remaining - 1, reset);
    }

    /** A rejected call adds nothing to the history, and no other bucket changes. */
    method Check(endpoint: string, ip: string, limit: int, window: int, now: real) returns (v: Verdict)
      requires Valid()
      modifies this
      ensures Valid()
      ensures calls == old(calls)[(endpoint, ip) := old(Calls(endpoint, ip)) + [Call(now, limit, window as real)]]
      ensures Reports(v, old(Calls(endpoint, ip)), Call(now, limit, window as real))
      ensures v.limit == limit && v.reset == Truncate(now + window as real)
    {
      ghost var before, call := Calls(endpoint, ip), Call(now, limit, window as real);
      assert Log(endpoint, ip) == LogAfter(before);
      v := PruneAndCount(endpoint, ip, limit, window, now);
      VerdictReports(v, before, call);
      NoteCall(endpoint, ip, call);
    }

    ghost method NoteCall(endpoint: string, ip: string, call: Call)
      requires Log(endpoint, ip) == LogAfter(Calls(endpoint, ip) + [call])
      requires forall e, i :: (e, i) != (endpoint, ip) ==> Log(e, i) == LogAfter(Calls(e, i))
      modifies this`calls
      ensures Valid() && calls == old(calls)[(endpoint, ip) := old(Calls(endpoint, ip)) + [call]]
    {
      calls := calls[(endpoint, ip) := Calls(endpoint, ip) + [call]];
      assert forall e, i :: (e, i) != (endpoint, ip) ==> Calls(e, i) == old(Calls(e, i));
    }
  }

  /**
   A call with a wide window after one with a narrow window: the log has forgotten an admission, and lets one too many
   in.
   */
  lemma {:induction false} WideningTheWindowForgets()
    ensures var calls, wide := [Call(0.0, 1, 60.0), Call(30.0, 1, 10.0)], Call(31.0, 2, 60.0);
            Allows(calls, wide) && !Admits(Admitted(calls), Request(31.0, 2), 60.0)
  {
    var first, second := Call(0.0, 1, 60.0), Call(30.0, 1, 10.0);
    OneMoreCall([], first);
    assert [] + [first] == [first] && [] + [0.0] == [0.0];
    AfterSnoc([], 0.0, 20.0);
    OneMoreCall([first], second);
    assert [first] + [second] == [first, second] && [0.0] + [30.0] == [0.0, 30.0] && [] + [30.0] == [30.0];
    AfterSnoc([], 30.0, -29.0);
    AfterSnoc([], 0.0, -29.0);
    AfterSnoc([0.0], 30.0, -29.0);
    assert After([0.0, 30.0], -29.0) == [0.0, 30.0];
  }
}
