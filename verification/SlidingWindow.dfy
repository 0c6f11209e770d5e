/** Sliding-window rate limiting: a log of admission times that forgets what has left the window. */
module SlidingWindow {

  /** The times after `cutoff`, in order: the list comprehension that prunes a log. */
  function After(log: seq<real>, cutoff: real): seq<real> {
    if log == [] then []
    else
      var rest := After(log[..|log| - 1], cutoff);
      if log[|log| - 1] > cutoff then rest + [log[|log| - 1]] else rest
  }

  lemma {:induction false} AfterSnoc(log: seq<real>, t: real, cutoff: real)
    ensures After(log + [t], cutoff) == After(log, cutoff) + (if t > cutoff then [t] else [])
  {
    assert (log + [t])[..|log|] == log;
  }

  /** Pruning early loses nothing a later, tighter pruning would keep. */
  lemma {:induction false} AfterAfter(log: seq<real>, early: real, late: real)
    requires early <= late
    ensures After(After(log, early), late) == After(log, late)
  {
    if log != [] {
      var init, t := log[..|log| - 1], log[|log| - 1];
      AfterAfter(init, early, late);
      AfterSnoc(After(init, early), t, late);
    }
  }

  datatype Request = Request(at: real, limit: int)

  /** Admission decided on the full history: fewer than `limit` admissions within the last `window`. */
  predicate Admits(history: seq<real>, r: Request, window: real) {
    |After(history, r.at - window)| < r.limit
  }

  function Admit(history: seq<real>, r: Request, window: real): seq<real> {
    if Admits(history, r, window) then history + [r.at] else history
  }

  /** Every admission of a run of requests for one key, decided on the full history. */
  function Admissions(requests: seq<Request>, window: real): seq<real> {
    if requests == [] then []
    else Admit(Admissions(requests[..|requests| - 1], window), requests[|requests| - 1], window)
  }

  /** One request against a log: prune it, and append if there is room. */
  function PruneAndAppend(log: seq<real>, r: Request, window: real): seq<real> {
    var kept := After(log, r.at - window);
    if |kept| < r.limit then kept + [r.at] else kept
  }

  /** What the limiters keep: the log pruned at every request. */
  function PrunedLog(requests: seq<Request>, window: real): seq<real> {
    if requests == [] then []
    else PruneAndAppend(PrunedLog(requests[..|requests| - 1], window), requests[|requests| - 1], window)
  }

  /** Agreement beyond one cutoff gives agreement beyond a later one. */
  lemma {:induction false} AgreementLasts(log: seq<real>, history: seq<real>, early: real, late: real)
    requires After(log, early) == After(history, early) && early <= late
    ensures After(log, late) == After(history, late)
  {
    AfterAfter(log, early, late);
    AfterAfter(history, early, late);
  }

  /** A log that agrees with the history on the window decides like it, and becomes its window. */
  lemma {:induction false} PruneStep(log: seq<real>, history: seq<real>, r: Request, window: real)
    requires After(log, r.at - window) == After(history, r.at - window) && window > 0.0
    ensures PruneAndAppend(log, r, window) == After(Admit(history, r, window), r.at - window)
  {
    AfterSnoc(history, r.at, r.at - window);
  }

  predicate InTimeOrder(requests: seq<Request>) {
    forall i, j :: 0 <= i < j < |requests| ==> requests[i].at <= requests[j].at
  }

  lemma {:induction false} StepAgrees(log: seq<real>, history: seq<real>, last: Request, at: real, window: real)
    requires After(log, last.at - window) == After(history, last.at - window) && window > 0.0 && last.at <= at
    ensures After(PruneAndAppend(log, last, window), at - window) == After(Admit(history, last, window), at - window)
  {
    PruneStep(log, history, last, window);
    AfterAfter(Admit(history, last, window), last.at - window, at - window);
  }

  lemma InitInTimeOrder(requests: seq<Request>)
    requires requests != [] && InTimeOrder(requests)
    ensures var init, last := requests[..|requests| - 1], requests[|requests| - 1];
            InTimeOrder(init) && (init != [] ==> init[|init| - 1].at <= last.at)
  {
  }

  /** Before a request the pruned log and the full history agree on its window. */
  lemma {:induction false} LogAgreesBeforeRequest(requests: seq<Request>, at: real, window: real)
    requires InTimeOrder(requests) && window > 0.0 && (requests != [] ==> requests[|requests| - 1].at <= at)
    ensures After(PrunedLog(requests, window), at - window) == After(Admissions(requests, window), at - window)
  {
    if requests != [] {
      var init, last := requests[..|requests| - 1], requests[|requests| - 1];
      InitInTimeOrder(requests);
      LogAgreesBeforeRequest(init, last.at, window);
      StepAgrees(PrunedLog(init, window), Admissions(init, window), last, at, window);
    }
  }

  /**
   In every run the pruned log is the full admission history restricted to the window of the last request, and
   deciding on the pruned log is deciding on the full history.
   */
  lemma {:induction false} PruningIsInvisible(requests: seq<Request>, window: real)
    requires requests != [] && InTimeOrder(requests) && window > 0.0
    ensures PrunedLog(requests, window) == After(Admissions(requests, window), requests[|requests| - 1].at - window)
    ensures var init, r := requests[..|requests| - 1], requests[|requests| - 1];
            After(PrunedLog(init, window), r.at - window) == After(Admissions(init, window), r.at - window)
  {
    var init, r := requests[..|requests| - 1], requests[|requests| - 1];
    InitInTimeOrder(requests);
    LogAgreesBeforeRequest(init, r.at, window);
    PruneStep(PrunedLog(init, window), Admissions(init, window), r, window);
  }

  /** How many of the times lie in the half-open interval (lo, hi]. */
  function Within(log: seq<real>, lo: real, hi: real): nat {
    if log == [] then 0
    else Within(log[..|log| - 1], lo, hi) + if lo < log[|log| - 1] <= hi then 1 else 0
  }

  lemma {:induction false} WithinAtMostAfter(log: seq<real>, lo: real, hi: real, cutoff: real)
    requires cutoff <= lo
    ensures Within(log, lo, hi) <= |After(log, cutoff)|
  {
    if log != [] {
      WithinAtMostAfter(log[..|log| - 1], lo, hi, cutoff);
    }
  }

  lemma {:induction false} AdmissionsAreRequests(requests: seq<Request>, window: real, t: real)
    requires t in Admissions(requests, window)
    ensures exists i :: 0 <= i < |requests| && requests[i].at == t
  {
    var n := |requests| - 1;
    if t != requests[n].at {
      AdmissionsAreRequests(requests[..n], window, t);
      var i :| 0 <= i < |requests[..n]| && requests[..n][i].at == t;
      assert requests[i].at == t;
    }
  }

  /** No window of that length, wherever it starts, ever holds more admissions than the limit. */
  lemma {:induction false} NoWindowOverLimit(requests: seq<Request>, window: real, limit: nat, lo: real)
    requires InTimeOrder(requests)
    requires forall r :: r in requests ==> r.limit <= limit
    ensures Within(Admissions(requests, window), lo, lo + window) <= limit
  {
    if requests != [] {
      var n := |requests| - 1;
      var init, r := requests[..n], requests[n];
      var history := Admissions(init, window);
      NoWindowOverLimit(init, window, limit, lo);
      if Admits(history, r, window) {
        assert (history + [r.at])[..|history|] == history;
        if lo < r.at <= lo + window {
          WithinAtMostAfter(history, lo, lo + window, r.at - window);
        }
      }
    }
  }
}
