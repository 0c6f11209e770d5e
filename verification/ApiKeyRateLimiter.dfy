/** `RateLimiter` of the API key service: one log per key, a fixed window of 60 seconds. */
module ApiKeyRateLimiter {
  import opened SlidingWindow

  const WINDOW: real := 60.0

  function LogOf(logs: map<string, seq<real>>, key: string): seq<real> {
    if key in logs then logs[key] else []
  }

  /** The pruned logs and the full histories agree on the window that ends at `now`. */
  ghost predicate Agree(windows: map<string, seq<real>>, history: map<string, seq<real>>, now: real) {
    forall key :: After(LogOf(windows, key), now - WINDOW) == After(LogOf(history, key), now - WINDOW)
  }

  lemma {:induction false} LaterAgreement(windows: map<string, seq<real>>, history: map<string, seq<real>>,
                                          clock: real, now: real)
    requires Agree(windows, history, clock) && clock <= now
    ensures Agree(windows, history, now)
  {
    forall key
      ensures After(LogOf(windows, key), now - WINDOW) == After(LogOf(history, key), now - WINDOW)
    {
      AgreementLasts(LogOf(windows, key), LogOf(history, key), clock - WINDOW, now - WINDOW);
    }
  }

  lemma {:induction false} RequestKeepsAgreement(windows: map<string, seq<real>>, history: map<string, seq<real>>,
                                                 clock: real,
                              key: string, r: Request)
    requires Agree(windows, history, clock) && clock <= r.at
    ensures var pruned := PruneAndAppend(LogOf(windows, key), r, WINDOW);
            var full := Admit(LogOf(history, key), r, WINDOW);
            && Agree(windows[key := pruned], history[key := full], r.at)
            && pruned == After(full, r.at - WINDOW)
            && (|After(LogOf(windows, key), r.at - WINDOW)| < r.limit <==> Admits(LogOf(history, key), r, WINDOW))
  {
    LaterAgreement(windows, history, clock, r.at);
    PruneStep(LogOf(windows, key), LogOf(history, key), r, WINDOW);
    AfterAfter(Admit(LogOf(history, key), r, WINDOW), r.at - WINDOW, r.at - WINDOW);
    var windows' := windows[key := PruneAndAppend(LogOf(windows, key), r, WINDOW)];
    var history' := history[key := Admit(LogOf(history, key), r, WINDOW)];
    forall other
      ensures After(LogOf(windows', other), r.at - WINDOW) == After(LogOf(history', other), r.at - WINDOW)
    {
      if other != key {
        assert LogOf(windows', other) == LogOf(windows, other) && LogOf(history', other) == LogOf(history, other);
      }
    }
  }

  class RateLimiter {
    var windows: map<string, seq<real>>
    ghost var history: map<string, seq<real>>  // every admission, never pruned
    ghost var clock: real                      // time of the latest call

    ghost predicate Valid()
      reads this
    {
      Agree(windows, history, clock)
    }

    constructor ()
      ensures Valid() && history == map[]
    {
      windows, history, clock := map[], map[], 0.0;
    }

    /** The log of the key becomes exactly its history in the window; a rejected request leaves no trace in it. */
    method IsAllowed(key: string, limit: int, now: real) returns (allowed: bool)
      requires Valid() && clock <= now
      modifies this
      ensures Valid() && clock == now
      ensures allowed <==> Admits(old(LogOf(history, key)), Request(now, limit), 60.0)
      ensures history == old(history)[key := Admit(old(LogOf(history, key)), Request(now, limit), 60.0)]
      ensures windows == old(windows)[key := After(LogOf(history, key), now - WINDOW)]
    {
      ghost var full := Admit(LogOf(history, key), Request(now, limit), WINDOW);
      RequestKeepsAgreement(windows, history, clock, key, Request(now, limit));
      var timestamps := After(LogOf(windows, key), now - WINDOW);
      allowed := |timestamps| < limit;
      if allowed {
        timestamps := timestamps + [now];
      }
      assert timestamps == PruneAndAppend(LogOf(windows, key), Request(now, limit), WINDOW);
      assert LogOf(history[key := full], key) == full;
      windows, history, clock := windows[key := timestamps], history[key := full], now;
    }
  }
}
