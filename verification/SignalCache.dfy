/** The two-tier cache: a Redis entry with a server-side expiry, and a local entry as fallback. */
module SignalCache {
  import opened Wrappers
  import opened RedisStore

  datatype CacheConfig = CacheConfig(
    strategyListTtl: real,
    strategySignalTtl: real,
    marketPriceTtl: real,
    volatilityTtl: real,
    degradedStrategyTtl: real,
    degradedPriceTtl: real,
    prefix: string,
    localFallback: bool)

  function GetTtl(c: CacheConfig, dataType: string, degraded: bool): real {
    match dataType
    case "strategies" => if degraded then c.degradedStrategyTtl else c.strategyListTtl
    case "strategy_signal" => c.strategySignalTtl
    case "market_price" => if degraded then c.degradedPriceTtl else c.marketPriceTtl
    case "volatility" => c.volatilityTtl
    case "market_summary" => if degraded then c.degradedPriceTtl else c.marketPriceTtl
    case "recent_signals" => c.strategySignalTtl
    case _ => 60.0
  }

  function FullKey(c: CacheConfig, dataType: string, key: string): string {
    c.prefix + dataType + ":" + key
  }

  lemma {:induction false} FirstColonSplits(t1: string, k1: string, t2: string, k2: string)
    requires ':' !in t1 && ':' !in t2 && t1 + ":" + k1 == t2 + ":" + k2
    ensures t1 == t2 && k1 == k2
  {
    var a, b := t1 + ":" + k1, t2 + ":" + k2;
    assert a[0] == b[0];
    if t1 != [] && t2 != [] {
      assert a[1..] == t1[1..] + ":" + k1 && b[1..] == t2[1..] + ":" + k2;
      FirstColonSplits(t1[1..], k1, t2[1..], k2);
      assert t1 == [a[0]] + t1[1..] && t2 == [b[0]] + t2[1..];
    } else {
      assert a[|t1| + 1..] == k1 && b[|t2| + 1..] == k2;
    }
  }

  /** Full keys never collide when the data types contain no ':'. */
  lemma {:induction false} FullKeyIsInjective(c: CacheConfig, t1: string, k1: string, t2: string, k2: string)
    requires ':' !in t1 && ':' !in t2
    ensures FullKey(c, t1, k1) == FullKey(c, t2, k2) <==> t1 == t2 && k1 == k2
  {
    var a, b := t1 + ":" + k1, t2 + ":" + k2;
    assert FullKey(c, t1, k1) == c.prefix + a && FullKey(c, t2, k2) == c.prefix + b;
    assert (c.prefix + a)[|c.prefix|..] == a && (c.prefix + b)[|c.prefix|..] == b;
    if a == b {
      FirstColonSplits(t1, k1, t2, k2);
    }
  }

  /** With a ':' in the data type two different entries do collide. */
  lemma ColonInDataTypeCollides(c: CacheConfig)
    ensures FullKey(c, "a", "b:c") == FullKey(c, "a:b", "c")
  {
    assert c.prefix + "a" + ":" + "b:c" == c.prefix + "a:b:c" == c.prefix + "a:b" + ":" + "c";
  }

  /**
   In general two data types have entries that collide exactly when one of them, with the ':' that follows it, begins
   the other.
   */
  lemma {:induction false} TypesCollideIff(c: CacheConfig, t1: string, t2: string)
    ensures (exists k1, k2 :: FullKey(c, t1, k1) == FullKey(c, t2, k2)) <==>
              t1 + ":" <= t2 + ":" || t2 + ":" <= t1 + ":"
  {
    if k1, k2 :| FullKey(c, t1, k1) == FullKey(c, t2, k2) {
      var a, b := t1 + ":", t2 + ":";
      assert FullKey(c, t1, k1) == c.prefix + (a + k1) && FullKey(c, t2, k2) == c.prefix + (b + k2);
      assert (c.prefix + (a + k1))[|c.prefix|..] == a + k1 && (c.prefix + (b + k2))[|c.prefix|..] == b + k2;
      PrefixesNest(a, k1, b, k2);
    }
    if t1 + ":" <= t2 + ":" {
      PrefixCollides(c, t1, t2);
    }
    if t2 + ":" <= t1 + ":" {
      PrefixCollides(c, t2, t1);
    }
  }

  lemma PrefixesNest(a: string, x: string, b: string, y: string)
    requires a + x == b + y
    ensures a <= b || b <= a
  {
    if |a| <= |b| {
      assert a == (a + x)[..|a|] == (b + y)[..|a|] == b[..|a|];
    } else {
      assert b == (b + y)[..|b|] == (a + x)[..|b|] == a[..|b|];
    }
  }

  lemma PrefixCollides(c: CacheConfig, t1: string, t2: string)
    requires t1 + ":" <= t2 + ":"
    ensures exists k1, k2 :: FullKey(c, t1, k1) == FullKey(c, t2, k2)
  {
    var rest := (t2 + ":")[|t1 + ":"|..];
    assert t2 + ":" == t1 + ":" + rest;
    assert FullKey(c, t2, "") == c.prefix + (t2 + ":") && FullKey(c, t1, rest) == c.prefix + (t1 + ":" + rest);
    assert FullKey(c, t1, rest) == FullKey(c, t2, "");
  }

  datatype Remote<V> = Remote(value: V, cachedAt: real, expiresAt: real)
  datatype Local<V> = Local(value: V, expiresAt: real)
  datatype Tiers<V> = Tiers(remote: map<string, Remote<V>>, local: map<string, Local<V>>)

  /** GET on the Redis tier. */
  function RemoteGet<V>(t: Tiers<V>, k: string, now: real): Option<Remote<V>> {
    if k in t.remote && now < t.remote[k].expiresAt then Some(t.remote[k]) else None
  }

  /**
   SETEX with the expiry cut to whole seconds. Redis refuses an expiry below one second. `cachedAt` is the stamp in the
   payload, `storedAt` the moment the server stores it.
   */
  function RemotePut<V>(t: Tiers<V>, k: string, v: V, ttl: real, cachedAt: real, storedAt: real, link: Link): Tiers<V> {
    if link == NotSent || ttl < 1.0 then t
    else t.(remote := t.remote[k := Remote(v, cachedAt, storedAt + ttl.Floor as real)])
  }

  datatype Times = Times(cachedAt: real, storedAt: real, localAt: real)

  /** `put` */
  function PutOutcome<V>(t: Tiers<V>, c: CacheConfig, hasRedis: bool, dataType: string, key: string, v: V, at: Times,
                         link: Link)
    : Tiers<V>
  {
    var k, ttl := FullKey(c, dataType, key), GetTtl(c, dataType, false);
    var t1 := if hasRedis then RemotePut(t, k, v, ttl, at.cachedAt, at.storedAt, link) else t;
    if c.localFallback then t1.(local := t1.local[k := Local(v, at.localAt + ttl)]) else t1
  }

  /** The Redis part of `get`: a hit younger than the TTL asked for. */
  function RemoteHit<V>(t: Tiers<V>, c: CacheConfig, hasRedis: bool, dataType: string, key: string, degraded: bool,
                        now: real, link: Link): Option<V>
  {
    var entry := RemoteGet(t, FullKey(c, dataType, key), now);
    if hasRedis && link == Delivered && entry.Some? && now - entry.value.cachedAt < GetTtl(c, dataType, degraded)
    then Some(entry.value.value) else None
  }

  /** `get`: the tiers left behind, since an expired local entry is deleted, and the answer. */
  function GetOutcome<V>(t: Tiers<V>, c: CacheConfig, hasRedis: bool, dataType: string, key: string, degraded: bool,
                         now: real, link: Link): (Tiers<V>, Option<V>)
  {
    var k := FullKey(c, dataType, key);
    var hit := RemoteHit(t, c, hasRedis, dataType, key, degraded, now, link);
    if hit.Some? then (t, hit)
    else if !c.localFallback || k !in t.local then (t, None)
    else if now < t.local[k].expiresAt then (t, Some(t.local[k].value))
    else (t.(local := t.local - {k}), None)
  }

  /** `invalidate` */
  function InvalidateOutcome<V>(t: Tiers<V>, c: CacheConfig, hasRedis: bool, dataType: string, key: string,
                                link: Link): Tiers<V> {
    var k := FullKey(c, dataType, key);
    var remote := if hasRedis && link != NotSent then t.remote - {k} else t.remote;
    Tiers(remote, t.local - {k})
  }

  class SignalCache<V> {
    const config: CacheConfig
    const hasRedis: bool
    var tiers: Tiers<V>
    var hits: nat
    var misses: nat
    var sets: nat
    var errors: nat

    constructor (config: CacheConfig, hasRedis: bool)
      ensures this.config == config && this.hasRedis == hasRedis && tiers == Tiers(map[], map[])
    {
      this.config, this.hasRedis := config, hasRedis;
      tiers := Tiers(map[], map[]);
      hits, misses, sets, errors := 0, 0, 0, 0;
    }

    /** Every call is counted once, as a hit or as a miss. */
    method Get(dataType: string, key: string, degraded: bool, now: real, link: Link) returns (r: Option<V>)
      modifies this
      ensures (tiers, r) == GetOutcome(old(tiers), config, hasRedis, dataType, key, degraded, now, link)
      ensures hits + misses == old(hits + misses) + 1 && (r.Some? <==> hits == old(hits) + 1)
      ensures errors == old(errors) + if hasRedis && link != Delivered then 1 else 0
      ensures sets == old(sets)
    {
      var k := FullKey(config, dataType, key);
      var ttl := GetTtl(config, dataType, degraded);
      if hasRedis {
        if link == Delivered {
          var raw := RemoteGet(tiers, k, now);
          if raw.Some? && now - raw.value.cachedAt < ttl {
            hits := hits + 1;
            return Some(raw.value.value);
          }
        } else {
          errors := errors + 1;
        }
      }
      if config.localFallback && k in tiers.local {
        var entry := tiers.local[k];
        if now < entry.expiresAt {
          hits := hits + 1;
          return Some(entry.value);
        }
        tiers := tiers.(local := tiers.local - {k});
      }
      misses := misses + 1;
      return None;
    }

    method Put(dataType: string, key: string, value: V, at: Times, link: Link)
      modifies this
      ensures tiers == PutOutcome(old(tiers), config, hasRedis, dataType, key, value, at, link)
      ensures hits == old(hits) && misses == old(misses)
      ensures sets + errors == old(sets + errors) + (if hasRedis then 1 else 0)
                               + (if config.localFallback then 1 else 0)
    {
      var k := FullKey(config, dataType, key);
      var ttl := GetTtl(config, dataType, false);
      if hasRedis {
        tiers := RemotePut(tiers, k, value, ttl, at.cachedAt, at.storedAt, link);
        if link == Delivered && ttl >= 1.0 {
          sets := sets + 1;
        } else {
          errors := errors + 1;
        }
      }
      if config.localFallback {
        tiers := tiers.(local := tiers.local[k := Local(value, at.localAt + ttl)]);
        sets := sets + 1;
      }
    }

    method Invalidate(dataType: string, key: string, link: Link)
      modifies this
      ensures tiers == InvalidateOutcome(old(tiers), config, hasRedis, dataType, key, link)
      ensures unchanged(`hits) && unchanged(`misses) && unchanged(`sets) && unchanged(`errors)
    {
      var k := FullKey(config, dataType, key);
      if hasRedis && link != NotSent {
        tiers := tiers.(remote := tiers.remote - {k});
      }
      tiers := tiers.(local := tiers.local - {k});
    }
  }

  // ---------------------------------------------------------------------------------------------------------------
  // Runs
  // ---------------------------------------------------------------------------------------------------------------

  datatype Op<V> =
    | Put(dataType: string, key: string, value: V, at: Times, link: Link)
    | Get(dataType: string, key: string, degraded: bool, now: real, link: Link)
    | Invalidate(dataType: string, key: string, now: real, link: Link)

  function Start<V>(op: Op<V>): real { if op.Put? then op.at.cachedAt else op.now }

  function End<V>(op: Op<V>): real { if op.Put? then op.at.localAt else op.now }

  /** The clock never goes back, within an operation or between two. Data types contain no ':'. */
  ghost predicate WellTimed<V>(ops: seq<Op<V>>) {
    && (forall op | op in ops :: ':' !in op.dataType)
    && (forall op | op in ops && op.Put? :: op.at.cachedAt <= op.at.storedAt <= op.at.localAt)
    && (forall i, j | 0 <= i < j < |ops| :: End(ops[i]) <= Start(ops[j]))
  }

  function Step<V>(t: Tiers<V>, c: CacheConfig, hasRedis: bool, op: Op<V>): Tiers<V> {
    match op
    case Put(dataType, key, v, at, link) => PutOutcome(t, c, hasRedis, dataType, key, v, at, link)
    case Get(dataType, key, degraded, now, link) => GetOutcome(t, c, hasRedis, dataType, key, degraded, now, link).0
    case Invalidate(dataType, key, _, link) => InvalidateOutcome(t, c, hasRedis, dataType, key, link)
  }

  function Run<V>(c: CacheConfig, hasRedis: bool, ops: seq<Op<V>>): Tiers<V> {
    if ops == [] then Tiers(map[], map[])
    else Step(Run(c, hasRedis, ops[..|ops| - 1]), c, hasRedis, ops[|ops| - 1])
  }

  /** What a plain map with a time of writing holds: the latest put, unless it was invalidated since. */
  function Latest<V>(ops: seq<Op<V>>, dataType: string, key: string): Option<(V, real)> {
    if ops == [] then None
    else
      var op := ops[|ops| - 1];
      if op.Get? || op.dataType != dataType || op.key != key then Latest(ops[..|ops| - 1], dataType, key)
      else if op.Put? then Some((op.value, op.at.localAt))
      else None
  }

  /** The plain map with a TTL. */
  function Lookup<V>(ops: seq<Op<V>>, c: CacheConfig, dataType: string, key: string, now: real): Option<V> {
    match Latest(ops, dataType, key)
    case Some((v, at)) => if now < at + GetTtl(c, dataType, false) then Some(v) else None
    case None => None
  }

  ghost predicate FaultFree<V>(ops: seq<Op<V>>) {
    forall op | op in ops :: op.link == Delivered
  }

  /** How the tiers represent one entry of the plain map from `now` on. */
  ghost predicate Represents<V>(t: Tiers<V>, c: CacheConfig, hasRedis: bool, latest: Option<(V, real)>,
                                dataType: string, key: string, now: real) {
    var k, ttl := FullKey(c, dataType, key), GetTtl(c, dataType, false);
    && (k in t.local ==> latest.Some? && t.local[k] == Local(latest.value.0, latest.value.1 + ttl))
    && (latest.Some? && k !in t.local ==> latest.value.1 + ttl <= now)
    && (k in t.remote ==>
          && hasRedis && ttl >= 1.0
          && (now < t.remote[k].expiresAt ==> latest.Some? && t.remote[k].value == latest.value.0)
          && (latest.Some? ==> t.remote[k].expiresAt <= latest.value.1 + ttl))
  }

  lemma {:induction false} StepRepresents<V>(t: Tiers<V>, c: CacheConfig, hasRedis: bool, ops: seq<Op<V>>, op: Op<V>,
                                             dataType: string, key: string, now: real)
    requires c.localFallback && ':' !in dataType && ':' !in op.dataType && op.link == Delivered
    requires op.Put? ==> op.at.cachedAt <= op.at.storedAt <= op.at.localAt
    requires Represents(t, c, hasRedis, Latest(ops, dataType, key), dataType, key, now) && now <= Start(op)
    ensures Represents(Step(t, c, hasRedis, op), c, hasRedis, Latest(ops + [op], dataType, key), dataType, key, End(op))
  {
    assert (ops + [op])[..|ops|] == ops;
    FullKeyIsInjective(c, op.dataType, op.key, dataType, key);
  }

  lemma RepresentsLater<V>(t: Tiers<V>, c: CacheConfig, hasRedis: bool, latest: Option<(V, real)>, dataType: string,
                           key: string, now: real, later: real)
    requires Represents(t, c, hasRedis, latest, dataType, key, now) && now <= later
    ensures Represents(t, c, hasRedis, latest, dataType, key, later)
  {
  }

  lemma InitIsWellTimed<V>(ops: seq<Op<V>>)
    requires ops != [] && WellTimed(ops) && FaultFree(ops)
    ensures var init, op := ops[..|ops| - 1], ops[|ops| - 1];
            && WellTimed(init) && FaultFree(init) && (init != [] ==> End(init[|init| - 1]) <= Start(op))
            && ':' !in op.dataType && op.link == Delivered
            && (op.Put? ==> op.at.cachedAt <= op.at.storedAt <= op.at.localAt)
  {
    assert ops[|ops| - 1] in ops;
    assert forall i :: 0 <= i < |ops| - 1 ==> ops[..|ops| - 1][i] == ops[i];
  }

  lemma {:induction false} LastRepresents<V>(c: CacheConfig, hasRedis: bool, ops: seq<Op<V>>, dataType: string,
                                             key: string, now: real)
    requires c.localFallback && ':' !in dataType && ops != [] && WellTimed(ops) && FaultFree(ops)
    requires var init, op := ops[..|ops| - 1], ops[|ops| - 1];
             && Represents(Run(c, hasRedis, init), c, hasRedis, Latest(init, dataType, key), dataType, key, Start(op))
             && End(op) <= now
    ensures Represents(Run(c, hasRedis, ops), c, hasRedis, Latest(ops, dataType, key), dataType, key, now)
  {
    var init, op := ops[..|ops| - 1], ops[|ops| - 1];
    assert ops == init + [op];
    InitIsWellTimed(ops);
    StepRepresents(Run(c, hasRedis, init), c, hasRedis, init, op, dataType, key, Start(op));
    RepresentsLater(Run(c, hasRedis, ops), c, hasRedis, Latest(ops, dataType, key), dataType, key, End(op), now);
  }

  lemma {:induction false} RunRepresents<V>(c: CacheConfig, hasRedis: bool, ops: seq<Op<V>>, dataType: string,
                                            key: string, now: real)
    requires c.localFallback && ':' !in dataType && WellTimed(ops) && FaultFree(ops)
    requires ops != [] ==> End(ops[|ops| - 1]) <= now
    ensures Represents(Run(c, hasRedis, ops), c, hasRedis, Latest(ops, dataType, key), dataType, key, now)
  {
    if ops != [] {
      InitIsWellTimed(ops);
      RunRepresents(c, hasRedis, ops[..|ops| - 1], dataType, key, Start(ops[|ops| - 1]));
      LastRepresents(c, hasRedis, ops, dataType, key, now);
    }
  }

  // ---- What Redis alone holds ----

  /** The value and times of the latest put, unless it was invalidated since. */
  function LatestPut<V>(ops: seq<Op<V>>, dataType: string, key: string): Option<(V, Times)> {
    if ops == [] then None
    else
      var op := ops[|ops| - 1];
      if op.Get? || op.dataType != dataType || op.key != key then LatestPut(ops[..|ops| - 1], dataType, key)
      else if op.Put? then Some((op.value, op.at))
      else None
  }

  /** The map Redis keeps: dropped a whole number of seconds after storing, and by the reader at the TTL it asks for. */
  function RedisLookup<V>(ops: seq<Op<V>>, c: CacheConfig, hasRedis: bool, dataType: string, key: string,
                          degraded: bool,
                          now: real): Option<V>
  {
    var ttl := GetTtl(c, dataType, false);
    match LatestPut(ops, dataType, key)
    case Some((v, at)) =>
      if && hasRedis && ttl >= 1.0 && now < at.storedAt + ttl.Floor as real
         && now - at.cachedAt < GetTtl(c, dataType, degraded)
      then Some(v) else None
    case None => None
  }

  ghost predicate RemoteMatches<V>(t: Tiers<V>, c: CacheConfig, hasRedis: bool, latest: Option<(V, Times)>,
                                   dataType: string, key: string)
  {
    var k, ttl := FullKey(c, dataType, key), GetTtl(c, dataType, false);
    && (k in t.remote <==> hasRedis && latest.Some? && ttl >= 1.0)
    && (k in t.remote ==> t.remote[k] == Remote(latest.value.0, latest.value.1.cachedAt,
                                                latest.value.1.storedAt + ttl.Floor as real))
  }

  lemma {:induction false} LatestPutSnoc<V>(ops: seq<Op<V>>, op: Op<V>, dataType: string, key: string)
    ensures LatestPut(ops + [op], dataType, key)
         == if op.Get? || op.dataType != dataType || op.key != key then LatestPut(ops, dataType, key)
            else if op.Put? then Some((op.value, op.at)) else None
  {
    assert (ops + [op])[..|ops|] == ops;
  }

  /** What a step does to one Redis key. */
  lemma {:induction false} StepOnRemote<V>(t: Tiers<V>, c: CacheConfig, hasRedis: bool, op: Op<V>, dataType: string,
                                           key: string)
    requires ':' !in dataType && ':' !in op.dataType && op.link == Delivered
    ensures var k, ttl, t' := FullKey(c, dataType, key), GetTtl(c, dataType, false), Step(t, c, hasRedis, op);
            if op.Get? || op.dataType != dataType || op.key != key || !hasRedis then
              (k in t'.remote <==> k in t.remote) && (k in t.remote ==> t'.remote[k] == t.remote[k])
            else if op.Put? && ttl >= 1.0 then
              k in t'.remote && t'.remote[k] == Remote(op.value, op.at.cachedAt, op.at.storedAt + ttl.Floor as real)
            else if op.Put? then t'.remote == t.remote
            else k !in t'.remote
  {
    FullKeyIsInjective(c, op.dataType, op.key, dataType, key);
  }

  lemma {:induction false} StepMatches<V>(t: Tiers<V>, c: CacheConfig, hasRedis: bool, ops: seq<Op<V>>, op: Op<V>,
                                          dataType: string, key: string)
    requires ':' !in dataType && ':' !in op.dataType && op.link == Delivered
    requires RemoteMatches(t, c, hasRedis, LatestPut(ops, dataType, key), dataType, key)
    ensures RemoteMatches(Step(t, c, hasRedis, op), c, hasRedis, LatestPut(ops + [op], dataType, key), dataType, key)
  {
    LatestPutSnoc(ops, op, dataType, key);
    StepOnRemote(t, c, hasRedis, op, dataType, key);
  }

  lemma {:induction false} RunMatches<V>(c: CacheConfig, hasRedis: bool, ops: seq<Op<V>>, dataType: string, key: string)
    requires ':' !in dataType && FaultFree(ops) && forall op | op in ops :: ':' !in op.dataType
    ensures RemoteMatches(Run(c, hasRedis, ops), c, hasRedis, LatestPut(ops, dataType, key), dataType, key)
  {
    if ops != [] {
      var init, op := ops[..|ops| - 1], ops[|ops| - 1];
      assert ops == init + [op] && op in ops;
      RunMatches(c, hasRedis, init, dataType, key);
      StepMatches(Run(c, hasRedis, init), c, hasRedis, init, op, dataType, key);
    }
  }

  /**
   With a Redis that never fails, or none at all, `get` after any run answers as a plain map: with the local fallback,
   the map with the NORMAL TTL, so that the `degraded` flag, documented to allow older values, makes no difference;
   without it, the map that Redis keeps.
   */
  lemma FaultFreeCacheIsAMap<V>(c: CacheConfig, hasRedis: bool, ops: seq<Op<V>>, dataType: string, key: string,
                                degraded: bool, now: real)
    requires ':' !in dataType && WellTimed(ops) && FaultFree(ops)
    requires ops != [] ==> End(ops[|ops| - 1]) <= now
    ensures GetOutcome(Run(c, hasRedis, ops), c, hasRedis, dataType, key, degraded, now, Delivered).1
         == if c.localFallback then Lookup(ops, c, dataType, key, now)
            else RedisLookup(ops, c, hasRedis, dataType, key, degraded, now)
  {
    if c.localFallback {
      RunRepresents(c, hasRedis, ops, dataType, key, now);
    } else {
      RunMatches(c, hasRedis, ops, dataType, key);
    }
  }

  /**
   When `degraded`, documented to allow older values, makes a difference after a fault-free run: without the local
   fallback, while Redis still holds the entry, and its age passes exactly one of the two TTLs.
   */
  lemma DegradedMattersIff<V>(c: CacheConfig, hasRedis: bool, ops: seq<Op<V>>, dataType: string, key: string, now: real)
    requires ':' !in dataType && WellTimed(ops) && FaultFree(ops)
    requires ops != [] ==> End(ops[|ops| - 1]) <= now
    ensures var t, put, ttl := Run(c, hasRedis, ops), LatestPut(ops, dataType, key), GetTtl(c, dataType, false);
            GetOutcome(t, c, hasRedis, dataType, key, true, now, Delivered).1
              != GetOutcome(t, c, hasRedis, dataType, key, false, now, Delivered).1 <==>
            && !c.localFallback && hasRedis && put.Some? && ttl >= 1.0
            && now < put.value.1.storedAt + ttl.Floor as real
            && (now - put.value.1.cachedAt < GetTtl(c, dataType, true) <==> now - put.value.1.cachedAt >= ttl)
  {
    FaultFreeCacheIsAMap(c, hasRedis, ops, dataType, key, true, now);
    FaultFreeCacheIsAMap(c, hasRedis, ops, dataType, key, false, now);
  }

  const DEFAULT_TTLS := CacheConfig(300.0, 60.0, 10.0, 60.0, 600.0, 120.0, "signal-gen:cache:", true)

  /** Seconds, by data type; anything else lives for 60. */
  ghost const LIFETIMES: map<string, real> := map[
    "strategies" := 300.0, "strategy_signal" := 60.0, "market_price" := 10.0, "volatility" := 60.0,
    "market_summary" := 10.0, "recent_signals" := 60.0]

  ghost function Lifetime(dataType: string): real {
    if dataType in LIFETIMES then LIFETIMES[dataType] else 60.0
  }

  ghost function DegradedLifetime(dataType: string): real {
    if dataType == "strategies" then 600.0
    else if dataType == "market_price" || dataType == "market_summary" then 120.0
    else Lifetime(dataType)
  }

  /** With the default configuration a value put is read for the lifetime of its data type, and not after. */
  lemma {:induction false} ValueLivesForItsTtl<V>(hasRedis: bool, dataType: string, key: string, v: V, at: Times,
                                                  degraded: bool, now: real)
    requires ':' !in dataType && at.cachedAt <= at.storedAt <= at.localAt <= now
    ensures GetOutcome(Run(DEFAULT_TTLS, hasRedis, [Put(dataType, key, v, at, Delivered)]), DEFAULT_TTLS, hasRedis,
                       dataType, key, degraded, now, Delivered).1
         == if now < at.localAt + Lifetime(dataType) then Some(v) else None
  {
    var op := Put(dataType, key, v, at, Delivered);
    assert [op][..0] == [];
    FaultFreeCacheIsAMap(DEFAULT_TTLS, hasRedis, [op], dataType, key, degraded, now);
    assert Latest([op], dataType, key) == Some((v, at.localAt));
  }

  /**
   Without the fallback, Redis serves it for that time after storing it, unless the reader finds it too old: older than
   that lifetime too, or than the degraded one if the reader asks for that.
   */
  lemma {:induction false} RedisServesForItsTtl<V>(dataType: string, key: string, v: V, at: Times, degraded: bool,
                                                   now: real)
    requires ':' !in dataType && at.cachedAt <= at.storedAt <= at.localAt <= now
    ensures var c := DEFAULT_TTLS.(localFallback := false);
            GetOutcome(Run(c, true, [Put(dataType, key, v, at, Delivered)]), c, true, dataType, key, degraded, now,
                       Delivered).1
              == if now < at.storedAt + Lifetime(dataType)
                    && now - at.cachedAt < (if degraded then DegradedLifetime(dataType) else Lifetime(dataType))
                 then Some(v) else None
  {
    var c, op := DEFAULT_TTLS.(localFallback := false), Put(dataType, key, v, at, Delivered);
    assert [op][..0] == [];
    FaultFreeCacheIsAMap(c, true, [op], dataType, key, degraded, now);
    assert LatestPut([op], dataType, key) == Some((v, at));
  }

  /** It takes a write slow to reach Redis: stored 5 s after its stamp, a value is there at an age of 302 s. */
  lemma {:induction false} DegradedServesALateWrite()
    ensures var c := DEFAULT_TTLS.(localFallback := false);
            var op := Put("strategies", "k", 7, Times(0.0, 5.0, 5.0), Delivered);
            var t := Run(c, true, [op]);
            && GetOutcome(t, c, true, "strategies", "k", true, 302.0, Delivered).1 == Some(7)
            && GetOutcome(t, c, true, "strategies", "k", false, 302.0, Delivered).1 == None
  {
    var c := DEFAULT_TTLS.(localFallback := false);
    var op: Op<int> := Put("strategies", "k", 7, Times(0.0, 5.0, 5.0), Delivered);
    assert [op][..0] == [];
    assert Run(c, true, [op]) == Step(Tiers(map[], map[]), c, true, op);
  }

  /** Or a lost delete: the invalidation clears the local entry, and Redis goes on serving the degraded reader. */
  lemma {:induction false} DegradedServesALostInvalidation()
    ensures var c, k := DEFAULT_TTLS, "k";
            var put := Put("strategies", k, 7, Times(0.0, 5.0, 5.0), Delivered);
            var t := Run(c, true, [put, Invalidate("strategies", k, 6.0, NotSent)]);
            && GetOutcome(t, c, true, "strategies", k, true, 302.0, Delivered).1 == Some(7)
            && GetOutcome(t, c, true, "strategies", k, false, 302.0, Delivered).1 == None
  {
    var c, k := DEFAULT_TTLS, "k";
    var put: Op<int> := Put("strategies", k, 7, Times(0.0, 5.0, 5.0), Delivered);
    var lost: Op<int> := Invalidate("strategies", k, 6.0, NotSent);
    assert [put, lost][..1] == [put] && [put][..0] == [];
    assert Run(c, true, [put]) == Step(Tiers(map[], map[]), c, true, put);
    assert Run(c, true, [put, lost]) == Step(Run(c, true, [put]), c, true, lost);
  }

  /** `v` was put under this key, and finished being put less than the normal TTL ago. */
  ghost predicate PutRecently<V>(ops: seq<Op<V>>, c: CacheConfig, dataType: string, key: string, v: V,
                                 expiresAt: real) {
    exists i :: 0 <= i < |ops| && ops[i].Put? && ops[i].dataType == dataType && ops[i].key == key && ops[i].value == v
             && expiresAt <= ops[i].at.localAt + GetTtl(c, dataType, false)
  }

  ghost predicate EntriesPut<V>(t: Tiers<V>, ops: seq<Op<V>>, c: CacheConfig, dataType: string, key: string) {
    var k := FullKey(c, dataType, key);
    && (k in t.remote ==> PutRecently(ops, c, dataType, key, t.remote[k].value, t.remote[k].expiresAt))
    && (k in t.local ==> PutRecently(ops, c, dataType, key, t.local[k].value, t.local[k].expiresAt))
  }

  lemma {:induction false} PutRecentlyGrows<V>(ops: seq<Op<V>>, op: Op<V>, c: CacheConfig, dataType: string,
                                               key: string, v: V, expiresAt: real)
    requires PutRecently(ops, c, dataType, key, v, expiresAt)
    ensures PutRecently(ops + [op], c, dataType, key, v, expiresAt)
  {
    var i :| 0 <= i < |ops| && ops[i].Put? && ops[i].dataType == dataType && ops[i].key == key && ops[i].value == v
          && expiresAt <= ops[i].at.localAt + GetTtl(c, dataType, false);
    assert (ops + [op])[i] == ops[i];
  }

  /** A step either leaves the entries of a key as they were, drops them, or writes the value being put. */
  lemma {:induction false} StepWrites<V>(t: Tiers<V>, c: CacheConfig, hasRedis: bool, op: Op<V>, dataType: string,
                                         key: string)
    requires ':' !in dataType && ':' !in op.dataType
    requires op.Put? ==> op.at.cachedAt <= op.at.storedAt <= op.at.localAt
    ensures var t', k, ttl := Step(t, c, hasRedis, op), FullKey(c, dataType, key), GetTtl(c, dataType, false);
            var puts := op.Put? && op.dataType == dataType && op.key == key;
            && (k in t'.remote ==>
                  || (k in t.remote && t'.remote[k] == t.remote[k])
                  || (puts && t'.remote[k].value == op.value && t'.remote[k].expiresAt <= op.at.localAt + ttl))
            && (k in t'.local ==>
                  || (k in t.local && t'.local[k] == t.local[k])
                  || (puts && t'.local[k] == Local(op.value, op.at.localAt + ttl)))
  {
    FullKeyIsInjective(c, op.dataType, op.key, dataType, key);
  }

  lemma {:induction false} EntriesWerePut<V>(c: CacheConfig, hasRedis: bool, ops: seq<Op<V>>, dataType: string,
                                             key: string)
    requires ':' !in dataType && WellTimed(ops)
    ensures EntriesPut(Run(c, hasRedis, ops), ops, c, dataType, key)
  {
    if ops != [] {
      var n := |ops| - 1;
      var init, op := ops[..n], ops[n];
      assert forall i :: 0 <= i < n ==> init[i] == ops[i];
      EntriesWerePut(c, hasRedis, init, dataType, key);
      var t, k := Run(c, hasRedis, init), FullKey(c, dataType, key);
      StepWrites(t, c, hasRedis, op, dataType, key);
      assert ops == init + [op];
      if k in t.remote {
        PutRecentlyGrows(init, op, c, dataType, key, t.remote[k].value, t.remote[k].expiresAt);
      }
      if k in t.local {
        PutRecentlyGrows(init, op, c, dataType, key, t.local[k].value, t.local[k].expiresAt);
      }
    }
  }

  /**
   Under any pattern of Redis failures a value returned was put under that very key, and is younger than the normal
   TTL. So it is never older than the TTL asked for, as long as degraded TTLs are not shorter than normal ones.
   */
  lemma FaultyCacheNeverInvents<V>(c: CacheConfig, hasRedis: bool, ops: seq<Op<V>>, dataType: string, key: string,
                                   degraded: bool, now: real, link: Link)
    requires ':' !in dataType && WellTimed(ops)
    ensures var r := GetOutcome(Run(c, hasRedis, ops), c, hasRedis, dataType, key, degraded, now, link).1;
            r.Some? ==>
              exists i :: 0 <= i < |ops| && ops[i].Put? && ops[i].dataType == dataType && ops[i].key == key
                       && ops[i].value == r.value && now - ops[i].at.localAt < GetTtl(c, dataType, false)
  {
    EntriesWerePut(c, hasRedis, ops, dataType, key);
  }

  lemma {:induction false} LatestPutIsEarlier<V>(ops: seq<Op<V>>, dataType: string, key: string)
    requires WellTimed(ops) && LatestPut(ops, dataType, key).Some?
    ensures LatestPut(ops, dataType, key).value.1.localAt <= End(ops[|ops| - 1])
  {
    var n := |ops| - 1;
    var init, op := ops[..n], ops[n];
    if op.Get? || op.dataType != dataType || op.key != key {
      assert forall i :: 0 <= i < n ==> init[i] == ops[i];
      LatestPutIsEarlier(init, dataType, key);
      assert init[n - 1] == ops[n - 1] && End(ops[n - 1]) <= Start(op) <= End(op) by {
        assert op in ops;
      }
    }
  }

  /**
   What a failure costs. After a fault-free run, a put that Redis missed is seen by a read within its TTL exactly when
   Redis no longer serves an earlier value of that key, or serves the same one. Otherwise the read answers with the
   value of the latest earlier put.
   */
  lemma LostPutIsSeenIff<V>(c: CacheConfig, ops: seq<Op<V>>, dataType: string, key: string, v: V, at: Times,
                            degraded: bool, now: real)
    requires c.localFallback && ':' !in dataType && WellTimed(ops) && FaultFree(ops)
    requires ops != [] ==> End(ops[|ops| - 1]) <= at.cachedAt
    requires now < at.localAt + GetTtl(c, dataType, false)
    ensures var served := RedisLookup(ops, c, true, dataType, key, degraded, now);
            var after := PutOutcome(Run(c, true, ops), c, true, dataType, key, v, at, NotSent);
            var r := GetOutcome(after, c, true, dataType, key, degraded, now, Delivered).1;
            && (r == Some(v) <==> served.None? || served == Some(v))
            && (r != Some(v) ==> LatestPut(ops, dataType, key).Some? && r == Some(LatestPut(ops, dataType, key).value.0)
                                 && LatestPut(ops, dataType, key).value.1.localAt <= at.cachedAt)
  {
    RunMatches(c, true, ops, dataType, key);
    if LatestPut(ops, dataType, key).Some? {
      LatestPutIsEarlier(ops, dataType, key);
    }
  }
}
