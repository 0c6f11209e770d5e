/**
 The run lock as a concurrent protocol: any number of instances, each executing `LockManager.acquire`, its critical
 section and `LockManager.release`, interleaved at the granularity of one Redis command or one clock reading.
 */
module LockProtocol {
  import opened Wrappers
  import opened RedisStore
  import opened RunLocks

  /** Where one instance stands. `deadline` and `readAt` only record when a command was served. */
  datatype Pc =
    | Idle
    | Stamped(symbol: string, stamp: real)                               // about to send SET NX
    | AwaitGet(symbol: string)                                           // acquire failed, about to send GET
    | Fetched(symbol: string, owner: string, stamp: real, readAt: real)  // about to read the clock for the age test
    | AwaitExists(symbol: string, owner: string)                         // about to send EXISTS
    | Stale(symbol: string, owner: string)                               // about to stamp the new value
    | Restamped(symbol: string, owner: string, stamp: real)              // about to send the recovery script
    | Critical(symbol: string, deadline: real)
    | Releasing(symbol: string)                                          // about to send the release script
    | Crashed

  /** `started` are the instances whose heartbeat key was ever set. */
  datatype World = World(now: real, store: Store, started: set<string>, pcs: map<string, Pc>)

  datatype Action =
    | Tick(dt: real)
    | Beat(id: string)
    | StopBeat(id: string)
    | Crash(id: string)
    | Begin(id: string, symbol: string)
    | DoSet(id: string, link: Link)
    | DoGet(id: string, link: Link)
    | TestAge(id: string)
    | DoExists(id: string, link: Link)
    | Restamp(id: string)
    | DoRecover(id: string, link: Link)
    | Leave(id: string)
    | DoRelease(id: string, link: Link)

  function PcOf(w: World, id: string): Pc {
    if id in w.pcs then w.pcs[id] else Idle
  }

  function At(w: World, id: string, pc: Pc): World {
    w.(pcs := w.pcs[id := pc])
  }

  /** One step. An action whose instance is not at the matching point changes nothing. */
  function Next(w: World, a: Action): World {
    match a
    case Tick(dt) => w.(now := w.now + dt)
    case Beat(id) => w.(store := SetBeat(w.store, w.now, id), started := w.started + {id})
    case StopBeat(id) => w.(store := DeleteBeat(w.store, id))
    case Crash(id) => At(w, id, Crashed)
    case Begin(id, symbol) => if PcOf(w, id).Idle? then At(w, id, Stamped(symbol, w.now)) else w
    case DoSet(id, link) =>
      (match PcOf(w, id)
       case Stamped(symbol, stamp) =>
         var (after, ok) := SetLockNx(w.store, w.now, symbol, id, stamp);
         var (left, reply) := Via(link, w.store, after, ok);
         At(w.(store := left), id,
            if reply == Success(true) then Critical(symbol, w.now + LOCK_TTL) else AwaitGet(symbol))
       case _ => w)
    case DoGet(id, link) =>
      (match PcOf(w, id)
       case AwaitGet(symbol) =>
         (match GetLock(w.store, w.now, symbol)
          case Some(lock) =>
            At(w, id, if link == Delivered then Fetched(symbol, lock.owner, lock.acquiredAt, w.now) else Idle)
          case None => At(w, id, Idle))
       case _ => w)
    case TestAge(id) =>
      (match PcOf(w, id)
       case Fetched(symbol, owner, stamp, _) =>
         At(w, id, if w.now - stamp > LOCK_STALE_THRESHOLD then Stale(symbol, owner)
                   else if owner != "" then AwaitExists(symbol, owner) else Idle)
       case _ => w)
    case DoExists(id, link) =>
      (match PcOf(w, id)
       case AwaitExists(symbol, owner) =>
         At(w, id, if link == Delivered && !BeatLive(w.store, w.now, owner) then Stale(symbol, owner) else Idle)
       case _ => w)
    case Restamp(id) =>
      (match PcOf(w, id)
       case Stale(symbol, owner) => At(w, id, Restamped(symbol, owner, w.now))
       case _ => w)
    case DoRecover(id, link) =>
      (match PcOf(w, id)
       case Restamped(symbol, owner, stamp) =>
         var (after, ok) := RecoverScript(w.store, w.now, symbol, id, stamp, owner);
         var (left, reply) := Via(link, w.store, after, ok);
         At(w.(store := left), id, if reply == Success(true) then Critical(symbol, w.now + LOCK_TTL) else Idle)
       case _ => w)
    case Leave(id) =>
      (match PcOf(w, id)
       case Critical(symbol, _) => At(w, id, Releasing(symbol))
       case _ => w)
    case DoRelease(id, link) =>
      (match PcOf(w, id)
       case Releasing(symbol) =>
         var (after, ok) := ReleaseScript(w.store, w.now, symbol, id);
         At(w.(store := Via(link, w.store, after, ok).0), id, Idle)
       case _ => w)
  }

  function Run(w: World, actions: seq<Action>): World
    decreases |actions|
  {
    if actions == [] then w else Run(Next(w, actions[0]), actions[1..])
  }

  lemma {:induction false} RunAppend(w: World, xs: seq<Action>, ys: seq<Action>)
    ensures Run(w, xs + ys) == Run(Run(w, xs), ys)
    decreases |xs|
  {
    if xs == [] {
      assert xs + ys == ys;
    } else {
      assert (xs + ys)[0] == xs[0] && (xs + ys)[1..] == xs[1..] + ys;
      RunAppend(Next(w, xs[0]), xs[1..], ys);
    }
  }

  const EMPTY := Store(map[], map[])

  predicate Initial(w: World) {
    w.store == EMPTY && w.started == {} && w.pcs == map[]
  }

  // ---------------------------------------------------------------------------------------------------------------
  // Without any assumption on timing, heartbeats or instances
  // ---------------------------------------------------------------------------------------------------------------

  /** The instance that sent a release or recovery script, and the owner it aimed at. */
  predicate Entitled(w: World, a: Action, symbol: string, owner: string) {
    match a
    case DoRelease(id, _) => PcOf(w, id) == Releasing(symbol) && id == owner
    case DoRecover(id, _) => PcOf(w, id).Restamped? && PcOf(w, id).symbol == symbol && PcOf(w, id).owner == owner
    case _ => false
  }

  /**
   In every step of every world: a lock that is live stays exactly as it is, unless the clock passes its expiry,
   its owner releases it, or a recovery that observed this very owner takes it.
   */
  lemma LiveLockOnlyYieldsToItsOwnerOrARecovery(w: World, a: Action, symbol: string)
    requires GetLock(w.store, w.now, symbol).Some?
    ensures var lock := GetLock(w.store, w.now, symbol).value;
            var w' := Next(w, a);
            || GetLock(w'.store, w'.now, symbol) == Some(lock)
            || (a.Tick? && w'.now >= lock.expiresAt)
            || Entitled(w, a, symbol, lock.owner)
  {
    if a.DoSet? && PcOf(w, a.id).Stamped? && PcOf(w, a.id).symbol == symbol {
      var s := PcOf(w, a.id);
      assert SetLockNx(w.store, w.now, s.symbol, a.id, s.stamp) == (w.store, false);
    }
  }

  // ---------------------------------------------------------------------------------------------------------------
  // Mutual exclusion
  // ---------------------------------------------------------------------------------------------------------------

  /** The longest a stamp may wait for its SET, and the longest a GET reply may wait for the age test. */
  datatype Delays = Delays(stampToSet: real, readToTest: real)

  predicate Alive(w: World, id: string) {
    BeatLive(w.store, w.now, id)
  }

  /** A live instance inside the critical section of `symbol`. */
  predicate InCritical(w: World, id: string, symbol: string) {
    PcOf(w, id).Critical? && PcOf(w, id).symbol == symbol && Alive(w, id)
  }

  /**
   The environment assumptions on one step. An instance acts only while its heartbeat lives, and beats again only if
   it never lapsed; nobody lets the clock reach the deadline of a live holder; a SET follows its stamp, and an age
   test its GET, within the given delays.
   */
  predicate Assumed(w: World, a: Action, d: Delays) {
    match a
    case Tick(dt) =>
      dt >= 0.0 && forall id | id in w.pcs && w.pcs[id].Critical? && BeatLive(w.store, w.now + dt, id) ::
        w.now + dt < w.pcs[id].deadline
    case Beat(id) => id !in w.started || Alive(w, id)
    case Crash(id) => true
    case StopBeat(id) => Alive(w, id)
    case DoSet(id, _) => Alive(w, id) && (PcOf(w, id).Stamped? ==> w.now - PcOf(w, id).stamp <= d.stampToSet)
    case DoRecover(id, _) => Alive(w, id) && (PcOf(w, id).Restamped? ==> w.now - PcOf(w, id).stamp <= d.stampToSet)
    case TestAge(id) => Alive(w, id) && (PcOf(w, id).Fetched? ==> w.now - PcOf(w, id).readAt <= d.readToTest)
    case _ => Alive(w, a.id)
  }

  predicate Disciplined(w: World, actions: seq<Action>, d: Delays)
    decreases |actions|
  {
    actions == [] || (Assumed(w, actions[0], d) && Disciplined(Next(w, actions[0]), actions[1..], d))
  }

  /** The instance was heard once and will never be heard again. */
  predicate Lapsed(w: World, id: string) {
    id in w.started && !Alive(w, id)
  }

  ghost predicate LockOk(w: World, d: Delays, lock: Lock) {
    && lock.owner in w.started
    && lock.expiresAt - LOCK_TTL - lock.acquiredAt <= d.stampToSet
  }

  ghost predicate PcOk(w: World, d: Delays, id: string, pc: Pc) {
    match pc
    case Fetched(_, owner, stamp, readAt) => owner in w.started && readAt - stamp < LOCK_TTL + d.stampToSet
    case AwaitExists(_, owner) => owner in w.started
    case Stale(_, owner) => Lapsed(w, owner)
    case Restamped(_, owner, _) => Lapsed(w, owner)
    case Critical(symbol, deadline) =>
      id in w.started && (Alive(w, id) ==>
        exists stamp :: GetLock(w.store, w.now, symbol) == Some(Lock(id, stamp, deadline)))
    case _ => true
  }

  ghost predicate Inv(w: World, d: Delays) {
    && (forall id | id in w.store.beats :: id in w.started)
    && (forall symbol | symbol in w.store.locks :: LockOk(w, d, w.store.locks[symbol]))
    && (forall id | id in w.pcs :: PcOk(w, d, id, w.pcs[id]))
  }

  lemma NextKeepsInv(w: World, a: Action, d: Delays)
    requires Inv(w, d) && Assumed(w, a, d)
    requires d.stampToSet + d.readToTest <= LOCK_STALE_THRESHOLD - LOCK_TTL
    ensures Inv(Next(w, a), d)
  {
    var w' := Next(w, a);
    forall id | id in w'.pcs ensures PcOk(w', d, id, w'.pcs[id]) {
      NextKeepsPc(w, a, d, id);
    }
  }

  lemma NextKeepsPc(w: World, a: Action, d: Delays, id: string)
    requires Inv(w, d) && Assumed(w, a, d)
    requires d.stampToSet + d.readToTest <= LOCK_STALE_THRESHOLD - LOCK_TTL
    requires id in Next(w, a).pcs
    ensures PcOk(Next(w, a), d, id, Next(w, a).pcs[id])
  {
    var w' := Next(w, a);
    if id in w.pcs && w'.pcs[id] == w.pcs[id] && w.pcs[id].Critical? && Alive(w', id) {
      assert PcOk(w, d, id, w.pcs[id]);
      assert Alive(w, id);
      LiveLockOnlyYieldsToItsOwnerOrARecovery(w, a, w.pcs[id].symbol);
    }
  }

  lemma {:induction false} RunKeepsInv(w: World, actions: seq<Action>, d: Delays)
    requires Inv(w, d) && Disciplined(w, actions, d)
    requires d.stampToSet + d.readToTest <= LOCK_STALE_THRESHOLD - LOCK_TTL
    ensures Inv(Run(w, actions), d)
    decreases |actions|
  {
    if actions != [] {
      NextKeepsInv(w, actions[0], d);
      RunKeepsInv(Next(w, actions[0]), actions[1..], d);
    }
  }

  /**
   In every interleaving of any number of instances, with any requests and replies lost, at most one live instance is
   in the critical section of a symbol, and the lock key names it until its deadline.
   */
  lemma MutualExclusion(w: World, actions: seq<Action>, d: Delays, symbol: string, p: string, q: string)
    requires Initial(w) && Disciplined(w, actions, d)
    requires d.stampToSet + d.readToTest <= LOCK_STALE_THRESHOLD - LOCK_TTL
    ensures var end := Run(w, actions);
            InCritical(end, p, symbol) ==>
              && (InCritical(end, q, symbol) ==> p == q)
              && exists lock :: GetLock(end.store, end.now, symbol) == Some(lock) && lock.owner == p
                             && lock.expiresAt == PcOf(end, p).deadline
  {
    RunKeepsInv(w, actions, d);
    var end := Run(w, actions);
    if InCritical(end, p, symbol) {
      assert PcOk(end, d, p, end.pcs[p]);
      if InCritical(end, q, symbol) {
        assert PcOk(end, d, q, end.pcs[q]);
      }
    }
  }

  // ---------------------------------------------------------------------------------------------------------------
  // The uninterrupted acquire, and recovery of a crashed owner's lock
  // ---------------------------------------------------------------------------------------------------------------

  function SetSteps(me: string, symbol: string, link: Link): seq<Action> {
    [Begin(me, symbol), DoSet(me, link)]
  }

  function RecoverySteps(me: string, links: Links): seq<Action> {
    [DoGet(me, links.get), TestAge(me), DoExists(me, links.exists_), Restamp(me), DoRecover(me, links.eval)]
  }

  /** The steps of one `LockManager.acquire` with nothing in between; those not reached change nothing. */
  function AcquireSteps(me: string, symbol: string, links: Links): seq<Action> {
    SetSteps(me, symbol, links.set_) + RecoverySteps(me, links)
  }

  lemma RunCons(w: World, a: Action, rest: seq<Action>)
    ensures Run(w, [a] + rest) == Run(Next(w, a), rest)
  {
    assert ([a] + rest)[1..] == rest;
  }

  lemma RunFive(w: World, a: Action, b: Action, c: Action, d: Action, e: Action)
    ensures Run(w, [a, b, c, d, e]) == Next(Next(Next(Next(Next(w, a), b), c), d), e)
  {
    var w1 := Next(w, a);
    var w2 := Next(w1, b);
    var w3 := Next(w2, c);
    var w4 := Next(w3, d);
    RunCons(w, a, [b, c, d, e]);
    RunCons(w1, b, [c, d, e]);
    RunCons(w2, c, [d, e]);
    RunCons(w3, d, [e]);
    RunCons(w4, e, []);
    assert [a, b, c, d, e] == [a] + [b, c, d, e] && [b, c, d, e] == [b] + [c, d, e] && [c, d, e] == [c] + [d, e];
    assert [d, e] == [d] + [e] && [e] == [e] + [];
  }

  /** The protocol's steps run in a row are what the sequential `LockManager.acquire` computes. */
  lemma UninterruptedAcquire(w: World, me: string, symbol: string, links: Links)
    requires PcOf(w, me).Idle?
    ensures var a := AcquireOutcome(w.store, w.now, me, symbol, links);
            var end := Run(w, AcquireSteps(me, symbol, links));
            && end.now == w.now && end.started == w.started && end.store == a.store
            && PcOf(end, me) == (if a.acquired then Critical(symbol, w.now + LOCK_TTL) else Idle)
            && forall id :: id != me ==> PcOf(end, id) == PcOf(w, id)
  {
    RunAppend(w, SetSteps(me, symbol, links.set_), RecoverySteps(me, links));
    var mid := UninterruptedSet(w, me, symbol, links.set_);
    if PcOf(mid, me).AwaitGet? {
      var end := UninterruptedRecovery(mid, me, symbol, links);
    } else {
      HolderRunsNoRecovery(mid, me, links);
    }
  }

  lemma UninterruptedSet(w: World, me: string, symbol: string, link: Link) returns (mid: World)
    requires PcOf(w, me).Idle?
    ensures mid == Run(w, SetSteps(me, symbol, link))
    ensures var (after, ok) := SetLockNx(w.store, w.now, symbol, me, w.now);
            var (left, reply) := Via(link, w.store, after, ok);
            && mid.now == w.now && mid.started == w.started && mid.store == left
            && PcOf(mid, me) == (if reply == Success(true) then Critical(symbol, w.now + LOCK_TTL)
                                 else AwaitGet(symbol))
            && forall id :: id != me ==> PcOf(mid, id) == PcOf(w, id)
  {
    RunCons(w, Begin(me, symbol), [DoSet(me, link)]);
    assert [Begin(me, symbol), DoSet(me, link)] == [Begin(me, symbol)] + [DoSet(me, link)];
    mid := Run(Next(w, Begin(me, symbol)), [DoSet(me, link)]);
  }

  lemma HolderRunsNoRecovery(w: World, me: string, links: Links)
    requires PcOf(w, me).Critical?
    ensures Run(w, RecoverySteps(me, links)) == w
  {
    RunFive(w, DoGet(me, links.get), TestAge(me), DoExists(me, links.exists_), Restamp(me), DoRecover(me, links.eval));
  }

  lemma UninterruptedRecovery(w: World, me: string, symbol: string, links: Links) returns (end: World)
    requires PcOf(w, me) == AwaitGet(symbol)
    ensures end == Run(w, RecoverySteps(me, links))
    ensures var a := RecoverOutcome(w.store, w.now, me, symbol, links);
            && end.now == w.now && end.started == w.started && end.store == a.store
            && PcOf(end, me) == (if a.acquired then Critical(symbol, w.now + LOCK_TTL) else Idle)
            && forall id :: id != me ==> PcOf(end, id) == PcOf(w, id)
  {
    RunFive(w, DoGet(me, links.get), TestAge(me), DoExists(me, links.exists_), Restamp(me), DoRecover(me, links.eval));
    var judged := Next(Next(Next(w, DoGet(me, links.get)), TestAge(me)), DoExists(me, links.exists_));
    var seen := GetLock(w.store, w.now, symbol);
    assert judged.store == w.store && judged.now == w.now;
    if links.get != Delivered || seen.None? || !JudgedStale(w.store, w.now, seen.value, links.exists_) {
      assert PcOf(judged, me) == Idle;
    } else {
      assert PcOf(judged, me) == Stale(symbol, seen.value.owner);
    }
    end := Next(Next(judged, Restamp(me)), DoRecover(me, links.eval));
  }

  /** How far a run moves the clock. */
  function Elapsed(actions: seq<Action>): real {
    if actions == [] then 0.0
    else (if actions[0].Tick? then actions[0].dt else 0.0) + Elapsed(actions[1..])
  }

  predicate ClockNeverGoesBack(actions: seq<Action>) {
    forall a | a in actions :: a.Tick? ==> a.dt >= 0.0
  }

  predicate BeatsBounded(w: World) {
    forall id | id in w.store.beats :: w.store.beats[id] <= w.now + HEARTBEAT_TTL
  }

  lemma {:induction false} RunKeepsBeatsBounded(w: World, actions: seq<Action>)
    requires BeatsBounded(w) && ClockNeverGoesBack(actions)
    ensures BeatsBounded(Run(w, actions))
    decreases |actions|
  {
    if actions != [] {
      assert BeatsBounded(Next(w, actions[0]));
      RunKeepsBeatsBounded(Next(w, actions[0]), actions[1..]);
    }
  }

  lemma {:induction false} SilentRunAddsNoBeat(w: World, actions: seq<Action>, id: string)
    requires Beat(id) !in actions
    ensures var end := Run(w, actions);
            && end.now == w.now + Elapsed(actions)
            && (id in end.store.beats ==> id in w.store.beats && end.store.beats[id] == w.store.beats[id])
    decreases |actions|
  {
    if actions != [] {
      SilentRunAddsNoBeat(Next(w, actions[0]), actions[1..], id);
    }
  }

  /**
   30 seconds after its last beat, a crashed owner no longer keeps anybody out: whatever happened in between, an
   uncontended acquire takes the lock from it, or takes it free, and leaves the key naming the caller.
   */
  lemma CrashedOwnerIsReplaced(w0: World, before: seq<Action>, after: seq<Action>, dead: string, me: string,
                               symbol: string)
    requires Initial(w0) && ClockNeverGoesBack(before) && ClockNeverGoesBack(after)
    requires dead != "" && Beat(dead) !in after && Elapsed(after) >= 30.0
    requires var w := Run(w0, before + after);
             var seen := GetLock(w.store, w.now, symbol);
             PcOf(w, me).Idle? && (seen.None? || seen.value.owner == dead)
    ensures var w := Run(w0, before + after);
            var end := Run(w, AcquireSteps(me, symbol, ALL_DELIVERED));
            && PcOf(end, me) == Critical(symbol, w.now + 90.0)
            && GetLock(end.store, end.now, symbol) == Some(Lock(me, w.now, w.now + 90.0))
  {
    RunAppend(w0, before, after);
    RunKeepsBeatsBounded(w0, before);
    SilentRunAddsNoBeat(Run(w0, before), after, dead);
    UninterruptedAcquire(Run(w0, before + after), me, symbol, ALL_DELIVERED);
  }

  // ---------------------------------------------------------------------------------------------------------------
  // Each assumption is needed
  // ---------------------------------------------------------------------------------------------------------------

  /**
   Nothing else protects a holder: an instance that acquires while another holds the lock ends up inside with it
   exactly when the holder's heartbeat key is absent or the lock is older than the stale threshold. Where nobody starts
   the heartbeat, every such acquire does.
   */
  lemma HolderIsSafeIffItsHeartbeatLives(w: World, holder: string, me: string, symbol: string)
    requires PcOf(w, holder).Critical? && PcOf(w, holder).symbol == symbol && PcOf(w, me).Idle? && holder != ""
    requires GetLock(w.store, w.now, symbol).Some? && GetLock(w.store, w.now, symbol).value.owner == holder
    ensures var end := Run(w, AcquireSteps(me, symbol, ALL_DELIVERED));
            PcOf(end, holder) == PcOf(w, holder) &&
            ((PcOf(end, me).Critical? && PcOf(end, me).symbol == symbol) <==>
               (!Alive(w, holder)
                || w.now - GetLock(w.store, w.now, symbol).value.acquiredAt > 120.0))
  {
    UninterruptedAcquire(w, me, symbol, ALL_DELIVERED);
  }

  /** A holder that stays until its deadline shares the critical section with the next caller. */
  lemma OverstayingHolderIsJoined(w: World, holder: string, me: string, symbol: string, wait: real)
    requires PcOf(w, holder).Critical? && PcOf(w, me).Idle?
    requires GetLock(w.store, w.now, symbol).Some?
    requires PcOf(w, holder) == Critical(symbol, GetLock(w.store, w.now, symbol).value.expiresAt)
    requires w.now + wait >= PcOf(w, holder).deadline
    ensures var end := Run(Next(w, Tick(wait)), AcquireSteps(me, symbol, ALL_DELIVERED));
            && PcOf(end, holder) == PcOf(w, holder)
            && PcOf(end, me).Critical? && PcOf(end, me).symbol == symbol
  {
    UninterruptedAcquire(Next(w, Tick(wait)), me, symbol, ALL_DELIVERED);
  }

  /** `w` is the end of a run that meets the assumptions with these delays. */
  ghost predicate Reachable(w: World, d: Delays) {
    exists w0, actions :: Initial(w0) && Disciplined(w0, actions, d) && Run(w0, actions) == w
  }

  lemma {:induction false} DisciplinedAppend(w: World, xs: seq<Action>, a: Action, d: Delays)
    requires Disciplined(w, xs, d) && Assumed(Run(w, xs), a, d)
    ensures Disciplined(w, xs + [a], d)
    decreases |xs|
  {
    if xs == [] {
      assert Disciplined(Next(w, a), [], d);
      assert (xs + [a])[1..] == [];
    } else {
      assert (xs + [a])[0] == xs[0] && (xs + [a])[1..] == xs[1..] + [a];
      DisciplinedAppend(Next(w, xs[0]), xs[1..], a, d);
    }
  }

  lemma Step(w: World, a: Action, d: Delays) returns (w': World)
    requires Reachable(w, d) && Assumed(w, a, d)
    ensures w' == Next(w, a) && Reachable(w', d)
  {
    var w0, actions :| Initial(w0) && Disciplined(w0, actions, d) && Run(w0, actions) == w;
    DisciplinedAppend(w0, actions, a, d);
    RunAppend(w0, actions, [a]);
    assert Run(w, [a]) == Next(w, a);
    w' := Next(w, a);
  }

  /** The clock moves on and both instances beat. */
  lemma TickAndBeat(w: World, p: string, q: string, dt: real, d: Delays) returns (w': World)
    requires Reachable(w, d) && p != q && 0.0 <= dt < HEARTBEAT_TTL
    requires w.store.beats == map[p := w.now + HEARTBEAT_TTL, q := w.now + HEARTBEAT_TTL]
    requires forall id | id in w.pcs && w.pcs[id].Critical? :: w.now + dt < w.pcs[id].deadline
    ensures Reachable(w', d) && w'.now == w.now + dt && w'.store.locks == w.store.locks && w'.pcs == w.pcs
    ensures w'.started == w.started + {p, q}
    ensures w'.store.beats == map[p := w'.now + HEARTBEAT_TTL, q := w'.now + HEARTBEAT_TTL]
  {
    w' := Step(w, Tick(dt), d);
    w' := Step(w', Beat(p), d);
    w' := Step(w', Beat(q), d);
  }

  /** With these delays no run ends with two live instances in one critical section. */
  ghost predicate Exclusive(d: Delays) {
    forall w, symbol, p, q :: Reachable(w, d) && InCritical(w, p, symbol) && InCritical(w, q, symbol) ==> p == q
  }

  /** The 30 seconds between the two thresholds are exactly what the delays may add up to. */
  lemma ExclusionIffDelaysFit(d: Delays)
    requires d.stampToSet >= 0.0 && d.readToTest >= 0.0
    ensures Exclusive(d) <==> d.stampToSet + d.readToTest <= 30.0
  {
    if d.stampToSet + d.readToTest <= LOCK_STALE_THRESHOLD - LOCK_TTL {
      forall w, symbol, p, q | Reachable(w, d) && InCritical(w, p, symbol) && InCritical(w, q, symbol)
        ensures p == q
      {
        var w0, actions :| Initial(w0) && Disciplined(w0, actions, d) && Run(w0, actions) == w;
        MutualExclusion(w0, actions, d, symbol, p, q);
      }
    } else {
      var w := SlowObserverBreaksExclusion(d);
      assert "p" != "q";
    }
  }

  /**
   The run that breaks it: `p` is `late` with its first SET, so its stamp is old when its TTL begins. The observer reads
   that lock just before it expires; `p` releases and acquires again; and after `slow` more seconds the observer judges
   `p` by the old stamp.
   */
  lemma SlowObserverBreaksExclusion(d: Delays) returns (w: World)
    requires d.stampToSet >= 0.0 && d.readToTest >= 0.0 && d.stampToSet + d.readToTest > 30.0
    ensures Reachable(w, d) && InCritical(w, "p", "s") && InCritical(w, "q", "s")
  {
    var late := if d.stampToSet < 30.5 then d.stampToSet else 30.5;
    var slow := if d.readToTest < 30.5 - late then d.readToTest else 30.5 - late;
    var t := late + 90.0 - (late + slow - 30.0) / 2.0;
    w := FirstHolder(late, d);
    w := HolderKeepsBeating(w, late, t, d);
    w := ObserverReads(w, late, t, d);
    w := HolderLeaves(w, late, t, d);
    w := HolderReturns(w, t, d);
    w := TickAndBeat(w, "p", "q", slow / 2.0, d);
    w := TickAndBeat(w, "p", "q", slow / 2.0, d);
    w := SlowObserverJudges(w, t, t + slow, d);
    w := SlowObserverRecovers(w, t, t + slow, d);
  }

  /** Both heartbeats are fresh and the rest of the world is as given. */
  ghost predicate Scene(w: World, now: real, locks: map<string, Lock>, pcs: map<string, Pc>) {
    && w.now == now && w.store.locks == locks && w.pcs == pcs && w.started == {"p", "q"}
    && w.store.beats == map["p" := now + HEARTBEAT_TTL, "q" := now + HEARTBEAT_TTL]
  }

  /** The only lock, taken by `p` at `at` with a stamp read at `stamp`. */
  function LockOfP(stamp: real, at: real): map<string, Lock> {
    map["s" := Lock("p", stamp, at + LOCK_TTL)]
  }

  lemma BothStart(d: Delays) returns (w: World)
    ensures Reachable(w, d) && Scene(w, 0.0, map[], map[])
  {
    w := World(0.0, EMPTY, {}, map[]);
    assert Disciplined(w, [], d) && Run(w, []) == w;
    w := Step(w, Beat("p"), d);
    w := Step(w, Beat("q"), d);
  }

  lemma LateStamp(late: real, d: Delays) returns (w: World)
    requires 0.0 <= late <= 30.5
    ensures Reachable(w, d) && Scene(w, late, map[], map["p" := Stamped("s", 0.0)])
  {
    w := BothStart(d);
    w := Step(w, Begin("p", "s"), d);
    assert Scene(w, 0.0, map[], map["p" := Stamped("s", 0.0)]);
    w := TickAndBeat(w, "p", "q", late / 2.0, d);
    w := TickAndBeat(w, "p", "q", late / 2.0, d);
  }

  lemma FirstHolder(late: real, d: Delays) returns (w: World)
    requires 0.0 <= late <= 30.5 && late <= d.stampToSet
    ensures Reachable(w, d) && Scene(w, late, LockOfP(0.0, late), map["p" := Critical("s", late + LOCK_TTL)])
  {
    w := LateStamp(late, d);
    w := Step(w, DoSet("p", Delivered), d);
  }

  lemma HolderKeepsBeating(w0: World, late: real, t: real, d: Delays) returns (w: World)
    requires late + 75.0 < t < late + LOCK_TTL && Reachable(w0, d)
    requires Scene(w0, late, LockOfP(0.0, late), map["p" := Critical("s", late + LOCK_TTL)])
    ensures Reachable(w, d) && Scene(w, t, LockOfP(0.0, late), map["p" := Critical("s", late + LOCK_TTL)])
  {
    w := TickAndBeat(w0, "p", "q", 25.0, d);
    w := TickAndBeat(w, "p", "q", 25.0, d);
    w := TickAndBeat(w, "p", "q", 25.0, d);
    w := TickAndBeat(w, "p", "q", t - late - 75.0, d);
  }

  /** At time `t` the observer `q` reads the lock `p` took. */
  lemma ObserverReads(w0: World, late: real, t: real, d: Delays) returns (w: World)
    requires t < late + LOCK_TTL && d.stampToSet >= 0.0 && Reachable(w0, d)
    requires Scene(w0, t, LockOfP(0.0, late), map["p" := Critical("s", late + LOCK_TTL)])
    ensures Reachable(w, d)
    ensures Scene(w, t, LockOfP(0.0, late),
                  map["p" := Critical("s", late + LOCK_TTL), "q" := Fetched("s", "p", 0.0, t)])
  {
    w := Step(w0, Begin("q", "s"), d);
    assert Scene(w, t, LockOfP(0.0, late), map["p" := Critical("s", late + LOCK_TTL), "q" := Stamped("s", t)]);
    w := Step(w, DoSet("q", Delivered), d);
    assert Scene(w, t, LockOfP(0.0, late), map["p" := Critical("s", late + LOCK_TTL), "q" := AwaitGet("s")]);
    w := Step(w, DoGet("q", Delivered), d);
  }

  /** `p` releases before `q` looks at the clock. */
  lemma HolderLeaves(w0: World, late: real, t: real, d: Delays) returns (w: World)
    requires t < late + LOCK_TTL && Reachable(w0, d)
    requires Scene(w0, t, LockOfP(0.0, late),
                   map["p" := Critical("s", late + LOCK_TTL), "q" := Fetched("s", "p", 0.0, t)])
    ensures Reachable(w, d) && Scene(w, t, map[], map["p" := Idle, "q" := Fetched("s", "p", 0.0, t)])
  {
    w := Step(w0, Leave("p"), d);
    assert Scene(w, t, LockOfP(0.0, late), map["p" := Releasing("s"), "q" := Fetched("s", "p", 0.0, t)]);
    w := Step(w, DoRelease("p", Delivered), d);
    assert w.store.locks == map[];
  }

  lemma HolderReturns(w0: World, t: real, d: Delays) returns (w: World)
    requires d.stampToSet >= 0.0 && Reachable(w0, d)
    requires Scene(w0, t, map[], map["p" := Idle, "q" := Fetched("s", "p", 0.0, t)])
    ensures Reachable(w, d)
    ensures Scene(w, t, LockOfP(t, t), map["p" := Critical("s", t + LOCK_TTL), "q" := Fetched("s", "p", 0.0, t)])
  {
    w := Step(w0, Begin("p", "s"), d);
    assert Scene(w, t, map[], map["p" := Stamped("s", t), "q" := Fetched("s", "p", 0.0, t)]);
    w := Step(w, DoSet("p", Delivered), d);
  }

  lemma SlowObserverJudges(w0: World, t: real, now: real, d: Delays) returns (w: World)
    requires now > LOCK_STALE_THRESHOLD && now - t <= d.readToTest && Reachable(w0, d)
    requires Scene(w0, now, LockOfP(t, t), map["p" := Critical("s", t + LOCK_TTL), "q" := Fetched("s", "p", 0.0, t)])
    ensures Reachable(w, d)
    ensures Scene(w, now, LockOfP(t, t), map["p" := Critical("s", t + LOCK_TTL), "q" := Stale("s", "p")])
  {
    w := Step(w0, TestAge("q"), d);
  }

  lemma SlowObserverRecovers(w0: World, t: real, now: real, d: Delays) returns (w: World)
    requires now < t + LOCK_TTL && d.stampToSet >= 0.0 && Reachable(w0, d)
    requires Scene(w0, now, LockOfP(t, t), map["p" := Critical("s", t + LOCK_TTL), "q" := Stale("s", "p")])
    ensures Reachable(w, d) && InCritical(w, "p", "s") && InCritical(w, "q", "s")
  {
    w := Step(w0, Restamp("q"), d);
    assert PcOf(w, "p") == Critical("s", t + LOCK_TTL) && PcOf(w, "q") == Restamped("s", "p", now);
    w := Step(w, DoRecover("q", Delivered), d);
  }
}
