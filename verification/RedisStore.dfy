/**
 The two families of Redis keys the run lock uses, and the commands and Lua scripts it sends.
 Every command is one atomic step of the server, written as a function of the store and the server's clock.
 A key whose expiry has passed is invisible to every command.
 */
module RedisStore {
  import opened Wrappers

  const LOCK_TTL: real := 90.0
  const LOCK_STALE_THRESHOLD: real := 120.0
  const HEARTBEAT_TTL: real := 30.0

  /** The JSON value of a `signal:lock:{symbol}` key, with the key's expiry. */
  datatype Lock = Lock(owner: string, acquiredAt: real, expiresAt: real)

  /** `locks` is keyed by symbol; `beats` gives the expiry of each `runner:heartbeat:{id}` key. */
  datatype Store = Store(locks: map<string, Lock>, beats: map<string, real>)

  /** What became of one request: it was served, it never arrived, or it was served and the reply was lost. */
  datatype Link = Delivered | NotSent | ReplyLost

  datatype RedisError = ConnectionError

  function GetLock(st: Store, now: real, symbol: string): Option<Lock> {
    if symbol in st.locks && now < st.locks[symbol].expiresAt then Some(st.locks[symbol]) else None
  }

  predicate BeatLive(st: Store, now: real, id: string) {
    id in st.beats && now < st.beats[id]
  }

  /** SET key value NX EX LOCK_TTL */
  function SetLockNx(st: Store, now: real, symbol: string, owner: string, stamp: real): (Store, bool) {
    if GetLock(st, now, symbol).None? then
      (st.(locks := st.locks[symbol := Lock(owner, stamp, now + LOCK_TTL)]), true)
    else (st, false)
  }

  /** DEL of a lock key. */
  function DeleteLock(st: Store, symbol: string): Store {
    st.(locks := st.locks - {symbol})
  }

  /** RELEASE_LOCK_SCRIPT */
  function ReleaseScript(st: Store, now: real, symbol: string, id: string): (Store, bool) {
    match GetLock(st, now, symbol)
    case Some(lock) => if lock.owner == id then (DeleteLock(st, symbol), true) else (st, false)
    case None => (st, false)
  }

  /** RECOVER_LOCK_SCRIPT: `observed` is the owner read before the script was sent. */
  function RecoverScript(st: Store, now: real, symbol: string, id: string, stamp: real, observed: string)
    : (Store, bool)
  {
    var cleared := match GetLock(st, now, symbol)
      case Some(lock) => if lock.owner == observed then DeleteLock(st, symbol) else st
      case None => st;
    SetLockNx(cleared, now, symbol, id, stamp)
  }

  /** SET of a heartbeat key with EX HEARTBEAT_TTL. */
  function SetBeat(st: Store, now: real, id: string): Store {
    st.(beats := st.beats[id := now + HEARTBEAT_TTL])
  }

  function DeleteBeat(st: Store, id: string): Store {
    st.(beats := st.beats - {id})
  }

  /** The store the server is left with and the answer the client sees. */
  function Via<T>(link: Link, before: Store, after: Store, reply: T): (Store, Result<T, RedisError>) {
    match link
    case Delivered => (after, Success(reply))
    case NotSent => (before, Failure(ConnectionError))
    case ReplyLost => (after, Failure(ConnectionError))
  }

  /** The server, as one client sees it between two ticks of the clock. */
  class Server {
    var now: real
    var store: Store

    constructor (now: real, store: Store)
      ensures this.now == now && this.store == store
    {
      this.now := now;
      this.store := store;
    }

    method SetNx(symbol: string, owner: string, stamp: real, link: Link) returns (r: Result<bool, RedisError>)
      modifies this`store
      ensures var (after, ok) := SetLockNx(old(store), now, symbol, owner, stamp);
              (store, r) == Via(link, old(store), after, ok)
    {
      var (after, ok) := SetLockNx(store, now, symbol, owner, stamp);
      var (left, reply) := Via(link, store, after, ok);
      store := left;
      r := reply;
    }

    method Get(symbol: string, link: Link) returns (r: Result<Option<Lock>, RedisError>)
      ensures r == Via(link, store, store, GetLock(store, now, symbol)).1
    {
      r := Via(link, store, store, GetLock(store, now, symbol)).1;
    }

    method Exists(id: string, link: Link) returns (r: Result<bool, RedisError>)
      ensures r == Via(link, store, store, BeatLive(store, now, id)).1
    {
      r := Via(link, store, store, BeatLive(store, now, id)).1;
    }

    method EvalRelease(symbol: string, id: string, link: Link) returns (r: Result<bool, RedisError>)
      modifies this`store
      ensures var (after, ok) := ReleaseScript(old(store), now, symbol, id);
              (store, r) == Via(link, old(store), after, ok)
    {
      var (after, ok) := ReleaseScript(store, now, symbol, id);
      var (left, reply) := Via(link, store, after, ok);
      store := left;
      r := reply;
    }

    method EvalRecover(symbol: string, id: string, stamp: real, observed: string, link: Link)
      returns (r: Result<bool, RedisError>)
      modifies this`store
      ensures var (after, ok) := RecoverScript(old(store), now, symbol, id, stamp, observed);
              (store, r) == Via(link, old(store), after, ok)
    {
      var (after, ok) := RecoverScript(store, now, symbol, id, stamp, observed);
      var (left, reply) := Via(link, store, after, ok);
      store := left;
      r := reply;
    }
  }
}
