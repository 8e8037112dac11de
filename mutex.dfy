/**
 * The FastMutex client: its configuration, the shared store it works on,
 * and the `lockStats` object its steps update in place. Each method does
 * the source's steps on the store object and is proved to end in the
 * state, and with the result, that module Protocol defines.
 */
module Mutex {
  import opened Wrappers
  import opened Js
  import opened Store
  import opened Protocol

  class FastMutex {
    const clientId: string
    const xPrefix: string
    const yPrefix: string
    const timeout: int
    const localStorage: Storage
    var lockStats: LockStats

    /** The client id is given; the source draws a random one when it is omitted. */
    constructor (clientId: string, localStorage: Storage, xPrefix: string := DefaultXPrefix,
                 yPrefix: string := DefaultYPrefix, timeout: int := DefaultTimeout)
      ensures Cfg() == Config(clientId, xPrefix, yPrefix, timeout)
      ensures this.localStorage == localStorage
      ensures lockStats == InitialStats
    {
      this.clientId := clientId;
      this.xPrefix := xPrefix;
      this.yPrefix := yPrefix;
      this.timeout := timeout;
      this.localStorage := localStorage;
      lockStats := InitialStats;
    }

    function Cfg(): Config
    {
      Config(clientId, xPrefix, yPrefix, timeout)
    }

    /** The store and the stats, as one value. */
    function World(): State
      reads this, localStorage
    {
      State(localStorage.items, lockStats)
    }

    /** `setItem`: wrap `value` with its expiry time and store it. */
    method SetItem(key: string, value: string, now: int)
      modifies localStorage
      ensures localStorage.items == SetItemSpec(old(localStorage.items), key, value, now, timeout)
    {
      localStorage.SetItem(key, Record(now + timeout, value));
    }

    /** `getItem`: read a value, deleting it instead when it has expired. */
    method GetItem(key: string, now: int) returns (r: Option<string>)
      modifies localStorage
      ensures Read(r, localStorage.items) == GetItemSpec(old(localStorage.items), key, now, timeout)
    {
      var item := localStorage.GetItem(key);
      if item.None? {
        return None;
      }
      if Expired(item.value, now, timeout) {
        localStorage.RemoveItem(key);
        return None;
      }
      r := Some(item.value.value);
    }

    /** `resolveWithStats` on this client's stats. */
    method Resolve(now: int)
      modifies this
      ensures lockStats == ResolveWithStats(old(lockStats), now)
    {
      lockStats := lockStats.(acquireEnd := Val(now));
      lockStats := lockStats.(acquireDuration := Minus(lockStats.acquireEnd, lockStats.acquireStart));
      lockStats := lockStats.(lockStart := Val(now));
    }

    /**
     * One attempt of `lock(key)` at time `now`. `inter` is what other clients
     * write into the shared store between this attempt's store operations.
     */
    method Lock(key: string, now: int, inter: Interleaving) returns (r: Outcome)
      modifies this, localStorage
      ensures Step(r, World()) == LockSpec(Cfg(), old(World()), key, now, inter)
    {
      var x := xPrefix + key;
      var y := yPrefix + key;
      if !TruthyNum(lockStats.acquireStart) {
        lockStats := lockStats.(acquireStart := Val(now));
      }
      var elapsedTime := now - lockStats.acquireStart.v;
      if elapsedTime >= timeout {
        return TimedOut(timeout);
      }
      SetItem(x, clientId, now);
      localStorage.Interfere(inter.afterX);
      var lsY := GetItem(y, now);
      if TruthyStr(lsY) {
        lockStats := lockStats.(restartCount := lockStats.restartCount + 1);
        return Restart;
      }
      localStorage.Interfere(inter.afterYRead);
      SetItem(y, clientId, now);
      localStorage.Interfere(inter.afterY);
      var lsX := GetItem(x, now);
      if lsX != Some(clientId) {
        lockStats := lockStats.(contentionCount := lockStats.contentionCount + 1);
        return PendingSettle;
      }
      Resolve(now);
      r := Acquired(lockStats);
    }

    /** The callback that runs `SettleDelay` ms after a PendingSettle outcome. */
    method Settle(key: string, now: int) returns (r: Outcome)
      modifies this, localStorage
      ensures Step(r, World()) == SettleSpec(Cfg(), old(World()), key, now)
    {
      var y := yPrefix + key;
      var lsY := GetItem(y, now);
      if lsY == Some(clientId) {
        Resolve(now);
        return Acquired(lockStats);
      }
      lockStats := lockStats.(restartCount := lockStats.restartCount + 1);
      lockStats := lockStats.(locksLost := lockStats.locksLost + 1);
      r := Restart;
    }

    /** `release(key)`: drop Y and close the critical-section timing; returns the stats. */
    method Release(key: string, now: int) returns (stats: LockStats)
      modifies this, localStorage
      ensures World() == ReleaseSpec(Cfg(), old(World()), key, now)
      ensures stats == lockStats
    {
      var y := yPrefix + key;
      localStorage.RemoveItem(y);
      lockStats := lockStats.(lockEnd := Val(now));
      lockStats := lockStats.(lockDuration := Minus(lockStats.lockEnd, lockStats.lockStart));
      stats := lockStats;
    }
  }
}
