/**
 * Concrete runs of one or two clients on a shared store, with the outcome
 * and statistics each run ends in.
 */
module Scenarios {
  import opened Wrappers
  import opened Js
  import opened Store
  import opened Protocol
  import opened Mutex

  /** A single client on a free key acquires at once, with no restart, loss or contention. */
  method NoContention() returns (r: Outcome, stats: LockStats)
    ensures r.Acquired? && r.stats == stats
    ensures stats.restartCount == 0 && stats.locksLost == 0 && stats.contentionCount == 0
    ensures stats.acquireDuration == Val(0) && stats.lockStart == Val(1000)
  {
    var store := new Storage();
    var a := new FastMutex("A", store);
    QuietAcquire(a.Cfg(), a.World(), "k", 1000);
    r := a.Lock("k", 1000, Quiet);
    stats := a.lockStats;
  }

  /** While one client holds the lock, another client's attempt finds Y set and restarts. */
  method HeldRestarts() returns (r: Outcome, stats: LockStats)
    ensures r == Restart
    ensures stats.restartCount == 1 && stats.locksLost == 0 && stats.contentionCount == 0
  {
    var store := new Storage();
    var a := new FastMutex("A", store);
    var b := new FastMutex("B", store);
    KeyInjective(DefaultXPrefix, DefaultYPrefix, "k");
    QuietAcquire(a.Cfg(), a.World(), "k", 1000);
    var held := a.Lock("k", 1000, Quiet);
    QuietRestart(b.Cfg(), b.World(), "k", 1010);
    r := b.Lock("k", 1010, Quiet);
    stats := b.lockStats;
  }

  /**
   * Client B overwrites X after A claimed Y; A sees the contention, waits the
   * settle delay, still finds its id in Y and acquires.
   */
  method ContentionWon() returns (first: Outcome, second: Outcome, stats: LockStats)
    ensures first == PendingSettle && second.Acquired?
    ensures stats.contentionCount == 1 && stats.restartCount == 0 && stats.locksLost == 0
    ensures stats.acquireDuration == Val(SettleDelay)
  {
    var store := new Storage();
    var a := new FastMutex("A", store);
    var x := DefaultXPrefix + "k";
    var recB := Record(1000 + DefaultTimeout, "B");
    KeyInjective(DefaultXPrefix, DefaultYPrefix, "k");
    OvertakenAttempt(a.Cfg(), a.World(), "k", 1000, recB);
    first := a.Lock("k", 1000, Interleaving(map[], map[], map[x := Some(recB)]));
    second := a.Settle("k", 1000 + SettleDelay);
    stats := a.lockStats;
  }

  /**
   * As above, but B also takes Y during the settle delay: A loses the race
   * and restarts, counting one contention, one lost lock and one restart.
   */
  method ContentionLost() returns (first: Outcome, second: Outcome, stats: LockStats)
    ensures first == PendingSettle && second == Restart
    ensures stats.contentionCount == 1 && stats.restartCount == 1 && stats.locksLost == 1
  {
    var store := new Storage();
    var a := new FastMutex("A", store);
    var x := DefaultXPrefix + "k";
    var y := DefaultYPrefix + "k";
    var recB := Record(1000 + DefaultTimeout, "B");
    KeyInjective(DefaultXPrefix, DefaultYPrefix, "k");
    OvertakenAttempt(a.Cfg(), a.World(), "k", 1000, recB);
    first := a.Lock("k", 1000, Interleaving(map[], map[], map[x := Some(recB)]));
    store.SetItem(y, Record(1020 + DefaultTimeout, "B"));
    second := a.Settle("k", 1000 + SettleDelay);
    stats := a.lockStats;
  }

  /** A Y record left by a crashed client expires and a fresh attempt acquires without restarting. */
  method ExpiredFlagReclaimed() returns (r: Outcome, stats: LockStats)
    ensures r.Acquired?
    ensures stats.restartCount == 0 && stats.locksLost == 0 && stats.contentionCount == 0
  {
    var store := new Storage();
    store.SetItem(DefaultYPrefix + "k", Record(1000 + DefaultTimeout, "crashed"));
    var a := new FastMutex("A", store);
    QuietAcquire(a.Cfg(), a.World(), "k", 1000 + 2 * DefaultTimeout);
    r := a.Lock("k", 1000 + 2 * DefaultTimeout, Quiet);
    stats := a.lockStats;
  }

  /** A client with a 50 ms budget keeps finding the holder's Y and fails once 50 ms are spent. */
  method BudgetSpent() returns (first: Outcome, second: Outcome)
    ensures first == Restart && second == TimedOut(50)
  {
    var store := new Storage();
    var a := new FastMutex("A", store);
    var b := new FastMutex("B", store, timeout := 50);
    KeyInjective(DefaultXPrefix, DefaultYPrefix, "k");
    QuietAcquire(a.Cfg(), a.World(), "k", 1000);
    var held := a.Lock("k", 1000, Quiet);
    QuietRestart(b.Cfg(), b.World(), "k", 1010);
    first := b.Lock("k", 1010, Quiet);
    second := b.Lock("k", 1060, Quiet);
  }

  /**
   * Lock, release, and lock again on a free store: the second lock times
   * out, because the first lock's `acquireStart` is never cleared.
   */
  method BudgetNotRenewed() returns (first: Outcome, released: LockStats, second: Outcome)
    ensures first.Acquired? && released.lockDuration == Val(100)
    ensures second == TimedOut(DefaultTimeout)
  {
    var store := new Storage();
    var a := new FastMutex("A", store);
    QuietAcquire(a.Cfg(), a.World(), "k", 1000);
    first := a.Lock("k", 1000, Quiet);
    released := a.Release("k", 1100);
    second := a.Lock("k", 1000 + DefaultTimeout, Quiet);
  }
}
