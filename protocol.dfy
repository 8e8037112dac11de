/**
 * The lock protocol of one FastMutex client as functions on a state value:
 * the shared store and the client's `lockStats`. One call of `lock(key)` is
 * one attempt (LockSpec); the callback that runs after the settle delay is
 * SettleSpec; `release(key)` is ReleaseSpec. The class in module Mutex runs
 * the same steps in place and is proved equal to these functions.
 */
module Protocol {
  import opened Wrappers
  import opened Js
  import opened Store

  const DefaultXPrefix: string := "_MUTEX_LOCK_X_"
  const DefaultYPrefix: string := "_MUTEX_LOCK_Y_"
  const DefaultTimeout: int := 5000
  /** Milliseconds the caller waits after a PendingSettle outcome before it calls Settle. */
  const SettleDelay: int := 50

  /** A client's fixed configuration. */
  datatype Config = Config(clientId: string, xPrefix: string, yPrefix: string, timeout: int)

  function XKey(cfg: Config, key: string): string
  {
    cfg.xPrefix + key
  }

  function YKey(cfg: Config, key: string): string
  {
    cfg.yPrefix + key
  }

  /** The `lockStats` object, shared by every attempt of a client. */
  datatype LockStats = LockStats(
    restartCount: nat,
    locksLost: nat,
    contentionCount: nat,
    acquireDuration: Num,
    acquireStart: Num,
    acquireEnd: Num,
    lockStart: Num,
    lockEnd: Num,
    lockDuration: Num)

  /** The stats a new client starts with; the fields the constructor does not set are `undefined`. */
  const InitialStats := LockStats(0, 0, 0, Val(0), Null, Undefined, Undefined, Undefined, Undefined)

  /** `b` is `a` with the three counters raised by exactly the given amounts and nothing else changed. */
  predicate Bumped(a: LockStats, b: LockStats, dRestart: nat, dLost: nat, dContention: nat)
  {
    && b.restartCount == a.restartCount + dRestart
    && b.locksLost == a.locksLost + dLost
    && b.contentionCount == a.contentionCount + dContention
    && b.(restartCount := a.restartCount, locksLost := a.locksLost, contentionCount := a.contentionCount) == a
  }

  /** No counter of `b` is below that of `a`. */
  predicate CountersLe(a: LockStats, b: LockStats)
  {
    a.restartCount <= b.restartCount && a.locksLost <= b.locksLost && a.contentionCount <= b.contentionCount
  }

  /**
   * `b` is `a` finalised on acquisition at `now`: acquisition ends and the
   * critical section starts at `now`, the acquisition took `now - acquireStart`,
   * and nothing else changed.
   */
  predicate Finalized(a: LockStats, b: LockStats, now: int)
  {
    && b.acquireEnd == Val(now)
    && b.lockStart == Val(now)
    && b.acquireDuration == Minus(Val(now), a.acquireStart)
    && b.(acquireEnd := a.acquireEnd, lockStart := a.lockStart, acquireDuration := a.acquireDuration) == a
  }

  /** `resolveWithStats`: stamp the end of acquisition. */
  function ResolveWithStats(stats: LockStats, now: int): (r: LockStats)
    ensures Finalized(stats, r, now)
    ensures stats.acquireStart.Val? ==> r.acquireDuration == Val(now - stats.acquireStart.v)
    ensures stats.acquireStart.Null? ==> r.acquireDuration == Val(now)
  {
    stats.(acquireEnd := Val(now), acquireDuration := Minus(Val(now), stats.acquireStart), lockStart := Val(now))
  }

  /**
   * Writes by other clients that land between this client's store operations
   * within one attempt: after it writes X, after it reads Y, after it writes Y.
   */
  datatype Interleaving = Interleaving(afterX: Patch, afterYRead: Patch, afterY: Patch)

  /** No other client touches the store during the attempt. */
  const Quiet := Interleaving(map[], map[], map[])

  predicate Patched(inter: Interleaving, k: string)
  {
    k in inter.afterX || k in inter.afterYRead || k in inter.afterY
  }

  /**
   * How a step ends. `Restart`: the caller re-enters Lock on the next tick.
   * `PendingSettle`: the caller calls Settle after the settle delay.
   * `Acquired` carries the stats the promise resolves with.
   */
  datatype Outcome = TimedOut(timeout: int) | Restart | PendingSettle | Acquired(stats: LockStats)

  /** The part of the world a client's steps read and change. */
  datatype State = State(items: Items, stats: LockStats)

  datatype Step = Step(outcome: Outcome, state: State)

  /** The stats once `lock` has started the clock: `acquireStart` is set to `now` when it is falsy. */
  function StartClock(stats: LockStats, now: int): (r: LockStats)
    ensures TruthyNum(stats.acquireStart) ==> r == stats
    ensures !TruthyNum(stats.acquireStart) ==> r.acquireStart == Val(now)
    ensures r.acquireStart.Val? && r == stats.(acquireStart := r.acquireStart)
  {
    if TruthyNum(stats.acquireStart) then stats else stats.(acquireStart := Val(now))
  }

  /** One call of `lock(key)` at time `now`, with other clients' writes `inter` interleaved. */
  function LockSpec(cfg: Config, s: State, key: string, now: int, inter: Interleaving): (r: Step)
    // acquireStart is set only when it is falsy (null, or 0)
    ensures TruthyNum(s.stats.acquireStart) ==> r.state.stats.acquireStart == s.stats.acquireStart
    ensures !TruthyNum(s.stats.acquireStart) ==> r.state.stats.acquireStart == Val(now)
    // the attempt fails exactly when the budget is used up, and then nothing else happens
    ensures r.outcome.TimedOut? <==> now - r.state.stats.acquireStart.v >= cfg.timeout
    ensures var gated := s.stats.(acquireStart := r.state.stats.acquireStart);
      && (r.outcome.TimedOut? ==> r.outcome.timeout == cfg.timeout && r.state == State(s.items, gated))
      && (r.outcome.Restart? ==> Bumped(gated, r.state.stats, 1, 0, 0))
      && (r.outcome.PendingSettle? ==> Bumped(gated, r.state.stats, 0, 0, 1))
      && (r.outcome.Acquired? ==> Finalized(gated, r.state.stats, now) && r.outcome.stats == r.state.stats)
    // past the Y check, the attempt waits for the settle step exactly when X no longer names this client
    ensures !r.outcome.TimedOut? && !r.outcome.Restart? ==>
      (r.outcome.PendingSettle? <==>
        !(XKey(cfg, key) in r.state.items && r.state.items[XKey(cfg, key)].value == cfg.clientId))
    // an attempt that acquires does so within its budget, and X still names this client
    ensures r.outcome.Acquired? ==>
      && r.state.stats.acquireDuration.Val? && r.state.stats.acquireDuration.v < cfg.timeout
      && XKey(cfg, key) in r.state.items && r.state.items[XKey(cfg, key)].value == cfg.clientId
    // only the two flags of `key` change, apart from what other clients write
    ensures forall k :: k != XKey(cfg, key) && k != YKey(cfg, key) && !Patched(inter, k) ==>
      AgreeOn(s.items, r.state.items, k)
  {
    var x := XKey(cfg, key);
    var y := YKey(cfg, key);
    var stats := StartClock(s.stats, now);
    if now - stats.acquireStart.v >= cfg.timeout then
      Step(TimedOut(cfg.timeout), State(s.items, stats))
    else
      var afterX := ApplyPatch(SetItemSpec(s.items, x, cfg.clientId, now, cfg.timeout), inter.afterX);
      var readY := GetItemSpec(afterX, y, now, cfg.timeout);
      if TruthyStr(readY.value) then
        Step(Restart, State(readY.items, stats.(restartCount := stats.restartCount + 1)))
      else
        var afterY := ApplyPatch(SetItemSpec(ApplyPatch(readY.items, inter.afterYRead), y, cfg.clientId, now, cfg.timeout), inter.afterY);
        var readX := GetItemSpec(afterY, x, now, cfg.timeout);
        if readX.value != Some(cfg.clientId) then
          Step(PendingSettle, State(readX.items, stats.(contentionCount := stats.contentionCount + 1)))
        else
          var done := ResolveWithStats(stats, now);
          Step(Acquired(done), State(readX.items, done))
  }

  /** The settle-delay callback of a contended attempt: re-read Y and either win or restart. */
  function SettleSpec(cfg: Config, s: State, key: string, now: int): (r: Step)
    ensures r.outcome.Acquired? || r.outcome.Restart?
    ensures var y := YKey(cfg, key);
      r.outcome.Acquired? <==> y in s.items && s.items[y].value == cfg.clientId && !Expired(s.items[y], now, cfg.timeout)
    ensures r.outcome.Acquired? ==> Finalized(s.stats, r.state.stats, now) && r.outcome.stats == r.state.stats
    ensures r.outcome.Restart? ==> Bumped(s.stats, r.state.stats, 1, 1, 0)
    ensures var y := YKey(cfg, key);
      r.state.items == if y in s.items && Expired(s.items[y], now, cfg.timeout) then s.items - {y} else s.items
  {
    var readY := GetItemSpec(s.items, YKey(cfg, key), now, cfg.timeout);
    if readY.value == Some(cfg.clientId) then
      var done := ResolveWithStats(s.stats, now);
      Step(Acquired(done), State(readY.items, done))
    else
      Step(Restart, State(readY.items, s.stats.(restartCount := s.stats.restartCount + 1, locksLost := s.stats.locksLost + 1)))
  }

  /**
   * The settle step does not check the budget again: when Y still holds this
   * client's live record it acquires however long ago `acquireStart` was,
   * and `acquireDuration` is then the whole time since `acquireStart`.
   */
  lemma SettleIgnoresBudget(cfg: Config, s: State, key: string, now: int)
    requires YKey(cfg, key) in s.items
    requires s.items[YKey(cfg, key)].value == cfg.clientId && !Expired(s.items[YKey(cfg, key)], now, cfg.timeout)
    requires s.stats.acquireStart.Val?
    ensures var r := SettleSpec(cfg, s, key, now);
      r.outcome.Acquired? && r.state.stats.acquireDuration == Val(now - s.stats.acquireStart.v)
  {
  }

  /** An instance: a 50 ms budget, started at 1, settled at 120, acquires after 119 ms. */
  lemma SettlePastBudget()
    ensures var cfg := Config("A", "x", "y", 50);
      var s := State(map["yk" := Record(100, "A")], InitialStats.(acquireStart := Val(1)));
      var r := SettleSpec(cfg, s, "k", 120);
      r.outcome.Acquired? && r.state.stats.acquireDuration == Val(119) && 119 > cfg.timeout
  {
    var cfg := Config("A", "x", "y", 50);
    assert YKey(cfg, "k") == "yk";
    SettleIgnoresBudget(cfg, State(map["yk" := Record(100, "A")], InitialStats.(acquireStart := Val(1))), "k", 120);
  }

  /** `release(key)` at time `now`. */
  function ReleaseSpec(cfg: Config, s: State, key: string, now: int): (r: State)
    ensures r.items == s.items - {YKey(cfg, key)}
    ensures XKey(cfg, key) != YKey(cfg, key) ==> AgreeOn(s.items, r.items, XKey(cfg, key))
    ensures r.stats.lockEnd == Val(now)
    ensures r.stats.lockDuration == Minus(Val(now), s.stats.lockStart)
    ensures s.stats.lockStart.Val? ==> r.stats.lockDuration == Val(now - s.stats.lockStart.v)
    ensures s.stats.lockStart.Undefined? ==> r.stats.lockDuration == NaN
    // in particular acquireStart and the counters are left as they are
    ensures r.stats.(lockEnd := s.stats.lockEnd, lockDuration := s.stats.lockDuration) == s.stats
  {
    var lockEnd := Val(now);
    State(s.items - {YKey(cfg, key)}, s.stats.(lockEnd := lockEnd, lockDuration := Minus(lockEnd, s.stats.lockStart)))
  }

  /** Releasing twice at the same instant is the same as releasing once. */
  lemma ReleaseIdempotent(cfg: Config, s: State, key: string, now: int)
    ensures ReleaseSpec(cfg, ReleaseSpec(cfg, s, key, now), key, now) == ReleaseSpec(cfg, s, key, now)
  {
  }

  /** The X and Y keys of one lock key differ exactly when the prefixes do. */
  lemma KeyInjective(p: string, q: string, key: string)
    ensures p + key == q + key <==> p == q
  {
    if p + key == q + key {
      assert |p| == |q|;
      assert p == (p + key)[..|p|];
      assert q == (q + key)[..|q|];
    }
  }

  /** Y holds a live, non-empty value (an attempt that reads it restarts). */
  predicate YTaken(cfg: Config, items: Items, key: string, now: int)
  {
    var y := YKey(cfg, key);
    y in items && !Expired(items[y], now, cfg.timeout) && items[y].value != ""
  }

  /**
   * An undisturbed attempt within its budget that finds Y taken restarts:
   * X then holds this client's fresh record, Y is unchanged, and only
   * `restartCount` rises, by exactly 1.
   */
  lemma QuietRestart(cfg: Config, s: State, key: string, now: int)
    requires cfg.xPrefix != cfg.yPrefix
    requires now - StartClock(s.stats, now).acquireStart.v < cfg.timeout
    requires YTaken(cfg, s.items, key, now)
    ensures var stats := StartClock(s.stats, now);
      LockSpec(cfg, s, key, now, Quiet)
      == Step(Restart, State(s.items[XKey(cfg, key) := Record(now + cfg.timeout, cfg.clientId)],
                             stats.(restartCount := stats.restartCount + 1)))
  {
    KeyInjective(cfg.xPrefix, cfg.yPrefix, key);
    var afterX := SetItemSpec(s.items, XKey(cfg, key), cfg.clientId, now, cfg.timeout);
    EmptyPatch(afterX);
    var readY := GetItemSpec(afterX, YKey(cfg, key), now, cfg.timeout);
    assert readY == Read(Some(s.items[YKey(cfg, key)].value), afterX);
  }

  /**
   * An undisturbed attempt with a positive timeout, within its budget, that
   * finds Y free acquires at once: X and Y both hold this client's fresh
   * record and the stats are finalised with all three counters unchanged.
   */
  lemma QuietAcquire(cfg: Config, s: State, key: string, now: int)
    requires cfg.xPrefix != cfg.yPrefix && cfg.timeout > 0
    requires now - StartClock(s.stats, now).acquireStart.v < cfg.timeout
    requires !YTaken(cfg, s.items, key, now)
    ensures var mine := Record(now + cfg.timeout, cfg.clientId);
      var done := ResolveWithStats(StartClock(s.stats, now), now);
      LockSpec(cfg, s, key, now, Quiet)
      == Step(Acquired(done), State(s.items[XKey(cfg, key) := mine][YKey(cfg, key) := mine], done))
  {
    var x := XKey(cfg, key);
    var y := YKey(cfg, key);
    var afterY := QuietClaim(cfg, s.items, key, now);
    EmptyPatch(afterY);
    var readX := GetItemSpec(afterY, x, now, cfg.timeout);
    assert readX == Read(Some(cfg.clientId), afterY);
  }

  /**
   * With a non-positive timeout an attempt's own X record is expired as soon
   * as it is written: an undisturbed attempt within its budget that finds Y
   * free deletes X on reading it back and goes to the settle step, raising
   * only `contentionCount`, by exactly 1.
   */
  lemma QuietSelfExpired(cfg: Config, s: State, key: string, now: int)
    requires cfg.xPrefix != cfg.yPrefix && cfg.timeout <= 0
    requires now - StartClock(s.stats, now).acquireStart.v < cfg.timeout
    requires !YTaken(cfg, s.items, key, now)
    ensures var stats := StartClock(s.stats, now);
      LockSpec(cfg, s, key, now, Quiet)
      == Step(PendingSettle, State(s.items[YKey(cfg, key) := Record(now + cfg.timeout, cfg.clientId)] - {XKey(cfg, key)},
                                   stats.(contentionCount := stats.contentionCount + 1)))
  {
    var x := XKey(cfg, key);
    var y := YKey(cfg, key);
    var mine := Record(now + cfg.timeout, cfg.clientId);
    var afterY := QuietClaim(cfg, s.items, key, now);
    EmptyPatch(afterY);
    var readX := GetItemSpec(afterY, x, now, cfg.timeout);
    assert readX == Read(None, afterY - {x});
    assert afterY - {x} == s.items[y := mine] - {x};
  }

  /**
   * The store after an undisturbed attempt has written X, found Y free and
   * written Y: both flags hold this client's fresh record.
   */
  lemma QuietClaim(cfg: Config, items: Items, key: string, now: int) returns (afterY: Items)
    requires cfg.xPrefix != cfg.yPrefix
    requires !YTaken(cfg, items, key, now)
    ensures var x := XKey(cfg, key);
      var y := YKey(cfg, key);
      var mine := Record(now + cfg.timeout, cfg.clientId);
      var readY := GetItemSpec(ApplyPatch(SetItemSpec(items, x, cfg.clientId, now, cfg.timeout), map[]), y, now, cfg.timeout);
      && !TruthyStr(readY.value)
      && afterY == SetItemSpec(ApplyPatch(readY.items, map[]), y, cfg.clientId, now, cfg.timeout)
      && afterY == items[x := mine][y := mine]
  {
    KeyInjective(cfg.xPrefix, cfg.yPrefix, key);
    var x := XKey(cfg, key);
    var y := YKey(cfg, key);
    var mine := Record(now + cfg.timeout, cfg.clientId);
    var afterX := SetItemSpec(items, x, cfg.clientId, now, cfg.timeout);
    EmptyPatch(afterX);
    var readY := GetItemSpec(afterX, y, now, cfg.timeout);
    EmptyPatch(readY.items);
    afterY := SetItemSpec(readY.items, y, cfg.clientId, now, cfg.timeout);
    assert afterY == afterX[y := mine];
  }

  /**
   * An attempt that another client overtakes: Y was free, and after this
   * client claimed Y the other client wrote its own live record `rec` to X.
   * The attempt detects the contention, raises `contentionCount` by exactly
   * 1 and waits for the settle step, with Y holding this client's record
   * and X the other client's.
   */
  lemma OvertakenAttempt(cfg: Config, s: State, key: string, now: int, rec: Record)
    requires cfg.xPrefix != cfg.yPrefix
    requires now - StartClock(s.stats, now).acquireStart.v < cfg.timeout
    requires !YTaken(cfg, s.items, key, now)
    requires rec.value != cfg.clientId && !Expired(rec, now, cfg.timeout)
    ensures var x := XKey(cfg, key);
      var y := YKey(cfg, key);
      var stats := StartClock(s.stats, now);
      LockSpec(cfg, s, key, now, Interleaving(map[], map[], map[x := Some(rec)]))
      == Step(PendingSettle, State(s.items[x := rec][y := Record(now + cfg.timeout, cfg.clientId)],
                                   stats.(contentionCount := stats.contentionCount + 1)))
  {
    var x := XKey(cfg, key);
    var y := YKey(cfg, key);
    var mine := Record(now + cfg.timeout, cfg.clientId);
    KeyInjective(cfg.xPrefix, cfg.yPrefix, key);
    var claimed := QuietClaim(cfg, s.items, key, now);
    var afterY := ApplyPatch(claimed, map[x := Some(rec)]);
    OneKeyPatch(claimed, x, rec);
    assert afterY == s.items[x := rec][y := mine];
    assert GetItemSpec(afterY, x, now, cfg.timeout) == Read(Some(rec.value), afterY);
  }

  /**
   * With equal prefixes X and Y are one key, so the attempt reads back its
   * own X as Y: an undisturbed attempt by a client with a non-empty id and a
   * positive timeout never acquires.
   */
  lemma SharedPrefixNeverAcquires(cfg: Config, s: State, key: string, now: int)
    requires cfg.xPrefix == cfg.yPrefix && cfg.clientId != "" && cfg.timeout > 0
    ensures var r := LockSpec(cfg, s, key, now, Quiet); r.outcome.TimedOut? || r.outcome.Restart?
  {
    var mine := Record(now + cfg.timeout, cfg.clientId);
    assert ApplyPatch(s.items[XKey(cfg, key) := mine], map[]) == s.items[XKey(cfg, key) := mine];
  }
}
