/**
 * Histories of one client: any sequence of its own attempts, settle steps
 * and releases, with other clients' writes to the shared store in between.
 * The lemmas here are about every such history.
 */
module Chains {
  import opened Js
  import opened Store
  import opened Protocol

  datatype Op =
    | LockOp(key: string, now: int, inter: Interleaving)
    | SettleOp(key: string, now: int)
    | ReleaseOp(key: string, now: int)
    | Foreign(patch: Patch)

  /** The store keys an event may write or delete. */
  predicate Touches(cfg: Config, op: Op, k: string)
  {
    match op
    case LockOp(key, _, inter) => k == XKey(cfg, key) || k == YKey(cfg, key) || Patched(inter, k)
    case SettleOp(key, _) => k == YKey(cfg, key)
    case ReleaseOp(key, _) => k == YKey(cfg, key)
    case Foreign(p) => k in p
  }

  /** The state after one event. */
  function Next(cfg: Config, s: State, op: Op): (r: State)
    ensures CountersLe(s.stats, r.stats)
    ensures s.stats.locksLost <= s.stats.restartCount ==> r.stats.locksLost <= r.stats.restartCount
    ensures forall k :: !Touches(cfg, op, k) ==> AgreeOn(s.items, r.items, k)
  {
    match op
    case LockOp(key, now, inter) => LockSpec(cfg, s, key, now, inter).state
    case SettleOp(key, now) => SettleSpec(cfg, s, key, now).state
    case ReleaseOp(key, now) => ReleaseSpec(cfg, s, key, now)
    case Foreign(p) => State(ApplyPatch(s.items, p), s.stats)
  }

  /**
   * The state after a history. Across any history the counters never go
   * down, and no more locks are lost than restarts are counted.
   */
  function Run(cfg: Config, s: State, ops: seq<Op>): (r: State)
    ensures CountersLe(s.stats, r.stats)
    ensures s.stats.locksLost <= s.stats.restartCount ==> r.stats.locksLost <= r.stats.restartCount
    decreases |ops|
  {
    if ops == [] then s else Run(cfg, Next(cfg, s, ops[0]), ops[1..])
  }

  /** Once `acquireStart` holds a non-zero time, no event of any history changes it. */
  lemma {:induction false} StartSticks(cfg: Config, s: State, ops: seq<Op>)
    requires TruthyNum(s.stats.acquireStart)
    ensures Run(cfg, s, ops).stats.acquireStart == s.stats.acquireStart
    decreases |ops|
  {
    if ops != [] {
      StartSticks(cfg, Next(cfg, s, ops[0]), ops[1..]);
    }
  }

  /** Once the budget measured from a non-zero `acquireStart` is spent, every later attempt times out. */
  lemma StaleBudget(cfg: Config, s: State, ops: seq<Op>, key: string, now: int, inter: Interleaving)
    requires TruthyNum(s.stats.acquireStart) && now - s.stats.acquireStart.v >= cfg.timeout
    ensures LockSpec(cfg, Run(cfg, s, ops), key, now, inter).outcome.TimedOut?
  {
    StartSticks(cfg, s, ops);
  }

  /**
   * Nothing resets `acquireStart`: the first `lock` of a new client, at a
   * non-zero time `t`, fixes the budget for the client's whole life, so any
   * attempt at `t + timeout` or later times out whatever happened in between
   * (acquisitions and releases included).
   */
  lemma BudgetNeverRenewed(cfg: Config, items: Items, key: string, t: int, inter: Interleaving,
                           ops: seq<Op>, key2: string, now: int, inter2: Interleaving)
    requires t != 0 && now >= t + cfg.timeout
    ensures var first := LockSpec(cfg, State(items, InitialStats), key, t, inter).state;
      LockSpec(cfg, Run(cfg, first, ops), key2, now, inter2).outcome.TimedOut?
  {
    var first := LockSpec(cfg, State(items, InitialStats), key, t, inter).state;
    StaleBudget(cfg, first, ops, key2, now, inter2);
  }

  /** A store key that no event of a history touches keeps its entry. */
  lemma {:induction false} Untouched(cfg: Config, s: State, ops: seq<Op>, k: string)
    requires forall i :: 0 <= i < |ops| ==> !Touches(cfg, ops[i], k)
    ensures AgreeOn(s.items, Run(cfg, s, ops).items, k)
    decreases |ops|
  {
    if ops != [] {
      Untouched(cfg, Next(cfg, s, ops[0]), ops[1..], k);
    }
  }

  /** An event of the client itself on lock key `key`, with no other client writing meanwhile. */
  predicate OwnOn(op: Op, key: string)
  {
    match op
    case LockOp(k, _, inter) => k == key && inter == Quiet
    case SettleOp(k, _) => k == key
    case ReleaseOp(k, _) => k == key
    case Foreign(_) => false
  }

  /**
   * Two clients whose four prefixes are pairwise distinct across them never
   * touch each other's flags for the same lock key: whatever client A does
   * with `key`, client B's X and Y records for `key` stay as they were.
   */
  lemma NamespaceIsolation(a: Config, b: Config, s: State, ops: seq<Op>, key: string)
    requires a.xPrefix != b.xPrefix && a.xPrefix != b.yPrefix
    requires a.yPrefix != b.xPrefix && a.yPrefix != b.yPrefix
    requires forall i :: 0 <= i < |ops| ==> OwnOn(ops[i], key)
    ensures AgreeOn(s.items, Run(a, s, ops).items, XKey(b, key))
    ensures AgreeOn(s.items, Run(a, s, ops).items, YKey(b, key))
  {
    KeyInjective(a.xPrefix, b.xPrefix, key);
    KeyInjective(a.xPrefix, b.yPrefix, key);
    KeyInjective(a.yPrefix, b.xPrefix, key);
    KeyInjective(a.yPrefix, b.yPrefix, key);
    Untouched(a, s, ops, XKey(b, key));
    Untouched(a, s, ops, YKey(b, key));
  }
}
