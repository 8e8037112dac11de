# FastMutex in Dafny

A model of the `FastMutex` class of the fast-mutex JavaScript library
(`index.js`), with proofs about it. FastMutex is a lock for independent
clients, for example browser tabs, that share nothing but a key-value
store (`localStorage`). It is a variant of Lamport's fast mutual-exclusion
algorithm: each lock key is guarded by two flags. `X(key)` records the last
client that declared intent. `Y(key)` is present while the lock is claimed
or held. Every value is stored inside a time-to-live envelope, so that the
flags of a client that crashed expire.

The model has these parts:

- `wrappers.dfy`: `Option`, for JavaScript's value-or-`null`.
- `js.dfy`: the JavaScript value rules that the statistics depend on.
  `undefined`, `null`, `NaN` and numbers; subtraction (`null` counts as 0,
  `undefined` gives `NaN`); truthiness (`0`, `null` and `""` are falsy).
- `store.dfy`: the stored record `{expiresAt, value}`; `setItem` and
  `getItem` as functions on the store's contents (`SetItemSpec`,
  `GetItemSpec`); the shared store itself as the class `Storage`.
- `protocol.dfy`: the client's steps as functions on a state made of the
  store and the `lockStats` record. `LockSpec` is one call of `lock(key)`.
  `SettleSpec` is the callback that runs after the 50 ms settle delay.
  `ReleaseSpec` is `release(key)`. `ResolveWithStats` is the helper of the
  same name.
- `mutex.dfy`: the class `FastMutex`. Its configuration fields, the shared
  `Storage` object and the `lockStats` field that its methods update in
  place. Each method runs the source's steps, one store call at a time,
  and is proved to end in the state the matching `protocol.dfy` function
  gives.
- `chains.dfy`: histories of one client. A history is any sequence of its
  attempts, settle steps and releases, with other clients' writes in
  between. The lemmas here hold for every history.
- `scenarios.dfy`: concrete one- and two-client runs on one store, each
  with the outcome and statistics it ends in.

The `setTimeout` and `Promise` plumbing becomes explicit outcomes. `Lock`
returns `TimedOut`, `Restart`, `PendingSettle` or `Acquired`. On
`Restart` the caller calls `Lock` again, as the source does on the next
tick. On `PendingSettle` it calls `Settle` after `SettleDelay`. The clock
is a parameter `now`. The store operations inside one synchronous step
share one instant.

Other clients can write to the shared store while an attempt is in
progress, and that is where contention comes from. The parameter
`Interleaving` of `Lock` stands for those writes. It holds three patches:
one after the X write, one after the Y read and one after the Y write.
`Quiet` means nobody else wrote. Between this client's calls, other
clients' writes are `Storage.Interfere` (or `Chains.Foreign` in a
history).

## Behaviour of the code that the proofs make explicit

- A record stays readable until its write time plus twice the timeout.
  `expiresAt` already includes the timeout, and the expiry test in
  `getItem` subtracts the timeout again (`Store.ReadBackWindow`).
- `acquireStart` is never reset: not after an acquisition, a release or a
  timeout. So the first `lock` of a client fixes its time budget for the
  client's whole life. Every attempt once that budget is spent times out,
  even on a free store (`Chains.BudgetNeverRenewed`,
  `Scenarios.BudgetNotRenewed`). Nothing resets `acquireStart`, so a
  later `lock` chain does not get a fresh budget.
- `!acquireStart` is also true when `acquireStart` is 0. A first `lock` at
  time 0 therefore leaves a budget that the next attempt restarts.
- The settle callback does not check the budget again. When Y still holds
  this client's live record it acquires however long ago `acquireStart`
  was, so an acquisition through it can take longer than the timeout
  (`Protocol.SettleIgnoresBudget`; `Protocol.SettlePastBudget` has a 50 ms
  budget acquired after 119 ms). An attempt that acquires directly always
  takes less than the timeout (`Protocol.LockSpec`).
- If the X and Y prefixes are equal, an attempt reads back its own X as
  Y. When the client id is non-empty, the timeout is positive and no other
  client writes during the attempt, it therefore only restarts or times out
  (`Protocol.SharedPrefixNeverAcquires`). With an empty client id the
  read-back value is falsy and such an attempt can acquire.
- `release` before any acquisition sets `lockDuration` to `NaN`, because
  `lockStart` is `undefined` at that point.

## Model

| member | source | states |
|---|---|---|
| `Store.Expired` | index.js:130 | the reader's expiry test (definition): `now - expiresAt >= timeout`, with the reader's own timeout |
| `Store.SetItemSpec` | index.js:115-120 | the key now holds `{expiresAt: now + timeout, value}`; no other key changes |
| `Store.GetItemSpec` | index.js:125-137 | a value comes back exactly when the key survives the read; a missing key reads null and nothing changes; an expired record is deleted and reads null; a live record reads as its value and stays; no other key changes |
| `Store.ReadBackWindow` | index.js:115-136 | a record written at t reads back as its value at t2 iff t2 < t + 2·timeout, leaving the store as written; otherwise the read deletes it |
| `Store.Storage.GetItem` | index.js:126 | the raw store lookup returns the stored record, or nothing for a missing key |
| `Store.Storage.SetItem` | index.js:116 | the raw store write replaces the one key |
| `Store.Storage.RemoveItem` | index.js:132 | the raw store delete removes the one key, a no-op if it is missing |
| `Js.ToNumber` | index.js:17 | JavaScript's number conversion inside `-`: a number stays, `null` becomes 0, `undefined` and `NaN` become `NaN` |
| `Js.TruthyNum` | index.js:45 | `!!n` on a stats value (definition): true only for a number other than 0, so `undefined`, `null`, `NaN` and 0 are falsy |
| `Js.TruthyStr` | index.js:60 | `!!s` on what `getItem` returns (definition): true only for a non-empty string, so `null` and `""` are falsy |
| `Js.Minus` | index.js:106 | JavaScript subtraction on the stats values: a number exactly when both sides convert to numbers (`null` as 0), else `NaN` |
| `Protocol.XKey` | index.js:42 | the X flag's key (definition): `xPrefix + key` |
| `Protocol.YKey` | index.js:43 | the Y flag's key (definition): `yPrefix + key`, also the key `release` removes (index.js:102) |
| `Protocol.ResolveWithStats` | index.js:14-20 | `acquireEnd = lockStart = now`, `acquireDuration = now - acquireStart`, counters and every other field unchanged |
| `Protocol.LockSpec` | index.js:40-97 | `acquireStart` is set to `now` only when falsy; the attempt times out iff `now - acquireStart >= timeout`, with no store change and no counter change; Restart raises `restartCount` by exactly 1, PendingSettle raises `contentionCount` by exactly 1; past the Y check, PendingSettle happens iff X afterwards does not name this client; Acquired finalises the stats with counters unchanged, within the budget, with X naming this client; only the X and Y keys of `key` change, apart from other clients' writes |
| `Protocol.StartClock` | index.js:45-47 | `acquireStart` becomes `now` only when it is falsy (null or 0); otherwise the stats are unchanged; no other field changes |
| `Protocol.QuietRestart` | index.js:56-64 | undisturbed, within budget, Y holding a live non-empty value: Restart, with X holding this client's fresh record, Y and every other key unchanged, and only `restartCount` raised, by exactly 1 |
| `Protocol.QuietAcquire` | index.js:66-96 | undisturbed, within budget, positive timeout, Y free: Acquired at once, with X and Y both holding this client's fresh record and the stats finalised with all three counters unchanged |
| `Protocol.QuietSelfExpired` | index.js:66-92 | undisturbed, within budget, non-positive timeout, Y free: the attempt's own X has already expired, is deleted on read-back, and the attempt goes to the settle step with only `contentionCount` raised, by exactly 1 |
| `Protocol.QuietClaim` | index.js:56-68 | undisturbed, Y free: after writing X, reading Y and writing Y, both flags hold this client's fresh record |
| `Protocol.OvertakenAttempt` | index.js:68-76 | another client's live record written to X after this client claimed Y: PendingSettle, with `contentionCount` raised by exactly 1, Y holding this client's record and X the other's |
| `Protocol.SharedPrefixNeverAcquires` | index.js:42-65 | with equal X and Y prefixes, a non-empty id and a positive timeout, an undisturbed attempt only restarts or times out |
| `Protocol.SettleSpec` | index.js:77-90 | acquires iff Y holds a live record with this client's id, finalising the stats; otherwise `restartCount` and `locksLost` rise by exactly 1 and `contentionCount` stays; only an expired Y is removed |
| `Protocol.SettleIgnoresBudget` | index.js:77-82 | when Y holds this client's live record, the settle step acquires whatever `acquireStart` is, with `acquireDuration = now - acquireStart` |
| `Protocol.SettlePastBudget` | index.js:77-82 | an instance: a 50 ms budget started at 1 and settled at 120 acquires with `acquireDuration` 119 |
| `Protocol.ReleaseSpec` | index.js:100-108 | removes only the Y key (X untouched when the prefixes differ); `lockEnd = now`, `lockDuration = now - lockStart` (`NaN` when `lockStart` is unset); `acquireStart` and the counters unchanged |
| `Protocol.ReleaseIdempotent` | index.js:100-108 | releasing twice at the same instant equals releasing once |
| `Protocol.KeyInjective` | index.js:42-43 | `prefix + key` keys of one lock key are equal iff the prefixes are |
| `Mutex.FastMutex.constructor` | index.js:24-38 | stores the configuration (default prefixes `_MUTEX_LOCK_X_`/`_MUTEX_LOCK_Y_`, timeout 5000) and the initial stats (counters 0, `acquireDuration` 0, `acquireStart` null) |
| `Mutex.FastMutex.SetItem` | index.js:115-120 | the shared store afterwards is `SetItemSpec` of the store before |
| `Mutex.FastMutex.GetItem` | index.js:125-137 | the value returned and the store afterwards are those of `GetItemSpec` |
| `Mutex.FastMutex.Resolve` | index.js:14-20 | the stats afterwards are `ResolveWithStats` of the stats before |
| `Mutex.FastMutex.Lock` | index.js:40-97 | outcome, store and stats afterwards are those of `LockSpec` |
| `Mutex.FastMutex.Settle` | index.js:77-90 | outcome, store and stats afterwards are those of `SettleSpec` |
| `Mutex.FastMutex.Release` | index.js:100-108 | store and stats afterwards are those of `ReleaseSpec`; returns the stats |
| `Chains.Next` | index.js:40-108 | one event never lowers a counter, keeps `locksLost <= restartCount`, and changes only the store keys it touches |
| `Chains.Run` | index.js:40-108 | across any history of locks, settles, releases and foreign writes, no counter goes down and `locksLost <= restartCount` is kept |
| `Chains.StartSticks` | index.js:45-47 | once `acquireStart` is a non-zero time, no history changes it |
| `Chains.StaleBudget` | index.js:45-54 | once `now - acquireStart >= timeout` for a non-zero start, every attempt after any history times out |
| `Chains.BudgetNeverRenewed` | index.js:45-54 | after a new client's first `lock` at a non-zero time t, every attempt at t + timeout or later times out, whatever happened in between |
| `Chains.Untouched` | index.js:42-43 | a store key that no event of a history touches keeps its entry |
| `Chains.NamespaceIsolation` | index.js:42-43 | a client whose prefixes differ from another client's prefixes never changes that client's X or Y record for the same lock key |
| `Scenarios.NoContention` | index.js:94-96 | one client on a free key acquires at once, with all counters 0 and `acquireDuration` 0 |
| `Scenarios.HeldRestarts` | index.js:58-64 | a second client, finding the holder's Y, restarts with `restartCount` 1 |
| `Scenarios.ContentionWon` | index.js:70-82 | an X overwritten after the Y claim gives PendingSettle; Y still own after the delay gives Acquired with `contentionCount` 1, no restart or loss |
| `Scenarios.ContentionLost` | index.js:83-89 | Y taken during the delay gives Restart with `contentionCount` 1, `locksLost` 1, `restartCount` 1 |
| `Scenarios.ExpiredFlagReclaimed` | index.js:126-134 | an expired Y left by a crashed client is deleted on read, and the attempt acquires without a restart |
| `Scenarios.BudgetSpent` | index.js:50-54 | a client with a 50 ms timeout restarts against a held lock, then times out 50 ms after its first attempt |
| `Scenarios.BudgetNotRenewed` | index.js:45-54 | lock, release after 100 ms (`lockDuration` 100), then a lock 5000 ms after the first times out on a free store |

## Left out

- Cross-client mutual exclusion. It rests on the settle delay being longer than a competitor's steps. That is a timing assumption, not a property of this code, so no lemma claims it.
- Timers and promises (`setTimeout`, `new Promise`, `.then(resolve).catch(reject)`). They become the outcomes `Restart` and `PendingSettle`, which tell the caller what to run next. The rejected `Error` becomes `TimedOut(timeout)`.
- The promise resolves with the live `lockStats` object, so later changes stay visible through it. `Acquired` and `Release` return a snapshot value instead.
- `new Date().getTime()` becomes the parameter `now`. All clock reads inside one synchronous step share one instant.
- `randomId` (`Math.random`): the client id is a constructor argument.
- Store failures. If `localStorage.setItem`, `getItem` or `removeItem` throws (a quota error, for example), nothing catches it. Inside the promise executors of `lock` and `release` (index.js:49-97, 103-108) the throw rejects the returned promise. Inside the settle callback (index.js:77-90) the throw, like a `JSON.parse` throw there, is uncaught and leaves the promise of `lock` pending forever. `Store.Storage` never fails, so none of these paths is modelled.
- `JSON.stringify` and `JSON.parse`: the store holds decoded records. A stored string that is not valid JSON makes `JSON.parse` throw. A record whose `value` is not a string is also not modelled.
- `debug` logging and the `window.localStorage` fallback: the store is always passed in.
- JavaScript numbers are doubles. Times are modelled as `int` and counters as `nat`, so precision loss beyond 2^53 and fractional times are not modelled.
- The retry chain that the timers drive is not a loop in the model. `Chains.Run` covers every order in which a caller may issue the steps.
- test.js is not part of this model. It calls an API (`sync`, `localStorageKey`, `id`) that index.js does not have.
