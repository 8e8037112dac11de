/**
 * The storage side of FastMutex: the shared key-value store (`localStorage`)
 * and the TTL envelope that `setItem` and `getItem` put around every stored
 * value. A stored entry is modelled as its decoded record; the JSON text it
 * is kept as in the store is not modelled.
 */
module Store {
  import opened Wrappers

  /** The envelope `{expiresAt, value}` written under every key. */
  datatype Record = Record(expiresAt: int, value: string)

  /** The contents of the shared store. */
  type Items = map<string, Record>

  /** `m` and `m'` hold the same entry (or both none) under `k`. */
  predicate AgreeOn(m: Items, m': Items, k: string)
  {
    (k in m <==> k in m') && (k in m ==> m[k] == m'[k])
  }

  /**
   * The reader's expiry test. `expiresAt` already includes the writer's
   * timeout and the reader subtracts its own timeout again.
   */
  predicate Expired(rec: Record, now: int, timeout: int)
  {
    now - rec.expiresAt >= timeout
  }

  /** `setItem(key, value)` at time `now`, for a client with the given timeout. */
  function SetItemSpec(items: Items, key: string, value: string, now: int, timeout: int): (r: Items)
    ensures key in r && r[key] == Record(now + timeout, value)
    ensures r.Keys == items.Keys + {key}
    ensures forall k :: k != key ==> AgreeOn(items, r, k)
  {
    items[key := Record(now + timeout, value)]
  }

  /** What `getItem` returns, and the store it leaves behind. */
  datatype Read = Read(value: Option<string>, items: Items)

  /**
   * `getItem(key)` at time `now`: a missing key reads as null; an expired
   * record is deleted and reads as null; a live record reads as its value.
   */
  function GetItemSpec(items: Items, key: string, now: int, timeout: int): (r: Read)
    ensures r.value.Some? <==> key in r.items
    ensures key in r.items ==> key in items && r.items[key] == items[key]
    ensures key in r.items ==> r.value == Some(items[key].value) && !Expired(items[key], now, timeout)
    ensures key in items ==> (key in r.items <==> !Expired(items[key], now, timeout))
    ensures forall k :: k != key ==> AgreeOn(items, r.items, k)
  {
    if key !in items then Read(None, items)
    else if Expired(items[key], now, timeout) then Read(None, items - {key})
    else Read(Some(items[key].value), items)
  }

  /**
   * What other clients sharing the store write while this one is between
   * two of its own store operations: `Some(rec)` overwrites a key with `rec`,
   * `None` removes it; keys outside the patch are left alone.
   */
  type Patch = map<string, Option<Record>>

  function ApplyPatch(items: Items, p: Patch): (r: Items)
    ensures forall k :: k in p && p[k].Some? ==> k in r && r[k] == p[k].value
    ensures forall k :: k in p && p[k].None? ==> k !in r
    ensures forall k :: k !in p ==> AgreeOn(items, r, k)
  {
    map k | k in items.Keys + p.Keys && (k in p ==> p[k].Some?) :: if k in p then p[k].value else items[k]
  }

  /** An empty patch leaves the store as it is. */
  lemma EmptyPatch(items: Items)
    ensures ApplyPatch(items, map[]) == items
  {
  }

  /** A patch that overwrites one key is a plain write of that key. */
  lemma OneKeyPatch(items: Items, k: string, rec: Record)
    ensures ApplyPatch(items, map[k := Some(rec)]) == items[k := rec]
  {
  }

  /**
   * A record written at `t` reads back as its value at `t2` exactly when
   * `t2 < t + 2 * timeout`, and reading it then leaves the store as written.
   * In particular it reads back at its own write time when `timeout > 0`.
   */
  lemma ReadBackWindow(items: Items, key: string, value: string, t: int, t2: int, timeout: int)
    ensures var w := SetItemSpec(items, key, value, t, timeout);
      && (GetItemSpec(w, key, t2, timeout).value == Some(value) <==> t2 < t + 2 * timeout)
      && (t2 < t + 2 * timeout ==> GetItemSpec(w, key, t2, timeout).items == w)
      && (t2 >= t + 2 * timeout ==> GetItemSpec(w, key, t2, timeout).items == w - {key})
  {
  }

  /** The shared key-value store (`localStorage`): plain get, set and remove on string keys. */
  class Storage {
    var items: Items

    constructor ()
      ensures items == map[]
    {
      items := map[];
    }

    method GetItem(key: string) returns (r: Option<Record>)
      ensures r.Some? <==> key in items
      ensures r.Some? ==> r.value == items[key]
    {
      r := if key in items then Some(items[key]) else None;
    }

    method SetItem(key: string, rec: Record)
      modifies this
      ensures items == old(items)[key := rec]
    {
      items := items[key := rec];
    }

    method RemoveItem(key: string)
      modifies this
      ensures items == old(items) - {key}
    {
      items := items - {key};
    }

    /** Other clients' writes land in the store. */
    method Interfere(p: Patch)
      modifies this
      ensures items == ApplyPatch(old(items), p)
    {
      items := ApplyPatch(items, p);
    }
  }
}
