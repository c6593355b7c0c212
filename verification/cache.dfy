/**
 * The expiring key-value cache of the stock predictor.
 *
 * The on-disk store that CacheHandler wraps is modelled as an in-memory map
 * from keys to entries plus an explicit integer clock (seconds).  An entry
 * carries its value (None stands for a stored Python None) and its absolute
 * expiry time, if any; an entry whose expiry time the clock has reached is
 * invisible to every reader, even though it is still physically present.
 *
 * The pure functions below state what the store does; the class
 * CacheHandler (src/models/cache_handler.py) changes its store step by step
 * as the source does and is proved against them.
 */
module Cache {

  datatype Option<+T> = None | Some(value: T)

  /** A stored value (None is a stored Python None) and its absolute expiry time. */
  datatype Entry<V> = Entry(value: Option<V>, expiry: Option<int>)

  type Store<K, V> = map<K, Entry<V>>

  /** An entry is visible at time `now` unless it has an expiry time that `now` has reached. */
  predicate Live<V>(e: Entry<V>, now: int) {
    e.expiry.None? || now < e.expiry.value
  }

  /** `k in cache`: the key has an entry that has not expired. */
  predicate Present<K, V>(s: Store<K, V>, now: int, k: K) {
    k in s && Live(s[k], now)
  }

  /** `cache.get(k)`: the stored value of a live entry, None when missing or expired. */
  function Fetch<K, V>(s: Store<K, V>, now: int, k: K): Option<V> {
    if Present(s, now, k) then s[k].value else None
  }

  /**
   * `cache.get(k, default=sentinel)` as the memoizing wrapper uses it:
   * Some(value) for a live entry, stored None included; None on a miss.
   */
  function Probe<K, V>(s: Store<K, V>, now: int, k: K): (r: Option<Option<V>>)
    ensures r.Some? <==> Present(s, now, k)
    ensures r.Some? ==> r.value == s[k].value
  {
    if Present(s, now, k) then Some(s[k].value) else None
  }

  /** The store after `cache.set(k, v, expire)` for every pair of `data`, all with the same expiry. */
  function Stored<K, V>(s: Store<K, V>, data: map<K, Option<V>>, expiry: Option<int>): Store<K, V> {
    s + map k | k in data :: Entry(data[k], expiry)
  }

  /** The store after deleting, at time `now`, every key of `ks` that is present. */
  function Removed<K, V>(s: Store<K, V>, now: int, ks: seq<K>): Store<K, V> {
    map k | k in s && !(k in ks && Live(s[k], now)) :: s[k]
  }

  /** The argument of `get` and `delete`: one key, or a list of keys. */
  datatype Keys<K> = Key(key: K) | KeyList(keys: seq<K>)

  /** The keys a request names, a single key becoming a one-element list. */
  function Requested<K>(keys: Keys<K>): seq<K> {
    match keys
    case Key(k) => [k]
    case KeyList(ks) => ks
  }

  /** What `get` returns: the lone item found, or the list of items found (possibly empty). */
  datatype Got<V> = One(item: V) | Many(items: seq<V>)

  /** The items a result stands for. */
  function Expand<V>(g: Got<V>): seq<V> {
    match g
    case One(v) => [v]
    case Many(vs) => vs
  }

  /** A result `get` can produce: a list result never holds exactly one item. */
  predicate Collapsed<V>(g: Got<V>) {
    g.Many? ==> |g.items| != 1
  }

  /** `itens[0] if len(itens) == 1 else itens`. */
  function Collapse<V>(items: seq<V>): (g: Got<V>)
    ensures Collapsed(g) && Expand(g) == items
  {
    if |items| == 1 then One(items[0]) else Many(items)
  }

  /** The values found for `ks`, in request order, skipping keys whose lookup is None. */
  function Found<K, V>(s: Store<K, V>, now: int, ks: seq<K>): (items: seq<V>)
    ensures |items| <= |ks|
    decreases |ks|
  {
    if ks == [] then []
    else
      var rest := Found(s, now, ks[..|ks| - 1]);
      match Fetch(s, now, ks[|ks| - 1])
      case Some(v) => rest + [v]
      case None => rest
  }

  /** What `get(keys)` returns on store `s` at time `now`. */
  function Retrieved<K, V>(s: Store<K, V>, now: int, keys: Keys<K>): Got<V> {
    Collapse(Found(s, now, Requested(keys)))
  }

  // ---------------------------------------------------------------------
  // Properties of the lookup

  /** On every result `get` can produce, collapsing undoes expanding (`Collapse` states the converse). */
  lemma CollapseRoundTrip<V>(g: Got<V>)
    ensures Collapsed(g) ==> Collapse(Expand(g)) == g
  {
  }

  /** Looking up a concatenation of key lists concatenates the findings: request order is kept. */
  lemma {:induction false} FoundAppend<K, V>(s: Store<K, V>, now: int, a: seq<K>, b: seq<K>)
    ensures Found(s, now, a + b) == Found(s, now, a) + Found(s, now, b)
    decreases |b|
  {
    if b == [] {
      assert a + b == a;
    } else {
      var b' := b[..|b| - 1];
      assert (a + b)[..|a + b| - 1] == a + b';
      assert (a + b)[|a + b| - 1] == b[|b| - 1];
      FoundAppend(s, now, a, b');
    }
  }

  /** A value is found exactly when some requested key looks it up. */
  lemma {:induction false} FoundMembers<K, V>(s: Store<K, V>, now: int, ks: seq<K>, v: V)
    ensures v in Found(s, now, ks) <==> exists i :: 0 <= i < |ks| && Fetch(s, now, ks[i]) == Some(v)
    decreases |ks|
  {
    if ks != [] {
      var init := ks[..|ks| - 1];
      FoundMembers(s, now, init, v);
      if exists i :: 0 <= i < |init| && Fetch(s, now, init[i]) == Some(v) {
        var i :| 0 <= i < |init| && Fetch(s, now, init[i]) == Some(v);
        assert ks[i] == init[i];
      }
      if exists i :: 0 <= i < |ks| && Fetch(s, now, ks[i]) == Some(v) {
        var i :| 0 <= i < |ks| && Fetch(s, now, ks[i]) == Some(v);
        if i < |init| {
          assert init[i] == ks[i];
        }
      }
    }
  }

  /** Two stores (at two times) that look up every requested key alike give the same findings. */
  lemma {:induction false} FoundAgree<K, V>(s1: Store<K, V>, now1: int, s2: Store<K, V>, now2: int, ks: seq<K>)
    requires forall i :: 0 <= i < |ks| ==> Fetch(s1, now1, ks[i]) == Fetch(s2, now2, ks[i])
    ensures Found(s1, now1, ks) == Found(s2, now2, ks)
    decreases |ks|
  {
    if ks != [] {
      var init := ks[..|ks| - 1];
      assert forall i :: 0 <= i < |init| ==> init[i] == ks[i];
      FoundAgree(s1, now1, s2, now2, init);
    }
  }

  /** When no requested key looks anything up, nothing is found. */
  lemma {:induction false} FoundNothing<K, V>(s: Store<K, V>, now: int, ks: seq<K>)
    requires forall i :: 0 <= i < |ks| ==> Fetch(s, now, ks[i]).None?
    ensures Found(s, now, ks) == []
    decreases |ks|
  {
    if ks != [] {
      var init := ks[..|ks| - 1];
      assert forall i :: 0 <= i < |init| ==> init[i] == ks[i];
      FoundNothing(s, now, init);
    }
  }

  /**
   * `get(k)` is `get([k])`; it returns the value itself when the key looks up
   * a value, and the empty list when the key is missing, expired or holds None.
   */
  lemma GetSingleKey<K, V>(s: Store<K, V>, now: int, k: K)
    ensures Retrieved(s, now, Key(k)) == Retrieved(s, now, KeyList([k]))
    ensures Retrieved(s, now, Key(k)) == if Fetch(s, now, k).Some? then One(Fetch(s, now, k).value) else Many([])
  {
    assert [k][..0] == [];
  }

  // ---------------------------------------------------------------------
  // Properties of the writes

  /** After `insert(data)`, `get(k)` returns `data[k]` for every key whose value is not None, at any later time. */
  lemma GetAfterInsert<K, V>(s: Store<K, V>, data: map<K, Option<V>>, t: int, k: K)
    requires k in data
    ensures Retrieved(Stored(s, data, None), t, Key(k)) == if data[k].Some? then One(data[k].value) else Many([])
  {
    GetSingleKey(Stored(s, data, None), t, k);
  }

  /**
   * After `insert_tmp(data, secs)` at time `now`, `get(k)` at time `t` returns
   * `data[k]` while `t < now + secs`, and nothing from then on.
   */
  lemma GetAfterInsertTmp<K, V>(s: Store<K, V>, data: map<K, Option<V>>, now: int, secs: int, t: int, k: K)
    requires k in data
    ensures Retrieved(Stored(s, data, Some(now + secs)), t, Key(k))
         == if t < now + secs && data[k].Some? then One(data[k].value) else Many([])
  {
    GetSingleKey(Stored(s, data, Some(now + secs)), t, k);
  }

  /** A write leaves the result of every `get` that names none of the written keys unchanged. */
  lemma GetIgnoresOtherWrites<K, V>(s: Store<K, V>, data: map<K, Option<V>>, expiry: Option<int>, t: int, keys: Keys<K>)
    requires forall i :: 0 <= i < |Requested(keys)| ==> Requested(keys)[i] !in data
    ensures Retrieved(Stored(s, data, expiry), t, keys) == Retrieved(s, t, keys)
  {
    FoundAgree(Stored(s, data, expiry), t, s, t, Requested(keys));
  }

  /**
   * After `delete(ks)` at time `now`, every listed key looks up nothing from
   * then on, and every other key looks up what it did before.
   */
  lemma LookupAfterDelete<K, V>(s: Store<K, V>, now: int, ks: seq<K>, t: int, k: K)
    requires now <= t
    ensures k in ks ==> Fetch(Removed(s, now, ks), t, k) == None
    ensures k !in ks ==> Fetch(Removed(s, now, ks), t, k) == Fetch(s, t, k)
  {
  }

  /** `delete(k)` followed by `get(k)` returns the empty list. */
  lemma GetAfterDelete<K, V>(s: Store<K, V>, now: int, keys: Keys<K>, k: K)
    requires k in Requested(keys)
    ensures Retrieved(Removed(s, now, Requested(keys)), now, Key(k)) == Many([])
  {
    LookupAfterDelete(s, now, Requested(keys), now, k);
    GetSingleKey(Removed(s, now, Requested(keys)), now, k);
  }

  /** `delete` leaves the result of every `get` that names none of the deleted keys unchanged. */
  lemma GetIgnoresOtherDeletes<K, V>(s: Store<K, V>, now: int, ks: seq<K>, t: int, keys: Keys<K>)
    requires now <= t
    requires forall i :: 0 <= i < |Requested(keys)| ==> Requested(keys)[i] !in ks
    ensures Retrieved(Removed(s, now, ks), t, keys) == Retrieved(s, t, keys)
  {
    var rs := Requested(keys);
    forall i | 0 <= i < |rs|
      ensures Fetch(Removed(s, now, ks), t, rs[i]) == Fetch(s, t, rs[i])
    {
      LookupAfterDelete(s, now, ks, t, rs[i]);
    }
    FoundAgree(Removed(s, now, ks), t, s, t, rs);
  }

  /** After `clear`, `get` finds nothing, whatever keys it is asked for. */
  lemma GetAfterClear<K, V>(s: Store<K, V>, now: int, keys: Keys<K>)
    requires s == map[]
    ensures Retrieved(s, now, keys) == Many([])
  {
    FoundNothing(s, now, Requested(keys));
  }

  // ---------------------------------------------------------------------
  // The handler

  /** CacheHandler of src/models/cache_handler.py over the modelled store. */
  class CacheHandler<K(==), V> {
    /** The entries of the underlying store, expired ones included. */
    var store: Store<K, V>
    /** The wall clock, in seconds. */
    var now: int

    /** Opening the cache directory: the store holds whatever an earlier run left there. */
    constructor (disk: Store<K, V>, clock: int)
      ensures store == disk && now == clock
    {
      store := disk;
      now := clock;
    }

    /** Time passing; no entry changes, some may expire. */
    method AdvanceClock(t: int)
      requires now <= t
      modifies this
      ensures store == old(store) && now == t
    {
      now := t;
    }

    /** `insert`: writes every pair of `data` with no expiry. */
    method Insert(data: map<K, Option<V>>)
      modifies this
      ensures store == Stored(old(store), data, None) && now == old(now)
    {
      var pending := data.Keys;
      while pending != {}
        invariant pending <= data.Keys && now == old(now)
        invariant store == old(store) + map k | k in data.Keys - pending :: Entry(data[k], None)
        decreases pending
      {
        var k :| k in pending;
        store := store[k := Entry(data[k], None)];
        pending := pending - {k};
      }
    }

    /** `insert_tmp`: writes every pair of `data` to expire `secs` seconds from now. */
    method InsertTmp(data: map<K, Option<V>>, secs: int)
      modifies this
      ensures store == Stored(old(store), data, Some(old(now) + secs)) && now == old(now)
    {
      var pending := data.Keys;
      while pending != {}
        invariant pending <= data.Keys && now == old(now)
        invariant store == old(store) + map k | k in data.Keys - pending :: Entry(data[k], Some(now + secs))
        decreases pending
      {
        var k :| k in pending;
        store := store[k := Entry(data[k], Some(now + secs))];
        pending := pending - {k};
      }
    }

    /** `get`: looks up each requested key in order, keeps the values that are not None, and collapses the list. */
    method Get(keys: Keys<K>) returns (r: Got<V>)
      ensures r == Retrieved(store, now, keys)
    {
      var ks := if keys.KeyList? then keys.keys else [keys.key];
      var items: seq<V> := [];
      var i := 0;
      while i < |ks|
        invariant 0 <= i <= |ks|
        invariant items == Found(store, now, ks[..i])
      {
        var item := Fetch(store, now, ks[i]);
        if item.Some? {
          items := items + [item.value];
        }
        assert ks[..i + 1][..i] == ks[..i];
        i := i + 1;
      }
      assert ks[..|ks|] == ks;
      r := if |items| == 1 then One(items[0]) else Many(items);
    }

    /** `delete`: removes each listed key that is present; absent keys are ignored. */
    method Delete(keys: Keys<K>)
      modifies this
      ensures store == Removed(old(store), now, Requested(keys)) && now == old(now)
    {
      var ks := if keys.KeyList? then keys.keys else [keys.key];
      var i := 0;
      while i < |ks|
        invariant 0 <= i <= |ks| && now == old(now)
        invariant store == Removed(old(store), now, ks[..i])
      {
        var k := ks[i];
        assert ks[..i + 1] == ks[..i] + [k];
        if Present(store, now, k) {
          store := store - {k};
        }
        i := i + 1;
      }
      assert ks[..|ks|] == ks;
    }

    /** `clear`: empties the store. */
    method Clear()
      modifies this
      ensures store == map[] && now == old(now)
    {
      store := map[];
    }

    /**
     * The lookup `memoize` performs before calling the wrapped function: a hit
     * for every live entry, a stored None included.
     */
    method MemoLookup(k: K) returns (r: Option<Option<V>>)
      ensures r == Probe(store, now, k)
    {
      if k in store && Live(store[k], now) {
        r := Some(store[k].value);
      } else {
        r := None;
      }
    }
  }

  // ---------------------------------------------------------------------
  // The scenarios of tests/test_cache_handler.py, as clients of the handler

  /** `insert({k: v})` then `get(k)` returns `v`. */
  method InsertThenGet<V>(h: CacheHandler<string, V>, k: string, v: V) returns (r: Got<V>)
    modifies h
    ensures r == One(v)
  {
    h.Insert(map[k := Some(v)]);
    GetAfterInsert(old(h.store), map[k := Some(v)], h.now, k);
    r := h.Get(Key(k));
  }

  /** `delete(k)` then `get(k)` returns the empty list, whatever the store held. */
  method DeleteThenGet<V>(h: CacheHandler<string, V>, k: string) returns (r: Got<V>)
    modifies h
    ensures r == Many([])
  {
    h.Delete(Key(k));
    GetAfterDelete(old(h.store), h.now, Key(k), k);
    r := h.Get(Key(k));
  }

  /** `insert_tmp({k: v}, secs)`: `get(k)` sees `v` at once and the empty list once `secs` have passed. */
  method InsertTmpThenGet<V>(h: CacheHandler<string, V>, k: string, v: V, secs: int, later: int) returns (before: Got<V>, after: Got<V>)
    requires secs > 0 && later >= h.now + secs
    modifies h
    ensures before == One(v) && after == Many([])
  {
    h.InsertTmp(map[k := Some(v)], secs);
    GetAfterInsertTmp(old(h.store), map[k := Some(v)], h.now, secs, h.now, k);
    before := h.Get(Key(k));
    h.AdvanceClock(later);
    GetAfterInsertTmp(old(h.store), map[k := Some(v)], old(h.now), secs, later, k);
    after := h.Get(Key(k));
  }
}
