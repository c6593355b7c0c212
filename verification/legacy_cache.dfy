/**
 * The older CacheHandler (models/CacheHandler.py): the same store and the
 * same `insert`, `insert_tmp` and `get`, without `delete` and `clear`.  Its
 * operations are proved against the same specification functions as the
 * newer handler's, so every lemma of module Cache holds of it too.
 */
module LegacyCache {
  import opened Cache

  /** CacheHandler of models/CacheHandler.py over the modelled store. */
  class LegacyCacheHandler<K(==), V> {
    /** The entries of the underlying store, expired ones included. */
    var store: Store<K, V>
    /** The wall clock, in seconds. */
    var now: int

    /** Opening the cache directory: the store holds whatever an earlier run left there. */
    constructor (disk: Store<K, V>, clock: int)
      ensures store == disk && now == clock
    {
      store := disk;
      now := clock;
    }

    /** Time passing; no entry changes, some may expire. */
    method AdvanceClock(t: int)
      requires now <= t
      modifies this
      ensures store == old(store) && now == t
    {
      now := t;
    }

    /** `insert`: writes every pair of `data` with no expiry. */
    method Insert(data: map<K, Option<V>>)
      modifies this
      ensures store == Stored(old(store), data, None) && now == old(now)
    {
      var pending := data.Keys;
      while pending != {}
        invariant pending <= data.Keys && now == old(now)
        invariant store == old(store) + map k | k in data.Keys - pending :: Entry(data[k], None)
        decreases pending
      {
        var k :| k in pending;
        store := store[k := Entry(data[k], None)];
        pending := pending - {k};
      }
    }

    /** `insert_tmp`: writes every pair of `data` to expire `secs` seconds from now. */
    method InsertTmp(data: map<K, Option<V>>, secs: int)
      modifies this
      ensures store == Stored(old(store), data, Some(old(now) + secs)) && now == old(now)
    {
      var pending := data.Keys;
      while pending != {}
        invariant pending <= data.Keys && now == old(now)
        invariant store == old(store) + map k | k in data.Keys - pending :: Entry(data[k], Some(now + secs))
        decreases pending
      {
        var k :| k in pending;
        store := store[k := Entry(data[k], Some(now + secs))];
        pending := pending - {k};
      }
    }

    /**
     * `get`: looks up each requested key in order, keeps the values that are
     * not None, and returns the lone value found or else the list found.
     */
    method Get(keys: Keys<K>) returns (r: Got<V>)
      ensures r == Retrieved(store, now, keys)
      ensures Collapsed(r) && Expand(r) == Found(store, now, Requested(keys))
    {
      var ks := if keys.KeyList? then keys.keys else [keys.key];
      var items: seq<V> := [];
      var i := 0;
      while i < |ks|
        invariant 0 <= i <= |ks|
        invariant items == Found(store, now, ks[..i])
      {
        var item := Fetch(store, now, ks[i]);
        if item.Some? {
          items := items + [item.value];
        }
        assert ks[..i + 1][..i] == ks[..i];
        i := i + 1;
      }
      assert ks[..|ks|] == ks;
      r := if |items| == 1 then One(items[0]) else Many(items);
    }
  }
}
