/**
 * The local key-value storage area (`browser.storage.local`) with the
 * semantics of the test double in tests/mocks/browser-mock.js: one object of
 * items that `get` reads and `set`, `remove` and `clear` change in place.
 * Values are copied in and out, as the browser's storage area does.
 */
module KeyValueStore {
  import opened Results
  import opened JsonValues

  /** The argument of `get`: one key, an array of keys, or anything else (the whole store). */
  datatype Query = OneKey(key: string) | KeyList(keys: seq<string>) | Everything

  /** `storage[key]`: undefined for a key that was never set. */
  function Lookup(items: map<string, Json>, key: string): Json {
    if key in items then items[key] else Undefined
  }

  class StorageArea {
    /** The `storage` object the mock's closures share. */
    var items: map<string, Json>
    /**
     * False when every call is rejected. The mock never rejects; the browser's
     * own storage area can, and the callers' catch blocks are written for it.
     */
    var reachable: bool

    constructor ()
      ensures items == map[] && reachable
    {
      items := map[];
      reachable := true;
    }

    /**
     * `get(keys)`. One key: a one-entry result, possibly holding undefined.
     * An array of keys: only those whose stored value is defined. Otherwise the
     * whole store.
     */
    method Get(query: Query) returns (r: Option<map<string, Json>>)
      ensures !reachable ==> r == None
      ensures reachable && query.OneKey? ==> r == Some(map[query.key := Lookup(items, query.key)])
      ensures reachable && query.KeyList? ==>
        r.Some? && forall k :: k in r.value <==> k in query.keys && Lookup(items, k) != Undefined
      ensures reachable && query.KeyList? ==>
        r.Some? && forall k :: k in r.value ==> r.value[k] == Lookup(items, k)
      ensures reachable && query.KeyList? ==>
        r.Some? && forall i :: 0 <= i < |query.keys| ==> Lookup(r.value, query.keys[i]) == Lookup(items, query.keys[i])
      ensures reachable && query.Everything? ==> r == Some(items)
    {
      if !reachable {
        return None;
      }
      match query
      case OneKey(key) =>
        r := Some(map[key := Lookup(items, key)]);
      case KeyList(keys) =>
        var result: map<string, Json> := map[];
        var i := 0;
        while i < |keys|
          invariant 0 <= i <= |keys|
          invariant forall k :: k in result <==> k in keys[..i] && Lookup(items, k) != Undefined
          invariant forall k :: k in result ==> result[k] == Lookup(items, k)
        {
          var key := keys[i];
          if Lookup(items, key) != Undefined {
            result := result[key := items[key]];
          }
          assert keys[..i + 1] == keys[..i] + [key];
          i := i + 1;
        }
        assert keys[..i] == keys;
        r := Some(result);
      case Everything =>
        r := Some(items);
    }

    /** `set(entries)`: overwrites exactly the given keys (Object.assign). */
    method Set(entries: map<string, Json>) returns (ok: bool)
      modifies this
      ensures ok == reachable && reachable == old(reachable)
      ensures items == if ok then old(items) + entries else old(items)
    {
      ok := reachable;
      if ok {
        items := items + entries;
      }
    }

    /** `remove(keys)`: deletes exactly the given keys (a single key `k` is passed as `[k]`). */
    method Remove(keys: seq<string>) returns (ok: bool)
      modifies this
      ensures ok == reachable && reachable == old(reachable)
      ensures items == if ok then old(items) - (set k | k in keys) else old(items)
    {
      ok := reachable;
      if !ok {
        return;
      }
      var i := 0;
      while i < |keys|
        invariant 0 <= i <= |keys| && reachable == old(reachable)
        invariant forall k :: k in items <==> k in old(items) && k !in keys[..i]
        invariant forall k :: k in items ==> items[k] == old(items)[k]
      {
        assert keys[..i + 1] == keys[..i] + [keys[i]];
        items := items - {keys[i]};
        i := i + 1;
      }
      assert keys[..i] == keys;
    }

    /** `clear()`: empties the store. */
    method Clear() returns (ok: bool)
      modifies this
      ensures ok == reachable && reachable == old(reachable)
      ensures items == if ok then map[] else old(items)
    {
      ok := reachable;
      if ok {
        items := map[];
      }
    }
  }
}
