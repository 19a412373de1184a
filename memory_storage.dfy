/**
 * The in-memory fallback store (`MemoryStorage`): a plain key/value object with
 * `getItem`, `setItem`, `removeItem`, a `length` computed from the live keys on
 * every access, and the `isMemoryStorage` marker on its prototype.
 */
module MemoryStore {
  import opened Wrappers

  class MemoryStorage {
    /** The instance's own properties: one per stored key. */
    var items: map<string, string>

    /** The prototype marker that tells the facade the store is not durable. */
    const isMemoryStorage: bool := true

    constructor ()
      ensures items == map[]
    {
      items := map[];
    }

    /** The `length` getter: recomputed from the keys, never cached. */
    function Length(): (n: nat)
      reads this
      ensures n == |items.Keys|
      ensures n == 0 <==> items == map[]
    {
      |items|
    }

    /** `getItem`: the stored value, or absent if never written or removed. */
    method GetItem(key: string) returns (value: Option<string>)
      ensures value.Some? <==> key in items
      ensures value.Some? ==> value.value == items[key]
    {
      value := if key in items then Some(items[key]) else None;
    }

    /** `setItem`: stores `value` under `key`, overwriting a prior value. */
    method SetItem(key: string, value: string)
      modifies this
      ensures items == old(items)[key := value]
      ensures Length() == old(Length()) + (if key in old(items) then 0 else 1)
    {
      items := items[key := value];
    }

    /** `removeItem`: deletes `key`; nothing happens when it is absent. */
    method RemoveItem(key: string)
      modifies this
      ensures items == old(items) - {key}
      ensures Length() == old(Length()) - (if key in old(items) then 1 else 0)
    {
      items := items - {key};
    }
  }
}
