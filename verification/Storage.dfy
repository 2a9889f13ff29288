/**
 * The browser's `localStorage`: a string-to-string dictionary that survives
 * reloads. Only the three calls the page makes are modelled.
 */
module Storage {
  import opened Wrappers

  class LocalStorage {
    /** The entries currently held by the store. */
    var items: map<string, string>

    constructor (initial: map<string, string>)
      ensures items == initial
    {
      items := initial;
    }

    /** `getItem(key)`: the stored value, or `null` when the key is absent. */
    method GetItem(key: string) returns (v: Option<string>)
      ensures v.Some? <==> key in items
      ensures v.Some? ==> v.value == items[key]
    {
      if key in items {
        v := Some(items[key]);
      } else {
        v := None;
      }
    }

    /** `setItem(key, value)`: creates or overwrites exactly one entry. */
    method SetItem(key: string, value: string)
      modifies this
      ensures items == old(items)[key := value]
    {
      items := items[key := value];
    }

    /** `removeItem(key)`: deletes one entry; absent keys are left alone. */
    method RemoveItem(key: string)
      modifies this
      ensures items == old(items) - {key}
    {
      items := items - {key};
    }
  }
}
