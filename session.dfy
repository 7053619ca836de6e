/**
 * The browser's local storage as the screens use it: a string-to-string map that
 * `setItem` overwrites one key of, `removeItem` deletes one key from (a no-op when
 * the key is absent, as the Web Storage API of the WHATWG HTML Living Standard
 * specifies), and `getItem` reads, giving `null` for a missing key.
 */
module Session {
  import opened Common

  /** The key login writes and the dashboard, history and promotions screens read. */
  const IdKey: string := "id"
  /** The key logout removes. */
  const UserIdKey: string := "userId"

  class LocalStorage {
    var items: map<string, string>

    constructor (initial: map<string, string>)
      ensures items == initial
    {
      items := initial;
    }

    /** `localStorage.getItem(key)`. */
    function GetItem(key: string): (r: Option<string>)
      reads this
      ensures r.Some? <==> key in items
      ensures r.Some? ==> r.value == items[key]
    {
      if key in items then Some(items[key]) else None
    }

    /** `localStorage.setItem(key, value)`. */
    method SetItem(key: string, value: string)
      modifies this
      ensures items == old(items)[key := value]
    {
      items := items[key := value];
    }

    /** `localStorage.removeItem(key)`. */
    method RemoveItem(key: string)
      modifies this
      ensures items == old(items) - {key}
    {
      items := items - {key};
    }
  }
}
