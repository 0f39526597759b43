/**
 * The browser's key/value storage (`localStorage`), shared by every screen.
 * Every value is a string; a missing key reads as `null`.
 */
module BrowserStorage {
  import opened JsValues

  /** `localStorage.getItem(key)` on a snapshot of the storage. */
  function Lookup(items: map<string, string>, key: string): (r: Option<string>)
    ensures r.Some? <==> key in items
    ensures key in items ==> r.value == items[key]
  {
    if key in items then Some(items[key]) else None
  }

  class Storage {
    var items: map<string, string>

    constructor (initial: map<string, string>)
      ensures items == initial
    {
      items := initial;
    }

    /** `localStorage.setItem(key, value)`. */
    method SetItem(key: string, value: string)
      modifies this
      ensures items == old(items)[key := value]
    {
      items := items[key := value];
    }

    /** `localStorage.removeItem(key)`. */
    method RemoveItem(key: string)
      modifies this
      ensures items == old(items) - {key}
    {
      items := items - {key};
    }
  }
}
