/** The browser state the A/B scripts touch: `localStorage` and the page environment. */
module Browser {
  import opened Wrappers

  /** `window.localStorage`: a string-to-string store updated in place. */
  class LocalStorage {
    var items: map<string, string>

    constructor (initial: map<string, string>)
      ensures items == initial
    {
      items := initial;
    }

    /** `getItem(key)`: `null` (here `None`) when the key was never set. */
    function GetItem(key: string): (r: Option<string>)
      reads this
      ensures r.Some? <==> key in items
      ensures r.Some? ==> r.value == items[key]
    {
      if key in items then Some(items[key]) else None
    }

    /** `setItem(key, value)`: overwrites one key and no other. */
    method SetItem(key: string, value: string)
      modifies this
      ensures items == old(items)[key := value]
    {
      items := items[key := value];
    }
  }

  /**
   * What a script reads from the page besides storage: `Date.now()`, the ISO
   * time of `new Date().toISOString()`, `navigator.userAgent` and
   * `document.referrer` (the empty string when there is none).
   */
  datatype Env = Env(nowMs: nat, nowIso: string, userAgent: string, referrer: string)
}
