/** The browser's `localStorage`: a string-to-string dictionary that the
    program changes with `setItem`/`removeItem`; reads look the key up in
    `items` (see AuthService.TokenOf and AuthService.CurrentUserOf). */
module Storage {

  class BrowserStorage {
    var items: map<string, string>

    /** Storage as found at page load; its contents are whatever was left there. */
    constructor (initial: map<string, string>)
      ensures items == initial
    {
      items := initial;
    }

    method SetItem(key: string, value: string)
      modifies this
      ensures items == old(items)[key := value]
    {
      items := items[key := value];
    }

    method RemoveItem(key: string)
      modifies this
      ensures items == old(items) - {key}
    {
      items := items - {key};
    }
  }
}
