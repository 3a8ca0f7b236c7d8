/** The browser facilities the console touches: `localStorage` as a string map, and the current
    location. Both `window.location.href = …` and react-router's `navigate(…)` set the location; an
    assignment to `href` also reloads the page, which restarts the application from storage
    (`App.Reloaded`), while `navigate` keeps the running application. */
module Web {
  import opened Wrappers

  /** The storage key the app reads at start-up and the HTTP layer reads on every request. */
  const ADMIN_TOKEN := "adminToken"
  /** The storage key the login screen writes. */
  const IS_ADMIN_LOGGED_IN := "isAdminLoggedIn"

  /** `localStorage.getItem(key)`: the stored string, or `null`. */
  function GetItem(storage: map<string, string>, key: string): (v: Option<string>)
    ensures v.Some? <==> key in storage
    ensures v.Some? ==> v.value == storage[key]
  {
    if key in storage then Some(storage[key]) else None
  }

  class Browser {
    var storage: map<string, string>
    var location: string

    constructor (storage0: map<string, string>, location0: string)
      ensures storage == storage0 && location == location0
    {
      storage := storage0;
      location := location0;
    }

    /** `localStorage.setItem(key, value)`. */
    method SetItem(key: string, value: string)
      modifies this
      ensures storage == old(storage)[key := value]
      ensures location == old(location)
    {
      storage := storage[key := value];
    }

    /** `localStorage.removeItem(key)`. */
    method RemoveItem(key: string)
      modifies this
      ensures storage == old(storage) - {key}
      ensures location == old(location)
    {
      storage := storage - {key};
    }

    /** `window.location.href = path` or `navigate(path)`. */
    method GoTo(path: string)
      modifies this
      ensures location == path
      ensures storage == old(storage)
    {
      location := path;
    }
  }
}
