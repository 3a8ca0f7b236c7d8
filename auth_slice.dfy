/** The `auth` slice of the Redux store (src/redux/slices/authSlice.js): the session token, whether the
    session counts as authenticated, and the `adminToken` storage entry the two reducers keep beside them. */
module AuthSlice {
  import opened Wrappers
  import Web

  /** The slice state together with the browser storage its reducers write. */
  datatype Session = Session(token: Option<string>, isAuthenticated: bool, storage: map<string, string>)

  /** `localStorage.setItem` turns its value into a string: a `null` payload is stored as the text "null". */
  function Stored(payload: Option<string>): (s: string)
    ensures payload.Some? ==> s == payload.value
    ensures payload.None? ==> s == "null"
  {
    payload.GetOr("null")
  }

  /** `initialState`: the stored token, authenticated iff that value is truthy (present and non-empty). */
  function Initial(storage: map<string, string>): (s: Session)
    ensures s.storage == storage
    ensures s.token == Web.GetItem(storage, Web.ADMIN_TOKEN)
    ensures s.isAuthenticated <==> Web.ADMIN_TOKEN in storage && storage[Web.ADMIN_TOKEN] != ""
  {
    var token := Web.GetItem(storage, Web.ADMIN_TOKEN);
    Session(token, token.Some? && token.value != "", storage)
  }

  /** The `setToken(payload)` reducer. */
  function AfterSetToken(s: Session, payload: Option<string>): (r: Session)
    ensures r.token == payload && r.isAuthenticated
    ensures Web.GetItem(r.storage, Web.ADMIN_TOKEN) == Some(Stored(payload))
    ensures forall k :: k != Web.ADMIN_TOKEN ==> Web.GetItem(r.storage, k) == Web.GetItem(s.storage, k)
  {
    Session(payload, true, s.storage[Web.ADMIN_TOKEN := Stored(payload)])
  }

  /** The `clearToken` reducer. */
  function AfterClearToken(s: Session): (r: Session)
    ensures r.token.None? && !r.isAuthenticated
    ensures Web.GetItem(r.storage, Web.ADMIN_TOKEN).None?
    ensures forall k :: k != Web.ADMIN_TOKEN ==> Web.GetItem(r.storage, k) == Web.GetItem(s.storage, k)
  {
    Session(None, false, s.storage - {Web.ADMIN_TOKEN})
  }

  /** The slice agrees with itself and with storage: authenticated exactly when a token is held, and the
      stored entry is that token. */
  predicate Consistent(s: Session) {
    s.isAuthenticated == s.token.Some? && Web.GetItem(s.storage, Web.ADMIN_TOKEN) == s.token
  }

  /** The start-up state is consistent unless an empty token is stored: "" is held as the token, yet it is
      falsy, so the session is not authenticated. */
  lemma InitialConsistency(storage: map<string, string>)
    ensures Consistent(Initial(storage)) <==> Web.GetItem(storage, Web.ADMIN_TOKEN) != Some("")
  {
  }

  /** Both reducers restore consistency from any state when the payload is not `null`. */
  lemma ReducersKeepConsistency(s: Session, payload: string)
    ensures Consistent(AfterSetToken(s, Some(payload)))
    ensures Consistent(AfterClearToken(s))
  {
  }

  /** A `null` payload breaks it: authenticated with no token, and the text "null" in storage, which the
      next start-up reads back as a token. */
  lemma NullPayloadBreaksConsistency(s: Session)
    ensures !Consistent(AfterSetToken(s, None))
    ensures Initial(AfterSetToken(s, None).storage) == Session(Some("null"), true, AfterSetToken(s, None).storage)
  {
  }

  /** Clearing twice is clearing once, state and storage alike; clearing after a set forgets the set. */
  lemma {:induction false} ClearTokenIdempotent(s: Session, payload: Option<string>)
    ensures AfterClearToken(AfterClearToken(s)) == AfterClearToken(s)
    ensures AfterClearToken(AfterSetToken(s, payload)) == AfterClearToken(s)
  {
    assert AfterClearToken(s).storage - {Web.ADMIN_TOKEN} == AfterClearToken(s).storage;
    assert s.storage[Web.ADMIN_TOKEN := Stored(payload)] - {Web.ADMIN_TOKEN} == s.storage - {Web.ADMIN_TOKEN};
  }

  /** A store reloaded from storage after a reducer sees the same session as the reducer left, for any
      non-empty token. */
  lemma ReloadAgrees(s: Session, payload: string)
    requires payload != ""
    ensures Initial(AfterSetToken(s, Some(payload)).storage) == AfterSetToken(s, Some(payload))
    ensures Initial(AfterClearToken(s).storage) == AfterClearToken(s)
  {
  }

  /** The slice as the store holds it; each reducer also writes the browser's storage. */
  class Auth {
    var token: Option<string>
    var isAuthenticated: bool

    /** The slice state together with the browser storage. */
    function State(browser: Web.Browser): Session
      reads this, browser
    {
      Session(token, isAuthenticated, browser.storage)
    }

    constructor (browser: Web.Browser)
      ensures State(browser) == Initial(browser.storage)
    {
      var stored := Web.GetItem(browser.storage, Web.ADMIN_TOKEN);
      token := stored;
      isAuthenticated := stored.Some? && stored.value != "";
    }

    method SetToken(payload: Option<string>, browser: Web.Browser)
      modifies this, browser
      ensures State(browser) == AfterSetToken(old(State(browser)), payload)
      ensures browser.location == old(browser.location)
    {
      token := payload;
      isAuthenticated := true;
      browser.SetItem(Web.ADMIN_TOKEN, Stored(payload));
    }

    method ClearToken(browser: Web.Browser)
      modifies this, browser
      ensures State(browser) == AfterClearToken(old(State(browser)))
      ensures browser.location == old(browser.location)
    {
      token := None;
      isAuthenticated := false;
      browser.RemoveItem(Web.ADMIN_TOKEN);
    }
  }
}
