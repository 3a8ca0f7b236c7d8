/** The admin login screen (src/components/AdminLogin.jsx): a fixed credential pair checked in the
    browser, with no call to the backend. */
module AdminLogin {
  import opened Wrappers
  import Web
  import App
  import AuthSlice

  const ADMIN_ID := "Admin"
  const ADMIN_PASSWORD := "Admin123"
  const INVALID_CREDENTIALS := "Invalid credentials"
  const HOME_PATH := "/"
  /** The value written under `isAdminLoggedIn`. */
  const LOGGED_IN := "true"

  /** Everything one login attempt decides: the screen's error, the flag handed back to the shell, and the
      browser's storage and location. */
  datatype Attempt = Attempt(
    error: Option<string>,
    isAuthenticated: bool,
    storage: map<string, string>,
    location: string)

  /** `handleLogin`: strict equality on both fields; the whole effect of one attempt. */
  function TryLogin(userId: string, password: string, storage: map<string, string>, location: string): (a: Attempt)
    ensures a.isAuthenticated <==> userId == ADMIN_ID && password == ADMIN_PASSWORD
    ensures a.isAuthenticated ==>
              a.error.None? && a.location == HOME_PATH && a.storage == storage[Web.IS_ADMIN_LOGGED_IN := LOGGED_IN]
    ensures !a.isAuthenticated ==> a.error == Some(INVALID_CREDENTIALS) && a.storage == storage && a.location == location
  {
    if userId == ADMIN_ID && password == ADMIN_PASSWORD then
      Attempt(None, true, storage[Web.IS_ADMIN_LOGGED_IN := LOGGED_IN], HOME_PATH)
    else
      Attempt(Some(INVALID_CREDENTIALS), false, storage, location)
  }

  /** A login never touches `adminToken`, the key the start-up check and the store read: a successful
      attempt does not survive a reload unless a token was already stored. */
  lemma {:induction false} LoginLeavesTokenAlone(userId: string, password: string, storage: map<string, string>, location: string)
    ensures Web.GetItem(TryLogin(userId, password, storage, location).storage, Web.ADMIN_TOKEN)
         == Web.GetItem(storage, Web.ADMIN_TOKEN)
    ensures App.AfterMount(false, TryLogin(userId, password, storage, location).storage) == App.AfterMount(false, storage)
    ensures AuthSlice.Initial(TryLogin(userId, password, storage, location).storage).token
         == AuthSlice.Initial(storage).token
  {
    var a := TryLogin(userId, password, storage, location);
    assert Web.ADMIN_TOKEN != Web.IS_ADMIN_LOGGED_IN;
    assert Web.GetItem(a.storage, Web.ADMIN_TOKEN) == Web.GetItem(storage, Web.ADMIN_TOKEN);
  }

  /** After an attempt the shell shows the dashboard exactly when the credentials matched, and the login
      screen otherwise. */
  lemma AttemptDecidesView(userId: string, password: string, storage: map<string, string>, location: string)
    ensures var a := TryLogin(userId, password, storage, location);
      App.Render(a.isAuthenticated, a.location)
        == if userId == ADMIN_ID && password == ADMIN_PASSWORD then App.PageView(App.Dashboard) else App.LoginView
  {
  }

  /** The screen's own state: the credentials object and the `error`, `showPassword` and `loading` hooks. */
  class LoginForm {
    var userId: string
    var password: string
    var error: Option<string>
    var showPassword: bool
    var loading: bool

    constructor ()
      ensures userId == "" && password == "" && error.None? && !showPassword && !loading
    {
      userId := "";
      password := "";
      error := None;
      showPassword := false;
      loading := false;
    }

    /** The user-id field's `onChange`. */
    method SetUserId(value: string)
      modifies this
      ensures userId == value && password == old(password)
      ensures error == old(error) && showPassword == old(showPassword) && loading == old(loading)
    {
      userId := value;
    }

    /** The password field's `onChange`. */
    method SetPassword(value: string)
      modifies this
      ensures password == value && userId == old(userId)
      ensures error == old(error) && showPassword == old(showPassword) && loading == old(loading)
    {
      password := value;
    }

    /** The visibility toggle. */
    method ToggleShowPassword()
      modifies this
      ensures showPassword == !old(showPassword)
      ensures userId == old(userId) && password == old(password) && error == old(error) && loading == old(loading)
    {
      showPassword := !showPassword;
    }

    /** `handleLogin`: clears the error, checks the pair, writes storage, the shell's flag and the location
        on success, the error and the flag on failure, and always ends with `loading` false. */
    method HandleLogin(app: App.AppState, browser: Web.Browser)
      modifies this, app, browser
      ensures var a := TryLogin(old(userId), old(password), old(browser.storage), old(browser.location));
        && error == a.error
        && app.isAuthenticated == a.isAuthenticated
        && browser.storage == a.storage
        && browser.location == a.location
      ensures !loading
      ensures userId == old(userId) && password == old(password) && showPassword == old(showPassword)
    {
      loading := true;
      error := None;
      if userId == ADMIN_ID && password == ADMIN_PASSWORD {
        browser.SetItem(Web.IS_ADMIN_LOGGED_IN, LOGGED_IN);
        app.SetIsAuthenticated(true);
        browser.GoTo(HOME_PATH);
      } else {
        error := Some(INVALID_CREDENTIALS);
        app.SetIsAuthenticated(false);
      }
      loading := false;
    }
  }
}
