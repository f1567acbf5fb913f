/**
 * The admin layout: the authentication check against local storage, the redirect to the
 * login page, what the layout renders for each state, and logging out.
 *
 * Local storage is a map from keys to strings; the 500 ms simulated delay before the check
 * and the full page reload after logout are not modelled beyond their outcome.
 */
module AdminLayout {
  import opened Wrappers

  const AUTH_KEY := "adminAuthenticated"
  const LOGIN_PATH := "/admin/login"

  /** `localStorage.getItem("adminAuthenticated") === "true"` */
  predicate IsAdmin(storage: map<string, string>) {
    AUTH_KEY in storage && storage[AUTH_KEY] == "true"
  }

  /** What the layout renders: the loading spinner, the bare page, nothing, or the full dashboard around the page. */
  datatype View = Loader | Children | Nothing | Dashboard

  function Render(isLoading: bool, isAuthenticated: bool, pathname: string): (v: View)
    ensures v == Loader <==> isLoading
    ensures v == Children <==> !isLoading && pathname == LOGIN_PATH
    ensures v == Dashboard <==> !isLoading && isAuthenticated && pathname != LOGIN_PATH
    ensures v == Nothing <==> !isLoading && !isAuthenticated && pathname != LOGIN_PATH
  {
    if isLoading then Loader
    else if pathname == LOGIN_PATH then Children
    else if !isAuthenticated && pathname != LOGIN_PATH then Nothing
    else Dashboard
  }

  /** The redirect effect: after loading, an unauthenticated visit to any page but the login page goes to login. */
  function Redirect(isLoading: bool, isAuthenticated: bool, pathname: string): (target: Option<string>)
    ensures target.Some? ==> target.value == LOGIN_PATH && !isAuthenticated
  {
    if !isLoading && !isAuthenticated && pathname != LOGIN_PATH then Some(LOGIN_PATH) else None
  }

  /** The layout renders nothing exactly when it is redirecting to login, and never shows the dashboard without the flag. */
  lemma RenderMatchesRedirect(isLoading: bool, isAuthenticated: bool, pathname: string)
    ensures Render(isLoading, isAuthenticated, pathname) == Nothing <==> Redirect(isLoading, isAuthenticated, pathname).Some?
    ensures Render(isLoading, isAuthenticated, pathname) == Dashboard ==> Redirect(isLoading, isAuthenticated, pathname).None?
  {
  }

  /** The browser's local storage. */
  class LocalStorage {
    var items: map<string, string>

    constructor (initial: map<string, string>)
      ensures items == initial
    {
      items := initial;
    }

    /** `localStorage.removeItem(key)` */
    method RemoveItem(key: string)
      modifies this
      ensures items == old(items) - {key}
    {
      items := items - {key};
    }
  }

  /** After logging out the flag is gone, so the next check does not authenticate; other keys survive. */
  lemma LogoutRevokesAccess(storage: map<string, string>, key: string)
    requires key != AUTH_KEY && key in storage
    ensures !IsAdmin(storage - {AUTH_KEY})
    ensures key in storage - {AUTH_KEY} && (storage - {AUTH_KEY})[key] == storage[key]
  {
  }

  /** `handleLogout`: drops the flag and sends the browser to the login page. */
  method Logout(storage: LocalStorage) returns (location: string)
    modifies storage
    ensures storage.items == old(storage.items) - {AUTH_KEY}
    ensures !IsAdmin(storage.items)
    ensures location == LOGIN_PATH
  {
    storage.RemoveItem(AUTH_KEY);
    location := LOGIN_PATH;
  }

  class Layout {
    var isAuthenticated: bool
    var isLoading: bool

    constructor ()
      ensures !isAuthenticated && isLoading
    {
      isAuthenticated, isLoading := false, true;
    }

    /** `checkAuth`, once the delay has passed: the flag decides, and loading ends. */
    method CheckAuth(storage: LocalStorage)
      modifies this
      ensures isAuthenticated == IsAdmin(storage.items) && !isLoading
    {
      isAuthenticated := AUTH_KEY in storage.items && storage.items[AUTH_KEY] == "true";
      isLoading := false;
    }

    /** What the layout shows on `pathname` in its current state. */
    function Shown(pathname: string): View
      reads this
    {
      Render(isLoading, isAuthenticated, pathname)
    }
  }
}
