/**
 * The navigation bar (`Navbar`): logging out clears the session fields and
 * the two persisted keys and goes home, the menu button flips the mobile
 * menu, and the items on offer depend on whether there is a session token.
 * The persisted store (`localStorage`) is a map from key to value.
 */
module Navbar {
  import opened Common
  import Constants

  const HomePath: string := "/"

  /** The session as the navbar sees it: the shared session fields and the persisted store. */
  datatype Session = Session(token: Option<string>, user: Option<string>, storage: map<string, string>)

  /** What `handleLogout` does to the session. */
  function Logout(s: Session): (r: Session)
    ensures r.token.None? && r.user.None?
    ensures Constants.TokenKey !in r.storage && Constants.UserKey !in r.storage
    ensures forall k :: k != Constants.TokenKey && k != Constants.UserKey ==>
              (k in r.storage <==> k in s.storage) && (k in r.storage ==> r.storage[k] == s.storage[k])
  {
    Session(None, None, s.storage - {Constants.TokenKey, Constants.UserKey})
  }

  /** Logging out twice leaves the same session as logging out once. */
  lemma LogoutIdempotent(s: Session)
    ensures Logout(Logout(s)) == Logout(s)
  {
    var once := Logout(s);
    assert once.storage - {Constants.TokenKey, Constants.UserKey} == once.storage;
  }

  /** An entry of the navigation: a link to a path, or the Logout button. */
  datatype NavItem = LinkTo(caption: string, path: string) | LogoutButton

  /** The items offered for the session token, in order: three fixed links, then by the token. */
  function NavItems(token: Option<string>): (items: seq<NavItem>)
    ensures |items| == 5
    ensures items[..3] == [LinkTo("Home", "/"), LinkTo("Shorten URL", "/shorten"), LinkTo("About", "/about")]
    ensures LinkTo("Dashboard", "/dashboard") in items <==> Truthy(token)
    ensures LogoutButton in items <==> Truthy(token)
    ensures LinkTo("Login", "/login") in items <==> !Truthy(token)
    ensures LinkTo("Register", "/register") in items <==> !Truthy(token)
  {
    [LinkTo("Home", "/"), LinkTo("Shorten URL", "/shorten"), LinkTo("About", "/about")]
    + if Truthy(token) then [LinkTo("Dashboard", "/dashboard"), LogoutButton]
      else [LinkTo("Login", "/login"), LinkTo("Register", "/register")]
  }

  /** The navbar component: the session it shares, the mobile menu flag, and the navigations it made. */
  class NavbarState {
    var token: Option<string>
    var user: Option<string>
    var storage: map<string, string>
    var isMenuOpen: bool
    var navigations: seq<string>

    function SessionOf(): Session
      reads this
    {
      Session(token, user, storage)
    }

    /** A mounted navbar: the menu starts closed. */
    constructor (token: Option<string>, user: Option<string>, storage: map<string, string>)
      ensures SessionOf() == Session(token, user, storage) && !isMenuOpen && navigations == []
    {
      this.token, this.user, this.storage := token, user, storage;
      isMenuOpen := false;
      navigations := [];
    }

    /** `handleLogout`: the session becomes `Logout` of the old one and the app goes to "/". */
    method HandleLogout()
      modifies this
      ensures SessionOf() == Logout(old(SessionOf()))
      ensures navigations == old(navigations) + [HomePath]
      ensures isMenuOpen == old(isMenuOpen)
    {
      token := None;
      user := None;
      storage := storage - {Constants.TokenKey};
      storage := storage - {Constants.UserKey};
      navigations := navigations + [HomePath];
    }

    /** `toggleMenu`: flips the mobile menu; nothing else changes. */
    method ToggleMenu()
      modifies this`isMenuOpen
      ensures isMenuOpen == !old(isMenuOpen)
    {
      isMenuOpen := !isMenuOpen;
    }

    /** The mobile Logout button: logs out and closes the menu. */
    method MobileLogout()
      modifies this
      ensures SessionOf() == Logout(old(SessionOf()))
      ensures navigations == old(navigations) + [HomePath]
      ensures !isMenuOpen
    {
      HandleLogout();
      isMenuOpen := false;
    }

    /** A mobile link: goes to its path and closes the menu. */
    method MobileLink(path: string)
      modifies this`isMenuOpen, this`navigations
      ensures navigations == old(navigations) + [path] && !isMenuOpen
    {
      navigations := navigations + [path];
      isMenuOpen := false;
    }
  }

  /** Toggling the menu twice restores it. */
  method ToggleTwice(n: NavbarState)
    modifies n`isMenuOpen
    ensures n.isMenuOpen == old(n.isMenuOpen)
  {
    n.ToggleMenu();
    n.ToggleMenu();
  }
}
