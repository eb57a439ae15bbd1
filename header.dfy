/**
 * The site header: the dark-mode preference resolved from local storage and
 * the system setting, the theme toggle that persists it, and the navigation
 * entries that depend on the signed-in user.
 */
module Header {
  import opened Wrappers

  /**
   * `shouldBeDark`: a saved "dark" wins, any other non-empty saved value means
   * light, and a missing or empty one defers to the system preference.
   */
  function ShouldBeDark(saved: Option<string>, prefersDark: bool): (dark: bool)
    ensures saved == Some("dark") ==> dark
    ensures saved.Some? && saved.value != "" && saved.value != "dark" ==> !dark
    ensures saved.None? || saved == Some("") ==> dark == prefersDark
  {
    saved == Some("dark") || ((saved.None? || saved.value == "") && prefersDark)
  }

  /**
   * The value `toggleTheme` stores under the key "theme"; on the next visit it
   * resolves to the state it stored, whatever the system prefers.
   */
  function StoredTheme(isDark: bool): (s: string)
    ensures s != ""
    ensures forall prefersDark :: ShouldBeDark(Some(s), prefersDark) == isDark
  {
    if isDark then "dark" else "light"
  }

  datatype NavItem = BlogLink | AboutLink | AdminLink | ThemeToggle | LogoutButton

  /** The navigation entries, in order, for a visitor who is or is not signed in. */
  function Nav(signedIn: bool): (items: seq<NavItem>)
    ensures AdminLink in items <==> signedIn
    ensures LogoutButton in items <==> signedIn
    ensures BlogLink in items && AboutLink in items && ThemeToggle in items
    ensures forall i, j :: 0 <= i < j < |items| ==> items[i] != items[j]
  {
    [BlogLink, AboutLink] + (if signedIn then [AdminLink] else []) + [ThemeToggle]
      + (if signedIn then [LogoutButton] else [])
  }

  /** The browser state the header touches: local storage and the root element's class. */
  class Browser {
    var savedTheme: Option<string>
    var darkClass: bool

    constructor (savedTheme: Option<string>)
      ensures this.savedTheme == savedTheme && !darkClass
    {
      this.savedTheme := savedTheme;
      darkClass := false;
    }
  }

  class Header {
    var isDark: bool
    var user: Option<string>
    var location: Option<string>

    constructor ()
      ensures !isDark && user == None && location == None
    {
      isDark := false;
      user := None;
      location := None;
    }

    /** The mount effect's theme step; `prefersDark` is the media query's answer. */
    method ResolveTheme(browser: Browser, prefersDark: bool)
      modifies this`isDark, browser`darkClass
      ensures isDark == ShouldBeDark(browser.savedTheme, prefersDark)
      ensures browser.darkClass == isDark
    {
      isDark := ShouldBeDark(browser.savedTheme, prefersDark);
      browser.darkClass := isDark;
    }

    /** The session lookup and the auth listener both set the user. */
    method SetUser(u: Option<string>)
      modifies this`user
      ensures user == u
    {
      user := u;
    }

    method ToggleTheme(browser: Browser)
      modifies this`isDark, browser
      ensures isDark == !old(isDark)
      ensures browser.darkClass == isDark
      ensures browser.savedTheme == Some(StoredTheme(isDark))
      ensures forall prefersDark :: ShouldBeDark(browser.savedTheme, prefersDark) == isDark
    {
      var newIsDark := !isDark;
      isDark := newIsDark;
      browser.darkClass := newIsDark;
      browser.savedTheme := Some(StoredTheme(newIsDark));
    }

    /** `handleLogout`: the sign-out request, then a move to the home page. */
    method Logout()
      modifies this`location
      ensures location == Some("/")
    {
      location := Some("/");
    }

    function Items(): (items: seq<NavItem>)
      reads this
      ensures AdminLink in items <==> user.Some?
      ensures LogoutButton in items <==> user.Some?
    {
      Nav(user.Some?)
    }
  }
}
