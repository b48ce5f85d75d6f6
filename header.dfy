/** `shared/layouts/header/header.ts`: the header on every page, with the search
    box, the user's initials and the user menu. */
module HeaderBar {
  import opened Types
  import opened Http
  import opened Text
  import Auth
  import BookPage

  /** The header's `initials` signal: "" when there is no user or the name is
      empty; otherwise the upper-cased first characters of the first two words,
      which is "" again for a name made only of white space. */
  function HeaderInitials(user: Option<MeUser>, upper: char -> char): (r: string)
    ensures user.None? || user.value.name == [] ==> r == []
    ensures user.Some? ==> (r == [] <==> Blank(user.value.name))
    ensures user.Some? ==> var w := WordStarts(user.value.name); r == MapChars(w, upper)[..Min(2, |w|)]
    ensures |r| <= 2
  {
    if user.None? || user.value.name == [] then []
    else
      InitialsShape(user.value.name, upper);
      InitialsAreWordStarts(user.value.name, upper);
      InitialsOf(user.value.name, upper)
  }

  /** The header and the book page compute initials the same way except for the
      empty name, where the header shows "" and the book page "U". */
  lemma HeaderAgreesWithBookPage(name: string, upper: char -> char)
    ensures name != [] ==> HeaderInitials(Some(MeUser(0, "", name)), upper) == BookPage.InitialsFromName(name, upper)
    ensures name == [] ==>
      HeaderInitials(Some(MeUser(0, "", name)), upper) == [] && BookPage.InitialsFromName(name, upper) == "U"
  {
  }

  class Header {
    const browser: Browser
    const auth: Auth.AuthService
    var query: string
    var user: Option<MeUser>
    var menuOpen: bool

    /** The constructor subscribes to `loadMe` and keeps the user it emits. */
    constructor (browser: Browser, auth: Auth.AuthService, me: Response<MeUser>)
      requires auth.browser == browser
      modifies auth`user, browser
      ensures this.browser == browser && this.auth == auth
      ensures query == "" && !menuOpen && user == auth.user
      ensures !old(browser.SignedIn()) ==> user == None && browser.log == old(browser.log)
      ensures old(browser.SignedIn()) ==> browser.log == old(browser.log) + [Send(GetMe)]
      ensures !old(browser.SignedIn()) ==> browser.token == old(browser.token)
      ensures old(browser.SignedIn()) && me.Ok? ==> user == Some(me.payload) && browser.token == old(browser.token)
      ensures old(browser.SignedIn()) && me.Err? ==> user == None && browser.token == None
    {
      this.browser := browser;
      this.auth := auth;
      query := "";
      user := None;
      menuOpen := false;
      new;
      var u := auth.LoadMe(me);
      user := u;
    }

    /** `onSearch()`: a blank query does nothing; otherwise go home with the trimmed
        query as `q` and close the menu. */
    method OnSearch()
      modifies this`menuOpen, browser`log
      ensures Blank(query) ==> browser.log == old(browser.log) && menuOpen == old(menuOpen)
      ensures !Blank(query) ==> browser.log == old(browser.log) + [NavigateHome(Trim(query))] && !menuOpen
    {
      var q := Trim(query);
      if q == [] {
        return;
      }
      browser.GoHome(q);
      menuOpen := false;
    }

    /** `onAvatarClick()`: signed out, go to "/auth"; signed in, toggle the menu. */
    method OnAvatarClick()
      requires auth.browser == browser
      modifies this`menuOpen, browser`log
      ensures !auth.IsAuthed() ==> browser.log == old(browser.log) + [Navigate("/auth")] && menuOpen == old(menuOpen)
      ensures auth.IsAuthed() ==> browser.log == old(browser.log) && menuOpen == !old(menuOpen)
    {
      if !auth.IsAuthed() {
        browser.Go("/auth");
        return;
      }
      menuOpen := !menuOpen;
    }

    /** `onMyBooksClick()`: signed out, go to "/auth"; signed in, close the menu and
        go to "/my-books". */
    method OnMyBooksClick()
      requires auth.browser == browser
      modifies this`menuOpen, browser`log
      ensures !auth.IsAuthed() ==> browser.log == old(browser.log) + [Navigate("/auth")] && menuOpen == old(menuOpen)
      ensures auth.IsAuthed() ==> browser.log == old(browser.log) + [Navigate("/my-books")] && !menuOpen
    {
      if !auth.IsAuthed() {
        browser.Go("/auth");
        return;
      }
      menuOpen := false;
      browser.Go("/my-books");
    }

    /** `logout()`: end the session, forget the user, close the menu, go to "/auth". */
    method Logout()
      requires auth.browser == browser
      modifies this`user, this`menuOpen, auth`user, browser
      ensures browser.token == None && !auth.IsAuthed() && auth.user == None
      ensures user == None && !menuOpen
      ensures browser.log == old(browser.log) + [Navigate("/auth")]
    {
      auth.Logout();
      user := None;
      menuOpen := false;
      browser.Go("/auth");
    }

    /** `go(path)`: close the menu and navigate. */
    method Go(path: string)
      modifies this`menuOpen, browser`log
      ensures !menuOpen && browser.log == old(browser.log) + [Navigate(path)]
    {
      menuOpen := false;
      browser.Go(path);
    }
  }
}
