/** `core/auth/auth.service.ts`: the session. The token lives in the browser's
    storage; the current user is published next to it (`userSubject`). */
module Auth {
  import opened Types
  import opened Http

  /** The body `register` and `login` answer with. */
  datatype AuthResponse = AuthResponse(token: string, user: MeUser)

  class AuthService {
    const browser: Browser
    /** The value `userSubject` currently holds. */
    var user: Option<MeUser>

    constructor (browser: Browser)
      ensures this.browser == browser && user == None
    {
      this.browser := browser;
      user := None;
    }

    /** `get token()` */
    function Token(): Option<string>
      reads browser
    {
      browser.token
    }

    /** `get isAuthed()`: `!!this.token`. */
    predicate IsAuthed()
      reads browser
      ensures IsAuthed() <==> Token().Some? && Token().value != ""
    {
      browser.SignedIn()
    }

    /** Stores the token; publishes the user only when one is given. */
    method SetSession(token: string, user: Option<MeUser>)
      modifies this`user, browser`token
      ensures browser.token == Some(token)
      ensures IsAuthed() <==> token != ""
      ensures this.user == if user.Some? then user else old(this.user)
    {
      browser.token := Some(token);
      if user.Some? {
        this.user := user;
      }
    }

    /** Removes the token and publishes "no user". */
    method ClearSession()
      modifies this`user, browser`token
      ensures browser.token == None && !IsAuthed()
      ensures user == None
    {
      browser.token := None;
      user := None;
    }

    /** Asks the server who is signed in. Without a token nothing is sent and the
        answer is "nobody"; a failed answer ends the session. The result is the
        value the returned observable emits, which is also what `user` now holds. */
    method LoadMe(me: Response<MeUser>) returns (r: Option<MeUser>)
      modifies this`user, browser
      ensures r == user
      ensures !old(IsAuthed()) ==>
        r == None && browser.log == old(browser.log) && browser.token == old(browser.token)
      ensures old(IsAuthed()) ==> browser.log == old(browser.log) + [Send(GetMe)]
      ensures old(IsAuthed()) && me.Ok? ==> r == Some(me.payload) && browser.token == old(browser.token)
      ensures old(IsAuthed()) && me.Err? ==> r == None && browser.token == None
    {
      var sent := RequestMe();
      if !sent {
        return None;
      }
      r := MeArrived(me);
    }

    /** `loadMe()` up to its request: without a token the observable answers
        "nobody" at once and `sent` is false; otherwise `GET /api/auth/me` is sent
        and its answer comes later, through `MeArrived`. */
    method RequestMe() returns (sent: bool)
      modifies this`user, browser`log
      ensures sent <==> old(IsAuthed())
      ensures !sent ==> user == None && browser.log == old(browser.log)
      ensures sent ==> user == old(user) && browser.log == old(browser.log) + [Send(GetMe)]
    {
      if !IsAuthed() {
        user := None;
        return false;
      }
      browser.Issue(GetMe);
      sent := true;
    }

    /** The answer to `GET /api/auth/me`: a user is published; a failure ends the
        session and is turned into "nobody". The result is what `user` now holds. */
    method MeArrived(me: Response<MeUser>) returns (r: Option<MeUser>)
      modifies this`user, browser`token
      ensures r == user
      ensures me.Ok? ==> r == Some(me.payload) && browser.token == old(browser.token)
      ensures me.Err? ==> r == None && browser.token == None
    {
      match me {
        case Ok(u) =>
          user := Some(u);
          r := Some(u);
        case Err(_, _) =>
          ClearSession();
          r := None;
      }
    }

    /** `register(email, password, name = 'User')`: on success the response's token
        and user become the session. The response is handed back to the caller. */
    method Register(resp: Response<AuthResponse>, email: string, password: string, name: string := "User")
      returns (r: Response<AuthResponse>)
      modifies this`user, browser
      ensures r == resp
      ensures browser.log == old(browser.log) + [Send(PostRegister(email, password, name))]
      ensures resp.Ok? ==> browser.token == Some(resp.payload.token) && user == Some(resp.payload.user)
      ensures resp.Err? ==> browser.token == old(browser.token) && user == old(user)
    {
      browser.Issue(PostRegister(email, password, name));
      if resp.Ok? {
        SetSession(resp.payload.token, Some(resp.payload.user));
      }
      r := resp;
    }

    /** `login(email, password)`: on success the response's token and user become
        the session. */
    method Login(resp: Response<AuthResponse>, email: string, password: string)
      returns (r: Response<AuthResponse>)
      modifies this`user, browser
      ensures r == resp
      ensures browser.log == old(browser.log) + [Send(PostLogin(email, password))]
      ensures resp.Ok? ==> browser.token == Some(resp.payload.token) && user == Some(resp.payload.user)
      ensures resp.Err? ==> browser.token == old(browser.token) && user == old(user)
    {
      browser.Issue(PostLogin(email, password));
      if resp.Ok? {
        SetSession(resp.payload.token, Some(resp.payload.user));
      }
      r := resp;
    }

    /** `logout()` is `clearSession()`. */
    method Logout()
      modifies this`user, browser`token
      ensures browser.token == None && !IsAuthed()
      ensures user == None
    {
      ClearSession();
    }
  }
}
