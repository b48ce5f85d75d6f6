/** The client's view of the outside world: the outcome of an HTTP call, the
    user-facing message chosen from a failed call, and the browser state every
    component shares (the token in `localStorage` and the log of requests sent and
    navigations made). */
module Http {
  import opened Types

  /** What `HttpErrorResponse.error` holds: a plain-text body, a JSON object that
      may carry a `message`, or nothing. */
  datatype ErrorBody = TextBody(text: string) | JsonBody(message: Option<string>) | NoBody

  /** The outcome of one HTTP call: the payload handed to `next`, or the status code
      and body handed to `error`. */
  datatype Response<T> = Ok(payload: T) | Err(status: nat, body: ErrorBody)

  /** `e?.error?.message || fallback` */
  function MessageOr(body: ErrorBody, fallback: string): (m: string)
    ensures body.JsonBody? && Truthy(body.message) ==> m == body.message.value
    ensures !(body.JsonBody? && Truthy(body.message)) ==> m == fallback
    ensures fallback != "" ==> m != ""
  {
    if body.JsonBody? then OrDefault(body.message, fallback) else fallback
  }

  /** `(typeof e?.error === 'string' && e.error) || e?.error?.message || fallback`:
      a non-empty text body verbatim, else the JSON message, else the fallback. It
      differs from `MessageOr` only on non-empty text bodies, which `MessageOr`
      ignores. */
  function ErrorText(body: ErrorBody, fallback: string): (m: string)
    ensures body.TextBody? && body.text != "" ==> m == body.text
    ensures !(body.TextBody? && body.text != "") ==> m == MessageOr(body, fallback)
    ensures fallback != "" ==> m != ""
  {
    if body.TextBody? && body.text != "" then body.text else MessageOr(body, fallback)
  }

  function DigitChar(d: nat): (c: char)
    requires d < 10
    ensures '0' <= c <= '9' && c as int - '0' as int == d
  {
    ('0' as int + d) as char
  }

  /** The number a string of decimal digits denotes. */
  function DecimalValue(s: string): nat
    requires forall i :: 0 <= i < |s| ==> '0' <= s[i] <= '9'
  {
    if s == [] then 0 else DecimalValue(s[..|s| - 1]) * 10 + (s[|s| - 1] as int - '0' as int)
  }

  /** The decimal rendering of an HTTP status code inside a template literal: digits
      only, no leading zero, denoting `n`. */
  function NatToString(n: nat): (s: string)
    ensures s != []
    ensures forall i :: 0 <= i < |s| ==> '0' <= s[i] <= '9'
    ensures s[0] == '0' ==> n == 0 && s == "0"
    ensures DecimalValue(s) == n
  {
    if n < 10 then [DigitChar(n)]
    else
      var s := NatToString(n / 10) + [DigitChar(n % 10)];
      assert s[..|s| - 1] == NatToString(n / 10);
      s
  }

  /** `` `${prefix} (${status})` `` */
  function WithStatus(prefix: string, status: nat): string {
    prefix + " (" + NatToString(status) + ")"
  }

  /** The browser state shared by every component: `localStorage.getItem('token')`
      and, oldest first, every request the client sent and every navigation it made. */
  class Browser {
    var token: Option<string>
    var log: seq<Effect>

    constructor (token: Option<string>)
      ensures this.token == token && log == []
    {
      this.token := token;
      log := [];
    }

    /** `!!localStorage.getItem('token')`: a token is stored and it is not empty. */
    predicate SignedIn()
      reads this
    {
      Truthy(token)
    }

    method Issue(r: Request)
      modifies this`log
      ensures log == old(log) + [Send(r)]
    {
      log := log + [Send(r)];
    }

    method Go(url: string)
      modifies this`log
      ensures log == old(log) + [Navigate(url)]
    {
      log := log + [Navigate(url)];
    }

    method GoHome(query: string)
      modifies this`log
      ensures log == old(log) + [NavigateHome(query)]
    {
      log := log + [NavigateHome(query)];
    }
  }
}
