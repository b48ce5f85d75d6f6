/** `pages/profile/profile.ts`: the user's profile. It shows who is signed in and
    their reading statistics as two charts, and saves a new name and/or password. */
module ProfilePage {
  import opened Types
  import opened Http
  import opened Text
  import Auth

  /** The body of `GET /api/me/stats`; either list may be missing. */
  datatype StatsBody = StatsBody(genres: Option<seq<GenreStat>>, months: Option<seq<MonthStat>>)

  /** The part of a chart's `data` the page sets: the labels and the values of its
      single data set. */
  datatype ChartData = ChartData(labels: seq<string>, values: seq<int>)

  const EmptyChart := ChartData([], [])
  const NothingToSave := "Нечего сохранять."
  const SaveFailed := "Ошибка сохранения"
  /** Legend entries longer than this are split in two lines. */
  const LegendMax := 22

  /** The pie chart of the genre statistics: one label and one value per genre, so
      the statistics can be read back from the chart. */
  function PieOf(genres: seq<GenreStat>): (c: ChartData)
    ensures |c.labels| == |c.values| == |genres|
    ensures forall i :: 0 <= i < |genres| ==> GenreStat(c.labels[i], c.values[i]) == genres[i]
  {
    ChartData(
      seq(|genres|, i requires 0 <= i < |genres| => genres[i].genre),
      seq(|genres|, i requires 0 <= i < |genres| => genres[i].cnt))
  }

  /** The bar chart of the monthly statistics, one bar per month in order. */
  function BarOf(months: seq<MonthStat>): (c: ChartData)
    ensures |c.labels| == |c.values| == |months|
    ensures forall i :: 0 <= i < |months| ==> MonthStat(c.labels[i], c.values[i]) == months[i]
  {
    ChartData(
      seq(|months|, i requires 0 <= i < |months| => months[i].month),
      seq(|months|, i requires 0 <= i < |months| => months[i].cnt))
  }

  /** The legend's text for one label (`generateLabels`): a label of at most 22
      characters is one line; a longer one is its first 22 characters followed by
      "…", then the rest. */
  function SplitLegend(t: string): (parts: seq<string>)
    ensures |t| <= LegendMax ==> parts == [t]
    ensures |t| > LegendMax ==>
      |parts| == 2 && |parts[0]| == LegendMax + 1 && parts[0][LegendMax] == '…' && parts[1] != []
  {
    if |t| > LegendMax then [t[..LegendMax] + "…", t[LegendMax..]] else [t]
  }

  /** Reading a legend entry back: drop the "…" and join the lines. */
  function JoinLegend(parts: seq<string>): string {
    if |parts| == 2 && parts[0] != [] then parts[0][..|parts[0]| - 1] + parts[1]
    else if |parts| == 1 then parts[0]
    else ""
  }

  /** No label is lost by the split: joining the lines back gives the label. */
  lemma LegendRoundTrip(t: string)
    ensures JoinLegend(SplitLegend(t)) == t
  {
    if |t| > LegendMax {
      var parts := SplitLegend(t);
      assert parts[0][..LegendMax] == t[..LegendMax];
      assert t[..LegendMax] + t[LegendMax..] == t;
    }
  }

  /** The `initials` signal: "U" when there is no user or the name is blank;
      otherwise the upper-cased first characters of the first two words. */
  function ProfileInitials(user: Option<MeUser>, upper: char -> char): (r: string)
    ensures user.None? || Blank(user.value.name) ==> r == "U"
    ensures user.Some? && !Blank(user.value.name) ==>
      var w := WordStarts(user.value.name); r == MapChars(w, upper)[..Min(2, |w|)] && 1 <= |r| <= 2
  {
    var n := Trim(if user.Some? then user.value.name else "");
    if n == [] then "U"
    else
      InitialsShape(user.value.name, upper);
      InitialsAreWordStarts(user.value.name, upper);
      InitialsOf(user.value.name, upper)
  }

  /** The requests `save()` sends: the trimmed name when it is not blank, then the
      trimmed password when it is not blank. */
  function SavePlan(name: string, password: string): (plan: seq<Request>)
    ensures |plan| <= 2
    ensures plan == [] <==> Blank(name) && Blank(password)
    ensures PatchProfile(Trim(name)) in plan <==> !Blank(name)
    ensures PatchPassword(Trim(password)) in plan <==> !Blank(password)
    ensures forall r :: r in plan ==> r == PatchProfile(Trim(name)) || r == PatchPassword(Trim(password))
    ensures |plan| == 2 ==> plan[0].PatchProfile? && plan[1].PatchPassword?
  {
    var n := Trim(name);
    var p := Trim(password);
    (if n != [] then [PatchProfile(n)] else []) + (if p != [] then [PatchPassword(p)] else [])
  }

  /** The log entries of sending the requests, in order. */
  function SendAll(rs: seq<Request>): (es: seq<Effect>)
    ensures |es| == |rs| && forall i :: 0 <= i < |rs| ==> es[i] == Send(rs[i])
  {
    seq(|rs|, i requires 0 <= i < |rs| => Send(rs[i]))
  }

  /** Sending the plan logs the name update, if any, then the password update. */
  lemma SendAllOfPlan(name: string, password: string)
    ensures SendAll(SavePlan(name, password))
         == (if Trim(name) != [] then [Send(PatchProfile(Trim(name)))] else [])
          + (if Trim(password) != [] then [Send(PatchPassword(Trim(password)))] else [])
  {
  }

  class Profile {
    const browser: Browser
    const auth: Auth.AuthService
    var user: Option<MeUser>
    var name: string
    var email: string
    var password: string
    var saving: bool
    var saveError: string
    var saveOk: bool
    var genreStats: seq<GenreStat>
    var monthStats: seq<MonthStat>
    var pieData: ChartData
    var barData: ChartData

    /** The charts show the statistics the page holds. */
    ghost predicate Valid()
      reads this
    {
      pieData == PieOf(genreStats) && barData == BarOf(monthStats)
    }

    constructor (browser: Browser, auth: Auth.AuthService)
      ensures this.browser == browser && this.auth == auth && Valid()
      ensures user == None && name == "" && email == "" && password == ""
      ensures !saving && saveError == "" && !saveOk
      ensures genreStats == [] && monthStats == []
    {
      this.browser := browser;
      this.auth := auth;
      user := None;
      name := "";
      email := "";
      password := "";
      saving := false;
      saveError := "";
      saveOk := false;
      genreStats := [];
      monthStats := [];
      pieData := EmptyChart;
      barData := EmptyChart;
    }

    /** `loadMe()`: keep the user `AuthService.loadMe` emits and fill the form from
        it. That observable never fails (it answers "nobody" instead), so the
        page's redirect to "/auth" on failure cannot happen. */
    method LoadMe(me: Response<MeUser>)
      requires auth.browser == browser
      modifies this`user, this`name, this`email, auth`user, browser
      ensures user == auth.user
      ensures user.Some? ==> name == user.value.name && email == user.value.email
      ensures user.None? ==> name == "" && email == ""
      ensures !old(browser.SignedIn()) ==>
        user == None && browser.log == old(browser.log) && browser.token == old(browser.token)
      ensures old(browser.SignedIn()) ==> browser.log == old(browser.log) + [Send(GetMe)]
      ensures old(browser.SignedIn()) && me.Ok? ==>
        user == Some(me.payload) && name == me.payload.name && email == me.payload.email
        && browser.token == old(browser.token)
      ensures old(browser.SignedIn()) && me.Err? ==> user == None && browser.token == None
    {
      var sent := RequestMe();
      if sent {
        MeArrived(me);
      }
    }

    /** `loadMe()` up to its request. Without a token the user is cleared at once;
        otherwise only `GET /api/auth/me` is sent. */
    method RequestMe() returns (sent: bool)
      requires auth.browser == browser
      modifies this`user, this`name, this`email, auth`user, browser`log
      ensures sent <==> old(browser.SignedIn())
      ensures !sent ==> user == None && auth.user == None && name == "" && email == ""
      ensures !sent ==> browser.log == old(browser.log)
      ensures sent ==> browser.log == old(browser.log) + [Send(GetMe)]
      ensures sent ==> user == old(user) && name == old(name) && email == old(email)
    {
      sent := auth.RequestMe();
      if !sent {
        user := None;
        name := "";
        email := "";
      }
    }

    /** The answer to `GET /api/auth/me`, through the `next` callback: the form
        follows the emitted user, and a failure (which ends the session) emits
        "nobody". */
    method MeArrived(me: Response<MeUser>)
      requires auth.browser == browser
      modifies this`user, this`name, this`email, auth`user, browser`token
      ensures user == auth.user
      ensures user.Some? ==> name == user.value.name && email == user.value.email
      ensures user.None? ==> name == "" && email == ""
      ensures me.Ok? ==> user == Some(me.payload) && browser.token == old(browser.token)
      ensures me.Err? ==> user == None && browser.token == None
    {
      var u := auth.MeArrived(me);
      user := u;
      name := if u.Some? then u.value.name else "";
      email := if u.Some? then u.value.email else "";
    }

    /** `loadStats()`: nothing without a token; otherwise the statistics (missing
        lists read as empty) and the charts built from them, or everything empty
        when the request failed. */
    method LoadStats(resp: Response<Option<StatsBody>>)
      requires Valid()
      modifies this`genreStats, this`monthStats, this`pieData, this`barData, browser`log
      ensures Valid()
      ensures !browser.SignedIn() ==>
        browser.log == old(browser.log) && genreStats == old(genreStats) && monthStats == old(monthStats)
      ensures browser.SignedIn() ==> browser.log == old(browser.log) + [Send(GetStats)]
      ensures browser.SignedIn() && resp.Ok? ==>
        && genreStats == (if resp.payload.Some? then resp.payload.value.genres.GetOr([]) else [])
        && monthStats == (if resp.payload.Some? then resp.payload.value.months.GetOr([]) else [])
      ensures browser.SignedIn() && resp.Err? ==>
        genreStats == [] && monthStats == [] && pieData == EmptyChart && barData == EmptyChart
    {
      if !browser.SignedIn() {
        return;
      }
      browser.Issue(GetStats);
      match resp {
        case Ok(data) =>
          var genres := if data.Some? then data.value.genres.GetOr([]) else [];
          var months := if data.Some? then data.value.months.GetOr([]) else [];
          genreStats := genres;
          monthStats := months;
          pieData := PieOf(genres);
          barData := BarOf(months);
        case Err(_, _) =>
          genreStats := [];
          monthStats := [];
          pieData := EmptyChart;
          barData := EmptyChart;
      }
    }

    /** `ngOnInit()`: `loadMe()` only sends its request, so `loadStats()` runs while
        the token is still stored and both requests go out, `/api/auth/me` first.
        The answers touch disjoint fields, so the order they arrive in does not
        matter; a failed `/api/auth/me` ends the session only after the statistics
        were requested. */
    method OnInit(me: Response<MeUser>, stats: Response<Option<StatsBody>>)
      requires auth.browser == browser && Valid()
      modifies this`user, this`name, this`email, auth`user, browser
      modifies this`genreStats, this`monthStats, this`pieData, this`barData
      ensures Valid()
      ensures !old(browser.SignedIn()) ==>
        browser.log == old(browser.log) && user == None && name == "" && email == ""
        && browser.token == old(browser.token)
        && genreStats == old(genreStats) && monthStats == old(monthStats)
      ensures old(browser.SignedIn()) ==> browser.log == old(browser.log) + [Send(GetMe), Send(GetStats)]
      ensures old(browser.SignedIn()) && me.Ok? ==>
        user == Some(me.payload) && name == me.payload.name && email == me.payload.email
        && browser.token == old(browser.token)
      ensures old(browser.SignedIn()) && me.Err? ==>
        user == None && name == "" && email == "" && browser.token == None
      ensures old(browser.SignedIn()) && stats.Ok? ==>
        && genreStats == (if stats.payload.Some? then stats.payload.value.genres.GetOr([]) else [])
        && monthStats == (if stats.payload.Some? then stats.payload.value.months.GetOr([]) else [])
      ensures old(browser.SignedIn()) && stats.Err? ==> genreStats == [] && monthStats == []
    {
      var sent := RequestMe();
      LoadStats(stats);
      if sent {
        MeArrived(me);
      }
    }

    /** The requests of `save()`, each sent as soon as it is built. */
    method SendPlan() returns (planned: bool)
      modifies browser`log
      ensures planned <==> SavePlan(name, password) != []
      ensures browser.log == old(browser.log) + SendAll(SavePlan(name, password))
    {
      var n := Trim(name);
      var p := Trim(password);
      ghost var first: seq<Effect> := if n != [] then [Send(PatchProfile(n))] else [];
      ghost var second: seq<Effect> := if p != [] then [Send(PatchPassword(p))] else [];
      if n != [] {
        browser.Issue(PatchProfile(n));
      }
      assert browser.log == old(browser.log) + first;
      if p != [] {
        browser.Issue(PatchPassword(p));
      } else {
        assert first + second == first;
      }
      assert browser.log == old(browser.log) + first + second;
      AppendAssoc(old(browser.log), first, second);
      SendAllOfPlan(name, password);
      planned := n != [] || p != [];
    }

    /** The joint outcome of the planned requests arrives: saving stops; success
        clears the password and reloads the user, failure shows the server's message
        or the fallback. */
    method SaveSettled(outcome: Response<()>, me: Response<MeUser>)
      requires auth.browser == browser
      modifies this`saveError, this`saveOk, this`saving, this`password
      modifies this`user, this`name, this`email, auth`user, browser
      ensures !saving
      ensures outcome.Ok? ==>
        saveOk && password == "" && saveError == old(saveError)
        && browser.log == old(browser.log) + (if old(browser.SignedIn()) then [Send(GetMe)] else [])
      ensures outcome.Ok? && old(browser.SignedIn()) && me.Ok? ==>
        user == Some(me.payload) && name == me.payload.name && email == me.payload.email
        && browser.token == old(browser.token)
      ensures outcome.Ok? && old(browser.SignedIn()) && me.Err? ==>
        user == None && name == "" && email == "" && browser.token == None
      ensures outcome.Ok? && !old(browser.SignedIn()) ==>
        user == None && name == "" && email == "" && browser.token == old(browser.token)
      ensures outcome.Err? ==>
        saveOk == old(saveOk) && saveError == MessageOr(outcome.body, SaveFailed)
        && password == old(password) && user == old(user) && browser.log == old(browser.log)
        && name == old(name) && email == old(email) && browser.token == old(browser.token)
    {
      match outcome {
        case Ok(_) =>
          saving := false;
          saveOk := true;
          password := "";
          LoadMe(me);
        case Err(_, body) =>
          saving := false;
          saveError := MessageOr(body, SaveFailed);
      }
    }

    /** Clear the previous outcome and send the plan: an empty plan is reported,
        a non-empty one marks the page as saving. */
    method StartSave() returns (planned: bool)
      modifies this`saveError, this`saveOk, this`saving, browser`log
      ensures planned <==> SavePlan(name, password) != []
      ensures browser.log == old(browser.log) + SendAll(SavePlan(name, password))
      ensures !saveOk
      ensures planned ==> saving && saveError == ""
      ensures !planned ==> saving == old(saving) && saveError == NothingToSave
    {
      saveError := "";
      saveOk := false;
      planned := SendPlan();
      if !planned {
        saveError := NothingToSave;
        return;
      }
      saving := true;
    }

    /** `save()` once a token is present: clear the previous outcome and send the
        plan; an empty plan is reported and nothing is sent. The plan's requests run
        together and `outcome` is their joint result: on success the password field
        is cleared and the user reloaded; on failure the server's message, or a
        fallback, is shown. */
    method SaveSignedIn(outcome: Response<()>, me: Response<MeUser>)
      requires auth.browser == browser && browser.SignedIn()
      modifies this`saveError, this`saveOk, this`saving, this`password
      modifies this`user, this`name, this`email, auth`user, browser
      ensures SavePlan(old(name), old(password)) == [] ==>
        browser.log == old(browser.log) && saveError == NothingToSave && !saveOk
        && saving == old(saving) && password == old(password)
        && user == old(user) && name == old(name) && email == old(email) && browser.token == old(browser.token)
      ensures SavePlan(old(name), old(password)) != [] && outcome.Ok? ==>
        !saving && saveOk && saveError == "" && password == ""
        && browser.log == old(browser.log) + SendAll(SavePlan(old(name), old(password))) + [Send(GetMe)]
        && (me.Ok? ==>
              user == Some(me.payload) && name == me.payload.name && email == me.payload.email
              && browser.token == old(browser.token))
        && (me.Err? ==> user == None && name == "" && email == "" && browser.token == None)
      ensures SavePlan(old(name), old(password)) != [] && outcome.Err? ==>
        !saving && !saveOk && saveError == MessageOr(outcome.body, SaveFailed)
        && password == old(password) && user == old(user)
        && name == old(name) && email == old(email) && browser.token == old(browser.token)
        && browser.log == old(browser.log) + SendAll(SavePlan(old(name), old(password)))
    {
      var planned := StartSave();
      if planned {
        SaveSettled(outcome, me);
      }
    }

    /** `save()`: without a token go to "/auth"; otherwise as `SaveSignedIn`. */
    method Save(outcome: Response<()>, me: Response<MeUser>)
      requires auth.browser == browser
      modifies this`saveError, this`saveOk, this`saving, this`password
      modifies this`user, this`name, this`email, auth`user, browser
      ensures !old(browser.SignedIn()) ==>
        browser.log == old(browser.log) + [Navigate("/auth")]
        && saveError == old(saveError) && saveOk == old(saveOk) && saving == old(saving)
        && password == old(password) && user == old(user)
        && name == old(name) && email == old(email) && browser.token == old(browser.token)
      ensures old(browser.SignedIn()) && SavePlan(old(name), old(password)) == [] ==>
        browser.log == old(browser.log) && saveError == NothingToSave && !saveOk
        && saving == old(saving) && password == old(password)
        && user == old(user) && name == old(name) && email == old(email) && browser.token == old(browser.token)
      ensures old(browser.SignedIn()) && SavePlan(old(name), old(password)) != [] && outcome.Ok? ==>
        !saving && saveOk && saveError == "" && password == ""
        && browser.log == old(browser.log) + SendAll(SavePlan(old(name), old(password))) + [Send(GetMe)]
        && (me.Ok? ==>
              user == Some(me.payload) && name == me.payload.name && email == me.payload.email
              && browser.token == old(browser.token))
        && (me.Err? ==> user == None && name == "" && email == "" && browser.token == None)
      ensures old(browser.SignedIn()) && SavePlan(old(name), old(password)) != [] && outcome.Err? ==>
        !saving && !saveOk && saveError == MessageOr(outcome.body, SaveFailed)
        && password == old(password) && user == old(user)
        && name == old(name) && email == old(email) && browser.token == old(browser.token)
        && browser.log == old(browser.log) + SendAll(SavePlan(old(name), old(password)))
    {
      if !browser.SignedIn() {
        browser.Go("/auth");
        return;
      }
      SaveSignedIn(outcome, me);
    }
  }
}
