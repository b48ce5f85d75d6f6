/** `pages/main/main.ts`: the home page. It shows two strips of catalog books
    ("top of the week" and "for you"), replaces the second one with search results,
    remembers every catalog record it received by id, and adds a book to the library
    with a chosen status. Its loading flag is driven by a counter of outstanding
    requests, so the page loads are the one place where the model separates sending
    a request from receiving its answer. */
module MainPage {
  import opened Types
  import opened Http
  import opened Text
  import Library

  // ---------------------------------------------------------------------------
  // The loading counter.

  /** `pending` and `loading` together. */
  datatype LoadState = LoadState(pending: int, loading: bool)

  /** The state is consistent: nothing outstanding below zero, and the spinner is
      on exactly while something is outstanding. */
  predicate Consistent(s: LoadState) {
    s.pending >= 0 && s.loading == (s.pending > 0)
  }

  /** `beginLoad()` */
  function BeginStep(s: LoadState): (t: LoadState)
    ensures t.loading && t.pending == s.pending + 1
  {
    LoadState(s.pending + 1, true)
  }

  /** `endLoad()`: one fewer outstanding; at zero or below the counter is reset to
      zero and the spinner goes off. */
  function EndStep(s: LoadState): (t: LoadState)
    ensures s.pending > 1 ==> t == LoadState(s.pending - 1, s.loading)
    ensures s.pending <= 1 ==> t == LoadState(0, false)
  {
    var p := s.pending - 1;
    if p <= 0 then LoadState(0, false) else LoadState(p, s.loading)
  }

  datatype LoadEvent = Begin | End

  function Step(s: LoadState, e: LoadEvent): LoadState {
    match e
    case Begin => BeginStep(s)
    case End => EndStep(s)
  }

  /** The state after the events, oldest first. */
  function Replay(s: LoadState, events: seq<LoadEvent>): LoadState
    decreases |events|
  {
    if events == [] then s else Step(Replay(s, events[..|events| - 1]), events[|events| - 1])
  }

  /** No prefix of the events ends more loads than it began. */
  predicate Bracketed(events: seq<LoadEvent>) {
    forall k :: 0 <= k <= |events| ==> multiset(events[..k])[End] <= multiset(events[..k])[Begin]
  }

  /** Each step keeps the state consistent, whatever the order of the events
      (an `endLoad` too many cannot drive the counter below zero). */
  lemma {:induction false} ReplayConsistent(s: LoadState, events: seq<LoadEvent>)
    requires Consistent(s)
    ensures Consistent(Replay(s, events))
    decreases |events|
  {
    if events != [] {
      ReplayConsistent(s, events[..|events| - 1]);
    }
  }

  /** When no prefix ends more loads than it began, the counter is exactly the
      number of loads begun and not yet ended. */
  lemma {:induction false} ReplayCounts(s: LoadState, events: seq<LoadEvent>)
    requires Consistent(s) && Bracketed(events)
    ensures Replay(s, events).pending == s.pending + multiset(events)[Begin] - multiset(events)[End]
    decreases |events|
  {
    if events != [] {
      var n := |events|;
      var init := events[..n - 1];
      assert events == init + [events[n - 1]];
      assert events[..n] == events;
      forall k | 0 <= k <= |init|
        ensures multiset(init[..k])[End] <= multiset(init[..k])[Begin]
      {
        assert init[..k] == events[..k];
      }
      ReplayCounts(s, init);
      ReplayConsistent(s, init);
    }
  }

  /** A balanced sequence of loads (as many ends as begins, none early) brings the
      counter and the spinner back to where they were. */
  lemma BalancedRestores(s: LoadState, events: seq<LoadEvent>)
    requires Consistent(s) && Bracketed(events)
    requires multiset(events)[Begin] == multiset(events)[End]
    ensures Replay(s, events) == s
  {
    ReplayCounts(s, events);
    ReplayConsistent(s, events);
  }

  /** While a load that was begun has not ended, the spinner is on. */
  lemma LoadingWhileOutstanding(s: LoadState, events: seq<LoadEvent>)
    requires Consistent(s) && Bracketed(events)
    requires multiset(events)[Begin] > multiset(events)[End]
    ensures Replay(s, events).loading
  {
    ReplayCounts(s, events);
    ReplayConsistent(s, events);
  }

  // ---------------------------------------------------------------------------
  // Cards and the record cache.

  /** One card of `toUi`: `||` replaces an absent or empty title, author or cover. */
  function Card(b: CatalogBook): (c: UiBook)
    ensures c.id == b.id && c.rating == None
    ensures c.title != "" && c.author != "" && c.coverUrl != ""
    ensures Truthy(b.title) ==> c.title == b.title.value
    ensures !Truthy(b.title) ==> c.title == "Без названия"
    ensures Truthy(b.author) ==> c.author == b.author.value
    ensures !Truthy(b.author) ==> c.author == "—"
    ensures Truthy(b.coverUrl) ==> c.coverUrl == b.coverUrl.value
    ensures !Truthy(b.coverUrl) ==> c.coverUrl == "icons/no-cover.svg"
  {
    UiBook(
      id := b.id,
      title := OrDefault(b.title, "Без названия"),
      author := OrDefault(b.author, "—"),
      coverUrl := OrDefault(b.coverUrl, "icons/no-cover.svg"),
      rating := None)
  }

  /** `toUi(items)`: one card per record, in the same order. */
  function ToUi(items: seq<CatalogBook>): (r: seq<UiBook>)
    ensures |r| == |items|
    ensures forall i :: 0 <= i < |items| ==> r[i] == Card(items[i])
  {
    seq(|items|, i requires 0 <= i < |items| => Card(items[i]))
  }

  /** Every card `toUi` shows keeps its record's id, so it can be looked up by it. */
  lemma ToUiIds(items: seq<CatalogBook>)
    ensures forall i :: 0 <= i < |items| ==> ToUi(items)[i].id == items[i].id
    ensures forall c :: c in ToUi(items) ==> exists i :: 0 <= i < |items| && items[i].id == c.id
  {
    forall c | c in ToUi(items) ensures exists i :: 0 <= i < |items| && items[i].id == c.id {
      var i :| 0 <= i < |items| && ToUi(items)[i] == c;
      assert items[i].id == c.id;
    }
  }

  /** `items.forEach(it => byId.set(it.id, it))`, one record after another. */
  function Seeded(m: map<string, CatalogBook>, items: seq<CatalogBook>): map<string, CatalogBook>
    decreases |items|
  {
    if items == [] then m
    else
      var last := items[|items| - 1];
      Seeded(m, items[..|items| - 1])[last.id := last]
  }

  /** `items[j]` is the last record with its id. */
  predicate LastWithId(items: seq<CatalogBook>, j: int)
    requires 0 <= j < |items|
  {
    forall l :: j < l < |items| ==> items[l].id != items[j].id
  }

  /** The ids of the records. */
  function Ids(items: seq<CatalogBook>): (ids: set<string>)
    ensures forall i :: 0 <= i < |items| ==> items[i].id in ids
    ensures forall x :: x in ids ==> exists i :: 0 <= i < |items| && items[i].id == x
    decreases |items|
  {
    if items == [] then {}
    else
      var init := items[..|items| - 1];
      assert forall i :: 0 <= i < |init| ==> init[i] == items[i];
      Ids(init) + {items[|items| - 1].id}
  }

  /** Seeding adds exactly the ids of the records and removes nothing. */
  lemma {:induction false} SeededKeys(m: map<string, CatalogBook>, items: seq<CatalogBook>)
    ensures Seeded(m, items).Keys == m.Keys + Ids(items)
    decreases |items|
  {
    if items != [] {
      SeededKeys(m, items[..|items| - 1]);
    }
  }

  /** Each id maps to the last record that carries it. */
  lemma {:induction false} SeededLastWins(m: map<string, CatalogBook>, items: seq<CatalogBook>, j: int)
    requires 0 <= j < |items| && LastWithId(items, j)
    ensures items[j].id in Seeded(m, items) && Seeded(m, items)[items[j].id] == items[j]
    decreases |items|
  {
    var n := |items|;
    if j < n - 1 {
      var init := items[..n - 1];
      assert items[n - 1].id != items[j].id;
      assert init[j] == items[j];
      assert LastWithId(init, j) by {
        forall l | j < l < |init| ensures init[l].id != init[j].id {
          assert init[l] == items[l];
        }
      }
      SeededLastWins(m, init, j);
    }
  }

  /** An id that no record carries keeps its entry. */
  lemma {:induction false} SeededUntouched(m: map<string, CatalogBook>, items: seq<CatalogBook>, k: string)
    requires k in m && k !in Ids(items)
    ensures k in Seeded(m, items) && Seeded(m, items)[k] == m[k]
    decreases |items|
  {
    if items != [] {
      var init := items[..|items| - 1];
      assert k !in Ids(init);
      SeededUntouched(m, init, k);
    }
  }

  /** After seeding, every card built from the same records can be resolved by its
      id, and nothing that was cached before is lost. */
  lemma CardsResolvable(m: map<string, CatalogBook>, items: seq<CatalogBook>)
    ensures forall c :: c in ToUi(items) ==> c.id in Seeded(m, items)
    ensures m.Keys <= Seeded(m, items).Keys
  {
    SeededKeys(m, items);
    ToUiIds(items);
  }

  const TopWeekQuery := SearchCatalog("бестселлеры", 10)
  const ForYouQuery := SearchCatalog("современная проза", 10)
  /** Search results come in pages of 20. */
  const SearchMax := 20

  class Main {
    const browser: Browser
    var loading: bool
    var topWeek: seq<UiBook>
    var forYou: seq<UiBook>
    var query: string
    /** Every catalog record received so far, by id. It is only written to. */
    var byId: map<string, CatalogBook>
    var pending: int
    var statusModalOpen: bool
    var statusBook: Option<UiBook>

    function State(): LoadState
      reads this
    {
      LoadState(pending, loading)
    }

    ghost predicate Valid()
      reads this
    {
      Consistent(State())
    }

    /** The constructor starts both strip loads. */
    constructor (browser: Browser)
      modifies browser`log
      ensures this.browser == browser && Valid()
      ensures pending == 2 && loading
      ensures topWeek == [] && forYou == [] && query == "" && byId == map[]
      ensures !statusModalOpen && statusBook == None
      ensures browser.log == old(browser.log) + [Send(TopWeekQuery), Send(ForYouQuery)]
    {
      this.browser := browser;
      loading := true;
      topWeek := [];
      forYou := [];
      query := "";
      byId := map[];
      pending := 0;
      statusModalOpen := false;
      statusBook := None;
      new;
      LoadTopWeek();
      LoadForYou();
    }

    method BeginLoad()
      requires pending >= 0
      modifies this`pending, this`loading
      ensures State() == BeginStep(old(State())) && Valid()
    {
      pending := pending + 1;
      loading := true;
    }

    method EndLoad()
      requires Valid()
      modifies this`pending, this`loading
      ensures State() == EndStep(old(State())) && Valid()
    {
      pending := pending - 1;
      if pending <= 0 {
        pending := 0;
        loading := false;
      }
    }

    /** Records every received record under its id. */
    method SeedById(items: seq<CatalogBook>)
      modifies this`byId
      ensures byId == Seeded(old(byId), items)
    {
      var i := 0;
      while i < |items|
        invariant 0 <= i <= |items|
        invariant byId == Seeded(old(byId), items[..i])
      {
        assert items[..i + 1][..i] == items[..i];
        byId := byId[items[i].id := items[i]];
        i := i + 1;
      }
      assert items[..i] == items;
    }

    /** `loadTopWeek()`, up to the request. */
    method LoadTopWeek()
      requires pending >= 0
      modifies this`pending, this`loading, browser`log
      ensures State() == BeginStep(old(State())) && Valid()
      ensures browser.log == old(browser.log) + [Send(TopWeekQuery)]
    {
      BeginLoad();
      browser.Issue(TopWeekQuery);
    }

    /** The answer to `loadTopWeek()`: records seeded and the strip replaced on
        success; either way one load ends. */
    method TopWeekArrived(resp: Response<seq<CatalogBook>>)
      requires Valid()
      modifies this`pending, this`loading, this`byId, this`topWeek
      ensures State() == EndStep(old(State())) && Valid()
      ensures resp.Ok? ==> byId == Seeded(old(byId), resp.payload) && topWeek == ToUi(resp.payload)
      ensures resp.Ok? ==> forall c :: c in topWeek ==> c.id in byId
      ensures old(byId).Keys <= byId.Keys
      ensures resp.Err? ==> byId == old(byId) && topWeek == old(topWeek)
    {
      if resp.Ok? {
        SeedById(resp.payload);
        topWeek := ToUi(resp.payload);
        CardsResolvable(old(byId), resp.payload);
      }
      EndLoad();
    }

    /** `loadForYou()`, up to the request. */
    method LoadForYou()
      requires pending >= 0
      modifies this`pending, this`loading, browser`log
      ensures State() == BeginStep(old(State())) && Valid()
      ensures browser.log == old(browser.log) + [Send(ForYouQuery)]
    {
      BeginLoad();
      browser.Issue(ForYouQuery);
    }

    /** The answer to `loadForYou()` or to `onSearch()`, whose callbacks are the
        same: records seeded and the second strip replaced on success; either way
        one load ends. */
    method ForYouArrived(resp: Response<seq<CatalogBook>>)
      requires Valid()
      modifies this`pending, this`loading, this`byId, this`forYou
      ensures State() == EndStep(old(State())) && Valid()
      ensures resp.Ok? ==> byId == Seeded(old(byId), resp.payload) && forYou == ToUi(resp.payload)
      ensures resp.Ok? ==> forall c :: c in forYou ==> c.id in byId
      ensures old(byId).Keys <= byId.Keys
      ensures resp.Err? ==> byId == old(byId) && forYou == old(forYou)
    {
      if resp.Ok? {
        SeedById(resp.payload);
        forYou := ToUi(resp.payload);
        CardsResolvable(old(byId), resp.payload);
      }
      EndLoad();
    }

    /** `onSearch()`, up to the request: a query blank once trimmed does nothing;
        otherwise the trimmed query is searched. */
    method OnSearch()
      requires Valid()
      modifies this`pending, this`loading, browser`log
      ensures Valid()
      ensures Trim(query) == [] ==> State() == old(State()) && browser.log == old(browser.log)
      ensures Trim(query) != [] ==>
        State() == BeginStep(old(State()))
        && browser.log == old(browser.log) + [Send(SearchCatalog(Trim(query), SearchMax))]
    {
      var q := Trim(query);
      if q == [] {
        return;
      }
      BeginLoad();
      browser.Issue(SearchCatalog(q, SearchMax));
    }

    /** A new `q` query parameter (absent counting as ""): when it is not blank, it
        becomes the query, trimmed, and is searched. */
    method OnQueryParam(q: Option<string>)
      requires Valid()
      modifies this`query, this`pending, this`loading, browser`log
      ensures Valid()
      ensures Trim(q.GetOr("")) == [] ==>
        query == old(query) && State() == old(State()) && browser.log == old(browser.log)
      ensures Trim(q.GetOr("")) != [] ==>
        query == Trim(q.GetOr("")) && State() == BeginStep(old(State()))
        && browser.log == old(browser.log) + [Send(SearchCatalog(Trim(q.GetOr("")), SearchMax))]
    {
      var t := Trim(q.GetOr(""));
      if t != [] {
        query := t;
        TrimIdempotent(q.GetOr(""));
        OnSearch();
      }
    }

    method OpenStatusModal(b: UiBook)
      modifies this`statusBook, this`statusModalOpen
      ensures statusBook == Some(b) && statusModalOpen
    {
      statusBook := Some(b);
      statusModalOpen := true;
    }

    method CloseStatusModal()
      modifies this`statusBook, this`statusModalOpen
      ensures statusBook == None && !statusModalOpen
    {
      statusModalOpen := false;
      statusBook := None;
    }

    /** `addBookWithStatus(book, status)`: fetch the details, then post the record. */
    method AddBookWithStatus(b: UiBook, status: Status, details: Response<CatalogBook>)
      modifies browser`log
      ensures browser.log == old(browser.log) + Library.AddWithStatusEffects(old(browser.SignedIn()), b, status, details)
    {
      if !browser.SignedIn() {
        browser.Go("/auto");
        return;
      }
      browser.Issue(GetBook(b.id));
      if details.Ok? {
        browser.Issue(PostLibraryBook(Library.RecordBody(details.payload, status)));
      }
    }

    /** `chooseStatus(status)`: a no-op without a chosen book; otherwise the modal is
        closed before the book is added. */
    method ChooseStatus(status: Status, details: Response<CatalogBook>)
      modifies this`statusBook, this`statusModalOpen, browser`log
      ensures old(statusBook).None? ==>
        statusBook == None && statusModalOpen == old(statusModalOpen) && browser.log == old(browser.log)
      ensures old(statusBook).Some? ==>
        statusBook == None && !statusModalOpen
        && browser.log == old(browser.log)
           + Library.AddWithStatusEffects(browser.SignedIn(), old(statusBook).value, status, details)
    {
      var b := statusBook;
      if b.None? {
        return;
      }
      CloseStatusModal();
      AddBookWithStatus(b.value, status, details);
    }
  }
}
