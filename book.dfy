/** `pages/book/book.ts`: the page of one catalog book. It shows the book and its
    reviews, lets the user rate it, review it, add it to a collection, or add it to
    the library with a chosen status. Reviewing and adding to a collection first
    make sure the book is in the user's library; the second request is sent only
    when that first one succeeded. */
module BookPage {
  import opened Types
  import opened Http
  import opened Text
  import Library
  import Auth

  /** The page's `book` field (`BookDetails`); every field is optional. */
  datatype BookDetails = BookDetails(
    description: Option<string>,
    genres: Option<seq<string>>,
    publishedYear: Option<int>,
    pages: Option<int>,
    age: Option<string>,
    myRating: Option<int>,
    reviews: Option<seq<Review>>)

  const NoRatingError := "Сначала поставь “Мою оценку” (звёзды выше)."
  const NoTextError := "Текст отзыва обязателен."
  const LibraryAddFailed := "Не удалось добавить книгу в библиотеку"
  const ReviewLibraryFailed := "Не удалось добавить книгу в библиотеку."
  const ReviewPostFailed := "Не удалось отправить отзыв."
  const CollectionAddFailed := "Ошибка добавления в коллекцию"

  /** `Math.max(1, Math.min(5, s))`: the star rating is always between 1 and 5 and
      a rating already in range is kept. */
  function ClampRating(s: int): (r: int)
    ensures 1 <= r <= 5
    ensures 1 <= s <= 5 ==> r == s
    ensures s < 1 ==> r == 1
    ensures s > 5 ==> r == 5
  {
    var upperBounded := if s < 5 then s else 5;
    if upperBounded > 1 then upperBounded else 1
  }

  /** `initialsFromName(name)`: "U" for the empty name; otherwise the upper-cased
      first characters of the first two words. A name made only of white space
      passes the emptiness test and gives "". */
  function InitialsFromName(name: string, upper: char -> char): (r: string)
    ensures name == [] ==> r == "U"
    ensures name != [] && Blank(name) ==> r == []
    ensures name != [] ==> |r| <= 2
    ensures name != [] ==> var w := WordStarts(name); r == MapChars(w, upper)[..Min(2, |w|)]
  {
    InitialsShape(name, upper);
    InitialsAreWordStarts(name, upper);
    if name == [] then "U" else InitialsOf(name, upper)
  }

  /** The `initials` signal: `initialsFromName` of the signed-in user's name, with
      no user read as the empty name. */
  function UserInitials(user: Option<MeUser>, upper: char -> char): (r: string)
    ensures user.None? ==> r == "U"
    ensures user.Some? ==> r == InitialsFromName(user.value.name, upper)
  {
    if user.None? || user.value.name == [] then "U" else InitialsOf(user.value.name, upper)
  }

  /** The card built from the details response (`ngOnInit`): `??` keeps an empty
      string and replaces only an absent one. */
  function CardOf(full: CatalogBook): (c: UiBook)
    ensures c.id == full.id && c.rating.Some?
    ensures full.title.Some? ==> c.title == full.title.value
    ensures full.title.None? ==> c.title == "Без названия"
    ensures full.author.Some? ==> c.author == full.author.value
    ensures full.author.None? ==> c.author == "—"
    ensures full.coverUrl.Some? ==> c.coverUrl == full.coverUrl.value
    ensures full.coverUrl.None? ==> c.coverUrl == "icons/no-cover.svg"
    ensures full.rating.Some? ==> c.rating == full.rating
    ensures full.rating.None? ==> c.rating == Some(0)
  {
    UiBook(
      id := full.id,
      title := full.title.GetOr("Без названия"),
      author := full.author.GetOr("—"),
      coverUrl := full.coverUrl.GetOr("icons/no-cover.svg"),
      rating := Some(full.rating.GetOr(0)))
  }

  /** The details built from the details response (`ngOnInit`): genres from
      `categories` or else `genres`, pages from `pageCount` or else `pages`, the age
      rating from `ageRating` or else `age`; the page's own rating starts at 0. */
  function DetailsOf(full: CatalogBook): (d: BookDetails)
    ensures d.myRating == Some(0) && d.reviews == Some([])
    ensures full.description.Some? ==> d.description == full.description
    ensures full.description.None? ==> d.description == Some("")
    ensures full.categories.Some? ==> d.genres == full.categories
    ensures full.categories.None? && full.genres.Some? ==> d.genres == full.genres
    ensures full.categories.None? && full.genres.None? ==> d.genres == Some([])
    ensures full.pageCount.Some? ==> d.pages == full.pageCount
    ensures full.pageCount.None? ==> d.pages == full.pages
    ensures full.ageRating.Some? ==> d.age == full.ageRating
    ensures full.ageRating.None? && full.age.Some? ==> d.age == full.age
    ensures full.ageRating.None? && full.age.None? ==> d.age == Some("")
    ensures d.publishedYear == full.publishedYear
  {
    BookDetails(
      description := Some(full.description.GetOr("")),
      genres := Some(if full.categories.Some? then full.categories.value else full.genres.GetOr([])),
      publishedYear := full.publishedYear,
      pages := if full.pageCount.Some? then full.pageCount else full.pages,
      age := Some(if full.ageRating.Some? then full.ageRating.value else full.age.GetOr("")),
      myRating := Some(0),
      reviews := Some([]))
  }

  /** The body `ensureInLibrary(status)` posts for the current book: status
      defaults to planned at the call sites, maturity is MATURE exactly for the age
      rating "18+", and absent pages, year and genres become 0, 0 and []. */
  function EnsureBody(card: UiBook, details: BookDetails, status: Status): (b: LibraryBody)
    ensures b.googleId == card.id && b.title == Some(card.title) && b.status == status
    ensures b.maturity == "MATURE" <==> details.age == Some("18+")
    ensures b.maturity == "MATURE" || b.maturity == "NOT_MATURE"
    ensures b.author == card.author && b.coverUrl == card.coverUrl
    ensures details.pages.Some? ==> b.pageCount == details.pages.value
    ensures details.pages.None? ==> b.pageCount == 0
    ensures details.publishedYear.Some? ==> b.publishedYear == details.publishedYear.value
    ensures details.publishedYear.None? ==> b.publishedYear == 0
    ensures details.genres.Some? ==> b.categories == details.genres.value
    ensures details.genres.None? ==> b.categories == []
    ensures details.description.Some? ==> b.description == details.description.value
    ensures details.description.None? ==> b.description == ""
  {
    LibraryBody(
      googleId := card.id,
      title := Some(card.title),
      author := card.author,
      coverUrl := card.coverUrl,
      description := details.description.GetOr(""),
      categories := details.genres.GetOr([]),
      publishedYear := details.publishedYear.GetOr(0),
      pageCount := details.pages.GetOr(0),
      maturity := if details.age == Some("18+") then "MATURE" else "NOT_MATURE",
      status := status)
  }

  /** The age rating the page derives from a details response. */
  function AgeOf(full: CatalogBook): string {
    if full.ageRating.Some? then full.ageRating.value else full.age.GetOr("")
  }

  /** For a complete details response whose maturity agrees with its age rating, the
      book page's `ensureInLibrary` and the "add with status" flow post the same
      record. When the author is absent they do not: the book page stores "—" and
      the other flow "". */
  lemma EnsureBodyAgreesWithRecordBody(full: CatalogBook, status: Status)
    ensures full.title.Some? && full.author.Some? && full.coverUrl.Some? && full.categories.Some?
            && full.pageCount.Some?
            && full.maturity == Some(if AgeOf(full) == "18+" then "MATURE" else "NOT_MATURE")
            ==> EnsureBody(CardOf(full), DetailsOf(full), status) == Library.RecordBody(full, status)
    ensures full.author.None? ==>
            EnsureBody(CardOf(full), DetailsOf(full), status).author == "—"
            && Library.RecordBody(full, status).author == ""
  {
  }

  /** The two flows disagree on a mature book whose details response carries only
      `maturity`, which is the shape the catalog record declares: the book page
      derives maturity from an age rating that is then missing and posts
      NOT_MATURE, while the "add with status" flow posts the response's own
      maturity. */
  lemma MaturityDiffers(full: CatalogBook, status: Status)
    ensures full.ageRating.None? && full.age.None? ==>
            EnsureBody(CardOf(full), DetailsOf(full), status).maturity == "NOT_MATURE"
    ensures full.ageRating.None? && full.age.None? && full.maturity == Some("MATURE") ==>
            EnsureBody(CardOf(full), DetailsOf(full), status).maturity
            != Library.RecordBody(full, status).maturity
  {
  }

  /** Outcome of the checks `submitReview` makes before sending anything, in the
      order it makes them. */
  datatype ReviewGate = NeedsSignIn | NeedsRating | NeedsText | NoRoute | Proceed

  /** The first failing check, or `Proceed`: no token, then rating 0, then a text
      that is blank once trimmed, then no route id. */
  function ReviewCheck(signedIn: bool, rating: int, text: string, routeId: Option<string>): (g: ReviewGate)
    ensures g == Proceed <==> signedIn && rating != 0 && !Blank(text) && Truthy(routeId)
    ensures !signedIn ==> g == NeedsSignIn
    ensures signedIn && rating == 0 ==> g == NeedsRating
    ensures signedIn && rating != 0 && Blank(text) ==> g == NeedsText
    ensures g == NoRoute <==> signedIn && rating != 0 && !Blank(text) && !Truthy(routeId)
  {
    if !signedIn then NeedsSignIn
    else if rating == 0 then NeedsRating
    else if Trim(text) == [] then NeedsText
    else if !Truthy(routeId) then NoRoute
    else Proceed
  }

  class BookPage {
    const browser: Browser
    const auth: Auth.AuthService
    var leftCard: UiBook
    var book: BookDetails
    var user: Option<MeUser>
    var addToCollectionOpen: bool
    var collectionsList: seq<CollectionInfo>
    var addToCollectionError: string
    var reviewText: string
    var reviewError: string
    var sendingReview: bool
    var reviews: seq<Review>
    var loading: bool
    var statusModalOpen: bool
    var statusBook: Option<UiBook>

    /** The page's initial state; the constructor subscribes to `loadMe` and keeps
        the user it emits. */
    constructor (browser: Browser, auth: Auth.AuthService, me: Response<MeUser>)
      requires auth.browser == browser
      modifies auth`user, browser
      ensures this.browser == browser && this.auth == auth
      ensures leftCard == UiBook("", "", "", "", Some(0))
      ensures book == BookDetails(None, None, None, None, None, Some(0), Some([]))
      ensures !addToCollectionOpen && collectionsList == [] && addToCollectionError == ""
      ensures reviewText == "" && reviewError == "" && !sendingReview && reviews == []
      ensures loading && !statusModalOpen && statusBook == None
      ensures user == auth.user
      ensures browser.log == old(browser.log) + (if old(browser.SignedIn()) then [Send(GetMe)] else [])
      ensures !old(browser.SignedIn()) ==> user == None && browser.token == old(browser.token)
      ensures old(browser.SignedIn()) && me.Ok? ==> user == Some(me.payload) && browser.token == old(browser.token)
      ensures old(browser.SignedIn()) && me.Err? ==> user == None && browser.token == None
    {
      this.browser := browser;
      this.auth := auth;
      leftCard := UiBook("", "", "", "", Some(0));
      book := BookDetails(None, None, None, None, None, Some(0), Some([]));
      user := None;
      addToCollectionOpen := false;
      collectionsList := [];
      addToCollectionError := "";
      reviewText := "";
      reviewError := "";
      sendingReview := false;
      reviews := [];
      loading := true;
      statusModalOpen := false;
      statusBook := None;
      new;
      var u := auth.LoadMe(me);
      user := u;
    }

    /** `setMyRating(s)` */
    method SetMyRating(s: int)
      modifies this`book
      ensures book == old(book).(myRating := Some(ClampRating(s)))
      ensures 1 <= book.myRating.value <= 5
    {
      book := book.(myRating := Some(ClampRating(s)));
    }

    /** `openAddToCollection()`: opens the dialog and loads the user's collections. */
    method OpenAddToCollection(list: Response<Option<seq<CollectionInfo>>>)
      modifies this`addToCollectionError, this`addToCollectionOpen, this`collectionsList, browser`log
      ensures !browser.SignedIn() ==>
        browser.log == old(browser.log) + [Navigate("/auth")]
        && addToCollectionError == old(addToCollectionError)
        && addToCollectionOpen == old(addToCollectionOpen)
        && collectionsList == old(collectionsList)
      ensures browser.SignedIn() ==>
        browser.log == old(browser.log) + [Send(GetCollections)]
        && addToCollectionError == "" && addToCollectionOpen
        && collectionsList == (if list.Ok? then list.payload.GetOr([]) else [])
    {
      if !browser.SignedIn() {
        browser.Go("/auth");
        return;
      }
      addToCollectionError := "";
      addToCollectionOpen := true;
      browser.Issue(GetCollections);
      collectionsList := if list.Ok? then list.payload.GetOr([]) else [];
    }

    method CloseAddToCollection()
      modifies this`addToCollectionOpen
      ensures !addToCollectionOpen
    {
      addToCollectionOpen := false;
    }

    /** `ensureInLibrary(status)`: posts the current book to the library. Without a
        token it navigates to "/auth" and yields no observable (`None`). */
    method EnsureInLibrary(outcome: Response<()>, status: Status := Planned) returns (r: Option<Response<()>>)
      modifies browser`log
      ensures !browser.SignedIn() ==> r == None && browser.log == old(browser.log) + [Navigate("/auth")]
      ensures browser.SignedIn() ==>
        r == Some(outcome)
        && browser.log == old(browser.log) + [Send(PostLibraryBook(EnsureBody(leftCard, book, status)))]
    {
      if !browser.SignedIn() {
        browser.Go("/auth");
        return None;
      }
      browser.Issue(PostLibraryBook(EnsureBody(leftCard, book, status)));
      r := Some(outcome);
    }

    /** `addCurrentBookToCollection(collectionId)`: step 1 makes sure the book is in
        the library; step 2, only after step 1 succeeded, adds exactly this book to
        the collection. The two failures are reported with different fallback
        messages; success closes the dialog. */
    method AddCurrentBookToCollection(collectionId: int, ensured: Response<()>, added: Response<()>)
      modifies this`addToCollectionError, this`addToCollectionOpen, browser`log
      ensures !browser.SignedIn() ==>
        browser.log == old(browser.log) + [Navigate("/auth")]
        && addToCollectionError == old(addToCollectionError) && addToCollectionOpen == old(addToCollectionOpen)
      ensures browser.SignedIn() ==>
        browser.log == old(browser.log) + [Send(PostLibraryBook(EnsureBody(leftCard, book, Planned)))]
                       + (if ensured.Ok? then [Send(PostCollectionBooks(collectionId, [leftCard.id]))] else [])
      ensures browser.SignedIn() && ensured.Err? ==>
        addToCollectionError == ErrorText(ensured.body, LibraryAddFailed)
        && addToCollectionOpen == old(addToCollectionOpen)
      ensures browser.SignedIn() && ensured.Ok? && added.Ok? ==>
        addToCollectionError == "" && !addToCollectionOpen
      ensures browser.SignedIn() && ensured.Ok? && added.Err? ==>
        addToCollectionError == ErrorText(added.body, CollectionAddFailed)
        && addToCollectionOpen == old(addToCollectionOpen)
    {
      if !browser.SignedIn() {
        browser.Go("/auth");
        return;
      }
      addToCollectionError := "";
      var step1 := EnsureInLibrary(ensured, Planned);
      match ensured {
        case Ok(_) =>
          browser.Issue(PostCollectionBooks(collectionId, [leftCard.id]));
          match added {
            case Ok(_) => CloseAddToCollection();
            case Err(_, body) => addToCollectionError := ErrorText(body, CollectionAddFailed);
          }
        case Err(_, body) =>
          addToCollectionError := ErrorText(body, LibraryAddFailed);
      }
    }

    /** `loadReviews(googleId)`. On failure the page clears `book.reviews`, not the
        list it shows, which keeps its previous value. */
    method LoadReviews(googleId: string, list: Response<Option<seq<Review>>>)
      modifies this`reviews, this`book, browser`log
      ensures browser.log == old(browser.log) + [Send(GetReviews(googleId))]
      ensures list.Ok? ==> reviews == list.payload.GetOr([]) && book == old(book)
      ensures list.Err? ==> reviews == old(reviews) && book == old(book).(reviews := Some([]))
    {
      browser.Issue(GetReviews(googleId));
      match list {
        case Ok(l) => reviews := l.GetOr([]);
        case Err(_, _) => book := book.(reviews := Some([]));
      }
    }

    /** `ngOnInit()`: without a route id, back to "/"; otherwise fetch the book, fill
        the card and the details from it, then load its reviews. */
    method OnInit(routeId: Option<string>, details: Response<CatalogBook>, list: Response<Option<seq<Review>>>)
      modifies this`leftCard, this`book, this`reviews, this`loading, browser`log
      ensures !Truthy(routeId) ==>
        browser.log == old(browser.log) + [Navigate("/")]
        && leftCard == old(leftCard) && book == old(book) && reviews == old(reviews) && loading == old(loading)
      ensures Truthy(routeId) && details.Err? ==>
        browser.log == old(browser.log) + [Send(GetBook(routeId.value)), Navigate("/")]
        && leftCard == old(leftCard) && book == old(book) && reviews == old(reviews) && !loading
      ensures Truthy(routeId) && details.Ok? ==>
        browser.log == old(browser.log) + [Send(GetBook(routeId.value)), Send(GetReviews(routeId.value))]
        && leftCard == CardOf(details.payload) && !loading
        && book == (if list.Ok? then DetailsOf(details.payload) else DetailsOf(details.payload).(reviews := Some([])))
        && reviews == (if list.Ok? then list.payload.GetOr([]) else old(reviews))
    {
      if !Truthy(routeId) {
        browser.Go("/");
        return;
      }
      var id := routeId.value;
      loading := true;
      browser.Issue(GetBook(id));
      match details {
        case Ok(full) =>
          leftCard := CardOf(full);
          book := DetailsOf(full);
          LoadReviews(id, list);
          loading := false;
        case Err(_, _) =>
          loading := false;
          browser.Go("/");
      }
    }

    method OpenStatusModal(b: UiBook)
      modifies this`statusBook, this`statusModalOpen
      ensures statusBook == Some(b) && statusModalOpen
    {
      statusBook := Some(b);
      statusModalOpen := true;
    }

    method CloseStatusModal()
      modifies this`statusBook, this`statusModalOpen
      ensures statusBook == None && !statusModalOpen
    {
      statusModalOpen := false;
      statusBook := None;
    }

    /** `addBookWithStatus(book, status)`: fetch the details, then post the record. */
    method AddBookWithStatus(b: UiBook, status: Status, details: Response<CatalogBook>)
      modifies browser`log
      ensures browser.log == old(browser.log) + Library.AddWithStatusEffects(old(browser.SignedIn()), b, status, details)
    {
      if !browser.SignedIn() {
        browser.Go("/auto");
        return;
      }
      browser.Issue(GetBook(b.id));
      if details.Ok? {
        browser.Issue(PostLibraryBook(Library.RecordBody(details.payload, status)));
      }
    }

    /** `chooseStatus(status)`: a no-op without a chosen book; otherwise the modal is
        closed before the book is added. */
    method ChooseStatus(status: Status, details: Response<CatalogBook>)
      modifies this`statusBook, this`statusModalOpen, browser`log
      ensures old(statusBook).None? ==>
        statusBook == None && statusModalOpen == old(statusModalOpen) && browser.log == old(browser.log)
      ensures old(statusBook).Some? ==>
        statusBook == None && !statusModalOpen
        && browser.log == old(browser.log)
           + Library.AddWithStatusEffects(browser.SignedIn(), old(statusBook).value, status, details)
    {
      var b := statusBook;
      if b.None? {
        return;
      }
      CloseStatusModal();
      AddBookWithStatus(b.value, status, details);
    }

    /** `submitReview()`: four checks, each ending the call (no token: go to "/auth";
        no rating; blank text; no route id). Then step 1 makes sure the book is in
        the library, and only after it succeeded step 2 posts the rating and the
        trimmed text. A saved review goes in front of the list, whose old order is
        kept. */
    method SubmitReview(routeId: Option<string>, ensured: Response<()>, saved: Response<Review>)
      modifies this`reviewError, this`sendingReview, this`reviews, this`reviewText, browser`log
      ensures var gate := ReviewCheck(browser.SignedIn(), old(book.myRating.GetOr(0)), old(reviewText), routeId);
        && (gate == NeedsSignIn ==>
              browser.log == old(browser.log) + [Navigate("/auth")]
              && reviewError == old(reviewError) && sendingReview == old(sendingReview)
              && reviews == old(reviews) && reviewText == old(reviewText))
        && (gate == NeedsRating ==>
              browser.log == old(browser.log) && reviewError == NoRatingError
              && sendingReview == old(sendingReview) && reviews == old(reviews) && reviewText == old(reviewText))
        && (gate == NeedsText ==>
              browser.log == old(browser.log) && reviewError == NoTextError
              && sendingReview == old(sendingReview) && reviews == old(reviews) && reviewText == old(reviewText))
        && (gate == NoRoute ==>
              browser.log == old(browser.log) && reviewError == old(reviewError)
              && sendingReview == old(sendingReview) && reviews == old(reviews) && reviewText == old(reviewText))
      ensures ReviewCheck(browser.SignedIn(), old(book.myRating.GetOr(0)), old(reviewText), routeId) == Proceed ==>
        && browser.log == old(browser.log) + [Send(PostLibraryBook(EnsureBody(leftCard, book, Planned)))]
             + (if ensured.Ok?
                then [Send(PostReview(routeId.value, old(book.myRating.GetOr(0)), Trim(old(reviewText))))]
                else [])
        && !sendingReview
        && (ensured.Err? ==>
              reviewError == MessageOr(ensured.body, ReviewLibraryFailed)
              && reviews == old(reviews) && reviewText == old(reviewText))
        && (ensured.Ok? && saved.Ok? ==>
              reviews == [saved.payload] + old(reviews) && reviewText == "" && reviewError == "")
        && (ensured.Ok? && saved.Err? ==>
              reviewError == MessageOr(saved.body, ReviewPostFailed)
              && reviews == old(reviews) && reviewText == old(reviewText))
    {
      if !browser.SignedIn() {
        browser.Go("/auth");
        return;
      }
      var text := Trim(reviewText);
      var rating := book.myRating.GetOr(0);
      if rating == 0 {
        reviewError := NoRatingError;
        return;
      }
      if text == [] {
        reviewError := NoTextError;
        return;
      }
      if !Truthy(routeId) {
        return;
      }
      SendReview(routeId.value, rating, text, ensured, saved);
    }

    /** The two steps of `submitReview()` once every check passed: make sure the
        book is in the library, then, only after that succeeded, post the review. */
    method SendReview(id: string, rating: int, text: string, ensured: Response<()>, saved: Response<Review>)
      requires browser.SignedIn()
      modifies this`reviewError, this`sendingReview, this`reviews, this`reviewText, browser`log
      ensures browser.log == old(browser.log) + [Send(PostLibraryBook(EnsureBody(leftCard, book, Planned)))]
        + (if ensured.Ok? then [Send(PostReview(id, rating, text))] else [])
      ensures !sendingReview
      ensures ensured.Err? ==>
        reviewError == MessageOr(ensured.body, ReviewLibraryFailed)
        && reviews == old(reviews) && reviewText == old(reviewText)
      ensures ensured.Ok? && saved.Ok? ==>
        reviews == [saved.payload] + old(reviews) && reviewText == "" && reviewError == ""
      ensures ensured.Ok? && saved.Err? ==>
        reviewError == MessageOr(saved.body, ReviewPostFailed)
        && reviews == old(reviews) && reviewText == old(reviewText)
    {
      reviewError := "";
      sendingReview := true;
      var step1 := EnsureInLibrary(ensured, Planned);
      match ensured {
        case Ok(_) =>
          browser.Issue(PostReview(id, rating, text));
          match saved {
            case Ok(r) =>
              reviews := [r] + reviews;
              reviewText := "";
              sendingReview := false;
            case Err(_, body) =>
              sendingReview := false;
              reviewError := MessageOr(body, ReviewPostFailed);
          }
        case Err(_, body) =>
          sendingReview := false;
          reviewError := MessageOr(body, ReviewLibraryFailed);
      }
    }
  }
}
