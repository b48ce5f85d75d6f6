/** The records the client exchanges with its server (`core/types.ts` and the
    record types declared in the pages), the requests it can issue, and the
    navigations it can make. JSON fields that may be absent or `null` are `Option`s;
    `??` and `||` on them are written out where they are used. */
module Types {

  datatype Option<+T> = None | Some(value: T) {
    /** `x ?? d` */
    function GetOr(d: T): T {
      match this
      case Some(v) => v
      case None => d
    }
  }

  /** `s || d` for an optional string: an absent or empty string is replaced. */
  function OrDefault(s: Option<string>, d: string): (r: string)
    ensures Truthy(s) ==> r == s.value
    ensures !Truthy(s) ==> r == d
    ensures d != "" ==> r != ""
  {
    if s.Some? && s.value != "" then s.value else d
  }

  /** JavaScript truthiness of an optional string (`!!s`). */
  predicate Truthy(s: Option<string>) {
    s.Some? && s.value != ""
  }

  /** A library entry's reading status (`'planned' | 'reading' | 'finished' | 'dropped'`). */
  datatype Status = Planned | Reading | Finished | Dropped

  /** The value `GET /api/auth/me` returns (`MeUser`). */
  datatype MeUser = MeUser(id: int, email: string, name: string)

  /** A card on a page (`UiBook`). */
  datatype UiBook = UiBook(id: string, title: string, author: string, coverUrl: string, rating: Option<int>)

  /** A library entry as `GET /me/books` returns it (`MyBookDto`); `collections`
      may come back `null`. */
  datatype MyBook = MyBook(
    bookId: int, googleId: string, title: string, author: string, coverUrl: string,
    status: Status, collections: Option<seq<string>>)

  /** `CollectionDto` */
  datatype CollectionInfo = CollectionInfo(id: int, name: string, count: int)

  /** `ReviewDto`: a review as the client keeps it. */
  datatype Review = Review(id: string, userName: string, createdAt: string, rating: Option<int>, text: string)

  datatype GenreStat = GenreStat(genre: string, cnt: int)
  datatype MonthStat = MonthStat(month: string, cnt: int)

  /** A catalog record as the search endpoint and the details endpoint
      (`GET /api/books/google/{id}`) return it. The details endpoint is read as
      untyped JSON, so each page reads whichever of the alternative field names
      (`categories`/`genres`, `pageCount`/`pages`, `ageRating`/`age`) it expects. */
  datatype CatalogBook = CatalogBook(
    id: string,
    title: Option<string>,
    author: Option<string>,
    coverUrl: Option<string>,
    rating: Option<int>,
    description: Option<string>,
    categories: Option<seq<string>>,
    genres: Option<seq<string>>,
    publishedYear: Option<int>,
    pageCount: Option<int>,
    pages: Option<int>,
    ageRating: Option<string>,
    age: Option<string>,
    maturity: Option<string>)

  /** The body of `POST /api/me/books`, which adds a book to the user's library. */
  datatype LibraryBody = LibraryBody(
    googleId: string,
    title: Option<string>,
    author: string,
    coverUrl: string,
    description: string,
    categories: seq<string>,
    publishedYear: int,
    pageCount: int,
    maturity: string,
    status: Status)

  /** The requests the core issues, one constructor per endpoint. */
  datatype Request =
    | GetMe                                                  // GET /api/auth/me
    | PostRegister(email: string, password: string, name: string)
    | PostLogin(email: string, password: string)
    | GetBook(googleId: string)                              // GET /api/books/google/{id}
    | GetReviews(googleId: string)                           // GET /api/books/reviews/{id}
    | PostReview(googleId: string, rating: int, text: string)
    | PostLibraryBook(body: LibraryBody)                     // POST /api/me/books
    | GetMyBooks                                             // GET /api/me/books
    | GetCollections                                         // GET /api/me/collections
    | PostCollection(name: string, bookIds: seq<int>)        // POST /api/me/collections
    | PostCollectionBooks(collectionId: int, googleIds: seq<string>)  // .../add-books
    | PatchBookStatus(bookId: int, status: Status)           // PATCH /api/me/books/status
    | SearchCatalog(query: string, max: nat)                 // GET /api/google/search
    | GetStats                                               // GET /api/me/stats
    | PatchProfile(name: string)                             // PATCH /api/me/profile
    | PatchPassword(password: string)                        // PATCH /api/me/password

  /** Something the client does to the outside world, in the order it does it. */
  datatype Effect =
    | Send(request: Request)
    | Navigate(url: string)           // router.navigateByUrl(url)
    | NavigateHome(query: string)     // router.navigate(['/'], { queryParams: { q } })
}
