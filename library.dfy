/** "Add a catalog book to my library with a status", as the main page and the
    book page both implement it: fetch the book's full record, then post it.
    The two pages (and `ApiService.addBook`) build the same request body. */
module Library {
  import opened Types
  import opened Http

  /** The body posted to `/api/me/books` from a fetched catalog record: absent
      fields become "", [] or 0, and an absent maturity becomes NOT_MATURE. */
  function RecordBody(full: CatalogBook, status: Status): (b: LibraryBody)
    ensures b.googleId == full.id && b.title == full.title && b.status == status
    ensures full.maturity.None? ==> b.maturity == "NOT_MATURE"
    ensures full.maturity.Some? ==> b.maturity == full.maturity.value
    ensures full.author.Some? ==> b.author == full.author.value
    ensures full.author.None? ==> b.author == ""
    ensures full.coverUrl.Some? ==> b.coverUrl == full.coverUrl.value
    ensures full.coverUrl.None? ==> b.coverUrl == ""
    ensures full.description.Some? ==> b.description == full.description.value
    ensures full.description.None? ==> b.description == ""
    ensures full.categories.Some? ==> b.categories == full.categories.value
    ensures full.categories.None? ==> b.categories == []
    ensures full.publishedYear.Some? ==> b.publishedYear == full.publishedYear.value
    ensures full.publishedYear.None? ==> b.publishedYear == 0
    ensures full.pageCount.Some? ==> b.pageCount == full.pageCount.value
    ensures full.pageCount.None? ==> b.pageCount == 0
  {
    LibraryBody(
      googleId := full.id,
      title := full.title,
      author := full.author.GetOr(""),
      coverUrl := full.coverUrl.GetOr(""),
      description := full.description.GetOr(""),
      categories := full.categories.GetOr([]),
      publishedYear := full.publishedYear.GetOr(0),
      pageCount := full.pageCount.GetOr(0),
      maturity := full.maturity.GetOr("NOT_MATURE"),
      status := status)
  }

  /** What `addBookWithStatus(book, status)` does to the outside world: without a
      token it only navigates to "/auto"; otherwise it asks for the book's details
      and, only when they arrive, posts the library record built from them. Failures
      are reported with `alert`, which is not part of this model. */
  function AddWithStatusEffects(signedIn: bool, book: UiBook, status: Status, details: Response<CatalogBook>): seq<Effect>
  {
    if !signedIn then [Navigate("/auto")]
    else [Send(GetBook(book.id))]
         + (if details.Ok? then [Send(PostLibraryBook(RecordBody(details.payload, status)))] else [])
  }

  /** The library record is never posted before the details request, never without
      a token, and never when the details request failed. */
  lemma {:induction false} PostOnlyAfterDetails(signedIn: bool, book: UiBook, status: Status, details: Response<CatalogBook>)
    ensures var effects := AddWithStatusEffects(signedIn, book, status, details);
            && (forall k :: 0 <= k < |effects| && effects[k].Send? && effects[k].request.PostLibraryBook? ==>
                 signedIn && details.Ok? && k == 1 && effects[0] == Send(GetBook(book.id))
                 && effects[k].request.body == RecordBody(details.payload, status))
            && (signedIn && details.Ok? ==> |effects| == 2)
            && (!signedIn ==> effects == [Navigate("/auto")])
  {
  }
}
