/** `pages/my-books/my-books.ts`: the user's library. It lists the user's books,
    derives the collection names from them, filters by a chosen collection, and
    lets the user create a collection from selected books, change a book's status
    and add a book to a collection. */
module MyBooksPage {
  import opened Types
  import opened Http
  import opened Text

  // ---------------------------------------------------------------------------
  // `localeCompare` is locale-dependent: the page's ordering is a parameter `le`,
  // and sortedness is promised for every total order.

  ghost predicate TotalOrder(le: (string, string) -> bool) {
    && (forall a, b :: le(a, b) || le(b, a))
    && (forall a, b :: le(a, b) && le(b, a) ==> a == b)
    && (forall a, b, c :: le(a, b) && le(b, c) ==> le(a, c))
  }

  ghost predicate SortedBy(s: seq<string>, le: (string, string) -> bool) {
    forall i, j :: 0 <= i < j < |s| ==> le(s[i], s[j])
  }

  predicate NoDup<T(==)>(s: seq<T>) {
    forall i, j :: 0 <= i < j < |s| ==> s[i] != s[j]
  }

  function Insert(x: string, s: seq<string>, le: (string, string) -> bool): (r: seq<string>)
    ensures multiset(r) == multiset(s) + multiset{x}
  {
    if s == [] then [x]
    else if le(x, s[0]) then [x] + s
    else
      assert s == [s[0]] + s[1..];
      [s[0]] + Insert(x, s[1..], le)
  }

  /** `Array.prototype.sort` with the comparator `le`, as an insertion sort. */
  function SortBy(s: seq<string>, le: (string, string) -> bool): (r: seq<string>)
    ensures multiset(r) == multiset(s)
  {
    if s == [] then []
    else
      assert s == [s[0]] + s[1..];
      Insert(s[0], SortBy(s[1..], le), le)
  }

  lemma {:induction false} InsertSorted(x: string, s: seq<string>, le: (string, string) -> bool)
    requires TotalOrder(le) && SortedBy(s, le)
    ensures SortedBy(Insert(x, s, le), le)
    decreases |s|
  {
    if s != [] && !le(x, s[0]) {
      InsertSorted(x, s[1..], le);
      assert le(s[0], x);
      forall k | 0 <= k < |s[1..]| ensures le(s[0], s[1..][k]) {
        assert s[1..][k] == s[k + 1];
      }
      InsertKeepsLowerBound(s[0], x, s[1..], le);
      ConsSorted(s[0], Insert(x, s[1..], le), le);
    }
  }

  /** An element below `x` and below all of `s` stays below all of `Insert(x, s)`. */
  lemma InsertKeepsLowerBound(b: string, x: string, s: seq<string>, le: (string, string) -> bool)
    requires le(b, x) && forall k :: 0 <= k < |s| ==> le(b, s[k])
    ensures forall y :: y in Insert(x, s, le) ==> le(b, y)
  {
    var r := Insert(x, s, le);
    forall y | y in r ensures le(b, y) {
      assert y in multiset(r);
      if y != x {
        assert y in multiset(s);
        var j :| 0 <= j < |s| && s[j] == y;
      }
    }
  }

  /** Putting a lower bound in front of a sorted sequence keeps it sorted. */
  lemma ConsSorted(b: string, rest: seq<string>, le: (string, string) -> bool)
    requires SortedBy(rest, le) && forall y :: y in rest ==> le(b, y)
    ensures SortedBy([b] + rest, le)
  {
    var r := [b] + rest;
    forall i, j | 0 <= i < j < |r| ensures le(r[i], r[j]) {
      if i == 0 { assert r[j] == rest[j - 1] && rest[j - 1] in rest; }
      else { assert r[i] == rest[i - 1] && r[j] == rest[j - 1]; }
    }
  }

  lemma {:induction false} SortBySorted(s: seq<string>, le: (string, string) -> bool)
    requires TotalOrder(le)
    ensures SortedBy(SortBy(s, le), le)
    decreases |s|
  {
    if s != [] {
      SortBySorted(s[1..], le);
      InsertSorted(s[0], SortBy(s[1..], le), le);
    }
  }

  /** A duplicate-free sequence whose elements are the elements of a duplicate-free
      sequence is as long as it. */
  lemma {:induction false} NoDupPermutation(s: seq<string>, t: seq<string>)
    requires NoDup(s) && multiset(s) == multiset(t)
    ensures NoDup(t)
  {
    forall i, j | 0 <= i < j < |t| ensures t[i] != t[j] {
      if t[i] == t[j] {
        var x := t[i];
        assert t == t[..i] + [x] + t[i + 1..j] + [x] + t[j + 1..];
        assert multiset(t)[x] >= 2;
        NoDupCount(s, x);
      }
    }
  }

  lemma {:induction false} NoDupCount(s: seq<string>, x: string)
    requires NoDup(s)
    ensures multiset(s)[x] <= 1
    decreases |s|
  {
    if s != [] {
      assert s == [s[0]] + s[1..];
      NoDupCount(s[1..], x);
      if s[0] == x { assert x !in s[1..]; }
    }
  }

  lemma {:induction false} NoDupCard(s: seq<string>)
    requires NoDup(s)
    ensures |set x | x in s| == |s|
    decreases |s|
  {
    if s != [] {
      var t := s[..|s| - 1];
      NoDupCard(t);
      assert (set x | x in s) == (set x | x in t) + {s[|s| - 1]};
      assert s[|s| - 1] !in t;
    }
  }

  // ---------------------------------------------------------------------------
  // The derived views.

  /** `b.collections ?? []` */
  function CollectionsOf(b: MyBook): seq<string> {
    b.collections.GetOr([])
  }

  /** The distinct non-empty collection names that occur in some book. */
  ghost function NameSet(books: seq<MyBook>): set<string> {
    set k, c | 0 <= k < |books| && c in CollectionsOf(books[k]) && c != "" :: c
  }

  /** The `collections` signal: a `Set` filled book by book, skipping empty names,
      then sorted. The result has no duplicates, holds exactly the non-empty names
      that occur in some book (`null` counting as none), and is sorted by any total
      order it is given. */
  method Collections(books: seq<MyBook>, le: (string, string) -> bool) returns (names: seq<string>)
    ensures NoDup(names)
    ensures forall c :: c in names <==> c != "" && exists k :: 0 <= k < |books| && c in CollectionsOf(books[k])
    ensures (set c | c in names) == NameSet(books)
    ensures TotalOrder(le) ==> SortedBy(names, le)
  {
    var seen: seq<string> := [];  // the Set, in insertion order
    var i := 0;
    while i < |books|
      invariant 0 <= i <= |books|
      invariant NoDup(seen)
      invariant forall c :: c in seen <==> c != "" && exists k :: 0 <= k < i && c in CollectionsOf(books[k])
    {
      var cs := CollectionsOf(books[i]);
      var j := 0;
      while j < |cs|
        invariant 0 <= j <= |cs|
        invariant NoDup(seen)
        invariant forall c :: c in seen <==>
          c != "" && ((exists k :: 0 <= k < i && c in CollectionsOf(books[k])) || c in cs[..j])
      {
        if cs[j] != "" && cs[j] !in seen {
          seen := seen + [cs[j]];
        }
        assert cs[..j + 1] == cs[..j] + [cs[j]];
        j := j + 1;
      }
      assert cs[..j] == cs;
      forall c | c != "" && exists k :: 0 <= k < i + 1 && c in CollectionsOf(books[k])
        ensures c in seen
      {
        var k :| 0 <= k < i + 1 && c in CollectionsOf(books[k]);
        if k < i { assert exists k' :: 0 <= k' < i && c in CollectionsOf(books[k']); }
      }
      i := i + 1;
    }
    names := SortBy(seen, le);
    NoDupPermutation(seen, names);
    forall c ensures c in names <==> c in seen {
      assert c in names <==> c in multiset(names);
    }
    if TotalOrder(le) {
      SortBySorted(seen, le);
    }
  }

  /** The `collectionsScroll` signal: more than four distinct collections. */
  method CollectionsScroll(books: seq<MyBook>, le: (string, string) -> bool) returns (scroll: bool)
    ensures scroll <==> |NameSet(books)| > 4
  {
    var names := Collections(books, le);
    NoDupCard(names);
    scroll := |names| > 4;
  }

  /** `b.collections ?? []` contains `c`. */
  predicate InCollection(b: MyBook, c: string) {
    c in CollectionsOf(b)
  }

  /** `books.filter(b => (b.collections ?? []).includes(c))` */
  function FilterBy(books: seq<MyBook>, c: string): seq<MyBook> {
    if books == [] then []
    else (if InCollection(books[0], c) then [books[0]] else []) + FilterBy(books[1..], c)
  }

  /** `sub` can be obtained from `s` by deleting elements (matched greedily). */
  predicate IsSubsequence<T(==)>(sub: seq<T>, s: seq<T>)
    decreases |s|
  {
    if sub == [] then true
    else if s == [] then false
    else if sub[0] == s[0] then IsSubsequence(sub[1..], s[1..])
    else IsSubsequence(sub, s[1..])
  }

  /** Putting an element in front of a sequence keeps its subsequences. */
  lemma {:induction false} ConsKeepsSubsequence<T>(x: T, sub: seq<T>, t: seq<T>)
    requires IsSubsequence(sub, t)
    ensures IsSubsequence(sub, [x] + t)
    decreases |t|, 1
  {
    assert ([x] + t)[1..] == t;
    if sub != [] && sub[0] == x {
      DropHeadKeepsSubsequence(sub, t);
    }
  }

  /** Dropping the first element of a subsequence keeps it a subsequence. */
  lemma {:induction false} DropHeadKeepsSubsequence<T>(sub: seq<T>, t: seq<T>)
    requires sub != [] && IsSubsequence(sub, t)
    ensures IsSubsequence(sub[1..], t)
    decreases |t|, 0
  {
    assert t == [t[0]] + t[1..];
    if sub[0] == t[0] {
      ConsKeepsSubsequence(t[0], sub[1..], t[1..]);
    } else {
      DropHeadKeepsSubsequence(sub, t[1..]);
      ConsKeepsSubsequence(t[0], sub[1..], t[1..]);
    }
  }

  /** The filter keeps the order of `books` and keeps every book, with its
      multiplicity, exactly when it is in collection `c`. */
  lemma {:induction false} FilterBySpec(books: seq<MyBook>, c: string)
    ensures IsSubsequence(FilterBy(books, c), books)
    ensures forall b :: multiset(FilterBy(books, c))[b] == if InCollection(b, c) then multiset(books)[b] else 0
    decreases |books|
  {
    if books != [] {
      FilterBySpec(books[1..], c);
      assert books == [books[0]] + books[1..];
      var rest := FilterBy(books[1..], c);
      if InCollection(books[0], c) {
        var r := [books[0]] + rest;
        assert r[0] == books[0] && r[1..] == rest;
      } else {
        assert FilterBy(books, c) == rest;
        ConsKeepsSubsequence(books[0], rest, books[1..]);
      }
    }
  }

  /** The `filteredBooks` signal: all books when no collection is selected (or the
      selection is ""), else the books of the selected collection in their order. */
  function FilteredBooks(books: seq<MyBook>, selected: Option<string>): (r: seq<MyBook>)
    ensures !Truthy(selected) ==> r == books
    ensures Truthy(selected) ==> IsSubsequence(r, books)
    ensures Truthy(selected) ==>
      forall b :: multiset(r)[b] == if InCollection(b, selected.value) then multiset(books)[b] else 0
  {
    if !Truthy(selected) then books
    else
      FilterBySpec(books, selected.value);
      FilterBy(books, selected.value)
  }

  /** The label shown for a status: anything that is not planned, reading or
      finished shows as dropped. */
  function StatusLabel(status: Status): (shown: string)
    ensures status == Planned ==> shown == "Хочу"
    ensures status == Reading ==> shown == "Читаю"
    ensures status == Finished ==> shown == "Прочитано"
    ensures shown == "Брошено" <==> status == Dropped
  {
    match status
    case Planned => assert "Хочу"[0] != "Брошено"[0]; "Хочу"
    case Reading => assert "Читаю"[0] != "Брошено"[0]; "Читаю"
    case Finished => assert "Прочитано"[0] != "Брошено"[0]; "Прочитано"
    case Dropped => "Брошено"
  }

  /** `ids` with `id` removed. */
  function Remove(ids: seq<int>, id: int): (r: seq<int>)
    ensures forall x :: x in r <==> x in ids && x != id
    ensures NoDup(ids) ==> NoDup(r)
    ensures id !in ids ==> r == ids
  {
    if ids == [] then []
    else
      var rest := Remove(ids[1..], id);
      assert NoDup(ids) ==> ids[0] !in rest;
      var r := (if ids[0] == id then [] else [ids[0]]) + rest;
      assert ids[0] != id ==> r[1..] == rest;
      r
  }

  /** The selected-book `Set` after `toggleBookSelection(id)`: `delete` when present,
      otherwise `add` at the end of the insertion order. Only the membership of `id`
      changes. */
  function Toggle(ids: seq<int>, id: int): (r: seq<int>)
    ensures forall x :: x in r <==> (if x == id then id !in ids else x in ids)
    ensures NoDup(ids) ==> NoDup(r)
  {
    if id in ids then Remove(ids, id) else ids + [id]
  }

  /** Toggling twice restores the set of selected ids; when `id` was not selected
      it restores the very same sequence, and when it was, `id` moves to the end. */
  lemma ToggleTwice(ids: seq<int>, id: int)
    requires NoDup(ids)
    ensures (set x | x in Toggle(Toggle(ids, id), id)) == (set x | x in ids)
    ensures id !in ids ==> Toggle(Toggle(ids, id), id) == ids
    ensures id in ids ==> Toggle(Toggle(ids, id), id) == Remove(ids, id) + [id]
  {
    if id !in ids {
      RemoveLast(ids, id);
    }
  }

  lemma {:induction false} RemoveLast(ids: seq<int>, id: int)
    requires id !in ids
    ensures Remove(ids + [id], id) == ids
    decreases |ids|
  {
    if ids == [] {
      assert ids + [id] == [id];
    } else {
      assert (ids + [id])[1..] == ids[1..] + [id];
      RemoveLast(ids[1..], id);
    }
  }

  /** The status menu after `openStatusMenu(b)`: closed when it was open on the same
      book (same `bookId`), otherwise open on `b`. */
  function NextStatusMenu(cur: Option<MyBook>, b: MyBook): (r: Option<MyBook>)
    ensures r == None <==> cur.Some? && cur.value.bookId == b.bookId
    ensures r.Some? ==> r.value == b
  {
    if cur.Some? && cur.value.bookId == b.bookId then None else Some(b)
  }

  const NameRequired := "Название коллекции обязательно"
  const BooksRequired := "Выбери хотя бы одну книгу"
  const CreateFailed := "Ошибка создания коллекции"
  const AddFailedPrefix := "Ошибка добавления в коллекцию"

  /** Outcome of the checks `createCollection` makes before sending anything. */
  datatype CreateGate = NeedsSignIn | NeedsName | NeedsBooks | Proceed

  /** No token, then a name blank once trimmed, then an empty selection. */
  function CreateCheck(signedIn: bool, name: string, ids: seq<int>): (g: CreateGate)
    ensures g == Proceed <==> signedIn && !Blank(name) && ids != []
    ensures !signedIn ==> g == NeedsSignIn
    ensures signedIn && Blank(name) ==> g == NeedsName
    ensures g == NeedsBooks <==> signedIn && !Blank(name) && ids == []
  {
    if !signedIn then NeedsSignIn
    else if Trim(name) == [] then NeedsName
    else if ids == [] then NeedsBooks
    else Proceed
  }

  /** What `load()` does to the outside world: fetch the books and then, when they
      arrived, the collections (or go to "/auto" without a token); a failure also
      goes to "/auto". */
  function LoadEffects(signedIn: bool, booksResp: Response<Option<seq<MyBook>>>): seq<Effect> {
    [Send(GetMyBooks)]
    + if booksResp.Err? || !signedIn then [Navigate("/auto")] else [Send(GetCollections)]
  }

  /** The loading flag, books and collections that `load()` leaves: loading ends;
      books that arrive replace the old ones (`null` as none) and the collections
      are then reloaded, or kept without a token; a failed books request keeps
      both. */
  predicate Reloaded(loading: bool, books: seq<MyBook>, cols: seq<CollectionInfo>,
                     oldBooks: seq<MyBook>, oldCols: seq<CollectionInfo>, signedIn: bool,
                     booksResp: Response<Option<seq<MyBook>>>, colsResp: Response<Option<seq<CollectionInfo>>>)
  {
    && !loading
    && (booksResp.Ok? ==>
          books == booksResp.payload.GetOr([])
          && cols == (if !signedIn then oldCols else if colsResp.Ok? then colsResp.payload.GetOr([]) else []))
    && (booksResp.Err? ==> books == oldBooks && cols == oldCols)
  }

  class MyBooks {
    const browser: Browser
    var loading: bool
    var books: seq<MyBook>
    var collectionsList: seq<CollectionInfo>
    var selectedCollection: Option<string>
    var collectionsMenuOpen: bool
    var createModalOpen: bool
    var newCollectionName: string
    /** The `Set<number>` of selected book ids, in insertion order. */
    var selectedBookIds: seq<int>
    var creatingCollection: bool
    var createError: string
    var statusMenuBook: Option<MyBook>
    var addToCollectionOpen: bool
    var addToCollectionBook: Option<MyBook>
    var addToCollectionError: string

    ghost predicate Valid()
      reads this
    {
      NoDup(selectedBookIds)
    }

    constructor (browser: Browser)
      ensures this.browser == browser && Valid()
      ensures loading && books == [] && collectionsList == [] && selectedCollection == None
      ensures !collectionsMenuOpen && !createModalOpen && newCollectionName == "" && selectedBookIds == []
      ensures !creatingCollection && createError == "" && statusMenuBook == None
      ensures !addToCollectionOpen && addToCollectionBook == None && addToCollectionError == ""
    {
      this.browser := browser;
      loading := true;
      books := [];
      collectionsList := [];
      selectedCollection := None;
      collectionsMenuOpen := false;
      createModalOpen := false;
      newCollectionName := "";
      selectedBookIds := [];
      creatingCollection := false;
      createError := "";
      statusMenuBook := None;
      addToCollectionOpen := false;
      addToCollectionBook := None;
      addToCollectionError := "";
    }

    /** `loadCollections()` */
    method LoadCollections(colsResp: Response<Option<seq<CollectionInfo>>>)
      modifies this`collectionsList, browser`log
      ensures !browser.SignedIn() ==>
        browser.log == old(browser.log) + [Navigate("/auto")] && collectionsList == old(collectionsList)
      ensures browser.SignedIn() ==>
        browser.log == old(browser.log) + [Send(GetCollections)]
        && collectionsList == (if colsResp.Ok? then colsResp.payload.GetOr([]) else [])
    {
      if !browser.SignedIn() {
        browser.Go("/auto");
        return;
      }
      browser.Issue(GetCollections);
      collectionsList := if colsResp.Ok? then colsResp.payload.GetOr([]) else [];
    }

    /** `load()`: fetch the books; when they arrive, keep them (`null` as none) and
        load the collections. */
    method Load(booksResp: Response<Option<seq<MyBook>>>, colsResp: Response<Option<seq<CollectionInfo>>>)
      modifies this`loading, this`books, this`collectionsList, browser`log
      ensures !loading
      ensures browser.log == old(browser.log) + LoadEffects(browser.SignedIn(), booksResp)
      ensures booksResp.Ok? ==> books == booksResp.payload.GetOr([])
      ensures booksResp.Err? ==> books == old(books) && collectionsList == old(collectionsList)
      ensures booksResp.Ok? && browser.SignedIn() ==>
        collectionsList == (if colsResp.Ok? then colsResp.payload.GetOr([]) else [])
      ensures booksResp.Ok? && !browser.SignedIn() ==> collectionsList == old(collectionsList)
      ensures Reloaded(loading, books, collectionsList, old(books), old(collectionsList), browser.SignedIn(), booksResp, colsResp)
    {
      loading := true;
      browser.Issue(GetMyBooks);
      match booksResp {
        case Ok(data) =>
          books := data.GetOr([]);
          loading := false;
          LoadCollections(colsResp);
        case Err(_, _) =>
          loading := false;
          browser.Go("/auto");
      }
    }

    method ToggleCollectionsMenu()
      modifies this`collectionsMenuOpen
      ensures collectionsMenuOpen == !old(collectionsMenuOpen)
    {
      collectionsMenuOpen := !collectionsMenuOpen;
    }

    /** `selectCollection(c)`: choose the filter and close the menu. */
    method SelectCollection(c: Option<string>)
      modifies this`selectedCollection, this`collectionsMenuOpen
      ensures selectedCollection == c && !collectionsMenuOpen
    {
      selectedCollection := c;
      collectionsMenuOpen := false;
    }

    /** `openCreateCollection()`: a fresh, empty dialog. */
    method OpenCreateCollection()
      modifies this`createError, this`newCollectionName, this`selectedBookIds, this`createModalOpen
      ensures createError == "" && newCollectionName == "" && selectedBookIds == [] && createModalOpen
      ensures Valid()
    {
      createError := "";
      newCollectionName := "";
      selectedBookIds := [];
      createModalOpen := true;
    }

    method CloseCreateCollection()
      modifies this`createModalOpen
      ensures !createModalOpen
    {
      createModalOpen := false;
    }

    /** `toggleBookSelection(bookId)` */
    method ToggleBookSelection(bookId: int)
      requires Valid()
      modifies this`selectedBookIds
      ensures Valid()
      ensures selectedBookIds == Toggle(old(selectedBookIds), bookId)
      ensures bookId in selectedBookIds <==> bookId !in old(selectedBookIds)
      ensures forall x :: x != bookId ==> (x in selectedBookIds <==> x in old(selectedBookIds))
    {
      var next := selectedBookIds;
      if bookId in next {
        next := Remove(next, bookId);
      } else {
        next := next + [bookId];
      }
      selectedBookIds := next;
    }

    /** `createCollection()`: without a token go to "/auto"; a blank name, then an
        empty selection, set their error and send nothing; otherwise post the
        trimmed name with the selected ids, and on success close the dialog and
        reload. */
    method CreateCollection(createResp: Response<()>, booksResp: Response<Option<seq<MyBook>>>,
                            colsResp: Response<Option<seq<CollectionInfo>>>)
      modifies this`createError, this`creatingCollection, this`createModalOpen
      modifies this`loading, this`books, this`collectionsList, browser`log
      ensures var gate := CreateCheck(browser.SignedIn(), old(newCollectionName), old(selectedBookIds));
        && (gate == NeedsSignIn ==>
              browser.log == old(browser.log) + [Navigate("/auto")] && createError == old(createError))
        && (gate == NeedsName ==> browser.log == old(browser.log) && createError == NameRequired)
        && (gate == NeedsBooks ==> browser.log == old(browser.log) && createError == BooksRequired)
        && (gate != Proceed ==>
              && creatingCollection == old(creatingCollection) && createModalOpen == old(createModalOpen)
              && books == old(books) && loading == old(loading) && collectionsList == old(collectionsList))
      ensures CreateCheck(browser.SignedIn(), old(newCollectionName), old(selectedBookIds)) == Proceed ==>
        && !creatingCollection
        && (createResp.Ok? ==>
              browser.log == old(browser.log) + [Send(PostCollection(Trim(old(newCollectionName)), old(selectedBookIds)))]
                             + LoadEffects(browser.SignedIn(), booksResp)
              && createError == "" && !createModalOpen
              && Reloaded(loading, books, collectionsList, old(books), old(collectionsList), browser.SignedIn(), booksResp, colsResp))
        && (createResp.Err? ==>
              browser.log == old(browser.log) + [Send(PostCollection(Trim(old(newCollectionName)), old(selectedBookIds)))]
              && createError == ErrorText(createResp.body, CreateFailed)
              && createModalOpen == old(createModalOpen)
              && books == old(books) && loading == old(loading) && collectionsList == old(collectionsList))
    {
      if !browser.SignedIn() {
        browser.Go("/auto");
        return;
      }
      var name := Trim(newCollectionName);
      if name == [] {
        createError := NameRequired;
        return;
      }
      var ids := selectedBookIds;
      if |ids| == 0 {
        createError := BooksRequired;
        return;
      }
      creatingCollection := true;
      createError := "";
      browser.Issue(PostCollection(name, ids));
      match createResp {
        case Ok(_) =>
          creatingCollection := false;
          CloseCreateCollection();
          Load(booksResp, colsResp);
        case Err(_, body) =>
          creatingCollection := false;
          createError := ErrorText(body, CreateFailed);
      }
    }

    /** `openStatusMenu(b)` */
    method OpenStatusMenu(b: MyBook)
      modifies this`statusMenuBook
      ensures statusMenuBook == NextStatusMenu(old(statusMenuBook), b)
    {
      var cur := statusMenuBook;
      if cur.Some? && cur.value.bookId == b.bookId {
        statusMenuBook := None;
        return;
      }
      statusMenuBook := Some(b);
    }

    /** `changeStatus(b, status)`: patch the status, close the menu, and reload on
        success. A failure is reported with `alert`, which is not part of this model. */
    method ChangeStatus(b: MyBook, status: Status, resp: Response<()>,
                        booksResp: Response<Option<seq<MyBook>>>, colsResp: Response<Option<seq<CollectionInfo>>>)
      modifies this`statusMenuBook, this`loading, this`books, this`collectionsList, browser`log
      ensures !browser.SignedIn() ==>
        browser.log == old(browser.log) + [Navigate("/auto")] && statusMenuBook == old(statusMenuBook)
      ensures browser.SignedIn() ==>
        statusMenuBook == None
        && browser.log == old(browser.log) + [Send(PatchBookStatus(b.bookId, status))]
                          + (if resp.Ok? then LoadEffects(true, booksResp) else [])
      ensures browser.SignedIn() && resp.Ok? ==>
        Reloaded(loading, books, collectionsList, old(books), old(collectionsList), true, booksResp, colsResp)
      ensures !browser.SignedIn() || resp.Err? ==>
        loading == old(loading) && books == old(books) && collectionsList == old(collectionsList)
    {
      if !browser.SignedIn() {
        browser.Go("/auto");
        return;
      }
      browser.Issue(PatchBookStatus(b.bookId, status));
      statusMenuBook := None;
      if resp.Ok? {
        Load(booksResp, colsResp);
      }
    }

    /** `openAddToCollection(b)` */
    method OpenAddToCollection(b: MyBook, colsResp: Response<Option<seq<CollectionInfo>>>)
      modifies this`statusMenuBook, this`addToCollectionError, this`addToCollectionBook
      modifies this`addToCollectionOpen, this`collectionsList, browser`log
      ensures statusMenuBook == None && addToCollectionError == ""
      ensures addToCollectionBook == Some(b) && addToCollectionOpen
      ensures browser.log == old(browser.log) + [if browser.SignedIn() then Send(GetCollections) else Navigate("/auto")]
      ensures browser.SignedIn() ==> collectionsList == (if colsResp.Ok? then colsResp.payload.GetOr([]) else [])
      ensures !browser.SignedIn() ==> collectionsList == old(collectionsList)
    {
      statusMenuBook := None;
      addToCollectionError := "";
      addToCollectionBook := Some(b);
      addToCollectionOpen := true;
      LoadCollections(colsResp);
    }

    method CloseAddToCollection()
      modifies this`addToCollectionOpen, this`addToCollectionBook
      ensures !addToCollectionOpen && addToCollectionBook == None
    {
      addToCollectionOpen := false;
      addToCollectionBook := None;
    }

    /** `addBookToCollection(collectionId)`: adds the dialog's book; a failure shows
        the body's text or message, else a fallback naming the status code. */
    method AddBookToCollection(collectionId: int, resp: Response<()>,
                               booksResp: Response<Option<seq<MyBook>>>, colsResp: Response<Option<seq<CollectionInfo>>>)
      modifies this`addToCollectionError, this`addToCollectionOpen, this`addToCollectionBook
      modifies this`loading, this`books, this`collectionsList, browser`log
      ensures !browser.SignedIn() ==>
        browser.log == old(browser.log) + [Navigate("/auto")] && addToCollectionError == old(addToCollectionError)
        && addToCollectionBook == old(addToCollectionBook)
      ensures browser.SignedIn() && old(addToCollectionBook).None? ==>
        browser.log == old(browser.log) && addToCollectionError == old(addToCollectionError)
        && addToCollectionBook == old(addToCollectionBook)
      ensures !browser.SignedIn() || old(addToCollectionBook).None? || resp.Err? ==>
        addToCollectionOpen == old(addToCollectionOpen)
        && loading == old(loading) && books == old(books) && collectionsList == old(collectionsList)
      ensures browser.SignedIn() && old(addToCollectionBook).Some? && resp.Ok? ==>
        Reloaded(loading, books, collectionsList, old(books), old(collectionsList), true, booksResp, colsResp)
      ensures browser.SignedIn() && old(addToCollectionBook).Some? ==>
        var sent := Send(PostCollectionBooks(collectionId, [old(addToCollectionBook).value.googleId]));
        && (resp.Ok? ==>
              browser.log == old(browser.log) + [sent] + LoadEffects(true, booksResp)
              && addToCollectionError == "" && !addToCollectionOpen && addToCollectionBook == None)
        && (resp.Err? ==>
              browser.log == old(browser.log) + [sent]
              && addToCollectionError == ErrorText(resp.body, WithStatus(AddFailedPrefix, resp.status))
              && addToCollectionBook == old(addToCollectionBook))
    {
      if !browser.SignedIn() {
        browser.Go("/auto");
        return;
      }
      var b := addToCollectionBook;
      if b.None? {
        return;
      }
      addToCollectionError := "";
      browser.Issue(PostCollectionBooks(collectionId, [b.value.googleId]));
      match resp {
        case Ok(_) =>
          CloseAddToCollection();
          Load(booksResp, colsResp);
        case Err(status, body) =>
          addToCollectionError := ErrorText(body, WithStatus(AddFailedPrefix, status));
      }
    }
  }
}
