# BookPulse client core, modelled in Dafny

BookPulse is a reading tracker. Its Angular client lets a user search a book
catalog, open a book's page, rate and review it, add it to their library with a
reading status (planned, reading, finished, dropped), group library books into
collections, see reading statistics on their profile, and sign in and out.

This project models the parts of the client that decide things:

- the session (`AuthService`): the token in browser storage and the current user;
- the book page: the rating clamp, the initials, the request bodies, the
  two-step chains (make sure the book is in the library, then add it to a
  collection or post a review; fetch the details, then add the book with a
  status), the checks made before a review is sent, and the newest-first
  review list;
- the library page: the derived, de-duplicated and sorted collection names, the
  collection filter, the selected-book set, collection creation, the status menu
  and the status labels;
- the home page: the loading counter, the cards built from catalog records, the
  id-to-record map, search, and adding a book with a status;
- the profile page: the save plan, the statistics charts and their legend split,
  the initials;
- the header: its initials, search, menu and navigation.

How the model is built:

- `Http.Browser` is the browser state every component shares: the stored token and
  a log of every request sent and every navigation made, oldest first. Contracts
  state what each operation appends to that log, so "sent only after", "never
  sent" and "sent with this body" are all statements about the log.
- An HTTP call is not made; its outcome (`Ok(payload)` or `Err(status, body)`) is a
  parameter of the operation that subscribes to it. Callbacks run before the
  operation returns, so an operation with a two-step chain takes both outcomes.
- The home page's loads are the exception: issuing a load and receiving its
  answer are separate methods (`LoadTopWeek` / `TopWeekArrived`, ...), because the
  `pending` counter is only meaningful while answers are outstanding. So is
  `loadMe` (`RequestMe` / `MeArrived`) where another request is sent before its
  answer: the profile page asks for its statistics while the token is still
  stored, even when `/api/auth/me` will fail. Any
  interleaving of answers is a sequence of `LoadEvent`s, and the lemmas about
  `Replay` cover all of them.
- Pages are classes whose fields are the component's fields and signals.
  Derived signals (`collections`, `filteredBooks`, `initials`) are functions or
  methods of the data they are derived from.
- `toUpperCase` is a parameter `upper: char -> char`. `localeCompare` is a
  parameter `le`; sortedness is proved for every total order `le`.
- White space, for `trim()` and `split(/\s+/)`, is the ECMAScript set of white-space
  and line-terminator characters (`Text.IsSpace`).
- Without a token, several operations navigate to "/auto". That string is kept as
  written. It is not a route of the application, so the router's catch-all rule
  sends the user to the home page.

Files: `types.dfy` (records, requests, log entries), `http.dfy` (outcomes,
error messages, `Browser`), `text.dfy` (trim, split, initials and their word-start
characterisation), `auth.dfy`, `library.dfy` (the "add with status" flow shared by
two pages), `book.dfy`, `my_books.dfy`, `main_page.dfy`, `profile.dfy`,
`header.dfy`.

## Model

| member | source | states |
|---|---|---|
| Text.Trim | app/src/app/shared/layouts/header/header.ts:36 | `trim()` gives the slice of the input after its leading white space, with only white space cut from the end; it is empty exactly when the input is blank, and otherwise starts and ends with a non-space character |
| Text.TrimIdempotent | app/src/app/pages/main/main.ts:58-61 | trimming an already trimmed query changes nothing, so the query the page stores is the one it searches |
| Text.InitialsAreWordStarts | app/src/app/pages/book/book.ts:179-182 | trim, split on white-space runs, keep two words and take their first characters is the same as: upper-case the first character of every word of the name and keep the first two |
| Text.InitialsShape | app/src/app/pages/book/book.ts:181 | the initials have at most 2 characters, are empty exactly for a blank name, and otherwise start with the upper-cased first non-space character |
| Types.OrDefault | app/src/app/pages/main/main.ts:69-71 | `s \|\| d`: a present, non-empty string is kept; an absent or empty one is replaced by `d`; never empty when `d` is not |
| Http.MessageOr | app/src/app/pages/book/book.ts:340 | the server's non-empty `message` when the error body has one, else the fallback; never empty for a non-empty fallback |
| Http.ErrorText | app/src/app/pages/my-books/my-books.ts:159-163 | a non-empty text body wins, then the JSON `message`, then the fallback |
| Http.NatToString | app/src/app/pages/my-books/my-books.ts:228 | `${e.status}`: decimal digits without a leading zero whose value is the status |
| Auth.AuthService.IsAuthed | app/src/app/core/auth/auth.service.ts:15-21 | signed in exactly when a token is stored and it is not empty |
| Auth.AuthService.SetSession | app/src/app/core/auth/auth.service.ts:23-26 | the token is stored; the user changes only when one is given |
| Auth.AuthService.ClearSession | app/src/app/core/auth/auth.service.ts:28-31 | no token and no user afterwards |
| Auth.AuthService.LoadMe | app/src/app/core/auth/auth.service.ts:33-46 | without a token: no request and no user; with one: `GET /api/auth/me` is sent, success publishes the user, failure ends the session; the result is always the published user |
| Auth.AuthService.RequestMe | app/src/app/core/auth/auth.service.ts:33-40 | without a token "nobody" is published at once and nothing is sent; with one only `GET /api/auth/me` is sent and the user is unchanged until the answer |
| Auth.AuthService.MeArrived | app/src/app/core/auth/auth.service.ts:40-45 | a successful answer publishes the user and keeps the token; a failure clears the token and publishes "nobody" |
| Auth.AuthService.Register | app/src/app/core/auth/auth.service.ts:48-52 | the registration is sent with `name` defaulting to "User"; success makes the response's token and user the session, failure changes nothing |
| Auth.AuthService.Login | app/src/app/core/auth/auth.service.ts:54-58 | success makes the response's token and user the session, failure changes nothing |
| Auth.AuthService.Logout | app/src/app/core/auth/auth.service.ts:60-62 | logging out is clearing the session |
| Library.RecordBody | app/src/app/pages/main/main.ts:187-201 | the posted library record carries the record's id, title and the chosen status; author, cover, description, categories, year and page count are the record's own when present and "", "", "", [], 0, 0 when absent; maturity is the record's own or "NOT_MATURE" |
| Library.PostOnlyAfterDetails | app/src/app/pages/book/book.ts:240-280 | the library record is posted only with a token, only after the details request and only when it succeeded, and then with the body built from those details |
| BookPage.ClampRating | app/src/app/pages/book/book.ts:59 | the rating is always in 1..5, a rating already in range is kept, lower values become 1 and higher ones 5 |
| BookPage.BookPage.SetMyRating | app/src/app/pages/book/book.ts:57-61 | only `myRating` changes, to the clamped value |
| BookPage.InitialsFromName | app/src/app/pages/book/book.ts:179-182 | "U" for the empty name, "" for a blank one, otherwise the first two word starts upper-cased |
| BookPage.UserInitials | app/src/app/pages/book/book.ts:42-51 | "U" without a user; otherwise the same as `initialsFromName` of the user's name |
| BookPage.CardOf | app/src/app/pages/book/book.ts:200-206 | the card keeps the id; a present title, author, cover or rating is kept (even an empty string), and only an absent one becomes "Без названия", "—", the no-cover icon or 0 |
| BookPage.DetailsOf | app/src/app/pages/book/book.ts:208-216 | description kept or ""; genres from `categories`, else `genres`, else []; pages from `pageCount`, else `pages`; age from `ageRating`, else `age`, else ""; year kept; the page's own rating starts at 0 with no reviews |
| BookPage.EnsureBody | app/src/app/pages/book/book.ts:102-115 | the record posted by `ensureInLibrary` is MATURE exactly for the age rating "18+"; author and cover are the shown card's; pages, year, genres and description are the response's own when present and 0, 0, [] and "" when absent |
| BookPage.EnsureBodyAgreesWithRecordBody | app/src/app/pages/book/book.ts:104-114 | when the response has title, author, cover, categories and page count, and its `maturity` is the one its age rating implies (MATURE exactly for "18+"), the book page and the "add with status" flow post the same record; with no author they differ ("—" against "") |
| BookPage.MaturityDiffers | app/src/app/pages/book/book.ts:113 | a response without `ageRating` or `age` (the shape the catalog record declares) is posted NOT_MATURE by the book page, and a mature one is posted differently by the "add with status" flow, which keeps `maturity` |
| BookPage.ReviewCheck | app/src/app/pages/book/book.ts:291-311 | the checks before a review run in order (token, rating, non-blank text, route id) and the review proceeds exactly when all pass |
| BookPage.BookPage.constructor | app/src/app/pages/book/book.ts:34-56 | the initial fields; the user `loadMe` emits: none without a token, the answer's user on success, none with the session ended on failure |
| BookPage.BookPage.OpenAddToCollection | app/src/app/pages/book/book.ts:73-89 | without a token go to "/auth" and change nothing; otherwise open the dialog with no error and load the collections ([] on failure) |
| BookPage.BookPage.CloseAddToCollection | app/src/app/pages/book/book.ts:91-93 | the dialog is closed |
| BookPage.BookPage.EnsureInLibrary | app/src/app/pages/book/book.ts:95-118 | without a token go to "/auth" and give no request; otherwise post the current book's record with the given status (planned by default) |
| BookPage.BookPage.AddCurrentBookToCollection | app/src/app/pages/book/book.ts:120-154 | the add-books request, holding only this book's id, is sent only after the library post succeeded; each failure has its own fallback message; success closes the dialog |
| BookPage.BookPage.LoadReviews | app/src/app/pages/book/book.ts:157-173 | the reviews are fetched; success replaces the list (`null` as none); failure clears `book.reviews` and leaves the shown list alone |
| BookPage.BookPage.OnInit | app/src/app/pages/book/book.ts:188-226 | no route id: go to "/"; details failure: go to "/"; success: card and details from the record, then the reviews are loaded; loading ends either way |
| BookPage.BookPage.OpenStatusModal | app/src/app/pages/book/book.ts:231-234 | the modal is open on the given book |
| BookPage.BookPage.CloseStatusModal | app/src/app/pages/book/book.ts:236-239 | the modal is closed with no book |
| BookPage.BookPage.AddBookWithStatus | app/src/app/pages/book/book.ts:240-280 | the log grows by exactly the "add with status" flow: "/auto" without a token, else the details request and, on success, the record post |
| BookPage.BookPage.ChooseStatus | app/src/app/pages/book/book.ts:282-288 | nothing happens without a chosen book; otherwise the modal is closed and then the book is added with the status |
| BookPage.BookPage.SubmitReview | app/src/app/pages/book/book.ts:291-349 | each failed check sets its own error (or navigates) and sends nothing; the review is posted only after the library post succeeded; a saved review goes first with the older ones after it in order, and the text is cleared; each failure stops the sending flag with its own message |
| BookPage.BookPage.SendReview | app/src/app/pages/book/book.ts:313-349 | once the checks passed: the library post is sent first and the review post only after it succeeded, with the same trimmed text and rating; a saved review goes in front with the older ones kept in order and the text cleared; each failure clears the sending flag and shows its own message |
| MyBooksPage.SortBy | app/src/app/pages/my-books/my-books.ts:29 | sorting keeps exactly the same names with the same multiplicities |
| MyBooksPage.SortBySorted | app/src/app/pages/my-books/my-books.ts:29 | for any total order the sorted names are in order |
| MyBooksPage.Collections | app/src/app/pages/my-books/my-books.ts:24-30 | the collection list has no duplicates, holds exactly the non-empty names found in some book (`null` collections counting as none) and is sorted by any total order |
| MyBooksPage.CollectionsScroll | app/src/app/pages/my-books/my-books.ts:31 | the list scrolls exactly when there are more than four distinct collection names |
| MyBooksPage.FilterBySpec | app/src/app/pages/my-books/my-books.ts:37 | the filter is a subsequence of the books and keeps each book, with its multiplicity, exactly when it is in the collection |
| MyBooksPage.FilteredBooks | app/src/app/pages/my-books/my-books.ts:34-38 | all books when no collection (or "") is selected; else the order-preserving selection of the books in that collection |
| MyBooksPage.StatusLabel | app/src/app/pages/my-books/my-books.ts:93-98 | planned, reading and finished have their labels; "Брошено" is shown exactly for dropped |
| MyBooksPage.Remove | app/src/app/pages/my-books/my-books.ts:127 | `delete` removes exactly the id and keeps the rest without duplicates |
| MyBooksPage.Toggle | app/src/app/pages/my-books/my-books.ts:125-130 | only the membership of the toggled id flips; the set stays free of duplicates |
| MyBooksPage.ToggleTwice | app/src/app/pages/my-books/my-books.ts:125-130 | toggling twice restores the set; for an id that was not selected it restores the very order, for one that was it moves the id to the end |
| MyBooksPage.NextStatusMenu | app/src/app/pages/my-books/my-books.ts:168-175 | the menu closes exactly when it was open on the same book id, and otherwise opens on the given book |
| MyBooksPage.CreateCheck | app/src/app/pages/my-books/my-books.ts:132-146 | the token is checked first, then the trimmed name, then the selection; creation proceeds exactly when all pass |
| MyBooksPage.MyBooks.constructor | app/src/app/pages/my-books/my-books.ts:16-50 | the initial fields: loading, nothing selected, no menus open |
| MyBooksPage.MyBooks.LoadCollections | app/src/app/pages/my-books/my-books.ts:83-91 | without a token go to "/auto"; otherwise the collections are fetched, [] on failure or `null` |
| MyBooksPage.MyBooks.Load | app/src/app/pages/my-books/my-books.ts:65-81 | the books are fetched (`null` as none) and then the collections; a failure goes to "/auto"; loading ends either way; arrived books replace the list, the collections follow their answer ([] on failure) with a token and are kept without one; a failed books request keeps both lists |
| MyBooksPage.MyBooks.ToggleCollectionsMenu | app/src/app/pages/my-books/my-books.ts:100-102 | the menu flag flips |
| MyBooksPage.MyBooks.SelectCollection | app/src/app/pages/my-books/my-books.ts:104-107 | the filter is set and the menu closed |
| MyBooksPage.MyBooks.OpenCreateCollection | app/src/app/pages/my-books/my-books.ts:109-114 | the dialog opens with no error, no name and no selected book |
| MyBooksPage.MyBooks.CloseCreateCollection | app/src/app/pages/my-books/my-books.ts:116-118 | the dialog is closed |
| MyBooksPage.MyBooks.ToggleBookSelection | app/src/app/pages/my-books/my-books.ts:125-130 | the selection becomes `Toggle` of the old one and stays free of duplicates |
| MyBooksPage.MyBooks.CreateCollection | app/src/app/pages/my-books/my-books.ts:132-166 | each failed check sets its error (or navigates) and sends nothing; otherwise the trimmed name and the selected ids are posted; success closes the dialog and reloads (books and collections as `Load` leaves them), failure shows the server's text, message or fallback and leaves loading, books and collections alone |
| MyBooksPage.MyBooks.OpenStatusMenu | app/src/app/pages/my-books/my-books.ts:168-175 | the menu becomes `NextStatusMenu` of the old one |
| MyBooksPage.MyBooks.ChangeStatus | app/src/app/pages/my-books/my-books.ts:177-195 | without a token go to "/auto"; otherwise the status patch is sent and the menu closed; on success the library is reloaded (loading, books and collections as `Load` leaves them); without a token or on failure loading, books and collections are unchanged |
| MyBooksPage.MyBooks.OpenAddToCollection | app/src/app/pages/my-books/my-books.ts:197-203 | the status menu closes and the dialog opens on the book with no error, then the collections load: with a token they follow the answer ([] on failure), without one they are kept |
| MyBooksPage.MyBooks.CloseAddToCollection | app/src/app/pages/my-books/my-books.ts:205-208 | the dialog is closed with no book |
| MyBooksPage.MyBooks.AddBookToCollection | app/src/app/pages/my-books/my-books.ts:210-232 | without a token go to "/auto"; without a dialog book nothing happens; otherwise exactly that book's id is posted; success closes and reloads (loading, books and collections as `Load` leaves them), failure shows the text, message or the fallback with the status code; on every path but success the dialog flag, loading, books and collections are unchanged |
| MainPage.BeginStep | app/src/app/pages/main/main.ts:77-80 | one more load outstanding and the spinner on |
| MainPage.EndStep | app/src/app/pages/main/main.ts:82-89 | one fewer outstanding; at one or fewer the counter is reset to 0 and the spinner goes off |
| MainPage.ReplayConsistent | app/src/app/pages/main/main.ts:77-89 | under any sequence of begins and ends the counter never goes below zero and the spinner is on exactly while it is positive |
| MainPage.ReplayCounts | app/src/app/pages/main/main.ts:77-89 | when no end comes before its begin, the counter is the number of loads begun and not ended |
| MainPage.BalancedRestores | app/src/app/pages/main/main.ts:77-89 | a balanced sequence of loads restores the counter and the spinner |
| MainPage.LoadingWhileOutstanding | app/src/app/pages/main/main.ts:77-89 | while a begun load has not ended the spinner is on |
| MainPage.Card | app/src/app/pages/main/main.ts:67-72 | a card keeps the record's id, and `\|\|` replaces an absent or empty title, author or cover, so none of them is empty |
| MainPage.ToUi | app/src/app/pages/main/main.ts:66-73 | one card per record, in the same order |
| MainPage.ToUiIds | app/src/app/pages/main/main.ts:66-73 | every card carries the id of the record at its position |
| MainPage.SeededKeys | app/src/app/pages/main/main.ts:118 | seeding adds exactly the records' ids and removes nothing |
| MainPage.SeededLastWins | app/src/app/pages/main/main.ts:118 | each id maps to the last record carrying it |
| MainPage.SeededUntouched | app/src/app/pages/main/main.ts:118 | ids no record carries keep their entries |
| MainPage.CardsResolvable | app/src/app/pages/main/main.ts:118-119 | after seeding, every card built from the same records can be looked up by its id |
| MainPage.Main.constructor | app/src/app/pages/main/main.ts:54-56 | both strip loads are begun and requested, top of the week first |
| MainPage.Main.BeginLoad | app/src/app/pages/main/main.ts:77-80 | the load state takes one `BeginStep` |
| MainPage.Main.EndLoad | app/src/app/pages/main/main.ts:82-89 | the load state takes one `EndStep` |
| MainPage.Main.SeedById | app/src/app/pages/main/main.ts:118 | the map becomes the old one seeded with the records, one after another |
| MainPage.Main.LoadTopWeek | app/src/app/pages/main/main.ts:112-115 | one load begins and the "бестселлеры" search (10 results) is sent |
| MainPage.Main.TopWeekArrived | app/src/app/pages/main/main.ts:116-128 | success seeds the map and replaces the strip with cards that can all be looked up; either way one load ends and no cached record is lost |
| MainPage.Main.LoadForYou | app/src/app/pages/main/main.ts:131-134 | one load begins and the "современная проза" search (10 results) is sent |
| MainPage.Main.ForYouArrived | app/src/app/pages/main/main.ts:135-147 | success seeds the map and replaces the second strip; either way one load ends |
| MainPage.Main.OnSearch | app/src/app/pages/main/main.ts:150-156 | a blank query does nothing; otherwise one load begins and the trimmed query is searched with 20 results |
| MainPage.Main.OnQueryParam | app/src/app/pages/main/main.ts:57-63 | a non-blank `q` parameter becomes the trimmed query and is searched; a blank or absent one changes nothing |
| MainPage.Main.OpenStatusModal | app/src/app/pages/main/main.ts:94-97 | the modal is open on the given book |
| MainPage.Main.CloseStatusModal | app/src/app/pages/main/main.ts:99-102 | the modal is closed with no book |
| MainPage.Main.AddBookWithStatus | app/src/app/pages/main/main.ts:177-225 | the log grows by exactly the "add with status" flow |
| MainPage.Main.ChooseStatus | app/src/app/pages/main/main.ts:104-110 | nothing happens without a chosen book; otherwise the modal is closed before the book is added |
| ProfilePage.PieOf | app/src/app/pages/profile/profile.ts:159-162 | labels and values have one entry per genre, and each (label, value) pair is that genre's statistic |
| ProfilePage.BarOf | app/src/app/pages/profile/profile.ts:164-167 | labels and values have one entry per month, and each (label, value) pair is that month's statistic |
| ProfilePage.SplitLegend | app/src/app/pages/profile/profile.ts:71-75 | a label of at most 22 characters stays one line; a longer one becomes 22 characters plus "…" and a non-empty rest |
| ProfilePage.LegendRoundTrip | app/src/app/pages/profile/profile.ts:71-75 | dropping the "…" and joining the lines gives the label back |
| ProfilePage.ProfileInitials | app/src/app/pages/profile/profile.ts:116-121 | "U" with no user or a blank name; otherwise one or two upper-cased word starts |
| ProfilePage.SavePlan | app/src/app/pages/profile/profile.ts:188-207 | the name patch is planned exactly when the trimmed name is not blank, the password patch exactly when the trimmed password is not blank, name first; the plan is empty exactly when both are blank |
| ProfilePage.Profile.constructor | app/src/app/pages/profile/profile.ts:27-48 | the initial fields, with empty charts |
| ProfilePage.Profile.LoadMe | app/src/app/pages/profile/profile.ts:132-143 | the page keeps the user `loadMe` emits and fills the name and email from it ("" for none); a failed answer ends the session, an answered one or a missing token leaves the token as it was |
| ProfilePage.Profile.RequestMe | app/src/app/pages/profile/profile.ts:132-143 | `loadMe()` up to its request: without a token the user, name and email are cleared at once and nothing is sent; with one only `GET /api/auth/me` is sent |
| ProfilePage.Profile.MeArrived | app/src/app/pages/profile/profile.ts:133-138 | the answer fills the user, name and email: the answer's user on success, none (and the session ended) on failure |
| ProfilePage.Profile.LoadStats | app/src/app/pages/profile/profile.ts:145-176 | without a token nothing is sent; success keeps the statistics (missing lists as empty) and the charts show them; failure empties all four |
| ProfilePage.Profile.OnInit | app/src/app/pages/profile/profile.ts:123-126 | with a token both `GET /api/auth/me` and `GET /api/me/stats` are sent, whatever `/api/auth/me` answers; the user, name and email follow that answer, whose failure alone ends the session, and the charts follow the statistics; without a token nothing is sent, the user is cleared and the token stays absent |
| ProfilePage.Profile.SendPlan | app/src/app/pages/profile/profile.ts:188-207 | the planned patches are sent in plan order, and the result says whether any was |
| ProfilePage.Profile.Save | app/src/app/pages/profile/profile.ts:178-227 | without a token go to "/auth" and change nothing; an empty plan sends nothing, says "Нечего сохранять." and leaves `saving`, the user, name, email and token alone; otherwise the plan is sent and saving ends: success clears the error and password and reloads the user (name and email from it, or all cleared with the session ended when `/api/auth/me` fails), failure keeps the password, user, name, email and token and shows the server's message or the fallback |
| ProfilePage.Profile.StartSave | app/src/app/pages/profile/profile.ts:185-214 | the previous outcome is cleared and the plan sent; an empty plan reports "Нечего сохранять." and leaves the saving flag alone, a non-empty one sets it |
| ProfilePage.Profile.SaveSignedIn | app/src/app/pages/profile/profile.ts:185-226 | with a token: an empty plan sends nothing and reports it; otherwise the plan is sent, success clears the password, error and flag and reloads the user (name and email from it; a failed reload clears them and ends the session), failure shows the server's message or "Ошибка сохранения" and keeps user, name, email and token |
| ProfilePage.Profile.SaveSettled | app/src/app/pages/profile/profile.ts:216-226 | the joint outcome always stops saving; success marks the save done, clears the password and reloads the user (name, email and token follow the reload's answer); failure keeps the password, user, name, email and token and shows the server's message or the fallback |
| ProfilePage.SendAllOfPlan | app/src/app/pages/profile/profile.ts:193-207 | the logged requests of a plan are the name patch, when the trimmed name is not blank, followed by the password patch, when the trimmed password is not blank |
| HeaderBar.HeaderInitials | app/src/app/shared/layouts/header/header.ts:20-29 | "" with no user or an empty name (not "U"); otherwise the first two word starts upper-cased, "" exactly for a blank name |
| HeaderBar.HeaderAgreesWithBookPage | app/src/app/shared/layouts/header/header.ts:22 | the header's initials equal the book page's for every non-empty name and differ only for the empty one |
| HeaderBar.Header.constructor | app/src/app/shared/layouts/header/header.ts:31-33 | the header keeps the user `loadMe` emits: none without a token, the answer's user on success, none with the session ended on failure |
| HeaderBar.Header.OnSearch | app/src/app/shared/layouts/header/header.ts:35-42 | a blank query does nothing; otherwise go home with the trimmed query as `q` and close the menu |
| HeaderBar.Header.OnAvatarClick | app/src/app/shared/layouts/header/header.ts:49-55 | signed out: go to "/auth", menu unchanged; signed in: the menu flips |
| HeaderBar.Header.OnMyBooksClick | app/src/app/shared/layouts/header/header.ts:57-64 | signed out: go to "/auth"; signed in: close the menu and go to "/my-books" |
| HeaderBar.Header.Logout | app/src/app/shared/layouts/header/header.ts:66-71 | no token, no user, menu closed, then go to "/auth" |
| HeaderBar.Header.Go | app/src/app/shared/layouts/header/header.ts:73-76 | the menu is closed and the path is navigated to |

## Left out

- HTTP transport, headers (the `Authorization` bearer header), base URLs and
  `encodeURIComponent`: a request is identified by its endpoint and its body.
- Asynchrony: RxJS subscriptions and callbacks run before the subscribing
  operation returns, except for the home page's loads and the profile page's
  `loadMe` at start-up. Two overlapping requests
  of the other pages, and answers arriving after the user has left a page, are
  not modelled.
- `Promise.all` in the profile's `save`: the two patches are one joint outcome; which
  of them failed first, and a failure arriving while the other is still pending,
  are not modelled.
- Angular dependency injection, signals and `computed` change propagation, and
  `ChangeDetectorRef`: signals are fields and derived signals are functions.
- `alert` and `console` output: the failures the pages report only with `alert`
  (adding a book with a status, changing a status on the library page) change no
  modelled state.
- Chart.js options, colours and tooltips, apart from the legend's label split;
  the document click handlers that close menus; the home page's pixel scrolling.
- `openBook` on the three pages (a router navigation to `['/book', id]`, whose
  URL encoding is the router's) and the book page's fixed `myInitials()` are not
  modelled.
- The registration and sign-in pages, whose validity comes from Angular form
  validators; the stale root component; the routing table, shell and card
  components; `ApiService`, whose `addBook` body is the same as the one modelled
  in `Library.RecordBody`.
- Characters are Unicode scalar values, not UTF-16 code units: `x[0]` of a word
  starting with an astral character, and the 22-character legend limit, count
  differently in JavaScript.
- `toUpperCase` can turn one character into several (for example "ß" to "SS");
  the `upper: char -> char` parameter does not capture that.
- `localeCompare` can report two different strings as equal; sortedness is proved
  only for total orders that do not.
- Review ids: `String(r.id)` is taken to be the identity, as the record type
  declares the id a string.
- ProfilePage.Profile.LoadMe: the page's redirect to "/auth" when `loadMe` fails is not
  modelled, because `AuthService.loadMe` turns every failure into "no user" and
  never fails.
- Response bodies are taken to be well-formed: a search answer that is `null`
  (which would throw in `forEach`) is not modelled.
- BookPage.ClampRating: the argument is an `int`, while the page passes a JavaScript
  number; fractional ratings (kept as they are by `Math.max`/`Math.min`) and `NaN`
  (which passes through as `NaN`) are not modelled.
