# Star Wars API query sets, modelled in Dafny

This project models the core of a small Python client for the Star Wars API (SWAPI).
A **record** (`BaseModel`, with the subclasses `People` and `Films`) exposes every key
of a JSON object as an attribute. A **query set** (`BaseQuerySet`, with the subclasses
`PeopleQuerySet` and `FilmsQuerySet`) is a cursor over a paginated listing. It keeps the
current page's entries in a buffer, an index into that buffer and the last page number
it requested. Each `next()` returns the next entry wrapped as a record. When the buffer
is used up, `next()` requests the following page. A client error on that request ends
the iteration. `count()` is documented to return the total, read from the counter the
last fetched page reported when one is held and from a new request otherwise; its body
counts by iterating to the end.

Files and modules:

- `wrappers.dfy` (`Wrappers`): `Option` and `Result`.
- `json.dfy` (`Json`): parsed JSON values; a JSON object is a `map<string, Json>`.
- `gateway.dfy` (`Gateway`): the SWAPI client, reduced to what it answers. An `Endpoint`
  holds one kind's pages (page n is `pages[n - 1]`; `None`, or any page number outside
  the sequence, means the client raised `SWAPIClientError`) and its objects by id.
- `models.dfy` (`Models`): the kinds `People | Films` and their names, the dispatch on
  them, records, the `setattr` loop of `BaseModel.__init__`, and `get`. The source
  compares `RESOURCE_NAME` in `get`, `all`, `__next__` and `fetch_data`. The model makes
  that comparison only in `KindOf`, which is proved to pick the one kind a name names.
  Every other operation takes the `Kind` that choice yields.
- `query_sets.dfy` (`QuerySets`): the cursor's fields as a value (`CursorState`). It also
  holds the step of `next()` as a function (`Advance`), iteration to the end (`Drain`),
  and the class `QuerySet`. That class keeps the same fields in place: `Next` is proved
  to take exactly the step `Advance` describes, and `Count` loops over `Next` and is
  proved to return what `Drain` counts.
- `query_set_properties.dfy` (`QuerySetProperties`): what one `next()` does in each of
  its cases (one lemma per path through the body), that the end is sticky, what a whole iteration yields, and the two-page
  listing of the source's tests.

The client is a parameter: the global `api_client` becomes a `Client` value that each
query set holds.

The model reproduces these behaviours of the code as it is:

- The first request, made with an empty buffer, is not guarded. A client error there
  propagates, and the page number has already moved on.
- On the used-up-buffer path, every client error, whatever its cause, becomes the end
  of iteration. This includes the page number moving on.
- An empty page fetched on that path is indexed anyway, which raises `IndexError`.
- An empty page fetched with an empty buffer falls through to the following page.
- A failed request never restores the page number. A retry therefore asks for the page
  after the one that failed, not the same page again. The model follows the code here,
  not a design in which a failed advance leaves the cursor unchanged. It also follows
  the code in ending iteration on every client error, not only on "no such page".
- The end of iteration is sticky only once a page with entries is held. An end reached
  with an empty buffer (an empty first page, then a failing second page) leaves the
  buffer empty. The next call therefore makes the unguarded request again. When every
  later page fails too, that call raises the client error; when a later page is
  answered, iteration resumes there.

## Model

| member | source | states |
|---|---|---|
| `Models.KindOf` | starwars_api/models.py:36-39 | the `RESOURCE_NAME` comparisons select a kind only for its own name; any other name selects nothing |
| `Models.KindOfResourceName` | starwars_api/models.py:22-27 | the name `'people'` or `'films'` selects exactly the kind it names (both directions); every other name selects none |
| `Models.EndpointFor` | starwars_api/models.py:104-107 | a People query set calls the client's people endpoint and a Films query set calls its films endpoint |
| `Models.SetAttrsOverrides` | starwars_api/models.py:13-14 | assigning the keys one by one, in whatever order, leaves the old attributes overridden by the JSON object |
| `Models.Construct` | starwars_api/models.py:8-14 | `People(json)` and `Films(json)` build a record of the requested kind; every key of the JSON object can be read from it with its original value, and no other name can |
| `Models.ConstructIsSetattrLoop` | starwars_api/models.py:8-14 | the record built at once has exactly the attributes the `setattr` loop gives a new object, and the requested kind |
| `Models.PersonAttributes` | tests/test_models.py:11-20 | the person's `name`, `height`, `mass` and `hair_color` read back as the same strings |
| `Models.FilmAttributes` | tests/test_models.py:53-59 | the film's `title` and `director` read back as strings and its `episode_id` as the number 4 |
| `Models.Get` | starwars_api/models.py:17-27 | `get(id)` succeeds exactly when the kind's endpoint knows the id, and then returns that object's attributes tagged with the kind; otherwise the client error propagates |
| `Gateway.FetchPage` | starwars_api/models.py:103-107 | a page request is answered only for a page inside the listing, and then with that page |
| `QuerySets.Store` | starwars_api/models.py:109-112 | a fetched page replaces the buffer and the stored total, next and previous links; the index and page number stay as they were |
| `QuerySets.Lookup` | starwars_api/models.py:85-95 | the lookup half of `next()` raises no client error: a failed request ends the iteration, and its only error is the `IndexError` of an empty fetched page, which leaves that empty page as the buffer |
| `QuerySets.Advance` | starwars_api/models.py:75-99 | a client error reaches the caller of `next()` only from the request made with an empty buffer, and then only the page number has changed, by one |
| `QuerySets.RecordsAt` | starwars_api/models.py:96-99 | the i-th record built from a run of entries is the i-th entry wrapped with the query set's kind |
| `QuerySets.Drain` | starwars_api/models.py:121-122 | iterating to the end stops on a step that is not a record, and every record it yields has the query set's kind |
| `QuerySets.CountAsWritten` | starwars_api/models.py:109-123 | as written, `count()` fails once any page has been fetched; before that it returns the number of records iteration yields |
| `QuerySets.DocumentedCount` | starwars_api/models.py:103-118 | `count()` as documented: the total held from the last fetched page when there is one; otherwise the total page 1 reports on a new request; it fails exactly when no total is held and that request raises the client error |
| `QuerySets.QuerySet.constructor` | starwars_api/models.py:65-70 | a new query set has an empty buffer, index 0, page 0, no next or previous link and no stored total |
| `QuerySets.QuerySet.FetchData` | starwars_api/models.py:103-112 | a successful request stores the page; a client error changes no field and is reported to the caller |
| `QuerySets.QuerySet.Next` | starwars_api/models.py:75-99 | updating the fields in place returns the same step and leaves the same fields as `Advance` |
| `QuerySets.QuerySet.Count` | starwars_api/models.py:114-123 | returns the number of records iteration yields from the current position, or the error that ended it, and leaves the cursor where iteration ended |
| `QuerySets.All` | starwars_api/models.py:29-39 | `all()` returns a new query set of the requested kind in its initial state |
| `QuerySetProperties.YieldHasCursorKind` | starwars_api/models.py:96-99 | every record `next()` returns is a People record from a People query set and a Films record from a Films one |
| `QuerySetProperties.PageNumberAdvancesByRequests` | starwars_api/models.py:80-92 | one call never lowers the page number and requests at most two pages |
| `QuerySetProperties.IndexStaysInRange` | starwars_api/models.py:84-95 | the index never points more than one past the end of the buffer |
| `QuerySetProperties.StopKeepsBuffer` | starwars_api/models.py:88-92 | ending the iteration leaves the buffer and, once a page is held, the index unchanged |
| `QuerySetProperties.NextWithinPage` | starwars_api/models.py:85-95 | with an entry at the index, `next()` returns it as a record and only moves the index on by one; the page number and buffer stay |
| `QuerySetProperties.NextFetchesFollowingPage` | starwars_api/models.py:87-95 | with the buffer used up and the following page answered, the buffer, total and links become that page's, the page number rises by one, the first entry is returned and the index becomes 1 |
| `QuerySetProperties.NextStopsOnFailedFetch` | starwars_api/models.py:88-92 | with the buffer used up and a client error on the following page, `next()` ends the iteration; only the page number moves, and the cursor stays used up |
| `QuerySetProperties.NextOnEmptyFollowingPage` | starwars_api/models.py:93-94 | with the buffer used up, an empty following page raises `IndexError`, after that page has been stored |
| `QuerySetProperties.FirstFetchErrorPropagates` | starwars_api/models.py:81-83 | with an empty buffer, a client error is raised to the caller and the page number has moved on |
| `QuerySetProperties.NextFromEmptyBuffer` | starwars_api/models.py:81-86 | with an empty buffer and an answered page with entries, that page becomes the buffer and its first entry is returned |
| `QuerySetProperties.EmptyFirstPageThenEnd` | starwars_api/models.py:81-92 | an empty page fetched with an empty buffer is no error; a client error on the page after it ends the iteration cleanly |
| `QuerySetProperties.EmptyFirstPageThenFollowing` | starwars_api/models.py:81-99 | an empty page fetched with an empty buffer falls through to an answered following page: its first entry is returned with the page number up by two, or, when that page is empty too, it is stored and indexed anyway and raises `IndexError` |
| `QuerySetProperties.StopIsSticky` | starwars_api/models.py:88-92 | once used up, every one of any number of further calls ends the iteration while the later pages keep failing |
| `QuerySetProperties.DrainFromPage` | starwars_api/models.py:75-99 | from a held page, iteration yields the rest of the buffer, then every following page in page order and entry order, then ends on a used-up cursor, provided no answered page is empty |
| `QuerySetProperties.DrainIntoFollowingPage` | starwars_api/models.py:81-95 | with the buffer empty or used up and the following page answered, iteration yields that page and all later ones in order, then ends, provided no answered page is empty |
| `QuerySetProperties.FreshCursorYieldsAllPages` | starwars_api/models.py:75-99 | a new query set whose first page is answered yields the concatenation of all pages up to the first failing one, then ends, provided no answered page is empty |
| `QuerySetProperties.FreshCursorFirstPageFails` | starwars_api/models.py:81-83 | a new query set whose first request fails yields nothing and raises the client error |
| `QuerySetProperties.TwoPageListing` | tests/test_models.py:40-48 | over pages of 10 and 5 entries, iteration yields 15 records, the first built from page 1's first entry, then ends; `count()` as written returns 15 on a new query set |
| `QuerySetProperties.CountTwoPageListing` | tests/test_models.py:45-48 | `count()` on a new query set over that listing returns 15 |
| `QuerySetProperties.CountShadowedAfterNext` | starwars_api/models.py:109 | as written, `count()` after one `next()` on that listing fails although 14 records remain |
| `QuerySetProperties.TotalStaysReported` | starwars_api/models.py:75-112 | when every answered page reports the same total, any number of further calls keep that total stored |
| `QuerySetProperties.DocumentedCountIsTotal` | starwars_api/models.py:114-118 | when page 1 is answered and every answered page reports the same total, `count()` as documented returns that total on a new query set and after any number of `next()` calls |
| `QuerySetProperties.DocumentedCountMatchesIteration` | starwars_api/models.py:114-122 | when page 1 is answered, no answered page is empty, and every answered page reports the number of entries on the pages up to the first failing one, `count()` as documented equals the number of records a new query set yields, after any number of `next()` calls |
| `QuerySetProperties.CountAsWrittenOnFreshCursor` | starwars_api/models.py:114-123 | on a new query set whose first page is answered, and provided no answered page is empty, `count()` as written returns the number of entries on the pages up to the first failing one |
| `QuerySetProperties.EmptyBufferEndNotSticky` | starwars_api/models.py:81-92 | on a listing of one empty page, and so with every later page failing, the first call ends the iteration; the next call makes the unguarded request again and raises the client error |
| `QuerySetProperties.DocumentedCountAfterNext` | starwars_api/models.py:109-118 | on the two-page listing whose pages report 15, `count()` as documented returns 15 after one `next()`, where the code as written fails |

## Left out

- The HTTP transport, `SWAPIClient` and the global `api_client` (starwars_api/models.py:1-4) are not modelled. They are network I/O in a module that is not part of this model. A `Client` value stands in for them, and answers the same request the same way every time.
- The client's error classes are all one `ClientError`. The core treats every `SWAPIClientError` alike, and the 404 message text comes from modules that are not part of this model.
- `__repr__` of `People`, `Films` and the query sets (starwars_api/models.py:49-60, 132-143) is not modelled: it is string formatting only, and the query-set versions read an attribute that does not exist.
- `__iter__` (starwars_api/models.py:72-73) returns the query set itself. `Count` therefore calls `Next` directly, and the alias `next = __next__` needs no separate member.
- The `while True` of `__next__` (starwars_api/models.py:80) is not a loop in the model: every path through its body returns or raises, so it never runs twice.
- A listing that never fails cannot be expressed: an endpoint has finitely many pages. On such a listing the source's `count()` would iterate forever.
- JSON numbers are integers; fractional numbers are not modelled.
- A page is always well formed. The `KeyError` of a response without `count`, `next`, `previous` or `results` is not modelled, and neither is a non-object entry in `results`.
- A JSON key that matches a class attribute (for example `get`) shadows it on the Python object. `Attr` reads only the record's own attributes.
- QuerySets.QuerySet.Count: does not raise the `TypeError` the code as written raises once a page has been fetched, and does not read a held total. It models the loop of the body (starwars_api/models.py:119-122), which is what the code as written does on a query set that has fetched nothing. `CountAsWritten` models the shadowed method, and `DocumentedCount` the documented behaviour (see Findings).
- `next_page` and `previous_page` are stored by `FetchData` and never read, as in the source.

## Findings

| source | as written | input that shows it | evidently intended | confidence | as-written member | corrected member |
|---|---|---|---|---|---|---|
| starwars_api/models.py:109 | `fetch_data` assigns the total to the instance attribute `self.count`, which hides the method `count()`. Once any page has been fetched, `qs.count()` raises `TypeError` ('int' object is not callable) | a new query set over pages of 10 and 5 entries, one `next()`, then `count()`: this fails, although 14 records remain | as its documentation (starwars_api/models.py:115-118) says: `count()` stays callable and returns the total. It reads the total the last fetched page reported (kept under another name, `reportedCount`) when one is held, and otherwise requests page 1 (the default of `fetch_data`) and returns the total it reports, without storing that page | not executed; high | `QuerySets.CountAsWritten`, shown by `QuerySetProperties.CountShadowedAfterNext` | `QuerySets.DocumentedCount`, proved by `QuerySetProperties.DocumentedCountIsTotal`, `QuerySetProperties.DocumentedCountMatchesIteration` and `QuerySetProperties.DocumentedCountAfterNext` |
