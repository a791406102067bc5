# SmutBase scraper core, modelled in Dafny

This project models the core of a scraper client for the SmutBase 3D-model site
(`https://smutba.se`), which a chat-bot plugin uses to look up, search, list and pick
random models. The core has three parts, each modelled file by file:

- `modules/consts.py` holds the site root, the category and sort-order maps, and the two
  regular expressions that find a model id in a URL. It is pure and is modelled as
  constants, functions and lemmas (`consts.dfy`).
- `modules/errors.py` is the exception hierarchy. It is modelled as the `Error` datatype
  (`errors.dfy`), with two variants added for exceptions that escape unconverted: Python's
  `ValueError` and any other exception (`Uncaught`).
- `modules/model.py` covers `Author`, `Model` and `SearchResult`:
  - The three-tier id extractor `from_id` and its sibling `from_url` are pure functions
    (`Models.ResolveId`, `Models.ResolveUrl`).
  - `full_url`, `thumbnail_url` and `profile_url` are pure functions over `urljoin`, which
    is modelled in full against the site root (`urls.dfy`).
  - `Model` and `SearchResult` are classes, because the client fills their fields in
    place. Their contents at one moment are the values `ModelData` and `Listing`.
  - `format_info` and `format_list` append lines step by step. They are methods proved
    equal to specification functions, with lemmas about those functions.
- `modules/client.py` is the `Client` class. It is imperative:
  - The retry loop of `_fetch` is a method proved equal to a recursive reference
    definition (`fetch.dfy`), with lemmas about the attempt bound, the status handling and
    the linear backoff.
  - `_parse_model_page` fills a `Model` in place. It is specified by `ApplyDetail`
    (`detail.dfy`) over the results of the page's lookups.
  - `_parse_search_results` loops over the page's anchors with a seen-set. It is specified
    by `ParseListing` (`listing.dfy`).
  - `search`, `get_latest`, `get_popular`, `get_model` and `get_random` are methods. Each
    states the request count, the delays slept and the outcome, as functions of the
    network's answers and the random draws.

The network, the HTML parser and the random module are parameters of the model:

- The answers the network gives to each attempt of each request are a function
  `server(n, url, k)` fixed when the client is built.
- The lookups of a page (`readDetail`, `readListing`), `html.unescape` and `urlencode` are
  uninterpreted function fields.
- The two draws of `get_random` are `nat` parameters: `randint(1, b)` is `1 + d % b` and
  `choice(s)` is `s[d % |s|]`.
- `asyncio.sleep` appends its delay to the `sleeps` field instead of waiting.

Two behaviours of the code that a reader might not expect:

- `from_id` keeps the case of a UUID given in capitals; it does not lower-case it
  (`modules/model.py:59-62`).
- `from_id` raises the built-in `ValueError`, not a site error class. `get_model` converts
  it to `InvalidModelID` (`modules/client.py:288-291`), but the listing parser lets it
  escape (`modules/client.py:228`).

## Model

| member | source | states |
|---|---|---|
| Consts.CategoryAll | modules/consts.py:52-69 | exactly the six names any, models, textures, sceneries, hdris and other, mapped to "any", "1", "2", "3", "4" and "5" respectively |
| Consts.CategoryCodesDistinct | modules/consts.py:52-69 | two different category names never share a code |
| Consts.SortByAll | modules/consts.py:72-87 | exactly the five sort names, each mapped to itself |
| Consts.RootUrlIsAbsolute | modules/consts.py:8 | every URL built by appending to ROOT_URL passes the `startswith("http")` test |
| Consts.ModelIdPos | modules/consts.py:24 | the leftmost index where `/project/` is followed by 36 characters of `[a-f0-9-]`, and none before it; none when there is no such index |
| Consts.SearchModelId | modules/consts.py:24 | the capture is 36 characters, each a lower-case hex digit or a hyphen |
| Consts.AltIdPos | modules/consts.py:25 | the leftmost index where `/project/` is followed by an 8-4-4-4-12 lower-case UUID |
| Consts.AltMatchIsModelIdMatch | modules/consts.py:24-25 | wherever the ALT pattern matches, REGEX_MODEL_ID matches at the same index |
| Consts.AltFallbackNeverAdds | modules/client.py:213 | `REGEX_MODEL_ID.search(h) or REGEX_MODEL_ID_ALT.search(h)` is the first search alone; the ALT search never finds what the first missed |
| Consts.HyphensMatchModelId | modules/consts.py:24 | `/project/` followed by 36 hyphens matches, though the capture is not a UUID |
| Text.Strip | modules/model.py:54 | `str.strip()`: the result is no longer than the input, holds only its characters, neither starts nor ends with white space, and equals the input when the input has no white space at either end |
| Text.StripIsSlice | modules/model.py:54 | `str.strip()` returns the slice of the input that starts after its leading white space, and everything before and after that slice is white space |
| Text.ThousandsRoundTrip | modules/model.py:146 | removing the separators from `format(n, ",")` and parsing gives `n` back |
| Urls.JoinRoot | modules/model.py:97-101 | `urljoin(ROOT_URL, ref)`: the root for an empty ref; a ref with a scheme other than https verbatim; otherwise an `https://` URL |
| Urls.JoinRootAbsolutePath | modules/model.py:97-101 | a plain root-relative path such as `/project/<id>/` is appended to the root as it is |
| Urls.JoinRootKeepsOtherSchemes | modules/model.py:104-110 | a ref naming its own scheme that is not https comes back unchanged |
| Urls.JoinRootDataUrl | modules/client.py:246 | a `data:` placeholder taken from an image's `src` comes back unchanged |
| Urls.JoinRootQueryOnly | modules/model.py:97-101 | `"?q"` gives `https://smutba.se?q`, with no slash before the query |
| Urls.JoinRootDotDot | modules/model.py:104-110 | `"../name"` cannot climb above the root and gives `https://smutba.se/name` |
| Urls.JoinRootNetworkPath | modules/model.py:104-110 | `"//host/path"` keeps its host and path and takes the https scheme |
| Models.CanonicalUrl | modules/model.py:61 | the canonical page URL passes the `startswith("http")` test |
| Models.Author.ProfileUrl | modules/model.py:20-24 | an http link verbatim; "" exactly when the link is empty; any other result is the link itself or an `https://` URL |
| Models.SearchLoose | modules/model.py:72 | the loose capture is a non-empty segment without `/` |
| Models.ResolveId | modules/model.py:52-78 | a stripped UUID of either case is kept unchanged with its canonical URL; failure exactly when no tier matches, and it is a ValueError; every id is non-empty and free of `/`, and its URL is canonical |
| Models.ResolveIdTierOrder | modules/model.py:59-76 | tier 2 is used only when tier 1 fails, tier 3 only when tiers 1 and 2 fail, each with the leftmost capture |
| Models.ResolveIdWithoutSlash | modules/model.py:52-78 | an input without `/` resolves exactly when its stripped form is a UUID |
| Models.ResolveIdRejectsPlainWord | modules/model.py:78 | "not-a-valid-id" is rejected with a ValueError |
| Models.ResolveIdStable | modules/model.py:52-78 | resolving a resolved id again gives the same reference exactly when the id is a UUID |
| Models.ResolveUrl | modules/model.py:81-94 | keeps the URL verbatim; uses only the two URL tiers; fails with a ValueError exactly when neither matches |
| Models.ResolveUrlAgreesWithResolveId | modules/model.py:52-94 | on a stripped URL that is not a UUID, `from_url` and `from_id` succeed together and pick the same id |
| Models.ModelData.FullUrl | modules/model.py:97-101 | an http URL verbatim; the root for an empty URL; any other result is the URL itself or an `https://` URL |
| Models.ModelData.ThumbnailUrl | modules/model.py:104-110 | an http thumbnail verbatim; "" exactly when there is no thumbnail; any other result is the thumbnail itself or an `https://` URL |
| Models.ToDictKeys | modules/model.py:112-130 | `to_dict()` always has the same fifteen keys |
| Models.ToDictValues | modules/model.py:112-130 | the link and thumbnail are the stored ones or `https://` URLs, the thumbnail is "" exactly when none is stored, the author name and link are "" without an author, and the counters and tags are copied |
| Models.RelativeLinksJoined | modules/model.py:97-110 | a plain site-relative link becomes the root followed by that path in `full_url`, `thumbnail_url` and `profile_url` alike |
| Models.ResolvedFullUrl | modules/model.py:97-99 | a model built by `from_id` links to its canonical page unchanged |
| Models.InfoLinesOf | modules/model.py:134-161 | the appending of `format_info` gives the specified lines |
| Models.AddEachShown | modules/model.py:139-161 | the lines after the title and link are exactly the optional lines whose test holds, in order |
| Models.InfoText | modules/model.py:163 | the summary text ends in the left-to-right mark |
| Models.InfoIconsShown | modules/model.py:132-163 | the title and link lines are always present; each optional line is present exactly when its field is set |
| Models.InfoLinesShape | modules/model.py:134-161 | the summary opens with the title and link lines and has one more line per field that is set |
| Models.Model.constructor | modules/model.py:31-49 | a new model has the given id and link and every other field at its default |
| Models.Model.FromId | modules/model.py:52-78 | a fresh model with the resolved id and canonical URL, or the ValueError |
| Models.Model.FromUrl | modules/model.py:81-94 | a fresh model with the resolved id and the given URL, or the ValueError |
| Models.Model.FormatInfo | modules/model.py:132-163 | the text of the summary of the model's current contents; the thumbnail flag does not change it |
| Models.ListTextEnds | modules/model.py:195-209 | the list always ends in the left-to-right mark, and is the "nothing found" notice exactly when there are no models |
| Models.ListLinesShape | modules/model.py:200-207 | a header, then `min(max_items, n)` entries numbered from 1 with their title, id and author, then the "k more" line with k = n - max_items exactly when n > max_items |
| Models.RenderListLines | modules/model.py:200-209 | the text is the header, the entries and the optional "more" line, joined by newlines, followed by the mark |
| Models.SearchResult.constructor | modules/model.py:173-178 | an empty listing of page 1 of 1 with an empty query |
| Models.SearchResult.FormatList | modules/model.py:195-209 | the loop of `format_list` gives the specified list text |
| Models.SearchResult.EntryTexts | modules/model.py:202-204 | the loop writes two lines per shown model, numbered from 1 |
| Listings.CardKeyFound | modules/client.py:207-219 | every card link yields an id, so the loop's "no id, skip" branch is never taken, and the id has no `/` |
| Listings.DedupProps | modules/client.py:209-225 | the ids kept are exactly the ids found, each once |
| Listings.DedupExample | modules/client.py:223-225 | links to ids A, B, A, C give A, B, C |
| Listings.CardTitle | modules/client.py:230-241 | the heading when longer than 2 characters; else the card text cut to 50 characters when shorter than 100; else empty |
| Listings.CardAuthor | modules/client.py:248-254 | an author exactly when the next author link has a non-empty name, with that name and href |
| Listings.CardModel | modules/client.py:228-254 | fails with a ValueError exactly when `from_id` rejects the id; otherwise the resolved id and URL with the card's title, thumbnail and author |
| Listings.SkipStep | modules/client.py:223-224 | a card with an id seen before changes neither the ids seen nor the models |
| Listings.AddStep | modules/client.py:225-256 | a card with a new id adds the id to those seen, and adds its model or ends the parse with its error |
| Listings.BuildModelsIds | modules/client.py:209-256 | one model per distinct captured id, in order of first appearance, listed under its stripped form |
| Listings.BuildModelsFirstCards | modules/client.py:209-256 | model i is built from the first card carrying the i-th distinct id; later cards with that id are ignored |
| Listings.BuildModelsUuids | modules/client.py:207-228 | every listed model has a UUID id that `from_id` resolves to the same reference again |
| Listings.BuildModelsError | modules/client.py:228 | the only error the card loop raises is `from_id`'s ValueError |
| Listings.PageParam | modules/client.py:263-265 | a number exactly when `page=` followed by a digit occurs |
| Listings.PageHrefHasParam | modules/client.py:259-264 | every pagination link carries a page number |
| Listings.MaxPage | modules/client.py:261-266 | the loop's maximum is never below 1 |
| Listings.MaxPageIsMax | modules/client.py:261-266 | the maximum is at least every page number found, and is one of them or 1 |
| Listings.TotalPages | modules/client.py:258-267 | `total_pages` is at least 1, with or without pagination links |
| Listings.FirstActive | modules/client.py:270 | the first anchor with an active or current class, and none before it |
| Listings.ParseListing | modules/client.py:192-276 | on success at least one page and an empty query; on failure a ValueError |
| Details.CaptureAsWritten | modules/consts.py:30-31 | the `(\d+)` capture is the non-empty run of digits at the start of the text, and fails exactly when no digit is there |
| Details.CountAsWrittenTruncates | modules/consts.py:30 | "12,345" reads as 12 |
| Details.CaptureCorrected | modules/consts.py:30-31 | the `([\d,]+)` capture fails exactly when the text starts with neither a digit nor a comma |
| Details.CountCorrectedRoundTrip | modules/client.py:144-156 | with the intended capture, `format(n, ",")` reads back as `n` |
| Details.CountsAgreeBelowThousand | modules/consts.py:30-31 | below 1000 both captures read the number shown |
| Details.FirstThumbImage | modules/client.py:136-141 | the first image whose src mentions "project", or "thumbnail" in any case, and none before it |
| Details.FirstMatch | modules/client.py:144 | the first label whose following text the capture matches, and none before it |
| Details.ReadCountAsWritten | modules/client.py:144-156 | a counter is kept when no label matches, and is otherwise the digits after the first matching label |
| Details.ApplyDetailTruncatesViews | modules/client.py:144-149 | a page showing "12,345" views sets the views to 12 |
| Details.ApplyDetailIntendedRoundTrip | modules/client.py:144-149 | with the intended capture a page showing `format(n, ",")` views sets the views to `n` |
| Details.ApplyDetailSkipsUnreadLabel | modules/client.py:144-149 | a label not followed by a number is passed over for a later one |
| Details.ApplyDetailKeepsIdentity | modules/client.py:105-190 | id, link and description never change; the page's HTML is stored; the tags are the first at most 10 tag links in order |
| Details.ApplyDetailUnmatched | modules/client.py:116-190 | a page on which nothing matches changes only the tags (to none) and the stored HTML |
| Details.ApplyDetailOnlyMatched | modules/client.py:118-181 | each field keeps its old value when its lookup finds nothing |
| Details.ApplyDetailMatched | modules/client.py:118-181 | a matched lookup sets its field: the title to the heading; the author to the link and `Strip` of the matched name; `posted`, `published`, `updated` and `category` to `Strip` of the matched text; a licence of at most 100 characters that the matched text starts with; the page's thumbnail |
| Details.ApplyDetailIdempotent | modules/client.py:105-190 | parsing the same page twice gives what parsing it once gives |
| Fetching.Backoff | modules/client.py:101 | the delays are 1, 2, ..., k |
| Fetching.Answer | modules/client.py:89-95 | 404 is ModelNotFound, any other status but 200 NetworkError, and 200 the unescaped body |
| Fetching.FetchFromShape | modules/client.py:82-101 | at most `max_retries` attempts; the delays slept are a+1, a+2, ..., one fewer than the attempts |
| Fetching.FetchFromErrors | modules/client.py:82-103 | a failure is ModelNotFound, NetworkError, or an exception that some attempt let through |
| Fetching.RetryStep | modules/client.py:97-101 | a transport error before the last attempt sleeps `a + 1` seconds and retries |
| Fetching.FetchBounds | modules/client.py:82-103 | at most `max(0, max_retries)` attempts, with the delays 1, 2, ... one fewer than the attempts |
| Fetching.FetchNoAttempts | modules/client.py:103 | with no attempt allowed the request fails with "请求失败" and touches nothing |
| Fetching.FetchFromLastWord | modules/client.py:99-103 | with one attempt or more, the closing "请求失败" error is never raised |
| Fetching.FetchFirstResponse | modules/client.py:84-95 | the first response after transport errors decides the outcome at once, after the backoff so far |
| Fetching.FetchFirstEscape | modules/client.py:82-97 | an exception the loop does not catch ends the request unconverted, without a retry |
| Fetching.Fetch404 | modules/client.py:89-90 | a 404 raises "页面不存在" at once |
| Fetching.FetchSucceedsAfterErrors | modules/client.py:94-101 | a 200 after k transport errors gives the body after sleeping 1, ..., k |
| Fetching.FetchFromAllFail | modules/client.py:99-100 | when every attempt fails in transport, the last attempt's error is raised after all attempts |
| Fetching.FetchAllFail | modules/client.py:82-100 | the same from the first attempt, with the delays 1, ..., max_retries - 1 |
| SmutClient.RandomPage | modules/client.py:402 | the page drawn lies in `[1, min(total_pages, 50)]` |
| SmutClient.RandomPageCovers | modules/client.py:402 | every page in that range can be drawn |
| SmutClient.Pick | modules/client.py:411 | `random.choice` returns an element of the list |
| SmutClient.PickCovers | modules/client.py:411 | every element can be chosen |
| SmutClient.SearchParamsPresent | modules/client.py:322-337 | each parameter is present exactly when its argument differs from its default |
| SmutClient.SearchParamsDistinct | modules/client.py:322-337 | at most five parameters, each under its own key, and none at all with every default |
| SmutClient.Client.constructor | modules/client.py:31-49 | a client with the given retry bound, no request made and nothing slept |
| SmutClient.Client.SearchUrl | modules/client.py:339-341 | the root page, with a query string exactly when there are parameters |
| SmutClient.Client.SearchOutcome | modules/client.py:343-348 | a successful search is stamped with the query and the requested page, and has at least one page |
| SmutClient.Client.ModelFetched | modules/client.py:293-299 | a body with a not-found marker gives ModelNotFound; any other body gives the parsed model built by `from_id` |
| SmutClient.Client.ModelOutcomeProps | modules/client.py:288-299 | a bad id gives InvalidModelID; after that only ModelNotFound, NetworkError or an escaped exception; a model keeps the id and link `from_id` gave |
| SmutClient.Client.ModelOutcomeNotFound | modules/client.py:296-297 | a page saying "页面不存在" is a missing model, whatever else it holds |
| SmutClient.Client.SearchPaging | modules/model.py:181-193 | after a search, a previous page exists exactly when the page is past 1, a next page exactly when it is below the total, and the count is the number of models |
| SmutClient.Client.SearchIdsResolve | modules/client.py:228 | every model a search lists can be fetched again by its id |
| SmutClient.Client.SearchOutcomeErrors | modules/client.py:343-344 | a search fails only with ModelNotFound, NetworkError, an escaped exception or a card id's ValueError |
| SmutClient.Client.RandomOutcomeProps | modules/client.py:396-412 | nothing exactly when the first page lists no models; never InvalidModelID; a model only after a non-empty first page |
| SmutClient.Client.RandomModelIsDrawn | modules/client.py:405-412 | the model returned has the id of the model drawn from the drawn page |
| SmutClient.Client.RandomRequests | modules/client.py:396-412 | `get_random` makes between one and three requests |
| SmutClient.Client.RandomRequestsCount | modules/client.py:396-412 | one request exactly when the first search fails or lists nothing; three exactly when both pages list models |
| SmutClient.Client.RandomContinues | modules/client.py:396-412 | after a first page with models, `get_random` goes on with the drawn page one request later |
| SmutClient.Client.FetchedSleepsBounded | modules/client.py:82-101 | a request sleeps fewer than `max_retries` times, each time for between 1 and `max_retries - 1` seconds |
| SmutClient.Client.ModelSleepsBounded | modules/client.py:293 | so does `get_model` |
| SmutClient.Client.RandomSleepsBounded | modules/client.py:386-412 | `get_random` sleeps fewer than `max_retries` times per request it makes (fewer than the number of requests times `max(max_retries, 1)` in all), each time within the same bounds |
| SmutClient.Client.Fetch | modules/client.py:69-103 | one more request; the outcome and the delays slept are those of the retry loop's reference definition |
| SmutClient.Client.Retry | modules/client.py:82-103 | the loop's outcome and delays equal the reference definition's |
| SmutClient.Client.ParseModelPage | modules/client.py:105-190 | the model's new contents are its old contents with the page's lookups applied |
| SmutClient.Client.DetailFields | modules/client.py:116-188 | the lookups one after the other give the specified contents, with id, link and description unchanged |
| SmutClient.Client.Thumbnail | modules/client.py:130-141 | the og:image content, else the first candidate image, else the current thumbnail |
| SmutClient.Client.Counter | modules/client.py:144-156 | the counter as the `(\d+)` pattern reads it |
| SmutClient.Client.ParseSearchResults | modules/client.py:192-276 | a fresh result holding the specified listing, or the ValueError of the first rejected card id |
| SmutClient.Client.BuildCardModels | modules/client.py:209-256 | the card loop gives the specified models or the first error |
| SmutClient.Client.CardStep | modules/client.py:210-256 | one turn keeps the seen-set and the models equal to those of the cards so far |
| SmutClient.Client.CardFields | modules/client.py:230-254 | the card's title, thumbnail and author as the fallback rules give them |
| SmutClient.Client.NewCardModel | modules/client.py:228-254 | the model a new card gives, or `from_id`'s ValueError |
| SmutClient.Client.MaxPageOf | modules/client.py:261-266 | the pagination loop gives the largest page number, never below 1 |
| SmutClient.Client.GetModel | modules/client.py:278-299 | one request for a good id and none for a bad one; the delays slept; a fresh model equal to the specified outcome, or its error |
| SmutClient.Client.Search | modules/client.py:301-348 | one request to the URL of the parameters; the delays slept; a fresh result equal to the specified listing, or its error |
| SmutClient.Client.BuildParams | modules/client.py:322-337 | the parameters are built in order, each only for a non-default argument |
| SmutClient.Client.GetLatest | modules/client.py:350-366 | a search with an empty query, sorted newest first |
| SmutClient.Client.GetPopular | modules/client.py:368-384 | a search with an empty query, sorted most viewed first |
| SmutClient.Client.GetRandom | modules/client.py:386-412 | the requests made, the delays slept and the answer are those of the specified outcome of `get_random` |
| SmutClient.Client.RandomRest | modules/client.py:402-412 | after a non-empty first page, the second search and the pick, with a model always returned on success |

## Left out

- Network and session: the `aiohttp` session, its headers, proxy, TLS setting and timeout
  (modules/client.py:31-67, 414-420) are not modelled. The answer to each attempt is the
  `server` parameter.
- Logging of each failed attempt (modules/client.py:98) is not modelled.
- Waiting: `asyncio.sleep` records its delay in `sleeps` and does not wait.
- HTML parsing: the BeautifulSoup queries and the regular expressions run over page text
  are the uninterpreted fields `readDetail` and `readListing`. The model takes their
  results as given.
- `html.unescape` and `urlencode` are uninterpreted functions.
- Randomness: the draws of `randint` and `choice` are parameters.
- The unused constants `REGEX_TITLE`, `REGEX_THUMBNAIL`, `REGEX_SEARCH_ITEM`,
  `REGEX_PAGINATION`, `REGEX_TOTAL_PAGES`, `API_SEARCH` and `HEADERS` are not modelled.
- `__str__` and `__repr__` of `Author` and `Model` are not modelled; they only format
  text for debugging.
- Text.ParseDigits: reads a digit string of any length. CPython (3.10.7 and later) refuses to
  convert a decimal number of more than 4300 digits between `int` and `str` and raises
  `ValueError`; that limit is not modelled, and neither are its two consequences. A
  pagination link `?page=` followed by more than 4300 digits makes `int()` at
  modules/client.py:265 and 274 raise, so `_parse_search_results`, `search`,
  `get_latest`, `get_popular` and `get_random` fail where `Listings.PageParam`,
  `Listings.MaxPage` and `Listings.ParseListing` return a number. A views or downloads
  counter of more than 4300 digits is caught at modules/client.py:147-156 and keeps the
  old value, where `Details.ReadCount` and `SmutClient.Client.Counter` store the number.
  `Text.IntToString` and `Text.FormatThousands` likewise render numbers of any size.
- Urls.JoinRoot: follows CPython 3.12's `urlsplit`. It does not model the `ValueError`
  raised for a malformed bracketed IPv6 host or for a netloc that changes under NFKC
  normalisation.
- Text.IsDigit: ASCII digits only. Python 3's `\d` and `int()` also accept the other
  Unicode decimal digits, so counters and page numbers written in those digits are not
  modelled.
- Text.LowerAscii: lower-cases ASCII letters only, as the `"thumbnail" in src.lower()`
  test needs for ASCII text; other letters keep their case.
- Fetching.FetchFromErrors: an exception that is not an `aiohttp.ClientError` (a total
  timeout, a body that does not decode) is the single `Escaped`/`Uncaught` case. Its
  Python class is not modelled, only its message.
- SmutClient.Client.GetRandom: when the drawn page lists nothing, the source returns the
  first page's model object itself. The model returns a fresh `Model` with the same
  contents, so the aliasing between the listing and the returned object is not captured.
- SearchResult holds the contents of its models, not the objects. The client never changes
  a model after listing it, so no behaviour is lost.

## Findings

| source | as written | input that shows it | evidently intended | confidence | as-written member | corrected member |
|---|---|---|---|---|---|---|
| modules/consts.py:30 | REGEX_VIEWS and REGEX_DOWNLOADS capture `(\d+)`, so for counters of at most 4300 digits the comma removal and the `ValueError` handler after them (modules/client.py:146-156) never matter | a page showing "12,345" views sets `views` to 12 | capture `([\d,]+)`, so that "12,345" reads as 12345 | not executed | Details.ApplyDetailTruncatesViews | Details.ApplyDetailIntendedRoundTrip |
