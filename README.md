# Pagination engine of gophercloud, modelled in Dafny

This project models gophercloud's pagination engine (`pagination.go`). The
engine has three parts:

- **`Pager.EachPage`** fetches a page, counts it, hands it to the caller's
  handler and then asks the page for the URL of the next one. It repeats
  this until one of these happens:
  - a collaborator returns an error;
  - a page counts zero;
  - the handler answers false;
  - the next URL is empty.
- **`Page.NextPageURL`** comes in three variants:
  - `SinglePage` never has a next page;
  - `LinkedPage` reads `links.next` from the decoded JSON body;
  - `MarkerPage` sets the `marker` query parameter to the mark of the page's last item.
- **The four constructors** `NewPager`, `NewSinglePager`, `NewLinkedPager`
  and `NewMarkerPager` build the fetch closures. The single-page closure
  keeps a mutable `consumed` flag.

Modules:

- `Errors`: the error values, and `Result`/`Option` for Go's `(T, error)`
  pairs and nil.
- `Json`: the decoded JSON values the engine inspects.
- `Responses`: `LastHTTPResponse` as a `Snapshot`, and
  `RememberHTTPResponse` as `Remember`. The transport and the JSON parser
  are the two function fields of a `Client`.
- `Pages`: `Page` is a sum of its three implementations, each with its
  `NextPageURL`. The query is a map from key to values, and
  `url.Values.Set` is `SetParam`.
- `Pagers`: the pieces of the pager itself.
  - `SinglePageFetch` is a class holding the single-page closure's state.
  - `Handler` is a class: the caller's handler as a script of answers.
  - `Pager` is a datatype with methods `FetchNextPage`, `VisitPage` (one
    loop pass) and `EachPage` (the loop).
  - `Run` is the specification of `EachPage`. It is a function giving the
    error returned, the URLs fetched in order, the pages handed to the
    handler in order, the handler's unused answers and the flag afterwards.
  - `EachPage` is proved to produce exactly `Run` of its initial state.
- `Runs`: the loop over an arbitrary pass function. A run is a chain of
  continuing passes closed by one stopping pass.
- `PagerProperties`: `Run` is a run of the pager's pass function. The
  module instantiates the chain facts and derives what the engine
  promises:
  - the first fetch uses `initialURL`;
  - each later fetch uses the previous page's next URL;
  - every handed page counted non-zero;
  - the run ends exactly as its last pass ends;
  - the single-page pager hands over at most one page.
- `PageProperties`: lemmas about the NextPageURL variants.
  - A `links.next` member survives from the wire to NextPageURL.
  - A marker upsert replaces the old mark and keeps the other parameters.
- `Scenarios`: whole EachPage runs over small linked collections.

A pager from `NewSinglePager` serves one EachPage call only: its flag
stays set, so a second EachPage fails with ErrPageNotAvailable and hands
nothing to the handler (`PagerProperties.SinglePagerFetchesOnce`).

## Model

| member | source | states |
|---|---|---|
| Responses.FirstValue | pagination.go:38 | `Header.Get` (and `url.Values.Get`, used to read a marker back) gives the first value under the key, or "" when there is none |
| Responses.Remember | pagination.go:29-52 | A read error or a JSON parse error is returned unchanged. Otherwise the snapshot keeps the request URL and headers. The body is parsed exactly when Content-Type is `application/json` and is kept as raw bytes otherwise |
| Responses.Fetch | pagination.go:181-189 | `request` followed by RememberHTTPResponse: a request error or a body read error is returned unchanged, and a snapshot keeps the response's request URL and headers |
| Pages.NextPageURL | pagination.go:79-81 | A single page's next URL is always `("", nil)`. Linked and marker pages use their own rules |
| Pages.DecodeNextLink | pagination.go:93-98 | `mapstructure.Decode` into the `links.next` struct: a raw body never decodes, every failure is a decode error, and a decoded link is the string found at `links.next` in the body |
| Pages.LinkedNextPageURL | pagination.go:87-105 | Every error it returns is a decode error |
| Pages.LinkedNextPageURLMeaning | pagination.go:94-104 | Succeeds exactly when the body fits the `{links: {next}}` shape. Gives the exact string under `links.next`, or "" when `links` or `next` is absent or null |
| Pages.SetParam | pagination.go:125 | `marker` has the one new value; every other key keeps all its values; no key is lost or invented |
| Pages.MarkerNextUrl | pagination.go:116-126 | Fails exactly when `lastMark` fails |
| Pages.MarkerNextUrlMeaning | pagination.go:116-128 | Returns the `lastMark` error unchanged. On success the URL keeps its location, its `marker` is the mark alone, and the other parameters are as they were |
| Pages.MarkerNextPageURL | pagination.go:116-128 | Fails exactly when `lastMark` fails, with that error |
| Pagers.SinglePageFetch.constructor | pagination.go:153 | A new closure state is not yet consumed |
| Pagers.SinglePageFetch.Fetch | pagination.go:154-169 | The URL argument is ignored. The first call requests `onlyURL` and marks the closure consumed even when the request fails; every later call returns ErrPageNotAvailable |
| Pagers.SingleShotResult | pagination.go:154-169 | A consumed closure returns ErrPageNotAvailable. Otherwise it returns the request's error, or a single page over the snapshot |
| Pagers.FetchStep | pagination.go:232 | Only the single-page closure changes the flag, and it always leaves the flag set |
| Pagers.LinkedFetch | pagination.go:180-192 | Fails exactly when the request fails, with that error. Otherwise returns a linked page over the snapshot |
| Pagers.MarkerFetch | pagination.go:206-218 | Fails exactly when the request fails, with that error. Otherwise returns a marker page over the snapshot that carries `lastMark` |
| Pagers.Handler.Handle | pagination.go:245 | The handler records the page, gives its next scripted answer and uses that answer up |
| Pagers.Advance | pagination.go:237-259 | A pass goes on only after the handler answered `(true, nil)` |
| Pagers.AdvanceContinues | pagination.go:232-259 | A pass goes on exactly when all of these hold: the fetch succeeded, the page counted non-zero, the handler answered `(true, nil)`, and NextPageURL gave a non-empty URL. It goes on with that page and that URL |
| Pagers.AdvanceStops | pagination.go:232-259 | A pass stops with the first error among fetch, count, handler and NextPageURL. It stops with nil on a zero count, a declining handler or an empty next URL. The page is handed over exactly when it counted non-zero |
| Pagers.Run | pagination.go:229-261 | The EachPage loop as a function: a run always fetches, and its first fetch is of the URL it starts from. The rest of what it does is proved in `PagerProperties` |
| Pagers.LoopStep | pagination.go:231-260 | A stopping pass closes the whole outcome. A continuing pass leaves the run from the next URL still to go |
| Pagers.RunStops | pagination.go:232-259 | A run whose first pass stops is that pass alone |
| Pagers.RunContinues | pagination.go:253-259 | A run whose first pass continues is that pass followed by the run from the next URL |
| Pagers.Pager.FetchNextPage | pagination.go:232 | The fetch closure's result and the new flag are those of FetchStep |
| Pagers.Pager.VisitPage | pagination.go:232-259 | One pass fetches, counts and handles in the order of the code. Its step is Advance of what it saw, and the handler saw exactly the pages the step handed over |
| Pagers.Pager.EachPage | pagination.go:229-261 | The loop from `initialURL` matches `Run` in everything: the returned error, the URLs fetched, the pages handled, the answers used and the flag afterwards |
| Pagers.NewPager | pagination.go:142-148 | The pager fetches with the caller's function and keeps no state |
| Pagers.NewSinglePager | pagination.go:152-176 | The initial URL is "". The closure is fresh, captures the client and `onlyURL`, and is not yet consumed |
| Pagers.NewLinkedPager | pagination.go:179-199 | Every fetch requests its URL and returns a linked page or the request's error unchanged. No state is kept |
| Pagers.NewMarkerPager | pagination.go:203-225 | Every fetch requests its URL and returns a marker page carrying `lastMark`, or the request's error unchanged. No state is kept |
| Runs.RunWithLengths | pagination.go:231-260 | A run fetches at least once, first from its start URL, and hands over a page on every pass but possibly the last |
| Runs.EarlierPassesContinueWith | pagination.go:231-260 | Every pass but the last continues with the page it handed over and the URL fetched next |
| Runs.LastPassStopsWith | pagination.go:231-260 | The last pass stops with the run's result, having handed over the pages the run ends with |
| Runs.RunWithFlag | pagination.go:231-260 | The flag after a run is the flag before one more pass would be |
| Runs.AnswersLeftWith | pagination.go:245 | The handler uses one answer per handed page. What remains is the unused part of its script |
| Runs.YesBeforeLaterCalls | pagination.go:245-251 | Every handler call but the last answered `(true, nil)` |
| PagerProperties.PassOfBehaves | pagination.go:232-259 | A pager's pass goes on only on `(true, nil)`, hands over at most one page when it stops, and sets the flag only for the single-page closure |
| PagerProperties.RunIsRunWith | pagination.go:231-260 | `Run` is the run of the pager's pass function |
| PagerProperties.RunLengths | pagination.go:230-232 | The first fetch is of the start URL. There is one handed page per fetch, except possibly the last fetch |
| PagerProperties.EarlierPassesContinue | pagination.go:231-260 | Every pass of the pager but the last continues to the URL fetched next |
| PagerProperties.LastPassStops | pagination.go:231-260 | The pager's last pass stops with the run's result |
| PagerProperties.RunIsChainOfPasses | pagination.go:231-260 | A run is a chain: all passes but the last continue, and the last stops with the run's result |
| PagerProperties.RunLeavesConsumed | pagination.go:153-156 | After a run the flag is set for a single-page pager and unchanged for every other pager |
| PagerProperties.HandlerAnswersUsedInOrder | pagination.go:245 | The handler is asked once per handed page, and its unused answers are left over |
| PagerProperties.HandlerSaidYesBeforeEachLaterPage | pagination.go:245-251 | A page after the first is handled only if the handler answered `(true, nil)` to every earlier page |
| PagerProperties.FetchesFollowNextURLs | pagination.go:253-259 | Each fetch after the first uses exactly the non-empty NextPageURL of the page handled just before. That page is what the previous URL fetched, and it counted non-zero |
| PagerProperties.HandledPagesCameFromTheirFetch | pagination.go:232-245 | Every handed page is the page its pass fetched, and it counted non-zero |
| PagerProperties.OnlyTheLastPassStops | pagination.go:233-258 | A pass that stops is the run's last |
| PagerProperties.HowARunEnds | pagination.go:232-259 | The run ends as its last pass does. A failed fetch or count returns that error before the handler sees the page; a zero count returns nil before it. A handler error or NextPageURL error is returned unchanged after the page was handed over. A declining handler or an empty next URL returns nil |
| PagerProperties.ZeroCountEndsWithoutHandling | pagination.go:237-243 | A page that counts zero is not handed over, and the run ends with nil at once |
| PagerProperties.DeclinedPageEndsRun | pagination.go:245-251 | A `(false, nil)` answer ends the run with nil at once, with nothing more fetched |
| PagerProperties.EmptyNextURLEndsRun | pagination.go:253-259 | An empty next URL ends the run with nil after the page was handed over |
| PagerProperties.ErrorsEndRunUnchanged | pagination.go:232-256 | An error from fetch, count, handler or NextPageURL is the result unchanged, and nothing is fetched after it. A page already handed over stays handed |
| PagerProperties.NextFetchUsesNextURL | pagination.go:253-259 | After a continuing pass, the run goes on from exactly the URL that page named |
| PagerProperties.OnlyTheHandlerEndsAnEndlessRun | pagination.go:231-260 | With fetches, counts and next URLs that never stop the loop, a handler saying yes n times receives n + 1 pages and returns nil when its script runs out; the loop has no bound of its own |
| PagerProperties.SinglePagerFetchesOnce | pagination.go:79-81 | A single-page pager fetches once per EachPage and hands over at most one page. Once consumed, every run returns ErrPageNotAvailable and hands over nothing |
| PagerProperties.FreshSinglePagerRun | pagination.go:153-168 | A fresh single-page pager's run returns the request's error and hands over nothing, or hands over at most the one page over the response |
| PageProperties.LinkEnvelopeRoundTrip | pagination.go:94-104 | A body built around a next link gives that link back, or "" for none, whatever its other members |
| PageProperties.NullNextLinkIsEmpty | pagination.go:100-101 | A null `links.next` gives "" |
| PageProperties.NonStringNextLinkFails | pagination.go:95-98 | A `links.next` that is neither a string nor null is a decode error, not an empty URL |
| PageProperties.RawBodyFailsToDecode | pagination.go:95-98 | A raw byte body fails to decode its next link |
| PageProperties.LinkedFetchCarriesNextLink | pagination.go:180-192 | A JSON response whose body holds `links.next` yields a linked page with that next URL |
| PageProperties.LinkedFetchOfNonJsonFails | pagination.go:43-45 | A non-JSON response yields a linked page whose next link fails to decode |
| PageProperties.SetParamTwice | pagination.go:125 | Setting a parameter twice is the same as setting it once to the later value |
| PageProperties.SetParamKeepsSingleValue | pagination.go:125 | Setting a parameter to its only current value changes nothing |
| PageProperties.GetAfterSet | pagination.go:125 | Get reads back what Set wrote |
| PageProperties.MarkerAdvancesPastLastItem | pagination.go:116-126 | `limit=10&marker=item-41` with last item `item-42` leads to `limit=10&marker=item-42` |
| PageProperties.MarkerIsAddedOrCollapsed | pagination.go:124-126 | A missing marker is added, and several old marker values collapse into the single new one |
| PageProperties.MarkerFetchNextURL | pagination.go:206-218 | A marker page's NextPageURL returns `lastMark`'s error, or a URL whose `marker` is the mark |
| Scenarios.ThreeLinkedPages | pagination.go:229-261 | Three linked pages are fetched in link order and handed over in order, and the run returns nil |
| Scenarios.SecondRequestFails | pagination.go:232-235 | A failing second request returns its error. The first page stays handed over, and nothing more is fetched |
| Scenarios.HandlerStopsAfterFirstPage | pagination.go:245-251 | A handler that declines the first page gets one fetch and one page, and the run returns nil |

## Left out

- `request` (pagination.go:55-64), a perigee GET with authentication
  headers and status filtering, is not modelled. It becomes the client's
  `send` function, which either fails or yields a response.
- Reading and closing the response body is not modelled. `Remember` sees
  the read's outcome as a `Result`.
- JSON parsing is not modelled. It becomes the client's `parseJson`
  function.
- URL rendering (`url.Values.Encode` and `url.URL.String`) is the `render`
  function carried by a marker page. Only the query upsert is proved.
  `render` is unconstrained: Go's `URL.String()` never gives "" for a URL
  with a query, so a marker page cannot really end a run with an empty next
  URL, but the model allows it.
- A `Url` holds its query already parsed. `URL.Query()` (pagination.go:124)
  re-parses `RawQuery` and ignores the parse error, which silently drops
  malformed pairs such as `bad=%zz`. "The other parameters are kept"
  (`Pages.MarkerNextUrlMeaning`) holds of the parsed query only.
- `Page` is a closed sum of the three page types of this file. A fetch
  function passed to `NewPager` (pagination.go:142) may return any Go type
  that implements `Page` with its own `NextPageURL`; such pages are not
  modelled.
- `mapstructure.Decode` is modelled as an exact structural match of the
  `links.next` shape. Its case-insensitive fallback for field names is left
  out. Plain `Decode` does not enable weak typing, and neither does the
  model.
- `Header.Get` is an exact lookup (`Responses.FirstValue`). Canonicalizing header names is left out;
  the names the transport produces are already canonical.
- Pagers.Run: its own contract says only that a run fetches, first from
  its start URL. The lengths, the chain of passes and the ways a run ends
  are lemmas in `PagerProperties`, because a longer contract on the
  recursion would be carried into every proof that unfolds it.
- Pagers.Handler: the handler is a finite script of answers, not an
  arbitrary function. Once the script is used up it answers
  `(false, nil)`. This bounds each run, so EachPage is proved without an
  iteration cap. A handler that never stops is covered only as the limit
  of ever longer scripts (`PagerProperties.OnlyTheHandlerEndsAnEndlessRun`).
- The fetch, count and `lastMark` collaborators, the transport and the
  parser are pure functions of their arguments. Only the single-page
  closure keeps state between calls. A caller's own fetch closure for
  `NewPager` that keeps state is not modelled.
- `lastMark` receives the page's snapshot rather than the page itself.
  The page would otherwise occur in its own function type; the snapshot is
  everything a marker page holds apart from `lastMark`.
- Concurrency is not modelled, such as two EachPage calls sharing a
  single-page closure.
- The zero-value pages that Go returns beside an error are ignored, as
  EachPage ignores them.
- Errors are compared by identity, through a tag for each collaborator
  error. Their messages are not modelled.
