/**
  The Pager: an initial URL, a fetch function and a count function, and the
  EachPage loop that drives them together with the caller's handler.
 */
module Pagers {

  import opened Errors
  import opened Responses
  import opened Pages

  // ---------------------------------------------------------------------
  // The fetch functions a Pager can be built with.

  /** The `fetchNextPage` closure of a Pager. */
  datatype Fetcher =
    /** A closure that keeps no state: the caller's own (NewPager), or the
        linked or marker fetch (NewLinkedPager, NewMarkerPager). */
    | Stateless(fetch: string -> Result<Page>)
    /** NewSinglePager: the closure with its captured `consumed` flag. */
    | SingleShot(cell: SinglePageFetch)

  /** The state and code of NewSinglePager's fetch closure: the client and
      the URL it captured, and the `consumed` flag it updates. */
  class SinglePageFetch {
    const client: Client
    const onlyURL: string
    var consumed: bool

    constructor (client: Client, onlyURL: string)
      ensures this.client == client && this.onlyURL == onlyURL
      ensures !consumed
    {
      this.client := client;
      this.onlyURL := onlyURL;
      consumed := false;
    }

    /** The closure's body. Its URL argument is ignored: the first call
        requests `onlyURL` and marks the page consumed whether or not that
        request succeeds; every later call reports ErrPageNotAvailable. */
    method Fetch(url: string) returns (r: Result<Page>)
      modifies this
      ensures consumed
      ensures r == SingleShotResult(client, onlyURL, old(consumed))
    {
      if !consumed {
        consumed := true;
        var snap := Responses.Fetch(client, onlyURL);
        if snap.Err? {
          r := Err(snap.error);
        } else {
          r := Ok(SinglePage(snap.value));
        }
      } else {
        r := Err(PageNotAvailable);
      }
    }
  }

  /** What the single-page fetch closure returns, given whether it has
      already been consumed. */
  function SingleShotResult(client: Client, onlyURL: string, consumed: bool): (r: Result<Page>)
    ensures consumed ==> r == Err(PageNotAvailable)
    ensures !consumed && Fetch(client, onlyURL).Err? ==> r == Err(Fetch(client, onlyURL).error)
    ensures !consumed && Fetch(client, onlyURL).Ok? ==> r == Ok(SinglePage(Fetch(client, onlyURL).value))
  {
    if consumed then Err(PageNotAvailable)
    else match Fetch(client, onlyURL)
      case Err(e) => Err(e)
      case Ok(s) => Ok(SinglePage(s))
  }

  /** One call of the fetch closure: the page or error it returns and the
      value of the single-page `consumed` flag afterwards (the other
      closures keep no state and leave it as it was). */
  function FetchStep(f: Fetcher, consumed: bool, url: string): (r: (Result<Page>, bool))
    ensures f.SingleShot? ==> r.1
    ensures !f.SingleShot? ==> r.1 == consumed
  {
    match f
    case Stateless(fetch) => (fetch(url), consumed)
    case SingleShot(cell) => (SingleShotResult(cell.client, cell.onlyURL, consumed), true)
  }

  /** NewLinkedPager's fetch closure: request the URL and wrap the snapshot
      as a linked page, or pass the request's error on. */
  function LinkedFetch(client: Client, url: string): (r: Result<Page>)
    ensures r.Err? <==> Fetch(client, url).Err?
    ensures r.Err? ==> r.error == Fetch(client, url).error
    ensures r.Ok? ==> r.value == LinkedPage(Fetch(client, url).value)
  {
    match Fetch(client, url)
    case Err(e) => Err(e)
    case Ok(s) => Ok(LinkedPage(s))
  }

  /** NewMarkerPager's fetch closure: request the URL and wrap the snapshot
      as a marker page that carries the caller's `lastMark`, or pass the
      request's error on. */
  function MarkerFetch(client: Client, lastMark: Snapshot -> Result<string>, render: Url -> string, url: string): (r: Result<Page>)
    ensures r.Err? <==> Fetch(client, url).Err?
    ensures r.Err? ==> r.error == Fetch(client, url).error
    ensures r.Ok? ==> r.value == MarkerPage(Fetch(client, url).value, lastMark, render)
  {
    match Fetch(client, url)
    case Err(e) => Err(e)
    case Ok(s) => Ok(MarkerPage(s, lastMark, render))
  }

  // ---------------------------------------------------------------------
  // The caller's handler.

  /** The handler passed to EachPage, as a finite script: the answers it
      gives on its successive calls and the pages it has been given. Once
      the script is used up it answers `(false, nil)`: it has seen enough. */
  class Handler {
    var answers: seq<Result<bool>>
    var seen: seq<Page>

    constructor (answers: seq<Result<bool>>)
      ensures this.answers == answers && seen == []
    {
      this.answers := answers;
      seen := [];
    }

    method Handle(page: Page) returns (r: Result<bool>)
      modifies this
      ensures r == Answer(old(answers))
      ensures answers == Rest(old(answers))
      ensures seen == old(seen) + [page]
    {
      seen := seen + [page];
      if answers == [] {
        r := Ok(false);
      } else {
        r := answers[0];
        answers := answers[1..];
      }
    }
  }

  /** The handler's next answer. */
  function Answer(answers: seq<Result<bool>>): (r: Result<bool>)
  {
    if answers == [] then Ok(false) else answers[0]
  }

  /** The handler's script after one call. */
  function Rest(answers: seq<Result<bool>>): (r: seq<Result<bool>>)
  {
    if answers == [] then [] else answers[1..]
  }

  // ---------------------------------------------------------------------
  // The specification of EachPage.

  /** How one pass of the loop ends once its page has been fetched: it goes
      on to `next` after handing `page` to the handler, or it stops with the
      result EachPage returns, having handed the pages in `handled` (none or
      the fetched one) to the handler. */
  datatype Step = Continue(page: Page, next: string) | Stop(result: Option<Error>, handled: seq<Page>) {
    /** The pages the pass handed to the handler. */
    function Handed(): seq<Page>
    {
      if Continue? then [page] else handled
    }
  }

  /** Counting, handling and advancing, given the fetch result and the
      answer the handler would give. */
  function Advance(countPage: Page -> Result<int>, fetched: Result<Page>, answer: Result<bool>): (r: Step)
    ensures r.Continue? ==> answer == Ok(true)
  {
    match fetched
    case Err(e) => Stop(Some(e), [])
    case Ok(page) =>
      match countPage(page)
      case Err(e) => Stop(Some(e), [])
      case Ok(count) =>
        if count == 0 then Stop(None, [])
        else match answer
          case Err(e) => Stop(Some(e), [page])
          case Ok(proceed) =>
            if !proceed then Stop(None, [page])
            else match NextPageURL(page)
              case Err(e) => Stop(Some(e), [page])
              case Ok(next) => if next == "" then Stop(None, [page]) else Continue(page, next)
  }

  /** A pass goes on only with a page that was fetched, counted non-zero,
      accepted by the handler and names a non-empty next URL. */
  lemma AdvanceContinues(countPage: Page -> Result<int>, fetched: Result<Page>, answer: Result<bool>)
    ensures var r := Advance(countPage, fetched, answer);
      r.Continue? <==>
        && fetched.Ok? && countPage(fetched.value).Ok? && countPage(fetched.value).value != 0
        && answer == Ok(true) && NextPageURL(fetched.value).Ok? && NextPageURL(fetched.value).value != ""
    ensures var r := Advance(countPage, fetched, answer);
      r.Continue? ==> r.page == fetched.value && r.next == NextPageURL(fetched.value).value
  {
  }

  /** A pass stops with the first error among fetch, count, handler and
      NextPageURL, or with nil on a zero count, a declining handler or an
      empty next URL; the page goes to the handler exactly when it counted
      non-zero. */
  lemma AdvanceStops(countPage: Page -> Result<int>, fetched: Result<Page>, answer: Result<bool>)
    ensures var r := Advance(countPage, fetched, answer);
      && (fetched.Err? ==> r == Stop(Some(fetched.error), []))
      && (fetched.Ok? && countPage(fetched.value).Err? ==> r == Stop(Some(countPage(fetched.value).error), []))
      && (fetched.Ok? && countPage(fetched.value) == Ok(0) ==> r == Stop(None, []))
      && (fetched.Ok? && countPage(fetched.value).Ok? && countPage(fetched.value).value != 0 ==>
            && (answer.Err? ==> r == Stop(Some(answer.error), [fetched.value]))
            && (answer == Ok(false) ==> r == Stop(None, [fetched.value]))
            && (answer == Ok(true) && NextPageURL(fetched.value).Err? ==> r == Stop(Some(NextPageURL(fetched.value).error), [fetched.value]))
            && (answer == Ok(true) && NextPageURL(fetched.value) == Ok("") ==> r == Stop(None, [fetched.value])))
  {
  }

  /** What a whole EachPage call observably does: the error it returns
      (None for nil), the URLs it fetched in order, the pages it handed to
      the handler in order, the handler's remaining script and the
      single-page `consumed` flag afterwards. */
  datatype Outcome = Outcome(
    result: Option<Error>,
    fetched: seq<string>,
    handled: seq<Page>,
    answersLeft: seq<Result<bool>>,
    consumed: bool)

  /** Puts earlier fetches and handled pages in front of an outcome. */
  function Append(fetched: seq<string>, handled: seq<Page>, o: Outcome): (r: Outcome)
  {
    Outcome(o.result, fetched + o.fetched, handled + o.handled, o.answersLeft, o.consumed)
  }

  /** The loop of EachPage from `url` on, with the single-page flag at
      `consumed` and the handler's script at `answers`. */
  function Run(p: Pager, consumed: bool, url: string, answers: seq<Result<bool>>): (r: Outcome)
    ensures |r.fetched| >= 1 && r.fetched[0] == url
    decreases |answers|
  {
    var (fetched, consumed') := FetchStep(p.fetcher, consumed, url);
    match Advance(p.countPage, fetched, Answer(answers))
    case Stop(result, handled) =>
      Outcome(result, [url], handled, if handled == [] then answers else Rest(answers), consumed')
    case Continue(page, next) =>
      Append([url], [page], Run(p, consumed', next, Rest(answers)))
  }

  /** One pass of the loop, read off Run: a stopping pass closes the whole
      outcome, a continuing one leaves the run from the next URL to go. */
  lemma LoopStep(p: Pager, consumed: bool, url: string, answers: seq<Result<bool>>, step: Step,
                 whole: Outcome, fetched: seq<string>, handled: seq<Page>)
    requires step == Advance(p.countPage, FetchStep(p.fetcher, consumed, url).0, Answer(answers))
    requires whole == Append(fetched, handled, Run(p, consumed, url, answers))
    ensures step.Stop? ==> whole == Outcome(step.result, fetched + [url], handled + step.Handed(),
                                            if step.Handed() == [] then answers else Rest(answers), FetchStep(p.fetcher, consumed, url).1)
    ensures step.Continue? ==> whole == Append(fetched + [url], handled + step.Handed(),
                                               Run(p, FetchStep(p.fetcher, consumed, url).1, step.next, Rest(answers)))
  {
    if step.Continue? {
      AppendAssociative(fetched, handled, [url], [step.page], Run(p, FetchStep(p.fetcher, consumed, url).1, step.next, Rest(answers)));
    }
  }

  lemma ConcatAssociative<T>(a: seq<T>, b: seq<T>, c: seq<T>)
    ensures (a + b) + c == a + (b + c)
  {
  }

  /** One stopping pass of the loop, read off Run. */
  lemma RunStops(p: Pager, consumed: bool, url: string, answers: seq<Result<bool>>,
                 result: Option<Error>, handled: seq<Page>)
    requires Advance(p.countPage, FetchStep(p.fetcher, consumed, url).0, Answer(answers)) == Stop(result, handled)
    ensures Run(p, consumed, url, answers)
      == Outcome(result, [url], handled, if handled == [] then answers else Rest(answers), FetchStep(p.fetcher, consumed, url).1)
  {
  }

  /** One continuing pass of the loop, read off Run. */
  lemma RunContinues(p: Pager, consumed: bool, url: string, answers: seq<Result<bool>>,
                     page: Page, consumed': bool, next: string)
    requires FetchStep(p.fetcher, consumed, url) == (Ok(page), consumed')
    requires Advance(p.countPage, Ok(page), Answer(answers)) == Continue(page, next)
    ensures Run(p, consumed, url, answers) == Append([url], [page], Run(p, consumed', next, Rest(answers)))
  {
  }

  lemma AppendAssociative(f1: seq<string>, h1: seq<Page>, f2: seq<string>, h2: seq<Page>, o: Outcome)
    ensures Append(f1, h1, Append(f2, h2, o)) == Append(f1 + f2, h1 + h2, o)
  {
    assert f1 + (f2 + o.fetched) == (f1 + f2) + o.fetched;
    assert h1 + (h2 + o.handled) == (h1 + h2) + o.handled;
  }

  // ---------------------------------------------------------------------
  // The Pager itself.

  /** A Pager: where to start, how to fetch a page, how to count one. */
  datatype Pager = Pager(initialURL: string, fetcher: Fetcher, countPage: Page -> Result<int>) {

    /** The objects a fetch may update: the single-page closure's state. */
    ghost function Footprint(): set<object>
    {
      if fetcher.SingleShot? then {fetcher.cell} else {}
    }

    /** The single-page `consumed` flag (false for the stateless fetchers). */
    ghost function Consumed(): bool
      reads Footprint()
    {
      fetcher.SingleShot? && fetcher.cell.consumed
    }

    /** Calls the fetch closure. */
    method FetchNextPage(url: string) returns (r: Result<Page>)
      modifies Footprint()
      ensures (r, Consumed()) == FetchStep(fetcher, old(Consumed()), url)
    {
      match fetcher
      case Stateless(fetch) =>
        r := fetch(url);
      case SingleShot(cell) =>
        r := cell.Fetch(url);
    }

    /** One pass of the EachPage loop from `url`: fetch, count, hand the
        page to the handler, ask for the next URL. */
    method VisitPage(url: string, handler: Handler) returns (step: Step)
      modifies handler, Footprint()
      ensures var (fetched, consumed') := FetchStep(fetcher, old(Consumed()), url);
        && step == Advance(countPage, fetched, Answer(old(handler.answers)))
        && Consumed() == consumed'
      ensures handler.seen == old(handler.seen) + step.Handed()
      ensures handler.answers == if step.Handed() == [] then old(handler.answers) else Rest(old(handler.answers))
    {
      ghost var answers := handler.answers;
      var currentPage := FetchNextPage(url);
      AdvanceStops(countPage, currentPage, Answer(answers));
      if currentPage.Err? {
        return Stop(Some(currentPage.error), []);
      }
      var count := countPage(currentPage.value);
      if count.Err? {
        return Stop(Some(count.error), []);
      }
      if count.value == 0 {
        return Stop(None, []);
      }
      var ok := handler.Handle(currentPage.value);
      if ok.Err? {
        return Stop(Some(ok.error), [currentPage.value]);
      }
      if !ok.value {
        return Stop(None, [currentPage.value]);
      }
      var next := NextPageURL(currentPage.value);
      if next.Err? {
        return Stop(Some(next.error), [currentPage.value]);
      }
      if next.value == "" {
        return Stop(None, [currentPage.value]);
      }
      AdvanceContinues(countPage, currentPage, Answer(answers));
      return Continue(currentPage.value, next.value);
    }

    /** EachPage: fetch, count, handle, advance, until a collaborator fails,
        a page counts zero, the handler declines, or no next URL is left.
        `fetched` is the sequence of URLs given to the fetch closure. */
    method EachPage(handler: Handler) returns (err: Option<Error>, ghost fetched: seq<string>)
      modifies handler, Footprint()
      ensures var o := Run(this, old(Consumed()), initialURL, old(handler.answers));
        && err == o.result
        && fetched == o.fetched
        && handler.seen == old(handler.seen) + o.handled
        && handler.answers == o.answersLeft
        && Consumed() == o.consumed
    {
      ghost var whole := Run(this, Consumed(), initialURL, handler.answers);
      ghost var seen0 := handler.seen;
      ghost var handled: seq<Page> := [];
      fetched := [];
      var currentURL := initialURL;
      while true
        invariant whole == Append(fetched, handled, Run(this, Consumed(), currentURL, handler.answers))
        invariant handler.seen == seen0 + handled
        decreases |handler.answers|
      {
        ghost var answers := handler.answers;
        ghost var before := Consumed();
        var step := VisitPage(currentURL, handler);
        LoopStep(this, before, currentURL, answers, step, whole, fetched, handled);
        ConcatAssociative(seen0, handled, step.Handed());
        fetched := fetched + [currentURL];
        handled := handled + step.Handed();
        match step
        case Stop(result, _) =>
          return result, fetched;
        case Continue(_, next) =>
          currentURL := next;
      }
    }
  }

  // ---------------------------------------------------------------------
  // The constructors.

  /** NewPager: a pager from the caller's own fetch and count functions. */
  function NewPager(initialURL: string, fetch: string -> Result<Page>, countPage: Page -> Result<int>): (p: Pager)
    ensures p.initialURL == initialURL && p.countPage == countPage
    ensures forall c, u :: FetchStep(p.fetcher, c, u) == (fetch(u), c)
  {
    Pager(initialURL, Stateless(fetch), countPage)
  }

  /** NewSinglePager: a pager whose fetch closure requests `onlyURL` once;
      its initial URL is "" since the closure ignores the URL it is given. */
  method NewSinglePager(client: Client, onlyURL: string, countPage: Page -> Result<int>) returns (p: Pager)
    ensures p.initialURL == "" && p.countPage == countPage
    ensures p.fetcher.SingleShot? && fresh(p.fetcher.cell)
    ensures p.fetcher.cell.client == client && p.fetcher.cell.onlyURL == onlyURL
    ensures !p.Consumed()
  {
    var cell := new SinglePageFetch(client, onlyURL);
    p := Pager("", SingleShot(cell), countPage);
  }

  /** NewLinkedPager: every fetch requests the URL it is given and yields a
      linked page over the snapshot, or the request's error. */
  function NewLinkedPager(client: Client, initialURL: string, countPage: Page -> Result<int>): (p: Pager)
    ensures p.initialURL == initialURL && p.countPage == countPage
    ensures forall c, u :: FetchStep(p.fetcher, c, u).1 == c
    ensures forall c, u :: FetchStep(p.fetcher, c, u).0.Err? <==> Fetch(client, u).Err?
    ensures forall c, u :: FetchStep(p.fetcher, c, u).0.Err? ==> FetchStep(p.fetcher, c, u).0.error == Fetch(client, u).error
    ensures forall c, u :: FetchStep(p.fetcher, c, u).0.Ok? ==> FetchStep(p.fetcher, c, u).0.value == LinkedPage(Fetch(client, u).value)
  {
    Pager(initialURL, Stateless(u => LinkedFetch(client, u)), countPage)
  }

  /** NewMarkerPager: every fetch requests the URL it is given and yields a
      marker page over the snapshot that carries `lastMark`, or the
      request's error. */
  function NewMarkerPager(client: Client, initialURL: string, lastMark: Snapshot -> Result<string>,
                          countPage: Page -> Result<int>, render: Url -> string): (p: Pager)
    ensures p.initialURL == initialURL && p.countPage == countPage
    ensures forall c, u :: FetchStep(p.fetcher, c, u).1 == c
    ensures forall c, u :: FetchStep(p.fetcher, c, u).0.Err? <==> Fetch(client, u).Err?
    ensures forall c, u :: FetchStep(p.fetcher, c, u).0.Err? ==> FetchStep(p.fetcher, c, u).0.error == Fetch(client, u).error
    ensures forall c, u :: FetchStep(p.fetcher, c, u).0.Ok? ==>
      FetchStep(p.fetcher, c, u).0.value == MarkerPage(Fetch(client, u).value, lastMark, render)
  {
    Pager(initialURL, Stateless(u => MarkerFetch(client, lastMark, render, u)), countPage)
  }
}
