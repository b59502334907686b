/**
  What EachPage does, proved of its specification Run: a run is a chain of
  continuing passes closed by one stopping pass, each later fetch follows
  the next URL of the page before it, the run ends the way its last pass
  ends, and the single-page pager hands over at most one page.
 */
module PagerProperties {

  import opened Errors
  import opened Responses
  import opened Pages
  import opened Pagers
  import opened Runs

  // ---------------------------------------------------------------------
  // A pager's loop is a run of its pass function.

  /** One pass of a pager's loop: fetch with the flag at `c`, then count,
      handle with answer `a` and advance. */
  function PassOf(p: Pager): (r: PassFn)
  {
    (c: bool, u: string, a: Result<bool>) =>
      (Advance(p.countPage, FetchStep(p.fetcher, c, u).0, a), FetchStep(p.fetcher, c, u).1)
  }

  /** A pager's pass goes on only on `(true, nil)`, hands over at most one
      page when it stops, and sets the flag only for the single-page closure. */
  lemma PassOfBehaves(p: Pager)
    ensures ContinuesOnYes(PassOf(p))
    ensures HandsAtMostOne(PassOf(p))
    ensures SetsFlagWhen(PassOf(p), p.fetcher.SingleShot?)
  {
    forall c, u, a
      ensures PassOf(p)(c, u, a).0.Stop? ==> |PassOf(p)(c, u, a).0.handled| <= 1
    {
      AdvanceStops(p.countPage, FetchStep(p.fetcher, c, u).0, a);
    }
  }

  /** Run is the run of the pager's pass function. */
  lemma {:induction false} RunIsRunWith(p: Pager, consumed: bool, url: string, answers: seq<Result<bool>>)
    ensures ContinuesOnYes(PassOf(p))
    ensures Run(p, consumed, url, answers) == RunWith(PassOf(p), consumed, url, answers)
    decreases |answers|
  {
    PassOfBehaves(p);
    var (fetched, consumed') := FetchStep(p.fetcher, consumed, url);
    match Advance(p.countPage, fetched, Answer(answers))
    case Stop(result, handled) =>
      RunStops(p, consumed, url, answers, result, handled);
    case Continue(page, next) =>
      AdvanceContinues(p.countPage, fetched, Answer(answers));
      RunContinues(p, consumed, url, answers, page, consumed', next);
      RunIsRunWith(p, consumed', next, Rest(answers));
  }

  /** The single-page flag before pass `i` of a run that started with it at
      `consumed`: only the single-page closure sets it, on its first call. */
  function ConsumedAt(p: Pager, consumed: bool, i: nat): (r: bool)
  {
    FlagAt(p.fetcher.SingleShot?, consumed, i)
  }

  /** Pass `i` of a run that started with the flag at `consumed` and the
      handler's script at `answers`, when it fetches `url`. */
  function PassAt(p: Pager, consumed: bool, answers: seq<Result<bool>>, i: nat, url: string): (r: Step)
  {
    Advance(p.countPage, FetchStep(p.fetcher, ConsumedAt(p, consumed, i), url).0, Answer(Drop(answers, i)))
  }

  /** Pass `i` of the pass function is pass `i` of the pager. */
  lemma PassNoIsPassAt(p: Pager, consumed: bool, answers: seq<Result<bool>>, i: nat, url: string)
    ensures PassNo(PassOf(p), p.fetcher.SingleShot?, consumed, answers, i, url) == PassAt(p, consumed, answers, i, url)
  {
  }

  // ---------------------------------------------------------------------
  // The run as a chain of passes.

  /** A run fetches at least once, first from the URL it starts at, and
      hands over a page on every pass but possibly the last. */
  lemma RunLengths(p: Pager, consumed: bool, url: string, answers: seq<Result<bool>>)
    ensures var o := Run(p, consumed, url, answers);
      |o.fetched| >= 1 && o.fetched[0] == url && |o.fetched| - 1 <= |o.handled| <= |o.fetched|
  {
    RunIsRunWith(p, consumed, url, answers);
    PassOfBehaves(p);
    RunWithLengths(PassOf(p), consumed, url, answers);
  }

  /** Every pass of a run but the last continues: it hands its page to the
      handler and goes on to the URL fetched next. */
  lemma EarlierPassesContinue(p: Pager, consumed: bool, url: string, answers: seq<Result<bool>>, i: nat)
    requires i + 1 < |Run(p, consumed, url, answers).fetched|
    ensures var o := Run(p, consumed, url, answers);
      i < |o.handled| && PassAt(p, consumed, answers, i, o.fetched[i]) == Continue(o.handled[i], o.fetched[i + 1])
  {
    RunIsRunWith(p, consumed, url, answers);
    PassOfBehaves(p);
    var o := Run(p, consumed, url, answers);
    EarlierPassesContinueWith(PassOf(p), p.fetcher.SingleShot?, consumed, url, answers, i);
    PassNoIsPassAt(p, consumed, answers, i, o.fetched[i]);
  }

  /** The last pass of a run stops, with the run's result, having handed
      over the pages the run ends with (none or its own). */
  lemma LastPassStops(p: Pager, consumed: bool, url: string, answers: seq<Result<bool>>)
    ensures var o := Run(p, consumed, url, answers);
      && |o.fetched| >= 1 && |o.handled| >= |o.fetched| - 1
      && PassAt(p, consumed, answers, |o.fetched| - 1, o.fetched[|o.fetched| - 1]) == Stop(o.result, o.handled[|o.fetched| - 1..])
  {
    RunIsRunWith(p, consumed, url, answers);
    PassOfBehaves(p);
    var w := RunWith(PassOf(p), consumed, url, answers);
    LastPassStopsWith(PassOf(p), p.fetcher.SingleShot?, consumed, url, answers);
    var n := |w.fetched| - 1;
    PassNoIsPassAt(p, consumed, answers, n, w.fetched[n]);
  }

  /** A run is a chain of passes: all but the last continue, the last stops
      with the run's result. */
  lemma RunIsChainOfPasses(p: Pager, consumed: bool, url: string, answers: seq<Result<bool>>)
    ensures var o := Run(p, consumed, url, answers);
      && |o.fetched| >= 1 && o.fetched[0] == url && |o.fetched| - 1 <= |o.handled|
      && (forall i :: 0 <= i < |o.fetched| - 1 ==> PassAt(p, consumed, answers, i, o.fetched[i]) == Continue(o.handled[i], o.fetched[i + 1]))
      && PassAt(p, consumed, answers, |o.fetched| - 1, o.fetched[|o.fetched| - 1]) == Stop(o.result, o.handled[|o.fetched| - 1..])
  {
    var o := Run(p, consumed, url, answers);
    RunLengths(p, consumed, url, answers);
    LastPassStops(p, consumed, url, answers);
    forall i | 0 <= i < |o.fetched| - 1
      ensures PassAt(p, consumed, answers, i, o.fetched[i]) == Continue(o.handled[i], o.fetched[i + 1])
    {
      EarlierPassesContinue(p, consumed, url, answers, i);
    }
  }

  /** After a run the single-page flag is what it would be before one more
      fetch: set when the closure is the single-page one, as it was otherwise. */
  lemma RunLeavesConsumed(p: Pager, consumed: bool, url: string, answers: seq<Result<bool>>)
    ensures var o := Run(p, consumed, url, answers);
      && o.consumed == (consumed || p.fetcher.SingleShot?)
      && o.consumed == ConsumedAt(p, consumed, |o.fetched|)
  {
    RunIsRunWith(p, consumed, url, answers);
    PassOfBehaves(p);
    RunWithStarts(PassOf(p), consumed, url, answers);
    RunWithFlag(PassOf(p), p.fetcher.SingleShot?, consumed, url, answers);
  }

  /** The handler is called once per handed page and uses up one answer per
      call: what is left of its script is the part not used. */
  lemma HandlerAnswersUsedInOrder(p: Pager, consumed: bool, url: string, answers: seq<Result<bool>>)
    ensures var o := Run(p, consumed, url, answers);
      |o.handled| <= |answers| + 1 && o.answersLeft == Drop(answers, |o.handled|)
  {
    RunIsRunWith(p, consumed, url, answers);
    PassOfBehaves(p);
    AnswersLeftWith(PassOf(p), consumed, url, answers);
  }

  /** Every call of the handler but the last answered `(true, nil)`: the loop
      goes on only on that answer. */
  lemma HandlerSaidYesBeforeEachLaterPage(p: Pager, consumed: bool, url: string, answers: seq<Result<bool>>, i: nat)
    requires i + 1 < |Run(p, consumed, url, answers).handled|
    ensures i < |answers| && answers[i] == Ok(true)
  {
    RunIsRunWith(p, consumed, url, answers);
    PassOfBehaves(p);
    YesBeforeLaterCalls(PassOf(p), consumed, url, answers, i);
  }

  // ---------------------------------------------------------------------
  // What the chain says about pages and URLs.

  /** Each URL after the first is the non-empty next URL of the page handled
      just before it, and that page is what the previous URL fetched and
      counted non-zero. */
  lemma FetchesFollowNextURLs(p: Pager, consumed: bool, url: string, answers: seq<Result<bool>>, i: nat)
    requires 0 < i < |Run(p, consumed, url, answers).fetched|
    ensures var o := Run(p, consumed, url, answers);
      && i - 1 < |o.handled|
      && FetchStep(p.fetcher, ConsumedAt(p, consumed, i - 1), o.fetched[i - 1]).0 == Ok(o.handled[i - 1])
      && p.countPage(o.handled[i - 1]).Ok? && p.countPage(o.handled[i - 1]).value != 0
      && NextPageURL(o.handled[i - 1]) == Ok(o.fetched[i]) && o.fetched[i] != ""
  {
    var o := Run(p, consumed, url, answers);
    EarlierPassesContinue(p, consumed, url, answers, i - 1);
    AdvanceContinues(p.countPage, FetchStep(p.fetcher, ConsumedAt(p, consumed, i - 1), o.fetched[i - 1]).0,
                     Answer(Drop(answers, i - 1)));
  }

  /** Every page handed to the handler is the page its pass fetched, and it
      counted non-zero. */
  lemma HandledPagesCameFromTheirFetch(p: Pager, consumed: bool, url: string, answers: seq<Result<bool>>, i: nat)
    requires i < |Run(p, consumed, url, answers).handled|
    ensures var o := Run(p, consumed, url, answers);
      && i < |o.fetched|
      && FetchStep(p.fetcher, ConsumedAt(p, consumed, i), o.fetched[i]).0 == Ok(o.handled[i])
      && p.countPage(o.handled[i]).Ok? && p.countPage(o.handled[i]).value != 0
  {
    var o := Run(p, consumed, url, answers);
    RunLengths(p, consumed, url, answers);
    if i + 1 < |o.fetched| {
      FetchesFollowNextURLs(p, consumed, url, answers, i + 1);
    } else {
      LastPassStops(p, consumed, url, answers);
      LastPassHandsItsOwnPage(p, consumed, answers, i, o.fetched[i], o.result, o.handled[i..]);
    }
  }

  /** A stopping pass that hands over a page hands over the page it fetched,
      which counted non-zero. */
  lemma LastPassHandsItsOwnPage(p: Pager, consumed: bool, answers: seq<Result<bool>>, i: nat, url: string,
                                result: Option<Error>, handled: seq<Page>)
    requires PassAt(p, consumed, answers, i, url) == Stop(result, handled)
    requires handled != []
    ensures FetchStep(p.fetcher, ConsumedAt(p, consumed, i), url).0 == Ok(handled[0])
    ensures p.countPage(handled[0]).Ok? && p.countPage(handled[0]).value != 0
  {
    AdvanceStops(p.countPage, FetchStep(p.fetcher, ConsumedAt(p, consumed, i), url).0, Answer(Drop(answers, i)));
  }

  /** A pass that stops is the last pass of the run. */
  lemma OnlyTheLastPassStops(p: Pager, consumed: bool, url: string, answers: seq<Result<bool>>, i: nat)
    requires i < |Run(p, consumed, url, answers).fetched|
    requires PassAt(p, consumed, answers, i, Run(p, consumed, url, answers).fetched[i]).Stop?
    ensures i == |Run(p, consumed, url, answers).fetched| - 1
  {
    if i + 1 < |Run(p, consumed, url, answers).fetched| {
      EarlierPassesContinue(p, consumed, url, answers, i);
    }
  }

  /** How a run ends, read off its last pass `k`: a failed fetch or count
      ends it with that error before the handler sees the page, a zero count
      with nil before the handler sees it; otherwise the page is handed over
      and a handler error or a NextPageURL error is returned unchanged, while
      a declining handler or an empty next URL ends the run with nil. */
  lemma HowARunEnds(p: Pager, consumed: bool, url: string, answers: seq<Result<bool>>)
    ensures var o := Run(p, consumed, url, answers);
      var k := |o.fetched| - 1;
      var fetched := FetchStep(p.fetcher, ConsumedAt(p, consumed, k), o.fetched[k]).0;
      var answer := Answer(Drop(answers, k));
      && k >= 0 && k <= |o.handled| <= k + 1
      && (fetched.Err? ==> o.result == Some(fetched.error) && |o.handled| == k)
      && (fetched.Ok? && p.countPage(fetched.value).Err? ==> o.result == Some(p.countPage(fetched.value).error) && |o.handled| == k)
      && (fetched.Ok? && p.countPage(fetched.value) == Ok(0) ==> o.result == None && |o.handled| == k)
      && (fetched.Ok? && p.countPage(fetched.value).Ok? && p.countPage(fetched.value).value != 0 ==>
            && |o.handled| == k + 1 && o.handled[k] == fetched.value
            && (answer.Err? ==> o.result == Some(answer.error))
            && (answer == Ok(false) ==> o.result == None)
            && (answer == Ok(true) ==> NextPageURL(fetched.value).Err? || NextPageURL(fetched.value) == Ok(""))
            && (answer == Ok(true) && NextPageURL(fetched.value).Err? ==> o.result == Some(NextPageURL(fetched.value).error))
            && (answer == Ok(true) && NextPageURL(fetched.value) == Ok("") ==> o.result == None))
  {
    var o := Run(p, consumed, url, answers);
    var k := |o.fetched| - 1;
    LastPassStops(p, consumed, url, answers);
    var fetched := FetchStep(p.fetcher, ConsumedAt(p, consumed, k), o.fetched[k]).0;
    StoppingPass(p.countPage, fetched, Answer(Drop(answers, k)), o.result, o.handled[k..]);
  }

  /** How one stopping pass ends, with its outcome as plain values. */
  lemma StoppingPass(countPage: Page -> Result<int>, fetched: Result<Page>, answer: Result<bool>,
                     result: Option<Error>, handled: seq<Page>)
    requires Advance(countPage, fetched, answer) == Stop(result, handled)
    ensures |handled| <= 1
    ensures fetched.Err? ==> result == Some(fetched.error) && handled == []
    ensures fetched.Ok? && countPage(fetched.value).Err? ==> result == Some(countPage(fetched.value).error) && handled == []
    ensures fetched.Ok? && countPage(fetched.value) == Ok(0) ==> result == None && handled == []
    ensures fetched.Ok? && countPage(fetched.value).Ok? && countPage(fetched.value).value != 0 ==>
            && handled == [fetched.value]
            && (answer.Err? ==> result == Some(answer.error))
            && (answer == Ok(false) ==> result == None)
            && (answer == Ok(true) ==> NextPageURL(fetched.value).Err? || NextPageURL(fetched.value) == Ok(""))
            && (answer == Ok(true) && NextPageURL(fetched.value).Err? ==> result == Some(NextPageURL(fetched.value).error))
            && (answer == Ok(true) && NextPageURL(fetched.value) == Ok("") ==> result == None)
  {
    AdvanceStops(countPage, fetched, answer);
    AdvanceContinues(countPage, fetched, answer);
  }

  // ---------------------------------------------------------------------
  // The first pass, exactly.

  /** A page that counts zero is not handed to the handler, and the run ends
      with nil, whatever its next URL would have been. */
  lemma ZeroCountEndsWithoutHandling(p: Pager, consumed: bool, url: string, answers: seq<Result<bool>>, page: Page)
    requires FetchStep(p.fetcher, consumed, url).0 == Ok(page)
    requires p.countPage(page) == Ok(0)
    ensures Run(p, consumed, url, answers) == Outcome(None, [url], [], answers, FetchStep(p.fetcher, consumed, url).1)
  {
  }

  /** A handler that answers `(false, nil)` ends the run at once with nil:
      no next URL is computed and nothing more is fetched. */
  lemma DeclinedPageEndsRun(p: Pager, consumed: bool, url: string, answers: seq<Result<bool>>, page: Page)
    requires FetchStep(p.fetcher, consumed, url).0 == Ok(page)
    requires p.countPage(page).Ok? && p.countPage(page).value != 0
    requires Answer(answers) == Ok(false)
    ensures Run(p, consumed, url, answers) == Outcome(None, [url], [page], Rest(answers), FetchStep(p.fetcher, consumed, url).1)
  {
  }

  /** An empty next URL ends the run with nil after the page was handled. */
  lemma EmptyNextURLEndsRun(p: Pager, consumed: bool, url: string, answers: seq<Result<bool>>, page: Page)
    requires FetchStep(p.fetcher, consumed, url).0 == Ok(page)
    requires p.countPage(page).Ok? && p.countPage(page).value != 0
    requires Answer(answers) == Ok(true)
    requires NextPageURL(page) == Ok("")
    ensures Run(p, consumed, url, answers) == Outcome(None, [url], [page], Rest(answers), FetchStep(p.fetcher, consumed, url).1)
  {
  }

  /** An error from the fetch, the count, the handler or NextPageURL is the
      result, unchanged; nothing is fetched or handled after it, and a page
      already handed to the handler stays handed. */
  lemma ErrorsEndRunUnchanged(p: Pager, consumed: bool, url: string, answers: seq<Result<bool>>, e: Error)
    ensures var (fetched, consumed') := FetchStep(p.fetcher, consumed, url);
      && (fetched == Err(e) ==> Run(p, consumed, url, answers) == Outcome(Some(e), [url], [], answers, consumed'))
      && (fetched.Ok? && p.countPage(fetched.value) == Err(e) ==>
            Run(p, consumed, url, answers) == Outcome(Some(e), [url], [], answers, consumed'))
      && (fetched.Ok? && p.countPage(fetched.value).Ok? && p.countPage(fetched.value).value != 0 && Answer(answers) == Err(e) ==>
            Run(p, consumed, url, answers) == Outcome(Some(e), [url], [fetched.value], Rest(answers), consumed'))
      && (fetched.Ok? && p.countPage(fetched.value).Ok? && p.countPage(fetched.value).value != 0 && Answer(answers) == Ok(true)
            && NextPageURL(fetched.value) == Err(e) ==>
            Run(p, consumed, url, answers) == Outcome(Some(e), [url], [fetched.value], Rest(answers), consumed'))
  {
  }

  /** A run that gets past its first page goes on from exactly the URL that
      page names. */
  lemma NextFetchUsesNextURL(p: Pager, consumed: bool, url: string, answers: seq<Result<bool>>, page: Page, next: string)
    requires FetchStep(p.fetcher, consumed, url).0 == Ok(page)
    requires p.countPage(page).Ok? && p.countPage(page).value != 0
    requires Answer(answers) == Ok(true)
    requires NextPageURL(page) == Ok(next) && next != ""
    ensures Run(p, consumed, url, answers)
      == Append([url], [page], Run(p, FetchStep(p.fetcher, consumed, url).1, next, Rest(answers)))
  {
  }

  // ---------------------------------------------------------------------
  // No bound on the number of pages.

  /** An environment in which no pass ever stops on its own: every fetch
      succeeds with a page that counts non-zero and names a next URL. */
  ghost predicate EndlessEnvironment(p: Pager)
  {
    && !p.fetcher.SingleShot?
    && (forall u :: FetchStep(p.fetcher, false, u).0.Ok?)
    && (forall u :: FetchStep(p.fetcher, false, u).0.Ok? ==>
          var page := FetchStep(p.fetcher, false, u).0.value;
          p.countPage(page).Ok? && p.countPage(page).value != 0 && NextPageURL(page).Ok? && NextPageURL(page).value != "")
  }

  /** In such an environment only the handler ends the run: a handler that
      keeps answering `(true, nil)` for n calls receives n + 1 pages, and the
      run ends with nil once its script runs out. */
  lemma {:induction false} OnlyTheHandlerEndsAnEndlessRun(p: Pager, url: string, answers: seq<Result<bool>>)
    requires EndlessEnvironment(p)
    requires forall i :: 0 <= i < |answers| ==> answers[i] == Ok(true)
    ensures var o := Run(p, false, url, answers);
      o.result == None && |o.handled| == |answers| + 1 && |o.fetched| == |answers| + 1 && o.answersLeft == []
    decreases |answers|
  {
    var (fetched, consumed') := FetchStep(p.fetcher, false, url);
    var page := fetched.value;
    assert p.countPage(page).Ok? && p.countPage(page).value != 0 && NextPageURL(page).Ok? && NextPageURL(page).value != "";
    if answers != [] {
      assert Advance(p.countPage, fetched, Answer(answers)) == Continue(page, NextPageURL(page).value);
      OnlyTheHandlerEndsAnEndlessRun(p, NextPageURL(page).value, Rest(answers));
    }
  }

  // ---------------------------------------------------------------------
  // The single-page pager.

  /** A single-page pager fetches once per EachPage and hands at most one
      page to the handler; after the run its closure is consumed. Once
      consumed, every further run fails with ErrPageNotAvailable and hands
      nothing over. */
  lemma SinglePagerFetchesOnce(p: Pager, consumed: bool, url: string, answers: seq<Result<bool>>)
    requires p.fetcher.SingleShot?
    ensures var o := Run(p, consumed, url, answers);
      && |o.fetched| == 1 && |o.handled| <= 1 && o.consumed
      && (consumed ==> o.result == Some(PageNotAvailable) && o.handled == [] && o.answersLeft == answers)
  {
    var (fetched, consumed') := FetchStep(p.fetcher, consumed, url);
    if fetched.Ok? {
      assert fetched.value.SinglePage?;
    }
  }

  /** A fresh single-page pager's first run: the handler sees the one page
      `onlyURL` yields, and the result is that request's error if it failed. */
  lemma FreshSinglePagerRun(p: Pager, url: string, answers: seq<Result<bool>>)
    requires p.fetcher.SingleShot?
    ensures var o := Run(p, false, url, answers);
      var snap := Fetch(p.fetcher.cell.client, p.fetcher.cell.onlyURL);
      && (snap.Err? ==> o.result == Some(snap.error) && o.handled == [])
      && (snap.Ok? ==> o.handled == [] || o.handled == [SinglePage(snap.value)])
  {
  }
}
