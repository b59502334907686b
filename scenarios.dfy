/**
  Whole runs of EachPage over a linked collection, with the server's
  answers given as hypotheses about the client.
 */
module Scenarios {

  import opened Errors
  import opened Responses
  import opened Pages
  import opened Pagers
  import opened PageProperties
  import opened PagerProperties

  /** The server answers `url` with a JSON body whose next link is `next`. */
  ghost predicate Serves(client: Client, url: string, snap: Snapshot, next: Option<string>)
  {
    Fetch(client, url) == Ok(snap) && snap.body == Parsed(LinkEnvelope(next, map[]))
  }

  /** Three linked pages, each counting one, and a handler that
      keeps answering `(true, nil)`: the three URLs are fetched in link
      order, the handler sees the three pages in that order, and EachPage
      returns nil once the last page has no next link. */
  lemma {:induction false} ThreeLinkedPages(client: Client, u1: string, u2: string, u3: string,
                                            s1: Snapshot, s2: Snapshot, s3: Snapshot, countPage: Page -> Result<int>)
    requires u2 != "" && u3 != ""
    requires Serves(client, u1, s1, Some(u2)) && Serves(client, u2, s2, Some(u3)) && Serves(client, u3, s3, None)
    requires forall page :: countPage(page) == Ok(1)
    ensures var p := NewLinkedPager(client, u1, countPage);
      Run(p, false, p.initialURL, [Ok(true), Ok(true), Ok(true)])
        == Outcome(None, [u1, u2, u3], [LinkedPage(s1), LinkedPage(s2), LinkedPage(s3)], [], false)
  {
    var p := NewLinkedPager(client, u1, countPage);
    var answers: seq<Result<bool>> := [Ok(true), Ok(true), Ok(true)];
    LinkEnvelopeRoundTrip(Some(u2), map[]);
    LinkEnvelopeRoundTrip(Some(u3), map[]);
    LinkEnvelopeRoundTrip(None, map[]);
    assert Rest(answers) == [Ok(true), Ok(true)];
    assert Rest(Rest(answers)) == [Ok(true)];
    EmptyNextURLEndsRun(p, false, u3, [Ok(true)], LinkedPage(s3));
    NextFetchUsesNextURL(p, false, u2, Rest(answers), LinkedPage(s2), u3);
    NextFetchUsesNextURL(p, false, u1, answers, LinkedPage(s1), u2);
  }

  /** The same collection when the second request fails: the first page
      stays handled, the error is returned as it was, and the third URL is
      never fetched. */
  lemma SecondRequestFails(client: Client, u1: string, u2: string, s1: Snapshot, e: Error,
                           countPage: Page -> Result<int>)
    requires u2 != ""
    requires Serves(client, u1, s1, Some(u2)) && Fetch(client, u2) == Err(e)
    requires forall page :: countPage(page) == Ok(1)
    ensures var p := NewLinkedPager(client, u1, countPage);
      Run(p, false, p.initialURL, [Ok(true), Ok(true), Ok(true)])
        == Outcome(Some(e), [u1, u2], [LinkedPage(s1)], [Ok(true), Ok(true)], false)
  {
    var p := NewLinkedPager(client, u1, countPage);
    var answers: seq<Result<bool>> := [Ok(true), Ok(true), Ok(true)];
    LinkEnvelopeRoundTrip(Some(u2), map[]);
    ErrorsEndRunUnchanged(p, false, u2, Rest(answers), e);
    NextFetchUsesNextURL(p, false, u1, answers, LinkedPage(s1), u2);
  }

  /** A handler that stops after the first page, however many pages the
      server has: one fetch, one handled page, nil. */
  lemma HandlerStopsAfterFirstPage(client: Client, u1: string, u2: string, s1: Snapshot,
                                   countPage: Page -> Result<int>)
    requires Serves(client, u1, s1, Some(u2))
    requires forall page :: countPage(page) == Ok(1)
    ensures var p := NewLinkedPager(client, u1, countPage);
      Run(p, false, p.initialURL, [Ok(false), Ok(true)])
        == Outcome(None, [u1], [LinkedPage(s1)], [Ok(true)], false)
  {
    var p := NewLinkedPager(client, u1, countPage);
    DeclinedPageEndsRun(p, false, u1, [Ok(false), Ok(true)], LinkedPage(s1));
  }
}
