/**
  What the NextPageURL variants and the fetch closures built on them do
  with concrete bodies and queries: a `links.next` member survives the way
  from the wire to NextPageURL, and the `marker` upsert replaces the old
  mark while leaving every other query parameter alone.
 */
module PageProperties {

  import opened Errors
  import opened Json
  import opened Responses
  import opened Pages
  import opened Pagers

  // ---------------------------------------------------------------------
  // LinkedPage.

  /** A body built around a next link gives that link back, or "" when it
      has none, whatever other members it carries. */
  lemma LinkEnvelopeRoundTrip(next: Option<string>, others: map<string, Json>)
    ensures LinkedNextPageURL(Parsed(LinkEnvelope(next, others))) == Ok(if next.Some? then next.value else "")
  {
    var j := LinkEnvelope(next, others);
    assert Member(j, "links") == Some(j.fields["links"]);
    LinkedNextPageURLMeaning(Parsed(j));
  }

  /** A `null` link is read as no link at all. */
  lemma NullNextLinkIsEmpty(others: map<string, Json>)
    ensures LinkedNextPageURL(Parsed(JObject(others["links" := JObject(map["next" := JNull])]))) == Ok("")
  {
  }

  /** A link that is neither a string nor null is a decode error, not an
      empty URL. */
  lemma NonStringNextLinkFails(others: map<string, Json>, next: Json)
    requires !next.JString? && !next.JNull?
    ensures LinkedNextPageURL(Parsed(JObject(others["links" := JObject(map["next" := next])]))).Err?
  {
  }

  /** A body kept as raw bytes has no next link to decode. */
  lemma RawBodyFailsToDecode(bytes: seq<byte>)
    ensures LinkedNextPageURL(Raw(bytes)) == Err(DecodeError(""))
  {
  }

  /** From the wire to NextPageURL: when the request succeeds with a JSON
      response whose body parses to an envelope around `next`, the linked
      fetch yields a page whose NextPageURL is exactly `next`. */
  lemma LinkedFetchCarriesNextLink(client: Client, url: string, resp: RawResponse, bytes: seq<byte>,
                                   next: string, others: map<string, Json>)
    requires client.send(url) == Ok(resp)
    requires resp.body == Ok(bytes) && FirstValue(resp.header, ContentType) == JsonMediaType
    requires client.parseJson(bytes) == Ok(LinkEnvelope(Some(next), others))
    ensures LinkedFetch(client, url).Ok?
    ensures LinkedFetch(client, url).value.snap.url == resp.requestUrl
    ensures NextPageURL(LinkedFetch(client, url).value) == Ok(next)
  {
    LinkEnvelopeRoundTrip(Some(next), others);
  }

  /** A response that does not say it is JSON is kept raw, so the linked
      page over it fails to decode its next link. */
  lemma LinkedFetchOfNonJsonFails(client: Client, url: string, resp: RawResponse, bytes: seq<byte>)
    requires client.send(url) == Ok(resp)
    requires resp.body == Ok(bytes) && FirstValue(resp.header, ContentType) != JsonMediaType
    ensures LinkedFetch(client, url).Ok?
    ensures NextPageURL(LinkedFetch(client, url).value) == Err(DecodeError(""))
  {
  }

  // ---------------------------------------------------------------------
  // MarkerPage.

  /** Setting a parameter twice is setting it once with the later value. */
  lemma SetParamTwice(q: Query, key: string, first: string, second: string)
    ensures SetParam(SetParam(q, key, first), key, second) == SetParam(q, key, second)
  {
  }

  /** Setting a parameter to the value it already has alone changes nothing. */
  lemma SetParamKeepsSingleValue(q: Query, key: string, value: string)
    requires key in q && q[key] == [value]
    ensures SetParam(q, key, value) == q
  {
  }

  /** Get reads back what Set wrote. */
  lemma GetAfterSet(q: Query, key: string, value: string)
    ensures FirstValue(SetParam(q, key, value), key) == value
  {
  }

  /** A request for `limit=10&marker=item-41` whose last item is `item-42`
      leads to `limit=10&marker=item-42`. */
  lemma MarkerAdvancesPastLastItem(location: string, header: Header, body: Body,
                                   lastMark: Snapshot -> Result<string>)
    requires var snap := Snapshot(Url(location, map["limit" := ["10"], "marker" := ["item-41"]]), header, body);
      lastMark(snap) == Ok("item-42")
    ensures var snap := Snapshot(Url(location, map["limit" := ["10"], "marker" := ["item-41"]]), header, body);
      MarkerNextUrl(snap, lastMark) == Ok(Url(location, map["limit" := ["10"], "marker" := ["item-42"]]))
  {
    var q := map["limit" := ["10"], "marker" := ["item-41"]];
    assert SetParam(q, MarkerKey, "item-42") == map["limit" := ["10"], "marker" := ["item-42"]];
  }

  /** A first request without any marker gains one, and several old marker
      values collapse into the single new one. */
  lemma MarkerIsAddedOrCollapsed(location: string, header: Header, body: Body, olds: seq<string>,
                                 lastMark: Snapshot -> Result<string>, mark: string)
    requires var snap := Snapshot(Url(location, map["limit" := ["10"], "marker" := olds]), header, body);
      lastMark(snap) == Ok(mark)
    requires lastMark(Snapshot(Url(location, map["limit" := ["10"]]), header, body)) == Ok(mark)
    ensures var snap := Snapshot(Url(location, map["limit" := ["10"], "marker" := olds]), header, body);
      MarkerNextUrl(snap, lastMark) == Ok(Url(location, map["limit" := ["10"], "marker" := [mark]]))
    ensures MarkerNextUrl(Snapshot(Url(location, map["limit" := ["10"]]), header, body), lastMark)
      == Ok(Url(location, map["limit" := ["10"], "marker" := [mark]]))
  {
    var q := map["limit" := ["10"], "marker" := olds];
    assert SetParam(q, MarkerKey, mark) == map["limit" := ["10"], "marker" := [mark]];
  }

  /** The marker fetch hands on the extractor's error as the next-URL
      error, and on success a URL whose `marker` is the mark. */
  lemma MarkerFetchNextURL(client: Client, lastMark: Snapshot -> Result<string>, render: Url -> string, url: string)
    requires MarkerFetch(client, lastMark, render, url).Ok?
    ensures var page := MarkerFetch(client, lastMark, render, url).value;
      && (lastMark(page.snap).Err? ==> NextPageURL(page) == Err(lastMark(page.snap).error))
      && (lastMark(page.snap).Ok? ==> NextPageURL(page) == Ok(render(MarkerNextUrl(page.snap, lastMark).value)))
      && (lastMark(page.snap).Ok? ==> FirstValue(MarkerNextUrl(page.snap, lastMark).value.query, MarkerKey) == lastMark(page.snap).value)
  {
    var page := MarkerFetch(client, lastMark, render, url).value;
    MarkerNextUrlMeaning(page.snap, lastMark);
  }
}
