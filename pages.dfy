/**
  The Page capability: every page can say where the page after it lives.
  Go's Page interface becomes a closed sum of its three implementations.
 */
module Pages {

  import opened Errors
  import opened Json
  import opened Responses

  /** A fetched page. A marker page also carries the per-resource `lastMark`
      extractor and the rendering of a URL to its string form
      (url.Values.Encode followed by url.URL.String). */
  datatype Page =
    | SinglePage(snap: Snapshot)
    | LinkedPage(snap: Snapshot)
    | MarkerPage(snap: Snapshot, lastMark: Snapshot -> Result<string>, render: Url -> string)

  /** Page.NextPageURL: the URL of the following page, "" when there is none,
      or the error that prevented computing it. */
  function NextPageURL(page: Page): (r: Result<string>)
    ensures page.SinglePage? ==> r == Ok("")
    ensures page.LinkedPage? ==> r == LinkedNextPageURL(page.snap.body)
    ensures page.MarkerPage? ==> r == MarkerNextPageURL(page.snap, page.lastMark, page.render)
  {
    match page
    case SinglePage(_) => Ok("")
    case LinkedPage(snap) => LinkedNextPageURL(snap.body)
    case MarkerPage(snap, lastMark, render) => MarkerNextPageURL(snap, lastMark, render)
  }

  // ---------------------------------------------------------------------
  // LinkedPage: mapstructure.Decode of the body into
  //   struct { Links struct { Next *string `next` } `links` }

  /** Decoding into a struct, seen from one field `key` of it: a nil value
      leaves the struct untouched, a map yields the member under `key` (an
      absent member leaves the field untouched), anything else is an error
      naming the struct being decoded. */
  function StructField(j: Json, name: string, key: string): (r: Result<Option<Json>>)
  {
    match j
    case JNull => Ok(None)
    case JObject(fields) => Ok(if key in fields then Some(fields[key]) else None)
    case _ => Err(DecodeError(name))
  }

  /** Decoding into a `*string` field: nil leaves the field nil, a string
      is taken as it is, anything else is an error (no weak typing). */
  function StringField(j: Json, name: string): (r: Result<Option<string>>)
  {
    match j
    case JNull => Ok(None)
    case JString(s) => Ok(Some(s))
    case _ => Err(DecodeError(name))
  }

  /** The value of `Links.Next` after decoding `body`, or the decode error.
      Raw bytes are a slice, not a map, so they do not decode. */
  function DecodeNextLink(body: Body): (r: Result<Option<string>>)
    ensures body.Raw? ==> r.Err?
    ensures r.Err? ==> r.error.DecodeError?
    ensures r.Ok? && r.value.Some? ==> body.Parsed? && Lookup(body.json, ["links", "next"]) == Some(JString(r.value.value))
  {
    match body
    case Raw(_) => Err(DecodeError(""))
    case Parsed(j) =>
      match StructField(j, "", "links")
      case Err(e) => Err(e)
      case Ok(None) => Ok(None)
      case Ok(Some(links)) =>
        match StructField(links, "links", "next")
        case Err(e) => Err(e)
        case Ok(None) => Ok(None)
        case Ok(Some(next)) => StringField(next, "links.next")
  }

  /** The shape a body must have for LinkedPage.NextPageURL to succeed, read
      member by member: a nil value or an object at the top, a nil value or an
      object under `links`, a nil value or a string under `links.next`. */
  ghost predicate FitsLinkShape(body: Body)
  {
    && body.Parsed?
    && (body.json.JNull? || body.json.JObject?)
    && (Lookup(body.json, ["links"]).Some? ==>
          Lookup(body.json, ["links"]).value.JNull? || Lookup(body.json, ["links"]).value.JObject?)
    && (Lookup(body.json, ["links", "next"]).Some? ==>
          Lookup(body.json, ["links", "next"]).value.JNull? || Lookup(body.json, ["links", "next"]).value.JString?)
  }

  /** LinkedPage.NextPageURL: the string decoded into `Links.Next`, "" when
      it stayed nil, or the decode error. */
  function LinkedNextPageURL(body: Body): (r: Result<string>)
    ensures r.Err? ==> r.error.DecodeError?
  {
    match DecodeNextLink(body)
    case Err(e) => Err(e)
    case Ok(None) => Ok("")
    case Ok(Some(next)) => Ok(next)
  }

  /** LinkedPage.NextPageURL read against the body's members: the exact
      string under `links.next` when there is one, "" when `links` or `next`
      is absent or null, and a decode error exactly when the body does not
      fit the `{links: {next}}` shape. */
  lemma LinkedNextPageURLMeaning(body: Body)
    ensures LinkedNextPageURL(body).Ok? <==> FitsLinkShape(body)
    ensures body.Parsed? && Lookup(body.json, ["links", "next"]).Some? && Lookup(body.json, ["links", "next"]).value.JString?
      ==> LinkedNextPageURL(body) == Ok(Lookup(body.json, ["links", "next"]).value.text)
    ensures FitsLinkShape(body) && (Lookup(body.json, ["links", "next"]).None? || Lookup(body.json, ["links", "next"]).value.JNull?)
      ==> LinkedNextPageURL(body) == Ok("")
  {
  }

  /** The smallest body that carries `next` as its next link, beside any other
      top-level members. */
  function LinkEnvelope(next: Option<string>, others: map<string, Json>): (r: Json)
  {
    var links := match next
      case None => JObject(map[])
      case Some(s) => JObject(map["next" := JString(s)]);
    JObject(others["links" := links])
  }

  // ---------------------------------------------------------------------
  // MarkerPage: the request URL with its `marker` parameter set.

  const MarkerKey := "marker"

  /** url.Values.Set: `key` now has exactly the one value `value`; every
      other key keeps all its values. */
  function SetParam(q: Query, key: string, value: string): (r: Query)
    ensures key in r && r[key] == [value]
    ensures r.Keys == q.Keys + {key}
    ensures forall k :: k in q && k != key ==> r[k] == q[k]
  {
    q[key := [value]]
  }

  /** The URL MarkerPage.NextPageURL renders: the request URL with the
      extracted mark as its `marker`, or the extractor's error. */
  function MarkerNextUrl(snap: Snapshot, lastMark: Snapshot -> Result<string>): (r: Result<Url>)
    ensures r.Err? <==> lastMark(snap).Err?
  {
    match lastMark(snap)
    case Err(e) => Err(e)
    case Ok(mark) => Ok(Url(snap.url.location, SetParam(snap.url.query, MarkerKey, mark)))
  }

  /** The error of `lastMark` is returned unchanged; otherwise the URL keeps
      its location, its `marker` is the extracted mark alone, and its other
      parameters are as they were. */
  lemma MarkerNextUrlMeaning(snap: Snapshot, lastMark: Snapshot -> Result<string>)
    ensures var r := MarkerNextUrl(snap, lastMark);
      && (r.Err? ==> r.error == lastMark(snap).error)
      && (r.Ok? ==> r.value.location == snap.url.location)
      && (r.Ok? ==> MarkerKey in r.value.query && r.value.query[MarkerKey] == [lastMark(snap).value])
      && (r.Ok? ==> FirstValue(r.value.query, MarkerKey) == lastMark(snap).value)
      && (r.Ok? ==> r.value.query.Keys == snap.url.query.Keys + {MarkerKey})
      && (r.Ok? ==> forall k :: k in snap.url.query && k != MarkerKey ==> r.value.query[k] == snap.url.query[k])
  {
  }

  /** MarkerPage.NextPageURL: the rendered form of MarkerNextUrl, or the
      extractor's error. */
  function MarkerNextPageURL(snap: Snapshot, lastMark: Snapshot -> Result<string>, render: Url -> string): (r: Result<string>)
    ensures r.Err? <==> lastMark(snap).Err?
    ensures r.Err? ==> r.error == lastMark(snap).error
  {
    match MarkerNextUrl(snap, lastMark)
    case Err(e) => Err(e)
    case Ok(u) => Ok(render(u))
  }
}
