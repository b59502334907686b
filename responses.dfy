/**
  LastHTTPResponse and the way one is made: the transport's response is read
  once, decoded as JSON when it says it is JSON, and kept as a snapshot that
  pagination logic can inspect as often as it likes.
 */
module Responses {

  import opened Errors
  import opened Json

  newtype byte = x: int | 0 <= x < 256

  /** url.Values: each query key with its values, in order. */
  type Query = map<string, seq<string>>

  /** A parsed url.URL. Scheme, host, path and fragment are kept together as
      one opaque `location`; only the query is taken apart. */
  datatype Url = Url(location: string, query: Query)

  /** http.Header, keyed by canonical header names. */
  type Header = map<string, seq<string>>

  /** What LastHTTPResponse.Body holds: the decoded JSON value, or the raw
      bytes when the response did not say it was JSON. */
  datatype Body = Parsed(json: Json) | Raw(bytes: seq<byte>)

  /** LastHTTPResponse: the URL that was requested, the headers, the body. */
  datatype Snapshot = Snapshot(url: Url, header: Header, body: Body)

  /** An http.Response as far as RememberHTTPResponse looks at it: the URL of
      the request that produced it, its headers, and what reading its body to
      the end yields (the bytes, or the read error). */
  datatype RawResponse = RawResponse(requestUrl: Url, header: Header, body: Result<seq<byte>>)

  /** The collaborators a ServiceClient stands for: `send` performs one
      authenticated GET and fails unless the status is 200 or 204;
      `parseJson` is json.Unmarshal into an empty interface. */
  datatype Client = Client(send: string -> Result<RawResponse>, parseJson: seq<byte> -> Result<Json>)

  const ContentType := "Content-Type"
  const JsonMediaType := "application/json"

  /** Header.Get and url.Values.Get alike: the first value under `key`, or
      "" when there is none. */
  function FirstValue(m: map<string, seq<string>>, key: string): (v: string)
    ensures key in m && m[key] != [] ==> v == m[key][0]
    ensures key !in m || m[key] == [] ==> v == ""
  {
    if key in m && m[key] != [] then m[key][0] else ""
  }

  /** RememberHTTPResponse: a read error or, for a JSON response, a parse
      error aborts; otherwise the snapshot keeps the request URL and the
      headers, and a body that is parsed exactly when the content type is
      `application/json`. */
  function Remember(resp: RawResponse, parseJson: seq<byte> -> Result<Json>): (r: Result<Snapshot>)
    ensures resp.body.Err? ==> r == Err(resp.body.error)
    ensures r.Ok? ==> r.value.url == resp.requestUrl && r.value.header == resp.header
    ensures r.Ok? ==> resp.body.Ok?
    ensures r.Ok? && r.value.body.Raw? ==> FirstValue(resp.header, ContentType) != JsonMediaType && r.value.body.bytes == resp.body.value
    ensures r.Ok? && r.value.body.Parsed? ==> FirstValue(resp.header, ContentType) == JsonMediaType && parseJson(resp.body.value) == Ok(r.value.body.json)
    ensures resp.body.Ok? && FirstValue(resp.header, ContentType) == JsonMediaType && parseJson(resp.body.value).Err? ==> r == Err(parseJson(resp.body.value).error)
    ensures resp.body.Ok? && !(FirstValue(resp.header, ContentType) == JsonMediaType && parseJson(resp.body.value).Err?) ==> r.Ok?
  {
    match resp.body
    case Err(e) => Err(e)
    case Ok(bytes) =>
      if FirstValue(resp.header, ContentType) == JsonMediaType then
        match parseJson(bytes)
        case Err(e) => Err(e)
        case Ok(j) => Ok(Snapshot(resp.requestUrl, resp.header, Parsed(j)))
      else
        Ok(Snapshot(resp.requestUrl, resp.header, Raw(bytes)))
  }

  /** `request` followed by RememberHTTPResponse, the step every fetch
      closure performs: either step's error is returned unchanged. */
  function Fetch(client: Client, url: string): (r: Result<Snapshot>)
    ensures client.send(url).Err? ==> r == Err(client.send(url).error)
    ensures client.send(url).Ok? && client.send(url).value.body.Err? ==> r == Err(client.send(url).value.body.error)
    ensures r.Ok? ==> client.send(url).Ok?
    ensures r.Ok? ==> r.value.url == client.send(url).value.requestUrl && r.value.header == client.send(url).value.header
  {
    match client.send(url)
    case Err(e) => Err(e)
    case Ok(resp) => Remember(resp, client.parseJson)
  }
}
