/**
 * The upstream API client (`fetchRecipe` and `fetchProduct` in main.go).
 * The HTTP exchange itself is not modelled: its outcome arrives as an
 * Exchange value, and the opaque JSON decoder is represented by the record
 * that decoding the body would yield (None when decoding fails).
 */
module Upstream {
  import opened Wrappers
  import Config
  import opened Http

  /** Which resource collection a fetch addresses. */
  datatype Kind = Recipes | Products

  /** The path segment between the base URL and the identifier. */
  function PathSegment(kind: Kind): string
  {
    match kind
    case Recipes => "/recipes/"
    case Products => "/products/"
  }

  /**
   * The request URL: the base, the collection's path segment, then the
   * identifier verbatim, with no escaping.
   */
  function RequestUrl(base: string, kind: Kind, id: string): (url: string)
    ensures |url| == |base| + |PathSegment(kind)| + |id|
    ensures url[..|base|] == base
    ensures url[|base|..|base| + |PathSegment(kind)|] == PathSegment(kind)
    ensures url[|base| + |PathSegment(kind)|..] == id
  {
    base + PathSegment(kind) + id
  }

  /** Given the base and the collection, the URL determines the identifier. */
  lemma RequestUrlInjective(base: string, kind: Kind, id: string, id': string)
    requires RequestUrl(base, kind, id) == RequestUrl(base, kind, id')
    ensures id == id'
  {
    var n := |base| + |PathSegment(kind)|;
    assert id == RequestUrl(base, kind, id)[n..];
  }

  /**
   * What the network and the decoder did with one request:
   * building the request failed, the round trip failed (connection error or
   * the 10-second timeout), or a reply came back with a status code and the
   * record that decoding its body would produce.
   */
  datatype Exchange<R> =
    | RequestRejected
    | TransportFailed
    | Reply(status: int, decoded: Option<R>)

  /** The error a fetch reports. */
  datatype FetchError =
    | InvalidRequest
    | Transport
    | UnexpectedStatus(code: int)
    | DecodeFailed

  /** Go's `(*Record, error)` return pair, kept as a pair. */
  datatype FetchResult<R> = FetchResult(record: Option<R>, err: Option<FetchError>)

  /**
   * The classification in `fetchRecipe` / `fetchProduct`. A record is
   * returned only for status 200 with a successful decode; 404 is the one
   * outcome that is neither a record nor an error; every other outcome is an
   * error, and a record and an error never come together.
   */
  function Classify<R>(x: Exchange<R>): (res: FetchResult<R>)
    ensures res.record.Some? ==> res.err.None?
    ensures res.record.Some? <==> x.Reply? && x.status == StatusOK && x.decoded.Some?
    ensures res.record.Some? ==> res.record == x.decoded
    ensures res.record.None? && res.err.None? <==> x.Reply? && x.status == StatusNotFound
    ensures x.RequestRejected? ==> res.err == Some(InvalidRequest)
    ensures x.TransportFailed? ==> res.err == Some(Transport)
    ensures x.Reply? && x.status != StatusOK && x.status != StatusNotFound ==>
      res.err == Some(UnexpectedStatus(x.status))
    ensures x.Reply? && x.status == StatusOK && x.decoded.None? ==> res.err == Some(DecodeFailed)
  {
    match x
    case RequestRejected => FetchResult(None, Some(InvalidRequest))
    case TransportFailed => FetchResult(None, Some(Transport))
    case Reply(status, decoded) =>
      if status == StatusNotFound then FetchResult(None, None)
      else if status != StatusOK then FetchResult(None, Some(UnexpectedStatus(status)))
      else
        match decoded
        case None => FetchResult(None, Some(DecodeFailed))
        case Some(record) => FetchResult(Some(record), None)
  }

  /**
   * The body is consulted only on status 200: for any other status the
   * result is the same whatever decoding would have produced, so a 404 body
   * is never decoded.
   */
  lemma BodyIgnoredUnlessOK<R>(status: int, d: Option<R>, d': Option<R>)
    requires status != StatusOK
    ensures Classify(Reply(status, d)) == Classify(Reply(status, d'))
  {
  }

  /**
   * One fetch: the network oracle `net` is asked for the resource's URL and
   * its outcome is classified.
   */
  function Fetch<R>(base: string, kind: Kind, id: string, net: string -> Exchange<R>): (res: FetchResult<R>)
    ensures var x := net(RequestUrl(base, kind, id));
      && (res.record.Some? ==> res.err.None?)
      && (res.record.Some? <==> x.Reply? && x.status == StatusOK && x.decoded.Some?)
      && (res.record.Some? ==> res.record == x.decoded)
      && (res.record.None? && res.err.None? <==> x.Reply? && x.status == StatusNotFound)
  {
    Classify(net(RequestUrl(base, kind, id)))
  }

  /**
   * As written, with API_BASE_URL unset the request URL has two slashes
   * between the host and the collection, because the default base keeps
   * its trailing '/'.
   */
  lemma DefaultBaseDoubleSlash(kind: Kind, id: string)
    ensures var url := RequestUrl(Config.ApiBase(""), kind, id);
      url[..|Config.DefaultApiBase| + 1] == "https://platify.aukespot.com//"
  {
  }

  /**
   * With the intended base, the base and the collection's path are joined
   * by exactly one '/' for every environment value: the base never ends in
   * '/' and the path segment starts with a single one.
   */
  lemma IntendedUrlSingleSlash(env: string, kind: Kind, id: string)
    ensures var base := Config.ApiBaseIntended(env);
      var url := RequestUrl(base, kind, id);
      url[|base|] == '/' && url[|base| + 1] != '/' &&
      (|base| == 0 || url[|base| - 1] != '/')
  {
  }
}
