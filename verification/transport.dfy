/**
  The transport binding of the Graph client: the client record, resolution of a
  request path against the versioned host, construction of the outbound request,
  and the dispatch of a response to the error decoder or the result decoder.

  Everything the client hands to code outside this file is a field of `Env`:
  URL parsing, the HTTP round trip through the authenticated handle, and the
  error-body decoder. The handle itself is the opaque type `H`.
 */
module Transport {
  import opened Results

  type Bytes = seq<bv8>

  const HostUrl: string := "https://graph.microsoft.com"
  const DefaultVersion: string := "1.0"
  const ContentTypeHeader: string := "Content-Type"
  const JsonMediaType: string := "application/json"

  /** The least HTTP status that is treated as an API error. */
  const ErrorStatusFloor: int := 400

  /** An API client: an authenticated transport handle and the API version. */
  datatype Client<H> = Client(native: H, version: string)

  /** An outbound HTTP request as handed to the transport. */
  datatype Request = Request(verb: string, url: string, header: map<string, string>, body: Option<Bytes>)

  /** What the server answered: a status code and the body bytes. */
  datatype Response = Response(status: int, body: Bytes)

  /**
    The collaborators the client calls but does not implement.
    - `parse(path)`: URL parsing; `Failure(e)` when the path does not parse,
      otherwise `Success(b)` with `b` telling whether the URL is absolute.
    - `roundTrip(h, req)`: building and sending the request through handle `h`;
      `Failure(e)` for every transport-level error.
    - `graphError(link, body)`: the error value decoded from an error response.
   */
  datatype Env<!H, E> = Env(
    parse: string -> Result<bool, E>,
    roundTrip: (H, Request) -> Result<Response, E>,
    graphError: (string, Bytes) -> E)

  /**
    One request attempt: the request handed to `roundTrip`, which may still
    reject it before anything goes out (None when the path did not parse and
    no request was formed), and what the caller got back. A successful result
    carries the decoded value, or None when the caller gave no target.
   */
  datatype Call<T, E> = Call(attempted: Option<Request>, result: Result<Option<T>, E>)

  function NewClient<H>(native: H): (c: Client<H>)
    ensures c.native == native
    ensures c.version == DefaultVersion
  {
    Client(native, DefaultVersion)
  }

  function SetVersion<H>(c: Client<H>, version: string): (c': Client<H>)
    ensures c'.version == version
    ensures c'.native == c.native
  {
    c.(version := version)
  }

  /** The part of a resolved link that precedes the relative path. */
  function VersionPrefix(version: string): string {
    HostUrl + "/v" + version + "/"
  }

  /** The inverse of `AbsoluteUrl`: the relative path a link was expanded from, if any. */
  function RelativePath<H>(c: Client<H>, link: string): (path: Option<string>)
    ensures path.Some? ==> |path.value| <= |link|
  {
    var prefix := VersionPrefix(c.version);
    if |prefix| <= |link| && link[..|prefix|] == prefix then Some(link[|prefix|..]) else None
  }

  function AbsoluteUrl<H>(c: Client<H>, path: string): (link: string)
    ensures |link| == |HostUrl| + |c.version| + |path| + 3
    ensures RelativePath(c, link) == Some(path)
  {
    var link := HostUrl + "/v" + c.version + "/" + path;
    assert link == VersionPrefix(c.version) + path;
    link
  }

  /** Link selection: an absolute path is kept, a relative one is expanded. */
  function ResolveLink<H, E>(env: Env<H, E>, c: Client<H>, path: string): (r: Result<string, E>)
    ensures env.parse(path).Failure? ==> r == Failure(env.parse(path).error)
    ensures env.parse(path) == Success(true) ==> r == Success(path)
    ensures env.parse(path) == Success(false) ==> r.Success? && RelativePath(c, r.value) == Some(path)
  {
    match env.parse(path)
    case Failure(e) => Failure(e)
    case Success(isAbs) => if isAbs then Success(path) else Success(AbsoluteUrl(c, path))
  }

  /** The request for `link`, with the JSON content type exactly when a body is given. */
  function NewRequest(verb: string, link: string, body: Option<Bytes>): (req: Request)
    ensures req.verb == verb && req.url == link && req.body == body
    ensures ContentTypeHeader in req.header <==> body.Some?
    ensures ContentTypeHeader in req.header ==> req.header[ContentTypeHeader] == JsonMediaType
    ensures req.header.Keys <= {ContentTypeHeader}
  {
    var header := if body.Some? then map[ContentTypeHeader := JsonMediaType] else map[];
    Request(verb, link, header, body)
  }

  /** Lifts a decoder's outcome into the result of a call that had a target. */
  function Decoded<T, E>(d: Result<T, E>): Result<Option<T>, E> {
    match d
    case Success(v) => Success(Some(v))
    case Failure(e) => Failure(e)
  }

  /**
    One request: resolve the link, send, then dispatch on the status.
    `target` is the result decoder, None for a nil target.
   */
  function DoRequest<H, E, T>(env: Env<H, E>, c: Client<H>, verb: string, path: string,
                              body: Option<Bytes>, target: Option<Bytes -> Result<T, E>>): (r: Call<T, E>)
    ensures ResolveLink(env, c, path).Failure? ==> r == Call(None, Failure(ResolveLink(env, c, path).error))
    ensures ResolveLink(env, c, path).Success? ==>
              r.attempted == Some(NewRequest(verb, ResolveLink(env, c, path).value, body))
    ensures r.result.Success? ==> (r.result.value.Some? <==> target.Some?)
  {
    match ResolveLink(env, c, path)
    case Failure(e) => Call(None, Failure(e))
    case Success(link) =>
      var req := NewRequest(verb, link, body);
      match env.roundTrip(c.native, req)
      case Failure(e) => Call(Some(req), Failure(e))
      case Success(resp) =>
        if resp.status >= ErrorStatusFloor then
          Call(Some(req), Failure(env.graphError(link, resp.body)))
        else
          match target
          case None => Call(Some(req), Success(None))
          case Some(decode) => Call(Some(req), Decoded(decode(resp.body)))
  }

  function GetRequest<H, E, T>(env: Env<H, E>, c: Client<H>, path: string,
                               target: Option<Bytes -> Result<T, E>>): (r: Call<T, E>)
    ensures r.attempted.Some? ==> r.attempted.value.verb == "GET"
    ensures r.attempted.Some? ==> r.attempted.value.body.None? && ContentTypeHeader !in r.attempted.value.header
    ensures r.attempted.Some? <==> ResolveLink(env, c, path).Success?
  {
    DoRequest(env, c, "GET", path, None, target)
  }

  // ---------------------------------------------------------------------------
  // Properties relating several calls

  /** A fresh client resolves relative paths under version 1.0 of the Graph host. */
  lemma NewClientResolvesUnderDefaultVersion<H>(native: H, path: string)
    ensures AbsoluteUrl(NewClient(native), path) == "https://graph.microsoft.com/v1.0/" + path
  {
  }

  /** Every link below the version prefix is the expansion of exactly one relative path. */
  lemma RelativePathIsInverse<H>(c: Client<H>, link: string)
    requires RelativePath(c, link).Some?
    ensures AbsoluteUrl(c, RelativePath(c, link).value) == link
  {
    var prefix := VersionPrefix(c.version);
    assert link == link[..|prefix|] + link[|prefix|..];
  }

  lemma AbsoluteUrlInjective<H>(c: Client<H>, p: string, q: string)
    requires AbsoluteUrl(c, p) == AbsoluteUrl(c, q)
    ensures p == q
  {
    assert Some(p) == RelativePath(c, AbsoluteUrl(c, p)) == Some(q);
  }

  /** The last version set is the one in force, and the handle is never touched. */
  lemma SetVersionLastWins<H>(c: Client<H>, v1: string, v2: string)
    ensures SetVersion(SetVersion(c, v1), v2) == SetVersion(c, v2)
    ensures SetVersion(c, c.version) == c
  {
  }

  /** After SetVersion a relative path resolves under the new version. */
  lemma SetVersionRetargetsRelative<H, E>(env: Env<H, E>, c: Client<H>, v: string, path: string)
    requires env.parse(path) == Success(false)
    ensures ResolveLink(env, SetVersion(c, v), path) == Success(HostUrl + "/v" + v + "/" + path)
  {
  }

  /** SetVersion changes nothing about a request whose path is already absolute. */
  lemma SetVersionKeepsAbsoluteRequests<H, E, T>(env: Env<H, E>, c: Client<H>, v: string, verb: string,
                                                  path: string, body: Option<Bytes>,
                                                  target: Option<Bytes -> Result<T, E>>)
    requires env.parse(path) == Success(true)
    ensures DoRequest(env, SetVersion(c, v), verb, path, body, target) == DoRequest(env, c, verb, path, body, target)
  {
  }

  /** A transport failure is returned as is, whatever the target. */
  lemma TransportFailurePropagates<H, E, T>(env: Env<H, E>, c: Client<H>, verb: string, path: string,
                                            body: Option<Bytes>, target: Option<Bytes -> Result<T, E>>,
                                            link: string, e: E)
    requires ResolveLink(env, c, path) == Success(link)
    requires env.roundTrip(c.native, NewRequest(verb, link, body)) == Failure(e)
    ensures DoRequest(env, c, verb, path, body, target).result == Failure(e)
  {
  }

  /**
    A status of 400 or above yields the error decoder's value for the resolved
    link; since `target` is arbitrary, the result decoder plays no part.
   */
  lemma ErrorStatusGoesToErrorDecoder<H, E, T>(env: Env<H, E>, c: Client<H>, verb: string, path: string,
                                               body: Option<Bytes>, target: Option<Bytes -> Result<T, E>>,
                                               link: string, resp: Response)
    requires ResolveLink(env, c, path) == Success(link)
    requires env.roundTrip(c.native, NewRequest(verb, link, body)) == Success(resp)
    requires resp.status >= ErrorStatusFloor
    ensures DoRequest(env, c, verb, path, body, target).result == Failure(env.graphError(link, resp.body))
  {
  }

  /**
    A status below 400 with no target succeeds without decoding; with a target
    the call returns exactly what the decoder returned.
   */
  lemma SuccessStatusGoesToResultDecoder<H, E, T>(env: Env<H, E>, c: Client<H>, verb: string, path: string,
                                                  body: Option<Bytes>, target: Option<Bytes -> Result<T, E>>,
                                                  link: string, resp: Response)
    requires ResolveLink(env, c, path) == Success(link)
    requires env.roundTrip(c.native, NewRequest(verb, link, body)) == Success(resp)
    requires resp.status < ErrorStatusFloor
    ensures target.None? ==> DoRequest(env, c, verb, path, body, target).result == Success(None)
    ensures target.Some? ==>
      match target.value(resp.body)
      case Success(v) => DoRequest(env, c, verb, path, body, target).result == Success(Some(v))
      case Failure(e) => DoRequest(env, c, verb, path, body, target).result == Failure(e)
  {
  }
}
