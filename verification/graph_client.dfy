/**
  The client's paginated GET: every page is fetched with `GetRequest` and a
  page decoder as its target, and the pagination engine runs over that.

  The decoder `decode` stands for decoding a response body into a value
  wrapper of elements of type `T`; the type parameter replaces the run-time
  reflection the client uses to allocate a slice of the caller's element type.
 */
module GraphClient {
  import opened Results
  import opened Transport
  import opened Pagination

  /** One page fetch as the engine sees it: a GET with a non-nil target. */
  function FetchPage<H, E, T>(env: Env<H, E>, c: Client<H>, decode: Bytes -> Result<Page<T>, E>,
                              path: string): (r: Result<Page<T>, E>)
    ensures r.Success? <==> GetRequest(env, c, path, Some(decode)).result.Success?
  {
    var call := GetRequest(env, c, path, Some(decode));
    if call.result.Failure? then Failure(call.result.error) else Success(call.result.value.value)
  }

  /** The server as seen through `c`: a pure map from path to page or error. */
  function PageSource<H, E, T>(env: Env<H, E>, c: Client<H>, decode: Bytes -> Result<Page<T>, E>)
    : string -> Result<Page<T>, E>
  {
    path => FetchPage(env, c, decode, path)
  }

  /** The paginated read: the engine run over this client's page fetches. */
  function ReadGetIntoFunc<H, E, T>(env: Env<H, E>, c: Client<H>, decode: Bytes -> Result<Page<T>, E>,
                                    path: string, fuel: nat): (r: Trace<T, E>)
    ensures |r.requested| <= fuel
    ensures fuel > 0 ==> |r.requested| > 0 && r.requested[0] == path
  {
    Paginate(PageSource(env, c, decode), path, fuel)
  }

  /**
    What one page fetch returns, case by case on what the server did: a parse
    or transport error as is, the error decoder's value for the resolved link
    on a status of 400 or above, and otherwise exactly what the page decoder returned.
   */
  lemma FetchPageDispatch<H, E, T>(env: Env<H, E>, c: Client<H>, decode: Bytes -> Result<Page<T>, E>, path: string)
    ensures env.parse(path).Failure? ==> FetchPage(env, c, decode, path) == Failure(env.parse(path).error)
    ensures ResolveLink(env, c, path).Success? ==>
      var link := ResolveLink(env, c, path).value;
      match env.roundTrip(c.native, NewRequest("GET", link, None))
      case Failure(e) => FetchPage(env, c, decode, path) == Failure(e)
      case Success(resp) =>
        if resp.status >= ErrorStatusFloor then
          FetchPage(env, c, decode, path) == Failure(env.graphError(link, resp.body))
        else FetchPage(env, c, decode, path) == decode(resp.body)
  {
    if ResolveLink(env, c, path).Success? {
      var link := ResolveLink(env, c, path).value;
      var req := NewRequest("GET", link, None);
      match env.roundTrip(c.native, req)
      case Failure(e) =>
        TransportFailurePropagates(env, c, "GET", path, None, Some(decode), link, e);
      case Success(resp) =>
        if resp.status >= ErrorStatusFloor {
          ErrorStatusGoesToErrorDecoder(env, c, "GET", path, None, Some(decode), link, resp);
        } else {
          SuccessStatusGoesToResultDecoder(env, c, "GET", path, None, Some(decode), link, resp);
        }
    }
  }

  /**
    If the first page's status is 400 or above, the read returns the error
    decoder's value for the resolved link, having fetched once and emitted nothing.
   */
  lemma FirstPageErrorStatus<H, E, T>(env: Env<H, E>, c: Client<H>, decode: Bytes -> Result<Page<T>, E>,
                                      path: string, fuel: nat, link: string, resp: Response)
    requires fuel > 0
    requires ResolveLink(env, c, path) == Success(link)
    requires env.roundTrip(c.native, NewRequest("GET", link, None)) == Success(resp)
    requires resp.status >= ErrorStatusFloor
    ensures ReadGetIntoFunc(env, c, decode, path, fuel) == Trace([], [path], Failed(env.graphError(link, resp.body)))
  {
    FetchPageDispatch(env, c, decode, path);
  }

  /**
    On a finite chain of N pages served to this client, the read emits every
    element of every page in page order and then within-page order, makes
    exactly N fetches, and ends without error.
   */
  lemma ReadsWholeChain<H, E, T>(env: Env<H, E>, c: Client<H>, decode: Bytes -> Result<Page<T>, E>,
                                 path: string, pages: seq<Page<T>>, fuel: nat)
    requires ChainFrom(PageSource(env, c, decode), path, pages)
    requires fuel >= |pages|
    ensures ReadGetIntoFunc(env, c, decode, path, fuel) == Trace(Values(pages), Cursors(path, pages), Done)
    ensures |ReadGetIntoFunc(env, c, decode, path, fuel).requested| == |pages|
  {
    DrainsFiniteChain(PageSource(env, c, decode), path, pages, fuel);
  }
}
