# Microsoft Graph client: link resolution, request dispatch and pagination

A Dafny model of the decision logic of the Graph API client in `client.go`:

- the `Client` record (an authenticated transport handle and an API version,
  `"1.0"` by default) and `SetVersion`;
- resolution of a request path: a path that does not parse returns the parse
  error and forms no link, an absolute URL is used unchanged, and any other path
  becomes `https://graph.microsoft.com/v<version>/<path>`;
- `doRequest`: the parse-error exit before any request is formed, the request it
  builds (`Content-Type: application/json` exactly when a body is given), and the
  dispatch of the response: a status of 400 or above goes
  to the error decoder with the resolved link, a lower status goes to the result
  decoder, or yields nothing when the caller gave no target;
- `getRequest`: a `GET` with no body;
- `readGetIntoFunc`: fetch a page, pass its elements to the callback in server
  order, and follow `NextLink` until it is empty, stopping at the first error.

Modules, one per file:

| file | module | contents |
|---|---|---|
| `results.dfy` | `Results` | `Option`, `Result` |
| `transport.dfy` | `Transport` | client, link resolution, request construction, `DoRequest`, `GetRequest` |
| `pagination.dfy` | `Pagination` | the generic engine `Paginate`, its loop form `Drain`, page chains and their lemmas |
| `graph_client.dfy` | `GraphClient` | `FetchPage` (a `GetRequest` with a page decoder) and `ReadGetIntoFunc` |

The code calls several things it does not implement. Here they are parameters,
gathered in `Transport.Env`:

- `parse(path)` stands for `url.Parse` followed by `IsAbs`. It gives either the
  parse error or whether the URL is absolute.
- `roundTrip(handle, request)` stands for `http.NewRequest` followed by
  `native.Do`. It gives either a transport error or a `Response(status, body)`.
- `graphError(link, body)` is the error decoder.

The result decoder (`parseGraphResult`) is the `target` argument of `DoRequest`.
`None` stands for a nil target. The page decoder of `readGetIntoFunc` is the
`decode` argument.
The transport handle is an opaque type parameter `H` and errors an opaque `E`.
The callback's effects are modelled as the sequence of elements it receives
(`Trace.emitted`). The trace also records each path handed to `getRequest`
(`Trace.requested`, one entry per fetch).

Termination: `readGetIntoFunc` recurses on `NextLink` with no bound, so a cyclic
chain never returns. The model uses explicit fuel, the most page fetches a run may
make. Running out is the outcome `OutOfFuel`, which has no counterpart in the
source. The lemmas say exactly what fuel changes:

- `DrainsFiniteChain`: with fuel of at least N, a finite chain of N pages gives
  the source's answer.
- `MoreFuelSameRun`: extra fuel never changes a run that finished.
- `CycleNeverCompletes`: a cyclic chain exhausts every fuel.

Two details of the code the model keeps:

- The content type is set whenever the body is non-nil, even when that body is
  empty (client.go:74-76).
- A `NextLink` is handed back to `getRequest` (client.go:126, client.go:113), so it
  goes through the same parsing and resolution as the start path
  (client.go:57-67). A relative `NextLink` is expanded under the versioned host.

## Model

| member | source | states |
|---|---|---|
| `Transport.NewClient` | client.go:27-34 | a new client holds the given transport handle and the default version "1.0" |
| `Transport.NewClientResolvesUnderDefaultVersion` | client.go:16-19 | a fresh client expands a relative path to exactly "https://graph.microsoft.com/v1.0/" followed by the path |
| `Transport.SetVersion` | client.go:44-46 | the version becomes the given one and the transport handle is unchanged |
| `Transport.SetVersionLastWins` | client.go:44-46 | setting the version twice is the same as setting only the second; setting the current version changes nothing |
| `Transport.SetVersionRetargetsRelative` | client.go:44-50 | after SetVersion(v) a relative path resolves to HOST_URL + "/v" + v + "/" + path |
| `Transport.SetVersionKeepsAbsoluteRequests` | client.go:62-67 | for an absolute path the whole request attempt is the same before and after SetVersion |
| `Transport.AbsoluteUrl` | client.go:48-50 | the expanded link has length of host + version + path + 3, and stripping the versioned host prefix from it gives back exactly the path |
| `Transport.RelativePathIsInverse` | client.go:48-50 | every link that starts with the versioned host prefix is the expansion of the path that follows the prefix |
| `Transport.AbsoluteUrlInjective` | client.go:48-50 | two relative paths that expand to the same link are the same path |
| `Transport.ResolveLink` | client.go:57-67 | a parse error is returned as is; an absolute path is the link unchanged; a relative path becomes a link under the versioned host prefix from which the path is recovered |
| `Transport.NewRequest` | client.go:69-76 | the request carries the method, link and body given; it has a Content-Type header iff a body is given, that header is application/json, and there is no other header |
| `Transport.DoRequest` | client.go:56-102 | when the path does not parse no request is formed and the parse error is returned; otherwise the request for the resolved link is the one handed to the round trip (http.NewRequest then Do), which may still reject it; a successful call carries a decoded value iff a target was given |
| `Transport.GetRequest` | client.go:52-54 | whenever a request is handed to the round trip it is a GET with no body and no Content-Type header; one is handed over iff the path resolves |
| `Transport.TransportFailurePropagates` | client.go:78-81 | a transport error from the round trip is returned unchanged, whatever the target |
| `Transport.ErrorStatusGoesToErrorDecoder` | client.go:92-93 | a status of 400 or above returns the error decoder's value for the resolved link and the response body, for every target, so the result decoder has no part in it |
| `Transport.SuccessStatusGoesToResultDecoder` | client.go:94-100 | a status below 400 returns success with no value for a nil target, and exactly the decoder's value or error for a non-nil one |
| `Pagination.Paginate` | client.go:104-128 | a run makes at most fuel fetches, the first of them of the start path, and uses up all its fuel whenever it is cut off |
| `Pagination.OutcomeOfLastFetch` | client.go:113-127 | a run ends Done only after fetching a page with an empty next link, Failed only with the very error its last fetch returned, and OutOfFuel only after a page that still had a next link |
| `Pagination.Drain` | client.go:113-127 | the loop form of the engine makes the same fetches, emits the same elements and ends the same way as Paginate |
| `Pagination.FollowsOpenChain` | client.go:118-127 | along a chain of pages with non-empty next links the engine emits those pages' values in order, fetches their cursors, then continues from the last next link |
| `Pagination.DrainsFiniteChain` | client.go:118-127 | on a finite chain of N pages ending with an empty next link, with fuel of at least N, the elements emitted are the pages' values concatenated in page order, exactly the N cursors are fetched, and the outcome is Done |
| `Pagination.StopsAtFailedFetch` | client.go:113-121 | when the fetch after a chain of good pages fails, that error is the outcome, the good pages' elements stay emitted and none of the failed page is |
| `Pagination.DoneOnlyAtChainEnd` | client.go:123-124 | a Done run is exactly the drain of some finite chain from the start path whose last next link is empty |
| `Pagination.FailedOnlyAtFailingFetch` | client.go:113-116 | a Failed run is a chain of good pages followed by one fetch that returned that very error |
| `Pagination.OpenChainExhaustsShortFuel` | client.go:125-127 | with no more fuel than pages on an open chain the run cannot finish |
| `Pagination.CycleNeverCompletes` | client.go:125-127 | when next links lead back to the start path, the run never ends Done or Failed: every fuel runs out |
| `Pagination.MoreFuelSameRun` | client.go:123-127 | a run that ended Done or Failed gives the very same trace with any larger fuel |
| `GraphClient.FetchPage` | client.go:105-116 | a page fetch succeeds iff the GET with the page decoder as target succeeds |
| `GraphClient.ReadGetIntoFunc` | client.go:104-128 | the paginated read fetches at most fuel pages, the first from the start path |
| `GraphClient.FetchPageDispatch` | client.go:92-100 | a page fetch returns the parse or transport error as is, the error decoder's value for the resolved link on a status of 400 or above, and exactly the page decoder's result otherwise |
| `GraphClient.FirstPageErrorStatus` | client.go:113-116 | when the first page's status is 400 or above the read emits nothing, fetches once and returns the error decoder's value for the resolved link |
| `GraphClient.ReadsWholeChain` | client.go:104-128 | on a finite chain of N pages the read emits every page's elements in page order then within-page order, makes exactly N fetches and ends without error |

## Left out

- OAuth2 transport construction in `NewClient` and `NewClientTS` (client.go:27-42): the token source and its refresh belong to an external library. The handle is an opaque value, and `NewClientTS` builds the same record as `NewClient`.
- The HTTP round trip and `http.NewRequest` failures (client.go:69-81): they are the `roundTrip` parameter, whose failures are transport errors.
- URL parsing and `IsAbs` (client.go:57-63): they are the `parse` parameter. RFC 3986 parsing is not reimplemented.
- `graphError`, `parseGraphResult` and `ValueWrapper` (client.go:93, client.go:96, client.go:105): they are not in `client.go`, so they are opaque function parameters. How error and result bodies are decoded is not modelled.
- The reflection that allocates a slice of the caller's element type (client.go:107-111): it is the type parameter `T` of the page decoder.
- The debug print gated by `if false` (client.go:84-88) and closing the response body (client.go:90): both are output and resource handling with no effect on results.
- Pagination.Paginate: the unbounded recursion is bounded by fuel, and `OutOfFuel` has no counterpart in the source. `DrainsFiniteChain` and `MoreFuelSameRun` show the answer equals the source's whenever the chain is finite and the fuel covers it.
- Shared mutation of the client: in the code `Client` is a shared pointer and `SetVersion` (client.go:44-46) writes to it in place. A `SetVersion` from another goroutine during a paginated read is a data race. A `SetVersion` made by the callback itself runs on the same goroutine between two page fetches (client.go:119-121), so it is sequential, and every later relative `NextLink` is expanded under the new version (client.go:126, client.go:113, client.go:64). Neither case is modelled: the client is fixed for the whole run, and the trace does not interleave callbacks with fetches.
- Go's goroutine stack limit: after very many pages the recursion at client.go:126 ends the process with a fatal stack overflow rather than running forever or returning an error. The stack limit is not modelled; `OutOfFuel` stands in for any such cut-off.
- Callback side effects: they are recorded as the emitted sequence. A callback that panics aborts the Go recursion, which is not modelled.
