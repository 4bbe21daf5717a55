/**
  The generic pagination engine: fetch a page, hand each of its elements to the
  caller in server order, and follow the page's next link until it is empty.

  The engine is parametric in the element type `T` and the error type `E`. The
  server is a pure function `fetch` from a path to either an error or a page.
  The callback's effects are recorded as the sequence of elements it received.

  The engine in the client recurses without bound, so a cyclic chain of next
  links never returns (it recurses until the stack runs out). Here the
  recursion carries `fuel`, the largest number of page fetches it may make;
  running out is the outcome `OutOfFuel`, which the client itself never
  produces. The lemmas below show that fuel is the only
  thing this changes: enough fuel gives the client's answer on every finite
  chain, and a cyclic chain exhausts any fuel.
 */
module Pagination {
  import opened Results

  /** One decoded page: its elements in server order, and the cursor to the next page. */
  datatype Page<T> = Page(value: seq<T>, nextLink: string)

  datatype Outcome<E> = Done | Failed(error: E) | OutOfFuel

  /**
    What a run did: the elements passed to the callback, in call order; every
    path handed to the page fetch, in order, including one whose fetch failed
    before anything was sent; and how the run ended.
   */
  datatype Trace<T, E> = Trace(emitted: seq<T>, requested: seq<string>, outcome: Outcome<E>)

  /** `rest`, preceded by elements already emitted and paths already fetched. */
  function After<T, E>(emitted: seq<T>, requested: seq<string>, rest: Trace<T, E>): Trace<T, E> {
    Trace(emitted + rest.emitted, requested + rest.requested, rest.outcome)
  }

  lemma AfterAfter<T, E>(e1: seq<T>, q1: seq<string>, e2: seq<T>, q2: seq<string>, rest: Trace<T, E>)
    ensures After(e1, q1, After(e2, q2, rest)) == After(e1 + e2, q1 + q2, rest)
  {
  }

  /** The last path a run handed to the page fetch. */
  function LastRequested<T, E>(r: Trace<T, E>): string
    requires |r.requested| > 0
  {
    r.requested[|r.requested| - 1]
  }

  /**
    The engine: one fetch per step, the page's elements before anything of the
    next page, and a stop at the first failed fetch or the first empty next link.
   */
  function Paginate<T, E>(fetch: string -> Result<Page<T>, E>, path: string, fuel: nat): (r: Trace<T, E>)
    ensures |r.requested| <= fuel
    ensures r.outcome.OutOfFuel? ==> |r.requested| == fuel
    ensures fuel > 0 ==> |r.requested| > 0 && r.requested[0] == path
    decreases fuel
  {
    if fuel == 0 then Trace([], [], OutOfFuel)
    else
      match fetch(path)
      case Failure(e) => Trace([], [path], Failed(e))
      case Success(page) =>
        if page.nextLink == "" then Trace(page.value, [path], Done)
        else After(page.value, [path], Paginate(fetch, page.nextLink, fuel - 1))
  }

  /** One step of the engine, seen from a run that has already emitted and fetched something. */
  lemma StepAfter<T, E>(fetch: string -> Result<Page<T>, E>, emitted: seq<T>, requested: seq<string>,
                        cursor: string, left: nat)
    requires left > 0
    ensures fetch(cursor).Failure? ==>
      After(emitted, requested, Paginate(fetch, cursor, left))
      == Trace(emitted, requested + [cursor], Failed(fetch(cursor).error))
    ensures fetch(cursor).Success? && fetch(cursor).value.nextLink == "" ==>
      After(emitted, requested, Paginate(fetch, cursor, left))
      == Trace(emitted + fetch(cursor).value.value, requested + [cursor], Done)
    ensures fetch(cursor).Success? && fetch(cursor).value.nextLink != "" ==>
      After(emitted, requested, Paginate(fetch, cursor, left))
      == After(emitted + fetch(cursor).value.value, requested + [cursor],
               Paginate(fetch, fetch(cursor).value.nextLink, left - 1))
  {
    if fetch(cursor).Success? {
      var page := fetch(cursor).value;
      if page.nextLink != "" {
        AfterAfter(emitted, requested, page.value, [cursor], Paginate(fetch, page.nextLink, left - 1));
      }
    }
  }

  /**
    How a run ended is decided by its last fetch: Done only after a page with
    an empty next link, Failed only with the error that fetch returned, and
    OutOfFuel only after a page that still had a next link.
   */
  lemma {:induction false} OutcomeOfLastFetch<T, E>(fetch: string -> Result<Page<T>, E>, path: string, fuel: nat)
    ensures var r := Paginate(fetch, path, fuel);
      && (r.outcome.Done? ==>
            |r.requested| > 0 && fetch(LastRequested(r)).Success? && fetch(LastRequested(r)).value.nextLink == "")
      && (r.outcome.Failed? ==>
            |r.requested| > 0 && fetch(LastRequested(r)) == Failure(r.outcome.error))
      && (r.outcome.OutOfFuel? && fuel > 0 ==>
            fetch(LastRequested(r)).Success? && fetch(LastRequested(r)).value.nextLink != "")
    decreases fuel
  {
    if fuel > 0 && fetch(path).Success? && fetch(path).value.nextLink != "" {
      var next := fetch(path).value.nextLink;
      OutcomeOfLastFetch(fetch, next, fuel - 1);
      var rest := Paginate(fetch, next, fuel - 1);
      assert Paginate(fetch, path, fuel) == After(fetch(path).value.value, [path], rest);
      if fuel > 1 {
        assert LastRequested(Paginate(fetch, path, fuel)) == LastRequested(rest);
      }
    }
  }

  /**
    The engine as a loop, the shape the client's recursion takes once it is
    made iterative; it makes exactly the same fetches and emissions.
   */
  method Drain<T, E>(fetch: string -> Result<Page<T>, E>, start: string, fuel: nat)
    returns (emitted: seq<T>, requested: seq<string>, outcome: Outcome<E>)
    ensures Trace(emitted, requested, outcome) == Paginate(fetch, start, fuel)
  {
    emitted, requested, outcome := [], [], OutOfFuel;
    var cursor, left: nat, stopped := start, fuel, false;
    while !stopped && left > 0
      invariant left <= fuel
      invariant stopped ==> Trace(emitted, requested, outcome) == Paginate(fetch, start, fuel)
      invariant !stopped ==>
        outcome.OutOfFuel? && After(emitted, requested, Paginate(fetch, cursor, left)) == Paginate(fetch, start, fuel)
      decreases left
    {
      StepAfter(fetch, emitted, requested, cursor, left);
      requested := requested + [cursor];
      match fetch(cursor) {
        case Failure(e) =>
          outcome, stopped := Failed(e), true;
        case Success(page) =>
          emitted := emitted + page.value;
          if page.nextLink == "" {
            outcome, stopped := Done, true;
          } else {
            cursor := page.nextLink;
          }
      }
      left := left - 1;
    }
  }

  // ---------------------------------------------------------------------------
  // Chains of pages

  /** The elements of `pages`, page after page, each page in its own order. */
  function Values<T>(pages: seq<Page<T>>): seq<T> {
    if |pages| == 0 then [] else pages[0].value + Values(pages[1..])
  }

  /** The paths from which `pages` are fetched: `start`, then each page's next link but the last. */
  function Cursors<T>(start: string, pages: seq<Page<T>>): (links: seq<string>)
    ensures |links| == |pages|
    decreases |pages|
  {
    if |pages| == 0 then [] else [start] + Cursors(pages[0].nextLink, pages[1..])
  }

  /**
    `pages` is what the server serves from `start` on: each page links to the
    next, and the last page's next link is empty.
   */
  ghost predicate ChainFrom<T, E>(fetch: string -> Result<Page<T>, E>, start: string, pages: seq<Page<T>>)
    decreases |pages|
  {
    && |pages| > 0
    && fetch(start) == Success(pages[0])
    && if |pages| == 1 then pages[0].nextLink == ""
       else pages[0].nextLink != "" && ChainFrom(fetch, pages[0].nextLink, pages[1..])
  }

  /**
    `pages` is what the server serves from `start` on, every page with a
    non-empty next link, and `link` is the next link of the last of them
    (or `start` itself when there are none).
   */
  ghost predicate OpenChain<T, E>(fetch: string -> Result<Page<T>, E>, start: string, pages: seq<Page<T>>, link: string)
    decreases |pages|
  {
    if |pages| == 0 then link == start
    else
      && fetch(start) == Success(pages[0])
      && pages[0].nextLink != ""
      && OpenChain(fetch, pages[0].nextLink, pages[1..], link)
  }

  /** Along an open chain the engine emits the chain's values and then carries on from its end. */
  lemma {:induction false} FollowsOpenChain<T, E>(fetch: string -> Result<Page<T>, E>, start: string,
                                                  pages: seq<Page<T>>, link: string, fuel: nat)
    requires OpenChain(fetch, start, pages, link)
    requires fuel >= |pages|
    ensures Paginate(fetch, start, fuel)
            == After(Values(pages), Cursors(start, pages), Paginate(fetch, link, fuel - |pages|))
    decreases |pages|
  {
    if |pages| > 0 {
      var page, rest := pages[0], pages[1..];
      FollowsOpenChain(fetch, page.nextLink, rest, link, fuel - 1);
      var tail := Paginate(fetch, link, fuel - |pages|);
      assert Paginate(fetch, start, fuel) == After(page.value, [start], Paginate(fetch, page.nextLink, fuel - 1));
      AfterAfter(page.value, [start], Values(rest), Cursors(page.nextLink, rest), tail);
    }
  }

  /**
    On a finite chain of N pages and with fuel for N fetches, the engine fetches
    exactly the N cursors, emits every page's values in page order, and ends Done.
   */
  lemma {:induction false} DrainsFiniteChain<T, E>(fetch: string -> Result<Page<T>, E>, start: string,
                                                   pages: seq<Page<T>>, fuel: nat)
    requires ChainFrom(fetch, start, pages)
    requires fuel >= |pages|
    ensures Paginate(fetch, start, fuel) == Trace(Values(pages), Cursors(start, pages), Done)
    ensures |Paginate(fetch, start, fuel).requested| == |pages|
    decreases |pages|
  {
    var page, rest := pages[0], pages[1..];
    if |pages| == 1 {
      assert Values(pages) == page.value + Values(rest) == page.value;
      assert Cursors(start, pages) == [start];
    } else {
      DrainsFiniteChain(fetch, page.nextLink, rest, fuel - 1);
      assert Paginate(fetch, start, fuel) == After(page.value, [start], Paginate(fetch, page.nextLink, fuel - 1));
      assert Values(pages) == page.value + Values(rest);
      assert Cursors(start, pages) == [start] + Cursors(page.nextLink, rest);
    }
  }

  /**
    When a fetch fails after a run of good pages, the error is the outcome,
    the good pages' elements stay emitted, and nothing of the failed page is.
   */
  lemma {:induction false} StopsAtFailedFetch<T, E>(fetch: string -> Result<Page<T>, E>, start: string,
                                                    pages: seq<Page<T>>, link: string, e: E, fuel: nat)
    requires OpenChain(fetch, start, pages, link)
    requires fetch(link) == Failure(e)
    requires fuel > |pages|
    ensures Paginate(fetch, start, fuel) == Trace(Values(pages), Cursors(start, pages) + [link], Failed(e))
  {
    FollowsOpenChain(fetch, start, pages, link, fuel);
  }

  /** The engine ends Done only at the end of a finite chain. */
  lemma {:induction false} DoneOnlyAtChainEnd<T, E>(fetch: string -> Result<Page<T>, E>, start: string, fuel: nat)
    requires Paginate(fetch, start, fuel).outcome.Done?
    ensures exists pages :: ChainFrom(fetch, start, pages) && |pages| <= fuel
              && Paginate(fetch, start, fuel) == Trace(Values(pages), Cursors(start, pages), Done)
    decreases fuel
  {
    var page := fetch(start).value;
    if page.nextLink == "" {
      assert ChainFrom(fetch, start, [page]);
      assert Values([page]) == page.value;
    } else {
      DoneOnlyAtChainEnd(fetch, page.nextLink, fuel - 1);
      var rest :| && ChainFrom(fetch, page.nextLink, rest) && |rest| <= fuel - 1
                  && Paginate(fetch, page.nextLink, fuel - 1)
                     == Trace(Values(rest), Cursors(page.nextLink, rest), Done);
      var pages := [page] + rest;
      assert pages[1..] == rest;
      assert ChainFrom(fetch, start, pages);
    }
  }

  /** The engine ends Failed only at a failing fetch reached along an open chain. */
  lemma {:induction false} FailedOnlyAtFailingFetch<T, E>(fetch: string -> Result<Page<T>, E>, start: string,
                                                          fuel: nat)
    requires Paginate(fetch, start, fuel).outcome.Failed?
    ensures exists pages, link ::
              && OpenChain(fetch, start, pages, link)
              && fetch(link) == Failure(Paginate(fetch, start, fuel).outcome.error)
              && Paginate(fetch, start, fuel)
                 == Trace(Values(pages), Cursors(start, pages) + [link], Paginate(fetch, start, fuel).outcome)
    decreases fuel
  {
    var e := Paginate(fetch, start, fuel).outcome.error;
    if fetch(start).Failure? {
      assert OpenChain(fetch, start, [], start);
    } else {
      var page := fetch(start).value;
      FailedOnlyAtFailingFetch(fetch, page.nextLink, fuel - 1);
      var rest, link :| && OpenChain(fetch, page.nextLink, rest, link) && fetch(link) == Failure(e)
                        && Paginate(fetch, page.nextLink, fuel - 1)
                           == Trace(Values(rest), Cursors(page.nextLink, rest) + [link], Failed(e));
      var pages := [page] + rest;
      assert pages[1..] == rest;
      assert OpenChain(fetch, start, pages, link);
      assert Paginate(fetch, start, fuel) == After(page.value, [start], Paginate(fetch, page.nextLink, fuel - 1));
      assert Values(pages) == page.value + Values(rest);
      assert Cursors(start, pages) + [link] == [start] + (Cursors(page.nextLink, rest) + [link]);
      assert Paginate(fetch, start, fuel) == Trace(Values(pages), Cursors(start, pages) + [link], Failed(e));
    }
  }

  /** With too little fuel to leave an open chain, the run is cut off. */
  lemma {:induction false} OpenChainExhaustsShortFuel<T, E>(fetch: string -> Result<Page<T>, E>, start: string,
                                                            pages: seq<Page<T>>, link: string, fuel: nat)
    requires OpenChain(fetch, start, pages, link)
    requires fuel <= |pages|
    ensures Paginate(fetch, start, fuel).outcome.OutOfFuel?
    decreases fuel
  {
    if fuel > 0 {
      OpenChainExhaustsShortFuel(fetch, pages[0].nextLink, pages[1..], link, fuel - 1);
    }
  }

  /**
    A chain whose next links lead back to its start never returns: every fuel runs out.
    This is the non-termination of the client's unbounded recursion.
   */
  lemma {:induction false} CycleNeverCompletes<T, E>(fetch: string -> Result<Page<T>, E>, start: string,
                                                     pages: seq<Page<T>>, fuel: nat)
    requires |pages| > 0
    requires OpenChain(fetch, start, pages, start)
    ensures Paginate(fetch, start, fuel).outcome.OutOfFuel?
    decreases fuel
  {
    if fuel <= |pages| {
      OpenChainExhaustsShortFuel(fetch, start, pages, start, fuel);
    } else {
      FollowsOpenChain(fetch, start, pages, start, fuel);
      CycleNeverCompletes(fetch, start, pages, fuel - |pages|);
    }
  }

  /** Extra fuel never changes a run that did not run out. */
  lemma {:induction false} MoreFuelSameRun<T, E>(fetch: string -> Result<Page<T>, E>, start: string,
                                                 fuel: nat, more: nat)
    requires !Paginate(fetch, start, fuel).outcome.OutOfFuel?
    requires fuel <= more
    ensures Paginate(fetch, start, more) == Paginate(fetch, start, fuel)
    decreases fuel
  {
    match fetch(start)
    case Failure(_) =>
    case Success(page) =>
      if page.nextLink != "" {
        MoreFuelSameRun(fetch, page.nextLink, fuel - 1, more - 1);
      }
  }
}
