/** The list operations: `prepare_request` (first request or next-page request),
    `extract_data` (the page's items and the cursor for the next one), and the
    `ItemPaged` driver that calls them until the cursor is `None`. `ItemPaged` itself
    lives in `azure.core`; the driver here is the documented contract it is assumed to
    keep: one call without a cursor, then one call per cursor until a page has none. */
module Paging {

  import opened Wrappers
  import opened Http
  import CI = CaseInsensitive
  import opened Requests
  import opened ErrorMaps

  /** A next link as `urlparse` and `parse_qs` split it: `scheme://netloc`, the path,
      and the query parameters with their (possibly repeated) values. */
  datatype Link = Link(origin: string, path: string, query: CI.CIDict<seq<string>>)

  /** How an operation asks for the page behind a cursor. */
  datatype PagingStyle =
      /** Newer generator: GET the cursor's path with the cursor's own query, api-version
          replaced by the client's configured one. `initial` is the first request. */
    | NextLinkQuery(initial: Request, configApiVersion: string)
      /** Older generator (agent pools, factories): the list builder again, with the
          cursor as template URL and the operation's own api-version. */
    | NextLinkTemplate(spec: BuilderSpec, apiVersion: string)

  /** A query from `parse_qs`: every value is a list. */
  function QueryOf(q: CI.CIDict<seq<string>>): (r: CI.CIDict<QueryValue>)
    ensures forall k :: CI.Get(r, k) == (if CI.Get(q, k).Some? then Some(Many(CI.Get(q, k).value)) else None)
  {
    map k | k in q :: Many(q[k])
  }

  /** Python truthiness of an optional string: `None` and `""` are falsy. */
  predicate Truthy(cursor: Option<string>) {
    cursor.Some? && cursor.value != ""
  }

  /** `prepare_request(next_link)`. */
  function PrepareRequest(style: PagingStyle, cursor: Option<string>, parse: string -> Link): (r: Request)
    ensures !Truthy(cursor) && style.NextLinkQuery? ==> r == style.initial
    ensures !Truthy(cursor) && style.NextLinkTemplate? ==>
      r.url == style.spec.template && CI.Get(r.params, ApiVersionParam) == Some(One(style.apiVersion))
    ensures Truthy(cursor) ==> r.verb == GET && r.body == NoBody
    ensures Truthy(cursor) && style.NextLinkQuery? ==>
      var link := parse(cursor.value);
      && r.url == link.origin + link.path
      && CI.Get(r.params, ApiVersionParam) == Some(One(style.configApiVersion))
      && (forall k :: CI.Key(k) != CI.Key(ApiVersionParam) ==>
            CI.Get(r.params, k) == (if CI.Get(link.query, k).Some? then Some(Many(CI.Get(link.query, k).value)) else None))
      && r.headers == map[]
    ensures Truthy(cursor) && style.NextLinkTemplate? ==>
      r.url == cursor.value && CI.Get(r.params, ApiVersionParam) == Some(One(style.apiVersion))
  {
    match style
    case NextLinkQuery(initial, configApiVersion) =>
      if !Truthy(cursor) then initial
      else
        var link := parse(cursor.value);
        Request(GET, link.origin + link.path, CI.Set(QueryOf(link.query), ApiVersionParam, One(configApiVersion)), map[], NoBody)
    case NextLinkTemplate(spec, apiVersion) =>
      var template := if Truthy(cursor) then cursor.value else spec.template;
      var built := Build(spec, BuilderArgs(Some(apiVersion), None, Some(template), map[], map[], None, None, None, NoBody));
      if Truthy(cursor) then built.(verb := GET) else built
  }

  /** The deserialised list result: the page's items and the service's `next_link`. */
  datatype ListResult<T> = ListResult(nextLink: Option<string>, value: seq<T>)

  /** What `extract_data` returns: the cursor for the next page and this page's items. */
  datatype Page<T> = Page(next: Option<string>, items: seq<T>)

  /** `deserialized.next_link or None`: an empty link ends the iteration like a missing one. */
  function NormaliseCursor(nextLink: Option<string>): (r: Option<string>)
    ensures r.None? <==> !Truthy(nextLink)
    ensures r.Some? ==> r == nextLink && r.value != ""
  {
    if Truthy(nextLink) then nextLink else None
  }

  /** Whether an operation follows `next_link` or is single-page (`return None, ...`). */
  datatype CursorPolicy = FollowNextLink | SinglePage

  /** `extract_data`. */
  function ExtractData<T>(policy: CursorPolicy, lr: ListResult<T>): (p: Page<T>)
    ensures p.items == lr.value
    ensures policy.SinglePage? ==> p.next.None?
    ensures policy.FollowNextLink? ==> p.next == NormaliseCursor(lr.nextLink)
    ensures p.next != Some("")
  {
    match policy
    case FollowNextLink => Page(NormaliseCursor(lr.nextLink), lr.value)
    case SinglePage => Page(None, lr.value)
  }

  /** The list-operation cursor policies of the modelled files. */
  const ProximityPlacementGroupsList: CursorPolicy := FollowNextLink
  const AvailabilitySetsList: CursorPolicy := FollowNextLink
  const AvailabilitySetsListAvailableSizes: CursorPolicy := SinglePage
  const ActivityLogAlertsListBySubscriptionId: CursorPolicy := SinglePage
  const ActivityLogAlertsListByResourceGroup: CursorPolicy := SinglePage
  const AgentPoolsList: CursorPolicy := FollowNextLink
  const FactoriesList: CursorPolicy := FollowNextLink
  const UpdateDomainsList: CursorPolicy := FollowNextLink
  const ManagedPrivateEndpointsListByFactory: CursorPolicy := FollowNextLink

  /** How a crawl ended: every page seen, a page request that failed after the pages
      before it, or the fuel bound reached. */
  datatype CrawlResult<T> =
    | Done(pages: seq<Page<T>>)
    | Failed(pages: seq<Page<T>>, error: Failure)
    | OutOfFuel(pages: seq<Page<T>>)

  function WithPrefix<T>(prefix: seq<Page<T>>, r: CrawlResult<T>): CrawlResult<T> {
    match r
    case Done(ps) => Done(prefix + ps)
    case Failed(ps, e) => Failed(prefix + ps, e)
    case OutOfFuel(ps) => OutOfFuel(prefix + ps)
  }

  /** The pages a service hands out, one call per cursor, from `cursor` to the first page
      without a next cursor. `fetch` is `get_next` followed by deserialisation. */
  ghost predicate IsChainFrom<T>(fetch: Option<string> -> Result<ListResult<T>, Failure>,
                                 policy: CursorPolicy, cursor: Option<string>, pages: seq<Page<T>>)
    decreases |pages|
  {
    && |pages| >= 1
    && fetch(cursor).Ok?
    && ExtractData(policy, fetch(cursor).value) == pages[0]
    && (if |pages| == 1 then pages[0].next.None?
        else pages[0].next.Some? && IsChainFrom(fetch, policy, pages[0].next, pages[1..]))
  }

  /** Pages the service hands out one after another from `cursor`, each with a cursor
      to the next: the start of a chain, as far as the driver got. */
  ghost predicate IsPathFrom<T>(fetch: Option<string> -> Result<ListResult<T>, Failure>,
                                policy: CursorPolicy, cursor: Option<string>, pages: seq<Page<T>>)
    decreases |pages|
  {
    || |pages| == 0
    || (&& fetch(cursor).Ok?
        && ExtractData(policy, fetch(cursor).value) == pages[0]
        && pages[0].next.Some?
        && IsPathFrom(fetch, policy, pages[0].next, pages[1..]))
  }

  /** The cursor the driver holds after collecting `pages` from `cursor`. */
  function CursorAfter<T>(cursor: Option<string>, pages: seq<Page<T>>): Option<string> {
    if |pages| == 0 then cursor else pages[|pages| - 1].next
  }

  /** Every page but the last carries a cursor to its successor. */
  predicate EveryButLastHasCursor<T>(pages: seq<Page<T>>) {
    forall i :: 0 <= i < |pages| - 1 ==> pages[i].next.Some?
  }

  /** The `ItemPaged` driver from a cursor, bounded by `fuel` page requests. It stops
      exactly when a page's cursor is `None`, and what it collects is the service's chain. */
  function Crawl<T>(fetch: Option<string> -> Result<ListResult<T>, Failure>, policy: CursorPolicy,
                    cursor: Option<string>, fuel: nat): (r: CrawlResult<T>)
    ensures r.Done? ==> IsChainFrom(fetch, policy, cursor, r.pages)
    ensures r.Done? ==> |r.pages| <= fuel
    ensures EveryButLastHasCursor(r.pages)
    decreases fuel
  {
    if fuel == 0 then OutOfFuel([])
    else match fetch(cursor)
      case Err(e) => Failed([], e)
      case Ok(lr) =>
        var page := ExtractData(policy, lr);
        if page.next.None? then Done([page])
        else
          var rest := Crawl(fetch, policy, page.next, fuel - 1);
          assert rest.Done? ==> ([page] + rest.pages)[1..] == rest.pages;
          WithPrefix([page], rest)
  }

  /** The items `ItemPaged` yields from a sequence of pages: their in-order concatenation. */
  function Flatten<T>(pages: seq<Page<T>>): seq<T> {
    if |pages| == 0 then [] else Flatten(pages[..|pages| - 1]) + pages[|pages| - 1].items
  }

  /** Given enough fuel, the driver collects exactly the service's chain of pages. */
  lemma {:induction false} CrawlComplete<T>(fetch: Option<string> -> Result<ListResult<T>, Failure>,
                                            policy: CursorPolicy, cursor: Option<string>,
                                            pages: seq<Page<T>>, fuel: nat)
    requires IsChainFrom(fetch, policy, cursor, pages)
    requires fuel >= |pages|
    ensures Crawl(fetch, policy, cursor, fuel) == Done(pages)
    decreases |pages|
  {
    CrawlStep(fetch, policy, cursor, fuel);
    if |pages| > 1 {
      CrawlComplete(fetch, policy, pages[0].next, pages[1..], fuel - 1);
      assert [pages[0]] + pages[1..] == pages;
    }
  }

  /** A page with a cursor, followed by a path from that cursor, is a path. */
  lemma PathCons<T>(fetch: Option<string> -> Result<ListResult<T>, Failure>, policy: CursorPolicy,
                    cursor: Option<string>, page: Page<T>, pages: seq<Page<T>>)
    requires fetch(cursor).Ok? && ExtractData(policy, fetch(cursor).value) == page
    requires page.next.Some? && IsPathFrom(fetch, policy, page.next, pages)
    ensures IsPathFrom(fetch, policy, cursor, [page] + pages)
    ensures CursorAfter(cursor, [page] + pages) == CursorAfter(page.next, pages)
  {
    assert ([page] + pages)[1..] == pages;
  }

  /** A crawl that fails has followed a path of pages, and the request from the cursor
      after them failed with the reported error. */
  lemma {:induction false} CrawlFailure<T>(fetch: Option<string> -> Result<ListResult<T>, Failure>,
                                           policy: CursorPolicy, cursor: Option<string>, fuel: nat)
    requires Crawl(fetch, policy, cursor, fuel).Failed?
    ensures var r := Crawl(fetch, policy, cursor, fuel);
      IsPathFrom(fetch, policy, cursor, r.pages) && fetch(CursorAfter(cursor, r.pages)) == Err(r.error)
    decreases fuel
  {
    CrawlStep(fetch, policy, cursor, fuel);
    if fetch(cursor).Ok? {
      var page := ExtractData(policy, fetch(cursor).value);
      CrawlFailure(fetch, policy, page.next, fuel - 1);
      PathCons(fetch, policy, cursor, page, Crawl(fetch, policy, page.next, fuel - 1).pages);
    }
  }

  /** A crawl that runs out of fuel has followed a path of exactly `fuel` pages. */
  lemma {:induction false} CrawlOutOfFuel<T>(fetch: Option<string> -> Result<ListResult<T>, Failure>,
                                             policy: CursorPolicy, cursor: Option<string>, fuel: nat)
    requires Crawl(fetch, policy, cursor, fuel).OutOfFuel?
    ensures var r := Crawl(fetch, policy, cursor, fuel);
      IsPathFrom(fetch, policy, cursor, r.pages) && |r.pages| == fuel
    decreases fuel
  {
    CrawlStep(fetch, policy, cursor, fuel);
    if fuel > 0 {
      var page := ExtractData(policy, fetch(cursor).value);
      CrawlOutOfFuel(fetch, policy, page.next, fuel - 1);
      PathCons(fetch, policy, cursor, page, Crawl(fetch, policy, page.next, fuel - 1).pages);
    }
  }

  /** A page request that fails after a run of pages ends the crawl with exactly those
      pages and that request's error. */
  lemma {:induction false} CrawlFailsAt<T>(fetch: Option<string> -> Result<ListResult<T>, Failure>,
                                           policy: CursorPolicy, cursor: Option<string>,
                                           pages: seq<Page<T>>, fuel: nat)
    requires IsPathFrom(fetch, policy, cursor, pages)
    requires fetch(CursorAfter(cursor, pages)).Err?
    requires fuel > |pages|
    ensures Crawl(fetch, policy, cursor, fuel) == Failed(pages, fetch(CursorAfter(cursor, pages)).error)
    decreases |pages|
  {
    CrawlStep(fetch, policy, cursor, fuel);
    if |pages| > 0 {
      assert CursorAfter(pages[0].next, pages[1..]) == CursorAfter(cursor, pages);
      CrawlFailsAt(fetch, policy, pages[0].next, pages[1..], fuel - 1);
      assert [pages[0]] + pages[1..] == pages;
    }
  }

  /** `get_next` (lines 713-727): the request `prepare_request` builds is sent; any
      status but 200 is raised through the operation's merged error map, otherwise the
      response is deserialised into the list result. */
  function GetNext<T>(style: PagingStyle, parse: string -> Link, send: Request -> Response,
                      errors: ErrorMap, errorModel: Option<Model>, deserialise: Response -> ListResult<T>,
                      cursor: Option<string>): (r: Result<ListResult<T>, Failure>)
    ensures var resp := send(PrepareRequest(style, cursor, parse));
      && (r.Ok? <==> resp.status == 200)
      && (r.Ok? ==> r.value == deserialise(resp))
      && (r.Err? ==> r.error == if resp.status in errors then Typed(errors[resp.status], resp.status)
                                else Generic(resp.status, errorModel))
  {
    var resp := send(PrepareRequest(style, cursor, parse));
    match CheckStatus(resp, {200}, errors, errorModel)
    case Ok(ok) => Ok(deserialise(ok))
    case Err(e) => Err(e)
  }

  /** What `ItemPaged` calls for each cursor: `get_next`, then deserialisation. */
  function Pager<T>(style: PagingStyle, parse: string -> Link, send: Request -> Response,
                    errors: ErrorMap, errorModel: Option<Model>, deserialise: Response -> ListResult<T>)
    : Option<string> -> Result<ListResult<T>, Failure>
  {
    c => GetNext(style, parse, send, errors, errorModel, deserialise, c)
  }

  /** A page answered with any status but 200 raises: the iteration ends with the pages
      before it and the mapped error, or `HttpResponseError` for an unmapped status. */
  lemma NonOkPageRaises<T>(style: PagingStyle, parse: string -> Link, send: Request -> Response,
                           errors: ErrorMap, errorModel: Option<Model>, deserialise: Response -> ListResult<T>,
                           policy: CursorPolicy, pages: seq<Page<T>>, fuel: nat)
    requires IsPathFrom(Pager(style, parse, send, errors, errorModel, deserialise), policy, None, pages)
    requires send(PrepareRequest(style, CursorAfter(None, pages), parse)).status != 200
    requires fuel > |pages|
    ensures var status := send(PrepareRequest(style, CursorAfter(None, pages), parse)).status;
      Crawl(Pager(style, parse, send, errors, errorModel, deserialise), policy, None, fuel)
      == Failed(pages, if status in errors then Typed(errors[status], status) else Generic(status, errorModel))
  {
    CrawlFailsAt(Pager(style, parse, send, errors, errorModel, deserialise), policy, None, pages, fuel);
  }

  /** A single-page operation makes exactly one page request: one page or its failure. */
  lemma SinglePageCrawl<T>(fetch: Option<string> -> Result<ListResult<T>, Failure>, cursor: Option<string>, fuel: nat)
    requires fuel >= 1
    ensures fetch(cursor).Ok? ==>
      Crawl(fetch, SinglePage, cursor, fuel) == Done([Page(None, fetch(cursor).value.value)])
    ensures fetch(cursor).Err? ==> Crawl(fetch, SinglePage, cursor, fuel) == Failed([], fetch(cursor).error)
  {
  }

  /** A service that keeps answering `next_link: ""` ends after the first page, because
      `extract_data` turns the empty link into `None`. */
  lemma EmptyNextLinkEndsIteration<T>(fetch: Option<string> -> Result<ListResult<T>, Failure>, items: seq<T>, fuel: nat)
    requires forall c :: fetch(c) == Ok(ListResult(Some(""), items))
    requires fuel >= 1
    ensures Crawl(fetch, FollowNextLink, None, fuel) == Done([Page(None, items)])
  {
  }

  /** The same service, if the empty link were passed on unchanged, would be asked for the
      first page again and again: `prepare_request("")` rebuilds the initial request. The
      crawl then never completes, whatever the bound. */
  function RawCrawl<T>(fetch: Option<string> -> Result<ListResult<T>, Failure>, cursor: Option<string>, fuel: nat)
    : CrawlResult<T>
    decreases fuel
  {
    if fuel == 0 then OutOfFuel([])
    else match fetch(cursor)
      case Err(e) => Failed([], e)
      case Ok(lr) =>
        var page := Page(lr.nextLink, lr.value);
        if page.next.None? then Done([page]) else WithPrefix([page], RawCrawl(fetch, page.next, fuel - 1))
  }

  lemma {:induction false} RawEmptyNextLinkNeverEnds<T>(fetch: Option<string> -> Result<ListResult<T>, Failure>,
                                                      items: seq<T>, cursor: Option<string>, fuel: nat)
    requires forall c :: fetch(c) == Ok(ListResult(Some(""), items))
    ensures RawCrawl(fetch, cursor, fuel).OutOfFuel?
    ensures |RawCrawl(fetch, cursor, fuel).pages| == fuel
    decreases fuel
  {
    if fuel > 0 {
      RawEmptyNextLinkNeverEnds(fetch, items, Some(""), fuel - 1);
    }
  }

  /** `ItemPaged` as a loop: request pages until one has no cursor, yielding each page's
      items in order. It agrees with `Crawl` from no cursor, and the items it yields are
      the in-order concatenation of the pages. */
  method CollectItems<T>(fetch: Option<string> -> Result<ListResult<T>, Failure>, policy: CursorPolicy, fuel: nat)
    returns (items: seq<T>, outcome: CrawlResult<T>)
    ensures outcome == Crawl(fetch, policy, None, fuel)
    ensures items == Flatten(outcome.pages)
  {
    var cursor: Option<string> := None;
    var left := fuel;
    var pages: seq<Page<T>> := [];
    items := [];
    ghost var whole := Crawl(fetch, policy, None, fuel);
    while true
      invariant whole == WithPrefix(pages, Crawl(fetch, policy, cursor, left))
      invariant items == Flatten(pages)
      decreases left
    {
      if left == 0 {
        WithEmptySuffix(pages, OutOfFuel([]));
        return items, OutOfFuel(pages);
      }
      var answer := fetch(cursor);
      CrawlStep(fetch, policy, cursor, left);
      if answer.Err? {
        WithEmptySuffix(pages, Failed([], answer.error));
        return items, Failed(pages, answer.error);
      }
      var page := ExtractData(policy, answer.value);
      FlattenSnoc(pages, page);
      items := items + page.items;
      if page.next.None? {
        return items, Done(pages + [page]);
      }
      Advance(whole, pages, fetch, policy, cursor, left);
      pages := pages + [page];
      cursor := page.next;
      left := left - 1;
    }
  }

  /** The loop's invariant carried over a page that has a cursor. */
  lemma Advance<T>(whole: CrawlResult<T>, pages: seq<Page<T>>, fetch: Option<string> -> Result<ListResult<T>, Failure>,
                   policy: CursorPolicy, cursor: Option<string>, left: nat)
    requires left > 0 && fetch(cursor).Ok? && ExtractData(policy, fetch(cursor).value).next.Some?
    requires whole == WithPrefix(pages, Crawl(fetch, policy, cursor, left))
    ensures whole == WithPrefix(pages + [ExtractData(policy, fetch(cursor).value)],
                                Crawl(fetch, policy, ExtractData(policy, fetch(cursor).value).next, left - 1))
  {
    var page := ExtractData(policy, fetch(cursor).value);
    var rest := Crawl(fetch, policy, page.next, left - 1);
    CrawlStep(fetch, policy, cursor, left);
    WithPrefixAppend(pages, page, rest);
  }

  lemma WithEmptySuffix<T>(prefix: seq<Page<T>>, r: CrawlResult<T>)
    requires r.pages == []
    ensures WithPrefix(prefix, r).pages == prefix
    ensures WithPrefix(prefix, r).Failed? == r.Failed? && WithPrefix(prefix, r).OutOfFuel? == r.OutOfFuel?
    ensures r.Failed? ==> WithPrefix(prefix, r).error == r.error
  {
    assert prefix + [] == prefix;
  }

  /** One step of the driver. */
  lemma CrawlStep<T>(fetch: Option<string> -> Result<ListResult<T>, Failure>, policy: CursorPolicy,
                     cursor: Option<string>, fuel: nat)
    ensures fuel == 0 ==> Crawl(fetch, policy, cursor, fuel) == OutOfFuel([])
    ensures fuel > 0 && fetch(cursor).Err? ==> Crawl(fetch, policy, cursor, fuel) == Failed([], fetch(cursor).error)
    ensures fuel > 0 && fetch(cursor).Ok? && ExtractData(policy, fetch(cursor).value).next.None? ==>
      Crawl(fetch, policy, cursor, fuel) == Done([ExtractData(policy, fetch(cursor).value)])
    ensures fuel > 0 && fetch(cursor).Ok? && ExtractData(policy, fetch(cursor).value).next.Some? ==>
      Crawl(fetch, policy, cursor, fuel)
      == WithPrefix([ExtractData(policy, fetch(cursor).value)],
                    Crawl(fetch, policy, ExtractData(policy, fetch(cursor).value).next, fuel - 1))
  {
  }

  lemma FlattenSnoc<T>(pages: seq<Page<T>>, page: Page<T>)
    ensures Flatten(pages + [page]) == Flatten(pages) + page.items
  {
    assert (pages + [page])[..|pages|] == pages;
  }

  lemma WithPrefixAppend<T>(prefix: seq<Page<T>>, page: Page<T>, r: CrawlResult<T>)
    ensures WithPrefix(prefix, WithPrefix([page], r)) == WithPrefix(prefix + [page], r)
  {
    assert prefix + ([page] + r.pages) == (prefix + [page]) + r.pages;
  }

  /** On a next page the client's configured api-version replaces whatever the cursor's
      query carried, and the cursor's other query parameters go along unchanged. */
  lemma NextPageUsesClientApiVersion(initial: Request, config: string, cursor: string, parse: string -> Link)
    requires cursor != ""
    requires CI.Get(parse(cursor).query, ApiVersionParam) == Some(["1999-01-01"])
    ensures CI.Get(PrepareRequest(NextLinkQuery(initial, config), Some(cursor), parse).params, ApiVersionParam)
         == Some(One(config))
    ensures PrepareRequest(NextLinkQuery(initial, config), Some(""), parse) == initial
    ensures PrepareRequest(NextLinkQuery(initial, config), None, parse) == initial
  {
  }
}
