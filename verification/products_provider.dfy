/** The products provider (src/contexts/products-context/ProductsContextProvider.tsx):
    a fetch-once flag, a fetch-in-progress guard, one debounced request slot
    where the latest call wins, and the query string of the listing request.
    The ref cells and state hooks are fields of one object. Timers become an
    explicit pending slot and a Fire step; the awaited HTTP request becomes a
    Start step (FetchData) and a Finish step whose response is an input. */
module ProductsProvider {
  import opened Wrappers
  import opened Models
  import opened Strings

  /** One URLSearchParams entry. */
  datatype Param = Param(key: string, value: string)

  /** `params.get(key)`: the first value stored under the key. */
  function Get(params: seq<Param>, key: string): Option<string> {
    if params == [] then None
    else if params[0].key == key then Some(params[0].value)
    else Get(params[1..], key)
  }

  /** The entries fetchData appends: `category` (the filters joined with
      ',') exactly when there are filters, then `search` exactly when the
      term is non-empty. */
  function SearchParams(activeFilters: seq<string>, activeSearchTerm: string): (r: seq<Param>)
    ensures Get(r, "category") == if |activeFilters| > 0 then Some(Join(activeFilters)) else None
    ensures Get(r, "search") == if activeSearchTerm != "" then Some(activeSearchTerm) else None
    ensures forall i :: 0 <= i < |r| ==> r[i].key == "category" || r[i].key == "search"
    ensures r == [] <==> activeFilters == [] && activeSearchTerm == ""
  {
    (if |activeFilters| > 0 then [Param("category", Join(activeFilters))] else [])
    + (if activeSearchTerm != "" then [Param("search", activeSearchTerm)] else [])
  }

  /** `params.toString()`: `key=value` pairs joined with '&'. The form
      encoding of values is a parameter; the two keys are plain letters,
      which the encoding leaves alone. */
  function QueryString(params: seq<Param>, encode: string -> string): (r: string)
    ensures r == "" <==> params == []
  {
    if params == [] then ""
    else
      var pair := params[0].key + "=" + encode(params[0].value);
      if |params| == 1 then pair else pair + "&" + QueryString(params[1..], encode)
  }

  /** The query a fetch sends, spelled out for each combination of a
      category list and a search term. */
  lemma SearchQueryShape(activeFilters: seq<string>, activeSearchTerm: string, encode: string -> string)
    ensures activeFilters != [] && activeSearchTerm != "" ==>
      QueryString(SearchParams(activeFilters, activeSearchTerm), encode)
        == "category=" + encode(Join(activeFilters)) + "&search=" + encode(activeSearchTerm)
    ensures activeFilters != [] && activeSearchTerm == "" ==>
      QueryString(SearchParams(activeFilters, activeSearchTerm), encode)
        == "category=" + encode(Join(activeFilters))
    ensures activeFilters == [] && activeSearchTerm != "" ==>
      QueryString(SearchParams(activeFilters, activeSearchTerm), encode)
        == "search=" + encode(activeSearchTerm)
  {
  }

  /** The listing URL: '?' and the query only when the query is non-empty. */
  function ProductsUrl(origin: string, query: string): string {
    origin + "/products" + (if query != "" then "?" + query else "")
  }

  /** The URL a fetch with these arguments requests. */
  function RequestUrl(origin: string, activeFilters: seq<string>, activeSearchTerm: string, encode: string -> string): string {
    ProductsUrl(origin, QueryString(SearchParams(activeFilters, activeSearchTerm), encode))
  }

  /** With no filters and no term the bare listing URL is requested;
      otherwise the URL carries '?' and the query. */
  lemma RequestUrlShape(origin: string, activeFilters: seq<string>, activeSearchTerm: string, encode: string -> string)
    ensures activeFilters == [] && activeSearchTerm == "" ==>
      RequestUrl(origin, activeFilters, activeSearchTerm, encode) == origin + "/products"
    ensures activeFilters != [] || activeSearchTerm != "" ==>
      RequestUrl(origin, activeFilters, activeSearchTerm, encode)
        == origin + "/products?" + QueryString(SearchParams(activeFilters, activeSearchTerm), encode)
  {
  }

  /** The arguments a scheduled fetch will run with. */
  datatype FetchRequest = FetchRequest(filters: seq<string>, searchTerm: string)

  /** How the awaited listing request ended: it threw, or it returned a
      response whose `data.body` may be missing. */
  datatype FetchResponse = Failed | Received(body: Option<seq<Product>>)

  /** What a completed fetch stores: nothing on failure, the body or [] otherwise. */
  function ProductsAfter(response: FetchResponse): seq<Product> {
    match response
    case Failed => []
    case Received(body) => body.GetOr([])
  }

  class ProductsContext {
    var isFetching: bool
    var products: seq<Product>
    var filters: seq<string>
    var searchTerm: string
    var initialFetchDone: bool
    var fetchingInProgress: bool
    var userInitiatedAction: bool
    /** The debounced fetch scheduled in fetchTimeoutRef and not yet fired. */
    var pending: Option<FetchRequest>
    /** The URLs requested so far, in order. */
    var requests: seq<string>
    /** REACT_APP_API_GATEWAY_ORIGIN. */
    const origin: string
    /** Form encoding of query values (URLSearchParams). */
    const encode: string -> string

    /** The state flag shown to components and the ref guarding concurrent
        fetches are always set and cleared together. */
    ghost predicate Valid()
      reads this
    {
      isFetching == fetchingInProgress
    }

    constructor (origin: string, encode: string -> string)
      ensures Valid()
      ensures this.origin == origin && this.encode == encode
      ensures !isFetching && products == [] && filters == [] && searchTerm == ""
      ensures !initialFetchDone && !fetchingInProgress && !userInitiatedAction
      ensures pending == None && requests == []
    {
      this.origin := origin;
      this.encode := encode;
      isFetching, products, filters, searchTerm := false, [], [], "";
      initialFetchDone, fetchingInProgress, userInitiatedAction := false, false, false;
      pending, requests := None, [];
    }

    /** fetchData up to its await: refuse while another fetch is in
        progress; otherwise raise both flags, build the query and request
        the URL. */
    method FetchData(activeFilters: seq<string>, activeSearchTerm: string) returns (started: bool)
      requires Valid()
      modifies this
      ensures Valid()
      ensures started == !old(fetchingInProgress)
      ensures !started ==> requests == old(requests) && fetchingInProgress
      ensures started ==> fetchingInProgress && isFetching
      ensures started ==> requests == old(requests) + [RequestUrl(origin, activeFilters, activeSearchTerm, encode)]
      ensures products == old(products) && filters == old(filters) && searchTerm == old(searchTerm)
      ensures initialFetchDone == old(initialFetchDone) && pending == old(pending)
      ensures userInitiatedAction == old(userInitiatedAction)
    {
      if fetchingInProgress {
        return false;
      }
      fetchingInProgress := true;
      isFetching := true;
      var params: seq<Param> := [];
      if |activeFilters| > 0 {
        params := params + [Param("category", Join(activeFilters))];
      }
      if activeSearchTerm != "" {
        params := params + [Param("search", activeSearchTerm)];
      }
      var queryString := QueryString(params, encode);
      var url := origin + "/products" + (if queryString != "" then "?" + queryString else "");
      requests := requests + [url];
      started := true;
    }

    /** fetchData after its await: store the products (or [] on failure) and,
        in `finally`, lower both flags. */
    method FinishFetch(response: FetchResponse)
      requires Valid() && fetchingInProgress
      modifies this
      ensures Valid()
      ensures !isFetching && !fetchingInProgress
      ensures products == ProductsAfter(response)
      ensures response.Failed? ==> products == []
      ensures filters == old(filters) && searchTerm == old(searchTerm) && requests == old(requests)
      ensures initialFetchDone == old(initialFetchDone) && pending == old(pending)
      ensures userInitiatedAction == old(userInitiatedAction)
    {
      match response {
        case Failed =>
          products := [];
        case Received(body) =>
          products := if body.Some? then body.value else [];
      }
      isFetching := false;
      fetchingInProgress := false;
    }

    /** fetchProducts: only the first call fetches, with no filters and an
        empty term; later calls change nothing. */
    method FetchProducts() returns (started: bool)
      requires Valid()
      modifies this
      ensures Valid()
      ensures initialFetchDone
      ensures old(initialFetchDone) ==>
        (!started && requests == old(requests) &&
         fetchingInProgress == old(fetchingInProgress) && isFetching == old(isFetching))
      ensures !old(initialFetchDone) ==> started == !old(fetchingInProgress)
      ensures started ==> fetchingInProgress && isFetching
      ensures !started ==> fetchingInProgress == old(fetchingInProgress) && isFetching == old(isFetching)
      ensures started ==> requests == old(requests) + [origin + "/products"]
      ensures !started ==> requests == old(requests)
      ensures products == old(products) && filters == old(filters) && searchTerm == old(searchTerm)
      ensures pending == old(pending) && userInitiatedAction == old(userInitiatedAction)
    {
      started := false;
      if !initialFetchDone {
        initialFetchDone := true;
        started := FetchData([], "");
        RequestUrlShape(origin, [], "", encode);
      }
    }

    /** filterProducts: drop the pending fetch, store the filters at once
        and schedule one fetch with them and the current term. */
    method FilterProducts(newFilters: seq<string>)
      requires Valid()
      modifies this
      ensures Valid()
      ensures filters == newFilters && userInitiatedAction
      ensures pending == Some(FetchRequest(newFilters, old(searchTerm)))
      ensures searchTerm == old(searchTerm) && products == old(products) && requests == old(requests)
      ensures isFetching == old(isFetching) && fetchingInProgress == old(fetchingInProgress)
      ensures initialFetchDone == old(initialFetchDone)
    {
      pending := None;
      userInitiatedAction := true;
      filters := newFilters;
      pending := Some(FetchRequest(newFilters, searchTerm));
    }

    /** searchProducts: drop the pending fetch, store the term at once and
        schedule one fetch with it and the current filters. */
    method SearchProducts(term: string)
      requires Valid()
      modifies this
      ensures Valid()
      ensures searchTerm == term && userInitiatedAction
      ensures pending == Some(FetchRequest(old(filters), term))
      ensures filters == old(filters) && products == old(products) && requests == old(requests)
      ensures isFetching == old(isFetching) && fetchingInProgress == old(fetchingInProgress)
      ensures initialFetchDone == old(initialFetchDone)
    {
      pending := None;
      userInitiatedAction := true;
      searchTerm := term;
      pending := Some(FetchRequest(filters, term));
    }

    /** The debounce timer fires: the slot empties and fetchData runs with
        the arguments of the latest filterProducts / searchProducts call. */
    method Fire() returns (started: bool)
      requires Valid() && pending.Some?
      modifies this
      ensures Valid()
      ensures pending == None
      ensures started == !old(fetchingInProgress)
      ensures fetchingInProgress && isFetching
      ensures userInitiatedAction == old(userInitiatedAction)
      ensures started ==>
        requests == old(requests) + [RequestUrl(origin, old(pending).value.filters, old(pending).value.searchTerm, encode)]
      ensures !started ==> requests == old(requests)
      ensures products == old(products) && filters == old(filters) && searchTerm == old(searchTerm)
      ensures initialFetchDone == old(initialFetchDone)
    {
      var request := pending.value;
      pending := None;
      started := FetchData(request.filters, request.searchTerm);
    }

    /** The unmount cleanup: a pending fetch never fires. */
    method Unmount()
      requires Valid()
      modifies this
      ensures Valid()
      ensures pending == None
      ensures userInitiatedAction == old(userInitiatedAction)
      ensures isFetching == old(isFetching) && fetchingInProgress == old(fetchingInProgress)
      ensures products == old(products) && filters == old(filters) && searchTerm == old(searchTerm)
      ensures requests == old(requests) && initialFetchDone == old(initialFetchDone)
    {
      pending := None;
    }
  }

  /** Two calls in a row within the debounce window: only the latest
      arguments remain scheduled, and the filters are stored before any
      fetch runs. */
  method DebounceLatestWins(ctx: ProductsContext, f: seq<string>, term: string)
    requires ctx.Valid()
    modifies ctx
    ensures ctx.pending == Some(FetchRequest(f, term))
    ensures ctx.filters == f && ctx.searchTerm == term
    ensures ctx.requests == old(ctx.requests)
  {
    ctx.FilterProducts(f);
    ctx.SearchProducts(term);
  }

  /** The guard against concurrent fetches: while the first listing request
      is still awaited, a debounced filter fetch that fires is dropped, and so
      is a second one after a fetch it started itself. */
  method FireWhileFetchingIsDropped(origin: string, encode: string -> string, f: seq<string>, g: seq<string>)
    returns (firstStarted: bool, filterStarted: bool, laterStarted: bool)
    ensures firstStarted && !filterStarted
    ensures !laterStarted
  {
    var ctx := new ProductsContext(origin, encode);
    firstStarted := ctx.FetchProducts();
    ctx.FilterProducts(f);
    filterStarted := ctx.Fire();
    ctx.FinishFetch(Failed);
    ctx.FilterProducts(f);
    var started := ctx.Fire();
    ctx.FilterProducts(g);
    laterStarted := ctx.Fire();
  }
}
