/** The paginated table helper: page state, request construction and the fetch cycle. */
module UseTable {
  import opened Wrappers

  /** A value in a request's query or body. */
  datatype ParamValue = Int(i: int) | Str(s: string) | Bool(b: bool) | Null

  /** A plain request-parameter object. */
  type Params = map<string, ParamValue>

  /** The `httpMethod` option, and which helper sends the request. */
  datatype HttpMethod = Get | Post

  /** A request as handed to the HTTP helper: method, URL and parameters. */
  datatype Request = Request(verb: HttpMethod, url: string, params: Params)

  /** The options passed to `useTable`; an omitted option is `None`. */
  datatype TableOptions = TableOptions(
    url: string,
    pageSize: Option<int>,
    httpMethod: Option<HttpMethod>,
    filters: Option<Params>,
    transformFilters: Option<Option<Params> -> Option<Params>>)

  const DefaultPageSize: int := 10

  /** `options.pageSize || 10`: a missing or zero page size falls back to 10. */
  function InitialPageSize(pageSize: Option<int>): (size: int)
    ensures pageSize.Some? && pageSize.value != 0 ==> size == pageSize.value
    ensures pageSize.None? || pageSize.value == 0 ==> size == DefaultPageSize
    ensures size != 0
  {
    if pageSize.Some? && pageSize.value != 0 then pageSize.value else DefaultPageSize
  }

  /** POST is chosen exactly when the options ask for it; everything else is GET. */
  function MethodOf(httpMethod: Option<HttpMethod>): (verb: HttpMethod)
    ensures verb == Post <==> httpMethod == Some(Post)
    ensures verb == Get <==> httpMethod != Some(Post)
  {
    if httpMethod == Some(Post) then Post else Get
  }

  /** The filter part of the request: the filters run through `transformFilters` when one is
      given, the filters as they are otherwise. */
  function FilterParams(options: TableOptions, filters: Option<Params>): (param: Option<Params>)
    ensures options.transformFilters.None? ==> param == filters
    ensures options.transformFilters.Some? ==> param == options.transformFilters.value(filters)
  {
    if options.transformFilters.Some? then options.transformFilters.value(filters) else filters
  }

  /** `Object.assign({ page, pageSize }, param)`: the pagination fields, overlaid by every field
      of `param`; a `null` param adds nothing. */
  function RequestParams(page: int, pageSize: int, param: Option<Params>): (params: Params)
    ensures param.None? ==> params == map["page" := Int(page), "pageSize" := Int(pageSize)]
    ensures param.Some? ==> params.Keys == param.value.Keys + {"page", "pageSize"}
    ensures param.Some? ==> forall key :: key in param.value ==> params[key] == param.value[key]
    ensures "page" in params && "pageSize" in params
    ensures param.None? || "page" !in param.value ==> params["page"] == Int(page)
    ensures param.None? || "pageSize" !in param.value ==> params["pageSize"] == Int(pageSize)
  {
    var base := map["page" := Int(page), "pageSize" := Int(pageSize)];
    if param.Some? then base + param.value else base
  }

  /** The object `useTable` returns: the reactive table state and its fetch operations. */
  class Table<Item> {
    const options: TableOptions
    var loading: bool
    var data: seq<Item>
    var filters: Option<Params>
    var page: int
    var pageSize: int

    /** The request `tableGet` sends for the current state. */
    function CurrentRequest(): Request
      reads this
    {
      Request(MethodOf(options.httpMethod), options.url, RequestParams(page, pageSize, FilterParams(options, filters)))
    }

    /** `useTable(options)`: not loading, no rows, page 1, the configured page size, and the
        configured filters (or `null`). */
    constructor(options: TableOptions)
      ensures this.options == options
      ensures !loading && data == [] && filters == options.filters
      ensures page == 1 && pageSize == InitialPageSize(options.pageSize)
    {
      this.options := options;
      loading := false;
      data := [];
      page := 1;
      pageSize := InitialPageSize(options.pageSize);
      filters := options.filters;
    }

    /** The part of `tableGet` before the request is awaited: raise `loading`, go back to page
        1 on a reload, and build the request. */
    method BeginFetch(reload: bool) returns (request: Request)
      modifies this
      ensures loading
      ensures page == (if reload then 1 else old(page))
      ensures pageSize == old(pageSize) && data == old(data) && filters == old(filters)
      ensures request == CurrentRequest()
    {
      loading := true;
      if reload {
        page := 1;
      }
      var param := FilterParams(options, filters);
      request := Request(MethodOf(options.httpMethod), options.url, RequestParams(page, pageSize, param));
    }

    /** The part of `tableGet` after the request settles: a result replaces the rows, a
        rejection leaves them and its message is shown; either way `loading` drops. */
    method EndFetch(outcome: Outcome<seq<Item>>) returns (shown: Option<string>)
      modifies this
      ensures !loading
      ensures outcome.Success? ==> data == outcome.value && shown.None?
      ensures outcome.Failure? ==> data == old(data) && shown == Some(outcome.message)
      ensures page == old(page) && pageSize == old(pageSize) && filters == old(filters)
    {
      shown := None;
      if outcome.Success? {
        data := outcome.value;
      } else {
        shown := Some(outcome.message);
      }
      loading := false;
    }

    /** `tableGet(reload)` with the server's answer to each request given as `server`. */
    method TableGet(reload: bool, server: Request -> Outcome<seq<Item>>) returns (request: Request, shown: Option<string>)
      modifies this
      ensures page == (if reload then 1 else old(page)) && pageSize == old(pageSize) && filters == old(filters)
      ensures request == CurrentRequest()
      ensures !loading
      ensures server(request).Success? ==> data == server(request).value && shown.None?
      ensures server(request).Failure? ==> data == old(data) && shown == Some(server(request).message)
    {
      request := BeginFetch(reload);
      shown := EndFetch(server(request));
    }

    /** `pagination.onChange(page)`: move to the page, keep the size, fetch. */
    method OnChange(newPage: int, server: Request -> Outcome<seq<Item>>) returns (request: Request, shown: Option<string>)
      modifies this
      ensures page == newPage && pageSize == old(pageSize) && filters == old(filters)
      ensures request == CurrentRequest() && !loading
      ensures server(request).Success? ==> data == server(request).value && shown.None?
      ensures server(request).Failure? ==> data == old(data) && shown == Some(server(request).message)
    {
      page := newPage;
      request, shown := TableGet(false, server);
    }

    /** `pagination.onUpdatePageSize(size)`: take the size, go back to page 1, fetch. */
    method OnUpdatePageSize(newPageSize: int, server: Request -> Outcome<seq<Item>>) returns (request: Request, shown: Option<string>)
      modifies this
      ensures pageSize == newPageSize && page == 1 && filters == old(filters)
      ensures request == CurrentRequest() && !loading
      ensures server(request).Success? ==> data == server(request).value && shown.None?
      ensures server(request).Failure? ==> data == old(data) && shown == Some(server(request).message)
    {
      pageSize := newPageSize;
      page := 1;
      request, shown := TableGet(false, server);
    }
  }
}
