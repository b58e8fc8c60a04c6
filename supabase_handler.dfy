/**
 * The Fetch-API handlers of packages/api-catalog/src/handlers/supabase.ts,
 * each as a function of the request: `createApiCatalogHandler(config)(request)`
 * answers every request, `tryHandleApiCatalog(config)(request)` answers only
 * the catalog path and yields `null` (`None`) elsewhere so that handlers can
 * be chained.
 */
module SupabaseHandler {
  import opened Wrappers
  import opened Types
  import opened Constants
  import opened Builder
  import opened ResponseUtils

  /**
   * What the handlers read from a Fetch `Request`: `pathname` and `origin` of
   * `new URL(request.url)`, and `request.method` (called `verb` here, as `method` is a Dafny keyword).
   */
  datatype FetchRequest = FetchRequest(pathname: string, origin: string, verb: string)

  /** The Fetch `Response` a handler constructs: its body (`None` for `null`), status and headers. */
  datatype FetchResponse = FetchResponse(body: Option<string>, status: int, headers: map<string, string>)

  /** Only a GET on the catalog path builds the document, and only building can throw. */
  predicate Serves(config: ApiCatalogConfig, request: FetchRequest) {
    request.pathname == ApiCatalogPath && request.verb == "GET" ==> ConfigBucketable(config)
  }

  /** `createApiCatalogHandler(config)` applied to `request`. */
  function HandleApiCatalog(config: ApiCatalogConfig, request: FetchRequest, stringify: ApiCatalogLinkset -> string)
    : (response: FetchResponse)
    requires Serves(config, request)
    ensures response.status == 404 <==> request.pathname != "/.well-known/api-catalog"
    ensures response.status == 405 <==>
      request.pathname == "/.well-known/api-catalog" && request.verb != "GET" && request.verb != "HEAD"
    ensures response.status == 200 <==>
      request.pathname == "/.well-known/api-catalog" && (request.verb == "GET" || request.verb == "HEAD")
    ensures response.status == 405 ==> response.headers == map["Allow" := "GET, HEAD"]
    ensures response.status == 200 ==> response.headers == CreateHeadResponse(request.origin).headers
    ensures response.status == 200 && request.verb == "HEAD" ==> response.body == None
    ensures response.status == 200 && request.verb == "GET" ==>
      response.body == Some(stringify(BuildApiCatalogLinksetForOrigin(config, request.origin, None)))
  {
    if request.pathname != ApiCatalogPath then
      FetchResponse(Some("Not Found"), 404, map[])
    else
      var origin := request.origin;
      if request.verb == "HEAD" then
        var response := CreateHeadResponse(origin);
        FetchResponse(None, response.status, response.headers)
      else if request.verb == "GET" then
        var linkset := BuildApiCatalogLinksetForOrigin(config, origin, None);
        var response := CreateGetResponse(linkset, origin, stringify);
        GetAndHeadHeadersAgree(linkset, origin, stringify);
        FetchResponse(response.body, response.status, response.headers)
      else
        FetchResponse(Some("Method Not Allowed"), 405, map["Allow" := "GET, HEAD"])
  }

  /** `tryHandleApiCatalog(config)` applied to `request`. */
  function TryHandleApiCatalog(config: ApiCatalogConfig, request: FetchRequest, stringify: ApiCatalogLinkset -> string)
    : (response: Option<FetchResponse>)
    requires Serves(config, request)
    ensures response.None? <==> request.pathname != "/.well-known/api-catalog"
    ensures response.Some? ==> response.value.status == 200 || response.value.status == 405
  {
    if request.pathname != ApiCatalogPath then
      None
    else
      var origin := request.origin;
      if request.verb == "HEAD" then
        var response := CreateHeadResponse(origin);
        Some(FetchResponse(None, response.status, response.headers))
      else if request.verb == "GET" then
        var linkset := BuildApiCatalogLinksetForOrigin(config, origin, None);
        var response := CreateGetResponse(linkset, origin, stringify);
        Some(FetchResponse(response.body, response.status, response.headers))
      else
        Some(FetchResponse(Some("Method Not Allowed"), 405, map["Allow" := "GET, HEAD"]))
  }

  /**
   * The two handlers agree: on the catalog path the chainable one returns the
   * plain one's response; elsewhere it passes (None) where the plain one says 404.
   */
  lemma TryHandleAgrees(config: ApiCatalogConfig, request: FetchRequest, stringify: ApiCatalogLinkset -> string)
    requires Serves(config, request)
    ensures request.pathname == ApiCatalogPath ==>
      TryHandleApiCatalog(config, request, stringify) == Some(HandleApiCatalog(config, request, stringify))
    ensures request.pathname != ApiCatalogPath ==>
      TryHandleApiCatalog(config, request, stringify) == None && HandleApiCatalog(config, request, stringify).status == 404
  {
  }

  /** The path is checked before the method: off the catalog path no method yields 405. */
  lemma PathPrecedesMethod(config: ApiCatalogConfig, request: FetchRequest, verb: string,
                           stringify: ApiCatalogLinkset -> string)
    requires request.pathname != ApiCatalogPath
    ensures HandleApiCatalog(config, request.(verb := verb), stringify).status == 404
    ensures TryHandleApiCatalog(config, request.(verb := verb), stringify) == None
  {
  }
}
