/**
 * The response construction of packages/api-catalog/src/response-utils.ts:
 * status, headers and body for GET and HEAD on the catalog endpoint.
 * `JSON.stringify` is the caller-supplied `stringify`.
 */
module ResponseUtils {
  import opened Wrappers
  import opened Types
  import opened Constants
  import opened Strings

  /** `ApiCatalogResponse`: `body` is `None` for `null`. */
  datatype ApiCatalogResponse = ApiCatalogResponse(body: Option<string>, headers: map<string, string>, status: int)

  /** The `Link` header value pointing at the catalog under `origin`. */
  function CatalogLink(origin: string): string {
    "<" + origin + ApiCatalogPath + ">; rel=\"" + ApiCatalogLinkRel + "\""
  }

  /** `createGetResponse`. */
  function CreateGetResponse(linkset: ApiCatalogLinkset, origin: string, stringify: ApiCatalogLinkset -> string)
    : (response: ApiCatalogResponse)
    ensures response.status == 200
    ensures response.body == Some(stringify(linkset))
    ensures response.headers.Keys == {"Content-Type", "Link"}
    ensures response.headers["Content-Type"]
         == "application/linkset+json; profile=\"" + "https://www.rfc-editor.org/info/rfc9727" + "\""
    ensures response.headers["Link"]
         == "<" + origin + "/.well-known/api-catalog" + ">; rel=\"" + "api-catalog" + "\""
  {
    ApiCatalogResponse(
      body := Some(stringify(linkset)),
      headers := map["Content-Type" := LinksetContentType, "Link" := CatalogLink(origin)],
      status := 200)
  }

  /** `createHeadResponse`. */
  function CreateHeadResponse(origin: string): (response: ApiCatalogResponse)
    ensures response.status == 200
    ensures response.body == None
    ensures response.headers.Keys == {"Content-Type", "Link"}
    ensures response.headers["Content-Type"]
         == "application/linkset+json; profile=\"" + "https://www.rfc-editor.org/info/rfc9727" + "\""
    ensures response.headers["Link"]
         == "<" + origin + "/.well-known/api-catalog" + ">; rel=\"" + "api-catalog" + "\""
  {
    ApiCatalogResponse(
      body := None,
      headers := map["Content-Type" := LinksetContentType, "Link" := CatalogLink(origin)],
      status := 200)
  }

  /** For one origin, GET and HEAD carry the same headers, whatever the document and its serialisation. */
  lemma GetAndHeadHeadersAgree(linkset: ApiCatalogLinkset, origin: string, stringify: ApiCatalogLinkset -> string)
    ensures CreateGetResponse(linkset, origin, stringify).headers == CreateHeadResponse(origin).headers
  {
  }

  /** The `Link` header names its origin: different origins give different headers. */
  lemma LinkHeaderDeterminesOrigin(origin1: string, origin2: string)
    requires CreateHeadResponse(origin1).headers["Link"] == CreateHeadResponse(origin2).headers["Link"]
    ensures origin1 == origin2
  {
    var tail := ApiCatalogPath + (">; rel=\"" + (ApiCatalogLinkRel + "\""));
    CatalogLinkFrame(origin1, tail);
    CatalogLinkFrame(origin2, tail);
    MiddleIsDetermined("<", origin1, origin2, tail);
  }

  /** The link is the origin between a fixed head and a fixed tail. */
  lemma CatalogLinkFrame(origin: string, tail: string)
    requires tail == ApiCatalogPath + (">; rel=\"" + (ApiCatalogLinkRel + "\""))
    ensures CatalogLink(origin) == "<" + origin + tail
  {
    var head := "<" + origin;
    ConcatAssoc(head + ApiCatalogPath + ">; rel=\"", ApiCatalogLinkRel, "\"");
    ConcatAssoc(head + ApiCatalogPath, ">; rel=\"", ApiCatalogLinkRel + "\"");
    ConcatAssoc(head, ApiCatalogPath, ">; rel=\"" + (ApiCatalogLinkRel + "\""));
  }
}
