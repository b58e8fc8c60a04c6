/**
 * The spec-reference factories of packages/api-catalog/src/helpers.ts: each
 * maps a path and a version or format to a complete `ApiSpecRef` filed under
 * `service-desc`. A TypeScript default parameter is an `Option` here; `None`
 * takes the default.
 */
module Helpers {
  import opened Wrappers
  import opened Types
  import opened Constants

  datatype OpenApiVersion = OpenApi3_0 | OpenApi3_1
  datatype GraphqlFormat = Sdl | Introspection
  datatype AsyncApiVersion = AsyncApi2_0 | AsyncApi3_0
  datatype JsonSchemaDraft = Draft2020_12 | Draft2019_09 | Draft07

  function OpenApiVersionName(v: OpenApiVersion): string {
    match v
    case OpenApi3_0 => "3.0"
    case OpenApi3_1 => "3.1"
  }

  function AsyncApiVersionName(v: AsyncApiVersion): string {
    match v
    case AsyncApi2_0 => "2.0"
    case AsyncApi3_0 => "3.0"
  }

  function JsonSchemaDraftName(d: JsonSchemaDraft): string {
    match d
    case Draft2020_12 => "2020-12"
    case Draft2019_09 => "2019-09"
    case Draft07 => "07"
  }

  /** `openApiSpec(path, version = '3.1')`. */
  function OpenApiSpec(path: string, version: Option<OpenApiVersion>): (spec: ApiSpecRef)
    ensures spec.rel == Some(ServiceDesc) && spec.kind == Some(OpenApi) && spec.href == path
    ensures spec.mediaType == Some("application/vnd.oai.openapi+json") && spec.hreflang == None
    ensures version.GetOr(OpenApi3_1) == OpenApi3_1 ==>
      spec.profile == Some(One("https://spec.openapis.org/oas/3.1")) && spec.title == Some(One("OpenAPI " + "3.1" + " spec"))
    ensures version == Some(OpenApi3_0) ==>
      spec.profile == Some(One("https://spec.openapis.org/oas/3.0")) && spec.title == Some(One("OpenAPI " + "3.0" + " spec"))
  {
    var v := version.GetOr(OpenApi3_1);
    ApiSpecRef(
      href := path,
      mediaType := Some("application/vnd.oai.openapi+json"),
      hreflang := None,
      title := Some(One("OpenAPI " + OpenApiVersionName(v) + " spec")),
      profile := Some(One(if v == OpenApi3_1 then "https://spec.openapis.org/oas/3.1" else "https://spec.openapis.org/oas/3.0")),
      rel := Some("service-desc"),
      kind := Some(OpenApi))
  }

  /** `graphqlSchemaSpec(path, { format })`, the format defaulting to `sdl`. */
  function GraphqlSchemaSpec(path: string, format: Option<GraphqlFormat>): (spec: ApiSpecRef)
    ensures spec.rel == Some(ServiceDesc) && spec.kind == Some(GraphQL) && spec.href == path && spec.hreflang == None
    ensures format.GetOr(Sdl) == Sdl ==>
      && spec.mediaType == Some("application/graphql")
      && spec.profile == None
      && spec.title == Some(One("GraphQL schema"))
    ensures format == Some(Introspection) ==>
      && spec.mediaType == Some("application/json")
      && spec.profile == Some(One("https://spec.graphql.org/introspection"))
      && spec.title == Some(One("GraphQL introspection result"))
  {
    var f := format.GetOr(Sdl);
    ApiSpecRef(
      href := path,
      mediaType := Some(if f == Sdl then "application/graphql" else "application/json"),
      hreflang := None,
      title := Some(One(if f == Sdl then "GraphQL schema" else "GraphQL introspection result")),
      profile := if f == Introspection then Some(One("https://spec.graphql.org/introspection")) else None,
      rel := Some("service-desc"),
      kind := Some(GraphQL))
  }

  /** `asyncApiSpec(path, version = '3.0')`. */
  function AsyncApiSpec(path: string, version: Option<AsyncApiVersion>): (spec: ApiSpecRef)
    ensures spec.rel == Some(ServiceDesc) && spec.kind == Some(AsyncApi) && spec.href == path
    ensures spec.mediaType == Some("application/vnd.aai.asyncapi+json") && spec.hreflang == None
    ensures version.GetOr(AsyncApi3_0) == AsyncApi3_0 ==>
      && spec.profile == Some(One("https://www.asyncapi.com/definitions/" + "3.0"))
      && spec.title == Some(One("AsyncAPI " + "3.0" + " spec"))
    ensures version == Some(AsyncApi2_0) ==>
      && spec.profile == Some(One("https://www.asyncapi.com/definitions/" + "2.0"))
      && spec.title == Some(One("AsyncAPI " + "2.0" + " spec"))
  {
    var v := AsyncApiVersionName(version.GetOr(AsyncApi3_0));
    ApiSpecRef(
      href := path,
      mediaType := Some("application/vnd.aai.asyncapi+json"),
      hreflang := None,
      title := Some(One("AsyncAPI " + v + " spec")),
      profile := Some(One("https://www.asyncapi.com/definitions/" + v)),
      rel := Some("service-desc"),
      kind := Some(AsyncApi))
  }

  /** `jsonSchemaSpec(path, draft = '2020-12')`. */
  function JsonSchemaSpec(path: string, draft: Option<JsonSchemaDraft>): (spec: ApiSpecRef)
    ensures spec.rel == Some(ServiceDesc) && spec.kind == Some(JsonSchema) && spec.href == path
    ensures spec.mediaType == Some("application/schema+json") && spec.hreflang == None
    ensures draft.GetOr(Draft2020_12) == Draft2020_12 ==>
      && spec.profile == Some(One("https://json-schema.org/draft/" + "2020-12" + "/schema"))
      && spec.title == Some(One("JSON Schema (draft " + "2020-12" + ")"))
    ensures draft == Some(Draft2019_09) ==>
      && spec.profile == Some(One("https://json-schema.org/draft/" + "2019-09" + "/schema"))
      && spec.title == Some(One("JSON Schema (draft " + "2019-09" + ")"))
    ensures draft == Some(Draft07) ==>
      && spec.profile == Some(One("https://json-schema.org/draft/" + "07" + "/schema"))
      && spec.title == Some(One("JSON Schema (draft " + "07" + ")"))
  {
    var d := draft.GetOr(Draft2020_12);
    var year := if d == Draft07 then "07" else JsonSchemaDraftName(d);
    ApiSpecRef(
      href := path,
      mediaType := Some("application/schema+json"),
      hreflang := None,
      title := Some(One("JSON Schema (draft " + year + ")")),
      profile := Some(One("https://json-schema.org/draft/" + year + "/schema")),
      rel := Some("service-desc"),
      kind := Some(JsonSchema))
  }
}
