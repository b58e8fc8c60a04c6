# api-catalog core in Dafny

This project models the core of `@airnub/wellknown-api-catalog`. The package
serves an API catalog at `/.well-known/api-catalog`, as defined by RFC 9727.
The catalog is a linkset document (RFC 9264), `application/linkset+json`. It
holds one link context per configured API, and every context lists the API's
description documents under their link relations (`service-desc`,
`service-doc`, ...). The model covers these parts of the package:

- `origin.ts` (module `Origin`): resolves the public origin of a request.
  A fixed origin comes from the configuration. Otherwise the origin comes from
  the request's socket and `Host` header. The forwarding headers
  (`Forwarded`, `X-Forwarded-*`) are read only when the nearest peer passes
  the `trustProxy` setting.
- `builder.ts` (module `Builder`): builds the linkset document.
  - `joinPaths` joins the origin, the prefix and the base path.
  - `buildContextForApi` files each spec's link object into the bucket of its
    relation.
  - `buildMetadata` writes the RFC 9727 profile and an optional publisher.
  - The two public entry points choose the origin and the prefix.
- `helpers.ts` (module `Helpers`): the factories for OpenAPI, GraphQL,
  AsyncAPI and JSON Schema spec references.
- `response-utils.ts` and `constants.ts` (modules `ResponseUtils` and
  `Constants`): the status, headers and body of GET and HEAD responses.
- `handlers/supabase.ts` (module `SupabaseHandler`): dispatch by path and
  method in the Fetch-API handler `createApiCatalogHandler`, and in its
  chainable variant `tryHandleApiCatalog`.

The JavaScript built-ins that the code relies on are written out in module
`Strings`:

- the regular-expression replacements `/\/+$/` and `/^\/+/`
- `String.prototype.trim`, with the ECMAScript white-space and
  line-terminator code points
- `replace` with a one-character string pattern
- `Array.prototype.join`

The libraries the code calls are parameters of the model:

- `new URL(...)` on a fixed origin in `origin.ts` is the function
  `parseUrl`. It returns `None` where the constructor throws.
- The handler's `new URL(request.url)` is not modelled as a parse: a
  `FetchRequest` carries the URL's pathname and origin as given.
- `proxyaddr.compile` is the function `compileTrust`.
- What `proxyaddr.all(req)` and `forwarded(req)` return is part of the
  modelled request.
- `JSON.stringify` is the function `stringify`.

The imperative functions keep their loops and their step-by-step updates, as
methods proved against specification functions:

- `joinPaths`: `JoinPaths` against `JoinedPath`
- `buildContextForApi`: `BuildContextForApi` against `ContextFor`
- `buildMetadata`: `BuildMetadata` against `MetadataFor`
- `connectionIsTrusted`: `ConnectionIsTrusted` against `IsTrusted`
- `resolveOrigin`: `ResolveOrigin` against `OriginOf`

The lemmas state the properties of those functions. Module `Scenarios`
proves that the model gives the results that the repository's tests of
`resolveOrigin`, `buildApiCatalogLinkset` and the Supabase handler expect.

## Model

| member | source | states |
|---|---|---|
| Strings.TrimTrailingSlashes | packages/api-catalog/src/builder.ts:31 | the result is a prefix of the input; only slashes were removed; the result does not end in a slash |
| Strings.TrimLeadingSlashes | packages/api-catalog/src/builder.ts:33 | the result is a suffix of the input; only slashes were removed; the result does not start with a slash |
| Strings.TrimSlashes | packages/api-catalog/src/builder.ts:37 | the result is a slice of the input with only slashes before and after it; it has no slash at either end; an input with no slash at either end is returned unchanged |
| Strings.JsTrim | packages/api-catalog/src/origin.ts:67 | the result is a slice of the input with only JS white space before and after it; it neither starts nor ends with JS white space; an already trimmed input is unchanged |
| Strings.TrimBoth | packages/api-catalog/src/origin.ts:67 | trimming a character class from both ends leaves a slice with only that class before and after it, starting and ending outside the class; a string already ending outside the class is unchanged |
| Strings.RemoveFirst | packages/api-catalog/src/origin.ts:78 | `replace(':', '')` removes only the first colon; an input without a colon is unchanged |
| Strings.JoinAppend | packages/api-catalog/src/builder.ts:39 | pushing a part onto the array appends the separator and the part to the joined string |
| Helpers.OpenApiSpec | packages/api-catalog/src/helpers.ts:19-29 | rel `service-desc`, kind `openapi`, the given href, the OpenAPI media type; profile and title for 3.1 (the default) and for 3.0 |
| Helpers.GraphqlSchemaSpec | packages/api-catalog/src/helpers.ts:31-44 | SDL (the default) gives `application/graphql`, no profile and "GraphQL schema"; introspection gives `application/json`, the introspection profile and its title |
| Helpers.AsyncApiSpec | packages/api-catalog/src/helpers.ts:46-55 | the AsyncAPI media type; the profile URL and title for 3.0 (the default) and for 2.0 |
| Helpers.JsonSchemaSpec | packages/api-catalog/src/helpers.ts:57-67 | `application/schema+json`; the draft URL and title for 2020-12 (the default), 2019-09 and 07 |
| Origin.NormalizeOriginStrategy | packages/api-catalog/src/origin.ts:24-28 | a given strategy is kept; a missing one becomes "from request, trust disabled, no base path" |
| Origin.GetTrustFunction | packages/api-catalog/src/origin.ts:43-52 | there is no predicate exactly when there is no setting; a boolean gives a constant predicate; a predicate is used as it is; specifiers are compiled |
| Origin.ConnectionIsTrusted | packages/api-catalog/src/origin.ts:54-64 | the method returns `IsTrusted`: a predicate exists, the address chain resolves and is non-empty, and the predicate accepts the nearest address at index 0 |
| Origin.TrustFailsClosed | packages/api-catalog/src/origin.ts:55-62 | no predicate, a chain resolution that throws, or an empty chain each mean "untrusted" |
| Origin.TrustIsSingleHop | packages/api-catalog/src/origin.ts:62-63 | the verdict depends only on the predicate's answer for the nearest address; the rest of the chain is never consulted |
| Origin.NormalizeHost | packages/api-catalog/src/origin.ts:66-68 | the result is a prefix of the trimmed host and only slashes follow it there; it has no trailing slash and no leading white space |
| Origin.NormalizeHostNotIdempotent | packages/api-catalog/src/origin.ts:66-68 | normalising "a /" gives "a "; normalising that again gives "a" |
| Origin.DefaultScheme | packages/api-catalog/src/origin.ts:70-73 | `https` exactly when the socket is encrypted, `http` otherwise |
| Origin.OriginOf | packages/api-catalog/src/origin.ts:75-102 | origin = scheme + "://" + host; a request-derived scheme is `http` or `https` |
| Origin.ResolvedHostIsNormalized | packages/api-catalog/src/origin.ts:75-102 | whichever source the host comes from, it is normalised: it neither ends in a slash nor starts with white space |
| Origin.ResolveOrigin | packages/api-catalog/src/origin.ts:75-102 | the step-by-step resolver returns exactly `OriginOf` |
| Origin.FixedIgnoresRequest | packages/api-catalog/src/origin.ts:76-81 | a fixed strategy's result depends only on its origin literal, not on the request or on `basePath` |
| Origin.UntrustedUsesConnection | packages/api-catalog/src/origin.ts:83-90 | without trust, the scheme follows the socket, the host is the normalised `Host` header or `localhost`, and the forwarding information has no effect |
| Origin.DisabledTrustIgnoresForwarding | packages/api-catalog/src/origin.ts:24 | with trust unset or `false`, the default, no forwarding header can change the origin |
| Origin.TrustedForwardedOverrides | packages/api-catalog/src/origin.ts:90-98 | with trust, a forwarded `http`/`https` proto replaces the scheme (any other proto is ignored), and a non-empty forwarded host replaces the host after normalisation |
| Builder.JoinPaths | packages/api-catalog/src/builder.ts:30-40 | the parts array, once joined, equals `JoinedPath`: the origin without trailing slashes, then `/prefix` for a non-empty prefix, then `/base` unless the base is empty or `/` |
| Builder.Anchor | packages/api-catalog/src/builder.ts:47-50 | the anchor never ends in a slash |
| Builder.AbsoluteAnchorWins | packages/api-catalog/src/builder.ts:47 | an absolute anchor is used with trailing slashes trimmed; origin, prefix and base path then do not matter |
| Builder.AnchorOfCleanSegments | packages/api-catalog/src/builder.ts:30-50 | for an origin without a trailing slash and clean segments `/p` and `/b`, the anchor is `origin/p/b` with the prefix, and `origin/b` with no prefix or an empty one |
| Builder.AnchorWithPrefix | packages/api-catalog/src/builder.ts:30-50 | a clean prefix and base path follow the origin as they stand |
| Builder.AnchorWithoutPrefix | packages/api-catalog/src/builder.ts:30-50 | with no prefix, or an empty one, only the base path follows the origin |
| Builder.JoinedWithPrefix | packages/api-catalog/src/builder.ts:30-40 | `joinPaths` keeps a clean prefix and base path as they stand |
| Builder.JoinedWithoutPrefix | packages/api-catalog/src/builder.ts:32-34 | a missing or empty prefix adds nothing to the joined path |
| Builder.SegmentsOfCleanSegment | packages/api-catalog/src/builder.ts:32-38 | a clean segment is a prefix or base-path part as it stands |
| Builder.TrimOfCleanSegment | packages/api-catalog/src/builder.ts:33 | trimming a clean segment removes exactly its leading slash |
| Builder.BuildContextForApi | packages/api-catalog/src/builder.ts:42-63 | the loop yields `ContextFor`: the anchor, then the relations in order of first use, each bucket filled spec by spec |
| Builder.FilingStep | packages/api-catalog/src/builder.ts:54-60 | filing one more spec appends its relation to the key order if it is new, and its link to the end of that relation's bucket |
| Builder.DefaultBaseIsJoinedAlike | packages/api-catalog/src/builder.ts:47 | passing `api.basePath ?? '/'` joins to the same URL as passing `api.basePath`, since `joinPaths` applies that default itself |
| Builder.RelOrderMatchesBuckets | packages/api-catalog/src/builder.ts:54-60 | each relation key appears once; the keys are exactly the buckets, and exactly the relations some spec uses |
| Builder.BucketsAreFilters | packages/api-catalog/src/builder.ts:54-60 | each bucket holds, in spec order, exactly the link objects of the specs filed under its relation |
| Builder.DefaultRelIsServiceDesc | packages/api-catalog/src/builder.ts:56 | a spec without `rel` lands in the `service-desc` bucket |
| Builder.LinksWithRelContains | packages/api-catalog/src/builder.ts:55-58 | every spec's link object appears under its own relation |
| Builder.LinkCountIsSpecCount | packages/api-catalog/src/builder.ts:54-60 | every spec becomes exactly one link object: the buckets together hold as many as there are specs |
| Builder.MetadataFor | packages/api-catalog/src/builder.ts:65-71 | one entry with the RFC 9727 profile; a publisher is present exactly when a non-empty one is given, and it is the given one |
| Builder.BuildMetadata | packages/api-catalog/src/builder.ts:65-71 | the step-by-step construction returns `MetadataFor` |
| Builder.ContextsFor | packages/api-catalog/src/builder.ts:82-84 | one context per API, in order; the i-th is the i-th API's context |
| Builder.BuildForOriginInternal | packages/api-catalog/src/builder.ts:77-87 | as many contexts as APIs, each built with the given origin and prefix; metadata from the publisher |
| Builder.BuildApiCatalogLinkset | packages/api-catalog/src/builder.ts:89-98 | as many contexts as APIs; metadata from the publisher |
| Builder.BuildApiCatalogLinksetForOrigin | packages/api-catalog/src/builder.ts:100-108 | as many contexts as APIs; metadata from the publisher |
| Builder.ForOriginPrefixPrecedence | packages/api-catalog/src/builder.ts:105-107 | an explicit prefix is used and the configured strategy is then irrelevant; without one, the normalised strategy's `basePath` is used |
| Builder.EmptyPrefixSuppressesStrategyPrefix | packages/api-catalog/src/builder.ts:106 | an explicit `''` prefix overrides the strategy's `basePath` and then adds nothing: the result equals the one built with no prefix |
| Builder.SuppliedOriginAndStrategyAreUsed | packages/api-catalog/src/builder.ts:93-97 | a supplied resolved origin makes the request and the libraries irrelevant; a supplied strategy replaces the configured one, also as the source of the prefix |
| Builder.RequestOriginIsResolved | packages/api-catalog/src/builder.ts:93-97 | without a supplied origin, the document is built for the origin resolved from the request under the chosen strategy, with that strategy's prefix |
| ResponseUtils.CreateGetResponse | packages/api-catalog/src/response-utils.ts:29-39 | status 200, the serialised linkset as body, exactly the `Content-Type` and `Link` headers, with their literal values |
| ResponseUtils.CreateHeadResponse | packages/api-catalog/src/response-utils.ts:44-54 | status 200, a null body, and the same two headers |
| ResponseUtils.GetAndHeadHeadersAgree | packages/api-catalog/src/response-utils.ts:29-54 | for one origin, GET and HEAD carry identical headers, whatever the document |
| ResponseUtils.LinkHeaderDeterminesOrigin | packages/api-catalog/src/response-utils.ts:45-50 | different origins give different `Link` headers |
| SupabaseHandler.HandleApiCatalog | packages/api-catalog/src/handlers/supabase.ts:33-71 | 404 exactly off the catalog path; 405 with `Allow: GET, HEAD` exactly for other methods on it; 200 exactly for GET/HEAD on it, with the HEAD headers; HEAD has no body; GET's body is the serialised document for the request's origin |
| SupabaseHandler.TryHandleApiCatalog | packages/api-catalog/src/handlers/supabase.ts:94-134 | `null` exactly off the catalog path; otherwise 200 or 405 |
| SupabaseHandler.TryHandleAgrees | packages/api-catalog/src/handlers/supabase.ts:33-134 | on the catalog path the chainable handler returns the plain handler's response; elsewhere it passes where the plain one answers 404 |
| SupabaseHandler.PathPrecedesMethod | packages/api-catalog/src/handlers/supabase.ts:37-40 | off the catalog path every method gets 404, or `null` from the chainable handler |
| Scenarios.CleanHostIsKept | packages/api-catalog/src/origin.ts:66-68 | a host that begins and ends with a lower-case letter is unchanged by normalisation |
| Scenarios.DefaultStrategyUsesHostHeader | packages/api-catalog/tests/builder.test.ts:34-40 | the default strategy on a plain request for `api.example.com` gives scheme `http`, that host, and origin `http://api.example.com` |
| Scenarios.DisabledTrustUsesHostHeader | packages/api-catalog/tests/origin.test.ts:7-16 | with `trustProxy: false`, a plain request for `edge.example.com` gives `http://edge.example.com`, whatever the peer |
| Scenarios.DisabledTrustIgnoresForwardedHeader | packages/api-catalog/tests/origin.test.ts:51-63 | with `trustProxy: false`, a forwarded `https` and `api.example.com` are ignored: the origin stays `http://edge.example.com` |
| Scenarios.TrustedProxyXForwardedOrigin | packages/api-catalog/tests/origin.test.ts:18-31 | a trusted peer's forwarded `https` and `api.example.com` become the scheme and host: the origin is `https://api.example.com` |
| Scenarios.TrustedProxyForwardsOrigin | packages/api-catalog/tests/origin.test.ts:65-77 | a trusted peer's forwarded `https` and `api.forwarded.dev` become the scheme and host: the origin is `https://api.forwarded.dev` |
| Scenarios.UntrustedPeerKeepsConnectionOrigin | packages/api-catalog/tests/origin.test.ts:33-49 | a peer the predicate rejects cannot forward: the origin is `http://edge.example.com` |
| Scenarios.HttpsProtocolScheme | packages/api-catalog/src/origin.ts:78 | the protocol `https:` gives the scheme `https` |
| Scenarios.FixedOriginExample | packages/api-catalog/tests/origin.test.ts:79-95 | a fixed `https://api.airnub.dev`, with or without `basePath`, gives scheme `https`, host `api.airnub.dev` and that origin for any request |
| Scenarios.ServiceRelsAreUsable | packages/api-catalog/src/builder.ts:56-59 | `service-desc` and `service-doc` can be filed |
| Scenarios.OneSpecContext | packages/api-catalog/src/builder.ts:54-60 | one spec gives one relation with one link |
| Scenarios.TwoSpecContext | packages/api-catalog/src/builder.ts:54-60 | two specs under different relations give both relations, in order, with one link each |
| Scenarios.RotationAnchorExample | packages/api-catalog/tests/builder.test.ts:42 | for any origin without a trailing slash, the first API's anchor is the origin followed by `/apis/rotation` |
| Scenarios.RotationBucketsExample | packages/api-catalog/tests/builder.test.ts:43-44 | its relations are `service-desc` then `service-doc`, with one link each |
| Scenarios.RotationContextExample | packages/api-catalog/tests/builder.test.ts:42-44 | the first context combines that anchor and those buckets |
| Scenarios.WhalesAnchorExample | packages/api-catalog/tests/builder.test.ts:45 | for any origin without a trailing slash, the second API's anchor is the origin followed by `/apis/unw` |
| Scenarios.WhalesContextExample | packages/api-catalog/tests/builder.test.ts:45-46 | the second context is anchored at the origin followed by `/apis/unw`; its one relation is `service-desc`, whose one link is the GraphQL schema with the GraphQL media type |
| Scenarios.RotationCatalogIsBucketable | packages/api-catalog/tests/builder.test.ts:8-31 | the test's two-API catalog can be built |
| Scenarios.RotationCatalogAnchors | packages/api-catalog/tests/builder.test.ts:41-45 | for any origin without a trailing slash, that catalog gives two contexts, anchored at the origin followed by each base path |
| Scenarios.RequestDerivedOrigin | packages/api-catalog/tests/builder.test.ts:34-40 | with trust at its default, the catalog is built for `http://api.example.com`, the origin the `Host` header gives |
| Scenarios.RequestDerivedAnchorsExample | packages/api-catalog/tests/builder.test.ts:33-47 | `buildApiCatalogLinkset` on a plain request for `api.example.com` yields two contexts, anchored at `http://api.example.com/apis/rotation` and `http://api.example.com/apis/unw` |
| Scenarios.AbsoluteAnchorExample | packages/api-catalog/tests/builder.test.ts:49-63 | an API with the absolute anchor `https://api.example.com/custom` is anchored there, whatever origin the request gives |
| Scenarios.V1CatalogIsBucketable | packages/api-catalog/tests/handlers-supabase.test.ts:6-14 | the handler test's catalog can be built |
| Scenarios.V1LinksetExample | packages/api-catalog/tests/handlers-supabase.test.ts:17-31 | for any origin without a trailing slash, the document has one context, anchored at the origin followed by `/api/v1` |
| Scenarios.SupabaseHandlerExample | packages/api-catalog/tests/handlers-supabase.test.ts:17-87 | GET and HEAD on the catalog path give 200, and HEAD has no body; another path gives 404, or `null` from the chainable handler; POST gives 405 with `Allow: GET, HEAD` |

## Left out

- The Express, Fastify and Next.js adapters (`handlers/express.ts`, `handlers/fastify.ts`, `handlers/nextjs.ts`) and the package's public exports are not part of this model.
- The parsers are inputs, not models: WHATWG URL parsing, `proxy-addr` (address specifiers, the `X-Forwarded-For` chain) and `forwarded-http` (`Forwarded` and `X-Forwarded-*` headers). The model takes their results as given.
- Exceptions that these libraries or a user trust predicate may throw are not modelled. The only exceptions modelled are `new URL` throwing on a fixed origin (excluded by `Resolvable`) and `proxyaddr.all` throwing (handled as "untrusted").
- `JSON.stringify` is a parameter. The JSON form of the document, including dropping `undefined` members and JavaScript's integer-like-keys-first property order, is not modelled.
- Builder.BuildContextForApi: requires every relation to be usable (`UsableRel`). For `rel: "anchor"`, or a name inherited from `Object.prototype` such as `toString`, the source's `bucket.push` throws a TypeError. The model excludes those inputs rather than modelling the exception. Builder.BuildApiCatalogLinkset, Builder.BuildApiCatalogLinksetForOrigin and SupabaseHandler.HandleApiCatalog inherit that requirement for a GET.
- Builder.BuildApiCatalogLinkset: its own contract gives only the number of contexts and the metadata. The contexts themselves are given by `BuildForOriginInternal`, which `SuppliedOriginAndStrategyAreUsed` ties to this function.
- SupabaseHandler.TryHandleApiCatalog: its own contract gives only when it passes and which statuses it can return. Everything else follows through `TryHandleAgrees`.
- `BuildForOriginOptions` is reduced to its one field, `basePathPrefix`.
- Two names differ from the source: `request.method` is `verb` (`method` is a keyword), and the link field `type` is `mediaType`.
- A Fetch `Response` adds its own default `Content-Type` for string bodies, such as the 404 and 405 texts. The model keeps only the headers the handler passes.
- Origin.OriginOf: a fixed strategy's scheme is the URL protocol minus its first colon, so it can be something other than `http`/`https`, despite the source's type annotation. The `http`/`https` guarantee is stated only for request-derived origins.
- Request method names are compared exactly as given. The Fetch runtime's upper-casing of method names is not modelled.
