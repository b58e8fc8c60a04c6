/**
 * Scenarios from the repository's tests (packages/api-catalog/tests),
 * proved for the model: concrete configurations and requests with the
 * origins and anchors the tests expect. Results are stated in the pieces the
 * model joins them from (`"http" + "://" + "api.example.com"` for the test's
 * `http://api.example.com`), and the anchor examples hold for every origin
 * without a trailing slash.
 */
module Scenarios {
  import opened Wrappers
  import opened Strings
  import opened Types
  import opened Helpers
  import opened Origin
  import opened Builder
  import opened SupabaseHandler

  /** A request as the tests' `createMockRequest` builds it: unencrypted, one peer address. */
  function MockRequest(host: string, peer: string, forwarded: ForwardedInfo): IncomingRequest {
    IncomingRequest(false, Some(host), true, Some([peer]), forwarded)
  }

  /** A host name that begins and ends with a lower-case letter. */
  predicate LetterEnded(host: string) {
    host != [] && 'a' <= host[0] <= 'z' && 'a' <= host[|host| - 1] <= 'z'
  }

  lemma LetterIsNotSpace(c: char)
    requires 'a' <= c <= 'z'
    ensures !IsJsWhitespace(c) && c != '/'
  {
  }

  /** Such a host name is left as it is by `normalizeHost`. */
  lemma CleanHostIsKept(host: string)
    requires LetterEnded(host)
    ensures NormalizeHost(host) == host
  {
    LetterIsNotSpace(host[0]);
    LetterIsNotSpace(host[|host| - 1]);
    TrimStartStops(host, IsJsWhitespace);
    TrimEndStops(host, IsJsWhitespace);
    TrimTrailingOfClean(host);
  }

  /** An origin written as scheme, `://` and a letter-ended host does not end in a slash. */
  lemma OriginEndsInHost(scheme: string, host: string)
    requires LetterEnded(host)
    ensures var origin := scheme + "://" + host;
      origin != [] && origin[|origin| - 1] != '/'
  {
    LastOfAppend(scheme + "://", host);
  }

  /** origin.test.ts: with no strategy configured, the `Host` header and the plain socket give the origin. */
  lemma DefaultStrategyUsesHostHeader(libs: Libraries)
    ensures OriginOf(DefaultOriginStrategy, MockRequest("api.example.com", "127.0.0.1", ForwardedInfo(None, None)), libs)
         == OriginResult("http", "api.example.com", "http" + "://" + "api.example.com")
  {
    var host := "api.example.com";
    assert host[0] == 'a' && host[|host| - 1] == 'm';
    CleanHostIsKept(host);
    var req := MockRequest(host, "127.0.0.1", ForwardedInfo(None, None));
    UntrustedUsesConnection(Some(TrustAll(false)), None, req, libs, req.forwarded);
  }

  /** With trust disabled, a plain request's letter-ended `Host` header gives the host and `http` the scheme. */
  lemma DisabledTrustKeepsHost(libs: Libraries, host: string, peer: string, forwarded: ForwardedInfo)
    requires LetterEnded(host)
    ensures OriginOf(FromRequest(Some(TrustAll(false)), None), MockRequest(host, peer, forwarded), libs)
         == OriginResult("http", host, "http" + "://" + host)
  {
    CleanHostIsKept(host);
    var req := MockRequest(host, peer, forwarded);
    assert !UsesForwarded(Some(TrustAll(false)), req, libs) by {
      assert !GetTrustFunction(Some(TrustAll(false)), libs).value(peer, 0);
    }
    UntrustedUsesConnection(Some(TrustAll(false)), None, req, libs, forwarded);
  }

  /** origin.test.ts: with `trustProxy: false` the `Host` header and the plain socket give the origin. */
  lemma DisabledTrustUsesHostHeader(libs: Libraries, peer: string)
    ensures OriginOf(FromRequest(Some(TrustAll(false)), None),
                     MockRequest("edge.example.com", peer, ForwardedInfo(None, None)), libs)
         == OriginResult("http", "edge.example.com", "http" + "://" + "edge.example.com")
  {
    var host := "edge.example.com";
    assert host[0] == 'e' && host[|host| - 1] == 'm';
    DisabledTrustKeepsHost(libs, host, peer, ForwardedInfo(None, None));
  }

  /** origin.test.ts: with `trustProxy: false` a `Forwarded` header naming `https` and another host is ignored. */
  lemma DisabledTrustIgnoresForwardedHeader(libs: Libraries)
    ensures OriginOf(FromRequest(Some(TrustAll(false)), None),
                     MockRequest("edge.example.com", "203.0.113.5", ForwardedInfo(Some("https"), Some("api.example.com"))),
                     libs)
         == OriginResult("http", "edge.example.com", "http" + "://" + "edge.example.com")
  {
    var host := "edge.example.com";
    assert host[0] == 'e' && host[|host| - 1] == 'm';
    DisabledTrustKeepsHost(libs, host, "203.0.113.5", ForwardedInfo(Some("https"), Some("api.example.com")));
  }

  /** A trusted peer's forwarded `https` and letter-ended host become the scheme and host. */
  lemma TrustedProxyForwards(libs: Libraries, connectionHost: string, forwardedHost: string)
    requires LetterEnded(forwardedHost)
    ensures OriginOf(FromRequest(Some(TrustAll(true)), None),
                     MockRequest(connectionHost, "10.0.0.5", ForwardedInfo(Some("https"), Some(forwardedHost))),
                     libs)
         == OriginResult("https", forwardedHost, "https" + "://" + forwardedHost)
  {
    CleanHostIsKept(forwardedHost);
    var req := MockRequest(connectionHost, "10.0.0.5", ForwardedInfo(Some("https"), Some(forwardedHost)));
    assert UsesForwarded(Some(TrustAll(true)), req, libs) by {
      assert GetTrustFunction(Some(TrustAll(true)), libs).value("10.0.0.5", 0);
    }
    TrustedForwardedOverrides(Some(TrustAll(true)), None, req, libs);
  }

  /** origin.test.ts: a trusted proxy's `X-Forwarded-Proto` and `X-Forwarded-Host` replace the connection's. */
  lemma TrustedProxyXForwardedOrigin(libs: Libraries)
    ensures OriginOf(FromRequest(Some(TrustAll(true)), None),
                     MockRequest("internal.local", "10.0.0.5", ForwardedInfo(Some("https"), Some("api.example.com"))),
                     libs)
         == OriginResult("https", "api.example.com", "https" + "://" + "api.example.com")
  {
    var host := "api.example.com";
    assert host[0] == 'a' && host[|host| - 1] == 'm';
    TrustedProxyForwards(libs, "internal.local", host);
  }

  /** origin.test.ts: a trusted proxy's forwarded scheme and host replace the connection's. */
  lemma TrustedProxyForwardsOrigin(libs: Libraries)
    ensures OriginOf(FromRequest(Some(TrustAll(true)), None),
                     MockRequest("internal.local", "10.0.0.5", ForwardedInfo(Some("https"), Some("api.forwarded.dev"))),
                     libs)
         == OriginResult("https", "api.forwarded.dev", "https" + "://" + "api.forwarded.dev")
  {
    var host := "api.forwarded.dev";
    assert host[0] == 'a' && host[|host| - 1] == 'v';
    TrustedProxyForwards(libs, "internal.local", host);
  }

  /** origin.test.ts: forwarding headers from a peer the predicate does not trust are ignored. */
  lemma UntrustedPeerKeepsConnectionOrigin(libs: Libraries)
    ensures var trust := (addr: string, index: int) => addr == "10.0.0.5";
      OriginOf(FromRequest(Some(TrustPredicate(trust)), None),
               MockRequest("edge.example.com", "203.0.113.5", ForwardedInfo(Some("https"), Some("api.example.com"))),
               libs)
      == OriginResult("http", "edge.example.com", "http" + "://" + "edge.example.com")
  {
    var host := "edge.example.com";
    assert host[0] == 'e' && host[|host| - 1] == 'm';
    CleanHostIsKept(host);
    var trust := (addr: string, index: int) => addr == "10.0.0.5";
    var req := MockRequest(host, "203.0.113.5", ForwardedInfo(Some("https"), Some("api.example.com")));
    assert !trust("203.0.113.5", 0) by {
      assert |"203.0.113.5"| != |"10.0.0.5"|;
    }
    assert GetTrustFunction(Some(TrustPredicate(trust)), libs) == Some(trust);
    assert !UsesForwarded(Some(TrustPredicate(trust)), req, libs);
    UntrustedUsesConnection(Some(TrustPredicate(trust)), None, req, libs, req.forwarded);
    var r := OriginOf(FromRequest(Some(TrustPredicate(trust)), None), req, libs);
    assert r.scheme == "http" && r.host == host;
  }

  /** `'https:'.replace(':', '')`. */
  lemma HttpsProtocolScheme()
    ensures FixedScheme(Url("https:", "api.airnub.dev")) == "https"
  {
    var protocol := "https:";
    assert protocol[..5] == "https" && ':' !in protocol[..5] && protocol[5] == ':';
    assert FirstIndex(protocol, ':') == 5;
  }

  /** origin.test.ts: a fixed origin is the parsed literal's scheme and host, whatever the request and base path. */
  lemma FixedOriginExample(libs: Libraries, req: IncomingRequest, basePath: Option<string>)
    requires libs.parseUrl("https://api.airnub.dev") == Some(Url("https:", "api.airnub.dev"))
    ensures OriginOf(Fixed("https://api.airnub.dev", basePath), req, libs)
         == OriginResult("https", "api.airnub.dev", "https" + "://" + "api.airnub.dev")
  {
    var literal := "https://api.airnub.dev";
    assert literal[|literal| - 1] == 'v';
    TrimTrailingOfClean(literal);
    HttpsProtocolScheme();
    var host := "api.airnub.dev";
    assert host[0] == 'a' && host[|host| - 1] == 'v';
    CleanHostIsKept(host);
  }

  /** The first API of the catalog in builder.test.ts: an OpenAPI description and an HTML page. */
  function RotationApi(): ApiEntryConfig {
    ApiEntryConfig("rotation-detector", Some("Rotation Detector API"), None, Some("/apis/rotation"), None, [
      OpenApiSpec("/apis/rotation/openapi.json", None),
      ApiSpecRef("https://docs.airnub.dev/rotation", Some("text/html"), None, Some(One("Docs")), None,
                 Some("service-doc"), None)
    ])
  }

  /** The second API of that catalog: a GraphQL schema. */
  function WhalesApi(): ApiEntryConfig {
    ApiEntryConfig("whales-proxy", None, None, Some("/apis/unw"), None, [
      GraphqlSchemaSpec("/apis/unw/schema.graphql", None)
    ])
  }

  function RotationCatalog(): ApiCatalogConfig {
    ApiCatalogConfig(Some("airnub-labs"), None, [RotationApi(), WhalesApi()])
  }

  /** The relations of the example catalogs can be filed. */
  lemma ServiceRelsAreUsable()
    ensures UsableRel("service-desc") && UsableRel("service-doc")
  {
    assert |"service-desc"| == 12 && |"service-doc"| == 11;
  }

  /** A single spec makes one relation with one link. */
  lemma OneSpecContext(s0: ApiSpecRef)
    ensures RelOrder([s0]) == [RelOf(s0)]
    ensures Buckets([s0]) == map[RelOf(s0) := [LinkOf(s0)]]
  {
    assert [s0][..0] == [];
    assert [] + [LinkOf(s0)] == [LinkOf(s0)];
  }

  /** Two specs under different relations make two relations, in order, with one link each. */
  lemma TwoSpecContext(s0: ApiSpecRef, s1: ApiSpecRef)
    requires RelOf(s0) != RelOf(s1)
    ensures RelOrder([s0, s1]) == [RelOf(s0), RelOf(s1)]
    ensures Buckets([s0, s1]) == map[RelOf(s0) := [LinkOf(s0)], RelOf(s1) := [LinkOf(s1)]]
  {
    OneSpecContext(s0);
    assert [s0, s1][..1] == [s0];
    assert RelOf(s1) !in Buckets([s0]);
    assert [] + [LinkOf(s1)] == [LinkOf(s1)];
  }

  /** The rotation API's anchor: the origin followed by its base path. */
  lemma RotationAnchorExample(origin: string)
    requires origin != [] && origin[|origin| - 1] != '/'
    ensures Anchor(RotationApi(), origin, None) == origin + "/apis/rotation"
  {
    var b := "/apis/rotation";
    assert IsCleanSegment(b) by {
      assert b[0] == '/' && b[1] == 'a' && b[|b| - 1] == 'n';
    }
    AnchorWithoutPrefix(RotationApi(), origin, None, b);
  }

  /** The rotation API's relations, in order, with one link under each. */
  lemma RotationBucketsExample()
    ensures SpecsBucketable(RotationApi().specs)
    ensures RelOrder(RotationApi().specs) == ["service-desc", "service-doc"]
    ensures |Buckets(RotationApi().specs)["service-desc"]| == 1
    ensures |Buckets(RotationApi().specs)["service-doc"]| == 1
  {
    var specs := RotationApi().specs;
    ServiceRelsAreUsable();
    assert RelOf(specs[0]) == "service-desc" && RelOf(specs[1]) == "service-doc";
    assert "service-desc" != "service-doc" by {
      assert |"service-desc"| != |"service-doc"|;
    }
    TwoSpecContext(specs[0], specs[1]);
    assert specs == [specs[0], specs[1]];
  }

  /** builder.test.ts: the rotation API's context has its anchor and one link under each of its two relations. */
  lemma RotationContextExample(origin: string)
    requires origin != [] && origin[|origin| - 1] != '/'
    ensures SpecsBucketable(RotationApi().specs)
    ensures var ctx := ContextFor(RotationApi(), origin, None);
      && ctx.anchor == origin + "/apis/rotation"
      && ctx.rels == ["service-desc", "service-doc"]
      && |ctx.links["service-desc"]| == 1
      && |ctx.links["service-doc"]| == 1
  {
    RotationAnchorExample(origin);
    RotationBucketsExample();
  }

  /** The whales API's anchor: the origin followed by its base path. */
  lemma WhalesAnchorExample(origin: string)
    requires origin != [] && origin[|origin| - 1] != '/'
    ensures Anchor(WhalesApi(), origin, None) == origin + "/apis/unw"
  {
    var b := "/apis/unw";
    assert IsCleanSegment(b) by {
      assert b[0] == '/' && b[1] == 'a' && b[|b| - 1] == 'w';
    }
    AnchorWithoutPrefix(WhalesApi(), origin, None, b);
  }

  /** builder.test.ts: the whales API's context has its anchor and the GraphQL schema under `service-desc`. */
  lemma WhalesContextExample(origin: string)
    requires origin != [] && origin[|origin| - 1] != '/'
    ensures SpecsBucketable(WhalesApi().specs)
    ensures var ctx := ContextFor(WhalesApi(), origin, None);
      && ctx.anchor == origin + "/apis/unw"
      && ctx.rels == ["service-desc"]
      && ctx.links["service-desc"] == [LinkOf(GraphqlSchemaSpec("/apis/unw/schema.graphql", None))]
      && ctx.links["service-desc"][0].mediaType == Some("application/graphql")
  {
    var specs := WhalesApi().specs;
    ServiceRelsAreUsable();
    OneSpecContext(specs[0]);
    assert specs == [specs[0]];
    WhalesAnchorExample(origin);
  }

  /** The two APIs of that catalog can be filed. */
  lemma RotationCatalogIsBucketable()
    ensures ConfigBucketable(RotationCatalog())
  {
    RotationBucketsExample();
    ServiceRelsAreUsable();
    assert RelOf(WhalesApi().specs[0]) == "service-desc";
  }

  /** The catalog built for any origin without a trailing slash: one context per API, each anchored at its base path. */
  lemma RotationCatalogAnchors(origin: string)
    requires origin != [] && origin[|origin| - 1] != '/'
    ensures ConfigBucketable(RotationCatalog())
    ensures var result := BuildForOriginInternal(RotationCatalog(), origin, None);
      && |result.linkset| == 2
      && result.linkset[0].anchor == origin + "/apis/rotation"
      && result.linkset[1].anchor == origin + "/apis/unw"
  {
    RotationCatalogIsBucketable();
    RotationAnchorExample(origin);
    WhalesAnchorExample(origin);
  }

  /** With trust left at its default, the catalog is built for the origin the `Host` header gives. */
  lemma RequestDerivedOrigin(libs: Libraries)
    ensures ConfigBucketable(RotationCatalog())
    ensures var req := MockRequest("api.example.com", "127.0.0.1", ForwardedInfo(None, None));
      BuildApiCatalogLinkset(RotationCatalog(), BuildContextOptions(req, None, None), libs)
      == BuildForOriginInternal(RotationCatalog(), "http" + "://" + "api.example.com", None)
  {
    RotationCatalogIsBucketable();
    DefaultStrategyUsesHostHeader(libs);
    var req := MockRequest("api.example.com", "127.0.0.1", ForwardedInfo(None, None));
    RequestOriginIsResolved(RotationCatalog(), BuildContextOptions(req, None, None), libs);
  }

  /** builder.test.ts: with trust left at its default, both anchors derive from the `Host` header. */
  lemma RequestDerivedAnchorsExample(libs: Libraries)
    ensures ConfigBucketable(RotationCatalog())
    ensures var req := MockRequest("api.example.com", "127.0.0.1", ForwardedInfo(None, None));
      var origin := "http" + "://" + "api.example.com";
      var result := BuildApiCatalogLinkset(RotationCatalog(), BuildContextOptions(req, None, None), libs);
      && |result.linkset| == 2
      && result.linkset[0].anchor == origin + "/apis/rotation"
      && result.linkset[1].anchor == origin + "/apis/unw"
  {
    var host := "api.example.com";
    assert host[0] == 'a' && host[|host| - 1] == 'm';
    OriginEndsInHost("http", host);
    RotationCatalogAnchors("http" + "://" + host);
    RequestDerivedOrigin(libs);
  }

  /** The catalog of the absolute-anchor test in builder.test.ts. */
  function AbsoluteCatalog(): ApiCatalogConfig {
    ApiCatalogConfig(None, None, [
      ApiEntryConfig("absolute", None, None, None, Some("https://api.example.com/custom"), [
        OpenApiSpec("https://api.example.com/custom/openapi.json", None)
      ])
    ])
  }

  /** builder.test.ts: an absolute anchor is used as it is, whatever origin the request gives. */
  lemma AbsoluteAnchorExample(libs: Libraries)
    ensures ConfigBucketable(AbsoluteCatalog())
    ensures var req := MockRequest("ignored.example", "127.0.0.1", ForwardedInfo(None, None));
      var result := BuildApiCatalogLinkset(AbsoluteCatalog(), BuildContextOptions(req, None, None), libs);
      |result.linkset| == 1 && result.linkset[0].anchor == "https://api.example.com/custom"
  {
    var api := AbsoluteCatalog().apis[0];
    ServiceRelsAreUsable();
    assert RelOf(api.specs[0]) == "service-desc";
    var req := MockRequest("ignored.example", "127.0.0.1", ForwardedInfo(None, None));
    var options := BuildContextOptions(req, None, None);
    RequestOriginIsResolved(AbsoluteCatalog(), options, libs);
    var literal := "https://api.example.com/custom";
    assert literal[|literal| - 1] == 'm';
    TrimTrailingOfClean(literal);
    var origin := OriginOf(StrategyFor(AbsoluteCatalog(), options), req, libs).origin;
    AbsoluteAnchorWins(api, origin, StrategyFor(AbsoluteCatalog(), options).basePath, origin, None, None);
  }

  /** The catalog of handlers-supabase.test.ts: one API whose spec names no relation. */
  function V1Catalog(): ApiCatalogConfig {
    ApiCatalogConfig(None, None, [
      ApiEntryConfig("test-api", None, None, Some("/api/v1"), None, [
        ApiSpecRef("/api/v1/openapi.json", None, None, None, None, None, None)
      ])
    ])
  }

  /** Its one spec is filed under the default relation. */
  lemma V1CatalogIsBucketable()
    ensures ConfigBucketable(V1Catalog())
  {
    ServiceRelsAreUsable();
    assert RelOf(V1Catalog().apis[0].specs[0]) == "service-desc";
  }

  /** handlers-supabase.test.ts: the document served for an origin has one context, anchored at `/api/v1` under it. */
  lemma V1LinksetExample(origin: string)
    requires origin != [] && origin[|origin| - 1] != '/'
    ensures ConfigBucketable(V1Catalog())
    ensures var linkset := BuildApiCatalogLinksetForOrigin(V1Catalog(), origin, None);
      |linkset.linkset| == 1 && linkset.linkset[0].anchor == origin + "/api/v1"
  {
    V1CatalogIsBucketable();
    var b := "/api/v1";
    assert IsCleanSegment(b) by {
      assert b[0] == '/' && b[1] == 'a' && b[|b| - 1] == '1';
    }
    AnchorWithoutPrefix(V1Catalog().apis[0], origin, None, b);
  }

  /**
   * handlers-supabase.test.ts: GET on the catalog path is served (200), HEAD
   * too without a body, another path is 404 (and passed on by the chainable
   * handler), and POST is 405 with `Allow: GET, HEAD`.
   */
  lemma SupabaseHandlerExample(stringify: ApiCatalogLinkset -> string)
    ensures var catalog := "/.well-known/api-catalog";
      var origin := "https://api.example.com";
      && ConfigBucketable(V1Catalog())
      && HandleApiCatalog(V1Catalog(), FetchRequest(catalog, origin, "GET"), stringify).status == 200
      && HandleApiCatalog(V1Catalog(), FetchRequest(catalog, origin, "HEAD"), stringify).status == 200
      && HandleApiCatalog(V1Catalog(), FetchRequest(catalog, origin, "HEAD"), stringify).body == None
      && HandleApiCatalog(V1Catalog(), FetchRequest("/other-path", origin, "GET"), stringify).status == 404
      && TryHandleApiCatalog(V1Catalog(), FetchRequest("/other-path", origin, "GET"), stringify) == None
      && HandleApiCatalog(V1Catalog(), FetchRequest(catalog, origin, "POST"), stringify).status == 405
      && HandleApiCatalog(V1Catalog(), FetchRequest(catalog, origin, "POST"), stringify).headers["Allow"] == "GET, HEAD"
  {
    V1CatalogIsBucketable();
    assert "/other-path" != "/.well-known/api-catalog";
    assert "POST" != "GET" && "POST" != "HEAD";
  }
}
