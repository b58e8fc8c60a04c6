/**
 * The linkset builder of packages/api-catalog/src/builder.ts: one context
 * per configured API, anchored at the API's base URL, with its spec
 * references filed into relation buckets, plus one metadata entry carrying
 * the RFC 9727 profile.
 */
module Builder {
  import opened Wrappers
  import opened Strings
  import opened Types
  import opened Constants
  import opened Origin

  /** The property names every plain JavaScript object inherits from `Object.prototype`. */
  const ObjectPrototypeKeys: set<string> := {
    "constructor", "__proto__", "__defineGetter__", "__defineSetter__",
    "__lookupGetter__", "__lookupSetter__", "hasOwnProperty", "isPrototypeOf",
    "propertyIsEnumerable", "toLocaleString", "toString", "valueOf"
  }

  /**
   * A relation `buildContextForApi` can file a link under. For `anchor` the
   * context already holds the anchor string, and for an inherited name it
   * holds a function; either way `bucket.push` throws.
   */
  predicate UsableRel(rel: string) {
    rel != "anchor" && rel !in ObjectPrototypeKeys
  }

  /** `spec.rel ?? 'service-desc'`. */
  function RelOf(spec: ApiSpecRef): string {
    spec.rel.GetOr(ServiceDesc)
  }

  /** `const { rel, kind, ...rest } = spec`: the link object is the spec without `rel` and `kind`. */
  function LinkOf(spec: ApiSpecRef): LinkObject {
    LinkObject(spec.href, spec.mediaType, spec.hreflang, spec.title, spec.profile)
  }

  predicate SpecsBucketable(specs: seq<ApiSpecRef>) {
    forall i | 0 <= i < |specs| :: UsableRel(RelOf(specs[i]))
  }

  predicate ConfigBucketable(config: ApiCatalogConfig) {
    forall i | 0 <= i < |config.apis| :: SpecsBucketable(config.apis[i].specs)
  }

  // ---------------------------------------------------------------------------
  // Anchors

  /** `/` and the slash-trimmed prefix when the prefix is a non-empty string; nothing otherwise. */
  function PrefixSegment(prefix: Option<string>): string {
    if prefix.Some? && prefix.value != "" then "/" + TrimSlashes(prefix.value) else ""
  }

  /** `/` and the slash-trimmed base path (default `/`) unless it is `''` or `'/'`; nothing otherwise. */
  function BaseSegment(basePath: Option<string>): string {
    var base := basePath.GetOr("/");
    if base != "" && base != "/" then "/" + TrimSlashes(base) else ""
  }

  /**
   * The URL `joinPaths` builds, as one concatenation: the origin without
   * trailing slashes, then the prefix segment, then the base-path segment.
   */
  function JoinedPath(origin: string, prefix: Option<string>, basePath: Option<string>): string {
    TrimTrailingSlashes(origin) + PrefixSegment(prefix) + BaseSegment(basePath)
  }

  /** `joinPaths`: collects the parts in an array and joins them with `/`. */
  method JoinPaths(origin: string, prefix: Option<string>, basePath: Option<string>) returns (path: string)
    ensures path == JoinedPath(origin, prefix, basePath)
  {
    var parts: seq<string> := [TrimTrailingSlashes(origin)];
    ghost var joined := parts[0];
    assert Join(parts, "/") == joined;
    if prefix.Some? && prefix.value != "" {
      var segment := TrimSlashes(prefix.value);
      JoinAppend(parts, segment, "/");
      parts := parts + [segment];
      joined := joined + ("/" + segment);
    } else {
      AppendEmpty(joined);
    }
    assert Join(parts, "/") == joined == TrimTrailingSlashes(origin) + PrefixSegment(prefix);
    var base := basePath.GetOr("/");
    if base != "" && base != "/" {
      var segment := TrimSlashes(base);
      JoinAppend(parts, segment, "/");
      parts := parts + [segment];
      joined := joined + ("/" + segment);
    } else {
      AppendEmpty(joined);
    }
    assert Join(parts, "/") == joined;
    path := Join(parts, "/");
  }

  /**
   * The anchor `buildContextForApi` computes for `api`. Its `api.basePath ?? '/'`
   * is the default `joinPaths` applies itself, so the base path is passed on as it is.
   */
  function Anchor(api: ApiEntryConfig, origin: string, prefix: Option<string>): (anchor: string)
    ensures anchor == [] || anchor[|anchor| - 1] != '/'
  {
    TrimTrailingSlashes(
      if api.absoluteAnchor.Some? then api.absoluteAnchor.value
      else JoinedPath(origin, prefix, api.basePath))
  }

  /** An absolute anchor wins: origin, prefix and base path are ignored, and only trailing slashes go. */
  lemma AbsoluteAnchorWins(api: ApiEntryConfig, origin: string, prefix: Option<string>,
                           otherOrigin: string, otherPrefix: Option<string>, otherBasePath: Option<string>)
    requires api.absoluteAnchor.Some?
    ensures Anchor(api, origin, prefix) == TrimTrailingSlashes(api.absoluteAnchor.value)
    ensures Anchor(api, origin, prefix) == Anchor(api.(basePath := otherBasePath), otherOrigin, otherPrefix)
  {
  }

  /** A path segment as configured: one leading slash, then a name with no slash at either end. */
  predicate IsCleanSegment(s: string) {
    |s| >= 2 && s[0] == '/' && s[1] != '/' && s[|s| - 1] != '/'
  }

  /**
   * Clean segments are joined as they stand: an origin without a trailing
   * slash, a prefix `/p` and a base path `/b` give `origin/p/b`; without a
   * prefix, or with an empty one, `origin/b`.
   */
  lemma AnchorOfCleanSegments(api: ApiEntryConfig, origin: string, p: string, b: string)
    requires api.absoluteAnchor.None? && api.basePath == Some(b)
    requires origin != [] && origin[|origin| - 1] != '/'
    requires IsCleanSegment(p) && IsCleanSegment(b)
    ensures Anchor(api, origin, Some(p)) == origin + p + b
    ensures Anchor(api, origin, None) == origin + b
    ensures Anchor(api, origin, Some("")) == origin + b
  {
    AnchorWithPrefix(api, origin, p, b);
    AnchorWithoutPrefix(api, origin, None, b);
    AnchorWithoutPrefix(api, origin, Some(""), b);
  }

  lemma AnchorWithPrefix(api: ApiEntryConfig, origin: string, p: string, b: string)
    requires api.absoluteAnchor.None? && api.basePath == Some(b)
    requires origin != [] && origin[|origin| - 1] != '/'
    requires IsCleanSegment(p) && IsCleanSegment(b)
    ensures Anchor(api, origin, Some(p)) == origin + p + b
  {
    JoinedWithPrefix(origin, p, b);
    TrimTrailingOfJoined(origin + p, b);
  }

  lemma AnchorWithoutPrefix(api: ApiEntryConfig, origin: string, prefix: Option<string>, b: string)
    requires api.absoluteAnchor.None? && api.basePath == Some(b)
    requires origin != [] && origin[|origin| - 1] != '/'
    requires prefix == None || prefix == Some("")
    requires IsCleanSegment(b)
    ensures Anchor(api, origin, prefix) == origin + b
  {
    JoinedWithoutPrefix(origin, prefix, b);
    TrimTrailingOfJoined(origin, b);
  }

  /** Clean segments behind a prefix are joined as they stand. */
  lemma JoinedWithPrefix(origin: string, p: string, b: string)
    requires origin != [] && origin[|origin| - 1] != '/'
    requires IsCleanSegment(p) && IsCleanSegment(b)
    ensures JoinedPath(origin, Some(p), Some(b)) == origin + p + b
  {
    TrimTrailingOfClean(origin);
    SegmentsOfCleanSegment(p);
    SegmentsOfCleanSegment(b);
  }

  /** Without a prefix, or with an empty one, only the base path follows the origin. */
  lemma JoinedWithoutPrefix(origin: string, prefix: Option<string>, b: string)
    requires origin != [] && origin[|origin| - 1] != '/'
    requires prefix == None || prefix == Some("")
    requires IsCleanSegment(b)
    ensures JoinedPath(origin, prefix, Some(b)) == origin + b
  {
    TrimTrailingOfClean(origin);
    SegmentsOfCleanSegment(b);
    AppendEmpty(origin);
  }

  /** A path that ends in a clean segment keeps its end. */
  lemma TrimTrailingOfJoined(head: string, b: string)
    requires IsCleanSegment(b)
    ensures TrimTrailingSlashes(head + b) == head + b
  {
    LastOfAppend(head, b);
    TrimTrailingOfClean(head + b);
  }

  /** A clean segment is a prefix or base-path segment as it stands. */
  lemma SegmentsOfCleanSegment(s: string)
    requires IsCleanSegment(s)
    ensures PrefixSegment(Some(s)) == s
    ensures BaseSegment(Some(s)) == s
  {
    TrimOfCleanSegment(s);
    assert s == "/" + s[1..];
    assert s != "" && s != "/" by {
      assert |s| >= 2;
    }
  }

  /** The leading slash of a clean segment is all that slash-trimming removes. */
  lemma TrimOfCleanSegment(s: string)
    requires IsCleanSegment(s)
    ensures TrimSlashes(s) == s[1..]
  {
    assert TrimStart(s[1..], IsSlash) == s[1..];
    assert TrimLeadingSlashes(s) == s[1..];
    TrimTrailingOfClean(s[1..]);
  }

  // ---------------------------------------------------------------------------
  // Relation buckets

  /** The relations `specs` use, each once, in order of first use (the key order of the context). */
  function RelOrder(specs: seq<ApiSpecRef>): seq<string>
    decreases |specs|
  {
    if specs == [] then []
    else
      var rels := RelOrder(specs[..|specs| - 1]);
      var rel := RelOf(specs[|specs| - 1]);
      if rel in rels then rels else rels + [rel]
  }

  /** The buckets after filing each spec of `specs`, in turn, at the end of its relation's bucket. */
  function Buckets(specs: seq<ApiSpecRef>): map<string, seq<LinkObject>>
    decreases |specs|
  {
    if specs == [] then map[]
    else
      var buckets := Buckets(specs[..|specs| - 1]);
      var last := specs[|specs| - 1];
      var rel := RelOf(last);
      buckets[rel := (if rel in buckets then buckets[rel] else []) + [LinkOf(last)]]
  }

  /** The context `buildContextForApi` returns. */
  function ContextFor(api: ApiEntryConfig, origin: string, prefix: Option<string>): LinksetContext
    requires SpecsBucketable(api.specs)
  {
    LinksetContext(Anchor(api, origin, prefix), RelOrder(api.specs), Buckets(api.specs))
  }

  /** `buildContextForApi`: computes the anchor, then files the specs one by one. */
  method BuildContextForApi(api: ApiEntryConfig, origin: string, basePathPrefix: Option<string>)
    returns (ctx: LinksetContext)
    requires SpecsBucketable(api.specs)
    ensures ctx == ContextFor(api, origin, basePathPrefix)
  {
    var anchor: string;
    if api.absoluteAnchor.Some? {
      anchor := api.absoluteAnchor.value;
    } else {
      anchor := JoinPaths(origin, basePathPrefix, Some(api.basePath.GetOr("/")));
      DefaultBaseIsJoinedAlike(origin, basePathPrefix, api.basePath);
    }
    anchor := TrimTrailingSlashes(anchor);
    assert anchor == Anchor(api, origin, basePathPrefix);

    var rels: seq<string> := [];
    var links: map<string, seq<LinkObject>> := map[];
    for i := 0 to |api.specs|
      invariant rels == RelOrder(api.specs[..i])
      invariant links == Buckets(api.specs[..i])
    {
      var spec := api.specs[i];
      var rel := RelOf(spec);
      FilingStep(api.specs, i);
      var bucket := if rel in links then links[rel] else [];
      bucket := bucket + [LinkOf(spec)];
      if rel !in links {
        rels := rels + [rel];
      }
      links := links[rel := bucket];
    }
    assert api.specs[..|api.specs|] == api.specs;
    ctx := LinksetContext(anchor, rels, links);
  }

  /** Filing spec `i` after the ones before it: a new relation is appended to the key order, and the link to its bucket. */
  lemma FilingStep(specs: seq<ApiSpecRef>, i: nat)
    requires i < |specs|
    ensures RelOf(specs[i]) in RelOrder(specs[..i]) <==> RelOf(specs[i]) in Buckets(specs[..i])
    ensures RelOrder(specs[..i + 1])
         == if RelOf(specs[i]) in RelOrder(specs[..i]) then RelOrder(specs[..i]) else RelOrder(specs[..i]) + [RelOf(specs[i])]
    ensures Buckets(specs[..i + 1])
         == Buckets(specs[..i])[RelOf(specs[i]) :=
              (if RelOf(specs[i]) in Buckets(specs[..i]) then Buckets(specs[..i])[RelOf(specs[i])] else []) + [LinkOf(specs[i])]]
  {
    RelOrderMatchesBuckets(specs[..i]);
    assert specs[..i + 1][..i] == specs[..i];
  }

  /** Supplying the default base path `/` explicitly joins to the same URL. */
  lemma DefaultBaseIsJoinedAlike(origin: string, prefix: Option<string>, basePath: Option<string>)
    ensures JoinedPath(origin, prefix, Some(basePath.GetOr("/"))) == JoinedPath(origin, prefix, basePath)
  {
    assert BaseSegment(Some(basePath.GetOr("/"))) == BaseSegment(basePath);
  }

  predicate Distinct(rels: seq<string>) {
    forall i, j | 0 <= i < j < |rels| :: rels[i] != rels[j]
  }

  /** Whether some spec of `specs` is filed under `rel`. */
  predicate UsesRel(specs: seq<ApiSpecRef>, rel: string) {
    exists i :: 0 <= i < |specs| && RelOf(specs[i]) == rel
  }

  /**
   * The key order lists each relation once, and the relations with a bucket
   * are exactly those some spec uses.
   */
  lemma {:induction false} RelOrderMatchesBuckets(specs: seq<ApiSpecRef>)
    ensures Distinct(RelOrder(specs))
    ensures forall rel :: rel in RelOrder(specs) <==> rel in Buckets(specs)
    ensures forall rel :: rel in Buckets(specs) <==> UsesRel(specs, rel)
    decreases |specs|
  {
    if specs != [] {
      var init := specs[..|specs| - 1];
      RelOrderMatchesBuckets(init);
      forall rel
        ensures UsesRel(specs, rel) <==> UsesRel(init, rel) || RelOf(specs[|specs| - 1]) == rel
      {
        if UsesRel(init, rel) {
          var i :| 0 <= i < |init| && RelOf(init[i]) == rel;
          assert specs[i] == init[i];
        }
        if UsesRel(specs, rel) && RelOf(specs[|specs| - 1]) != rel {
          var i :| 0 <= i < |specs| && RelOf(specs[i]) == rel;
          assert init[i] == specs[i];
        }
      }
    }
  }

  /** The links of `specs` filed under `rel`, in spec order: a filter, read from the front. */
  function LinksWithRel(specs: seq<ApiSpecRef>, rel: string): seq<LinkObject> {
    if specs == [] then []
    else (if RelOf(specs[0]) == rel then [LinkOf(specs[0])] else []) + LinksWithRel(specs[1..], rel)
  }

  lemma {:induction false} LinksWithRelAppend(specs: seq<ApiSpecRef>, spec: ApiSpecRef, rel: string)
    ensures LinksWithRel(specs + [spec], rel)
         == LinksWithRel(specs, rel) + (if RelOf(spec) == rel then [LinkOf(spec)] else [])
  {
    if specs != [] {
      assert (specs + [spec])[1..] == specs[1..] + [spec];
      LinksWithRelAppend(specs[1..], spec, rel);
    }
  }

  /**
   * Each bucket holds, in spec order, exactly the link objects of the specs
   * filed under its relation.
   */
  lemma {:induction false} BucketsAreFilters(specs: seq<ApiSpecRef>)
    ensures forall rel | rel in Buckets(specs) :: Buckets(specs)[rel] == LinksWithRel(specs, rel)
    decreases |specs|
  {
    if specs != [] {
      var init := specs[..|specs| - 1];
      var last := specs[|specs| - 1];
      assert init + [last] == specs;
      BucketsAreFilters(init);
      RelOrderMatchesBuckets(init);
      forall rel | rel in Buckets(specs)
        ensures Buckets(specs)[rel] == LinksWithRel(specs, rel)
      {
        LinksWithRelAppend(init, last, rel);
        if rel !in Buckets(init) {
          assert !UsesRel(init, rel);
          LinksWithRelOfUnused(init, rel);
        }
      }
    }
  }

  lemma {:induction false} LinksWithRelOfUnused(specs: seq<ApiSpecRef>, rel: string)
    requires !UsesRel(specs, rel)
    ensures LinksWithRel(specs, rel) == []
  {
    if specs != [] {
      assert RelOf(specs[0]) != rel;
      assert !UsesRel(specs[1..], rel);
      LinksWithRelOfUnused(specs[1..], rel);
    }
  }

  /** A spec without a relation is filed under `service-desc`. */
  lemma DefaultRelIsServiceDesc(specs: seq<ApiSpecRef>, i: nat)
    requires i < |specs| && specs[i].rel.None?
    ensures ServiceDesc in Buckets(specs) && LinkOf(specs[i]) in Buckets(specs)[ServiceDesc]
  {
    RelOrderMatchesBuckets(specs);
    assert UsesRel(specs, ServiceDesc);
    BucketsAreFilters(specs);
    LinksWithRelContains(specs, i);
  }

  lemma {:induction false} LinksWithRelContains(specs: seq<ApiSpecRef>, i: nat)
    requires i < |specs|
    ensures LinkOf(specs[i]) in LinksWithRel(specs, RelOf(specs[i]))
  {
    if i > 0 {
      LinksWithRelContains(specs[1..], i - 1);
    }
  }

  /** The number of link objects in the buckets named by `rels`. */
  function LinkCount(rels: seq<string>, links: map<string, seq<LinkObject>>): nat {
    if rels == [] then 0
    else LinkCount(rels[..|rels| - 1], links) + (if rels[|rels| - 1] in links then |links[rels[|rels| - 1]]| else 0)
  }

  lemma {:induction false} LinkCountIgnoresOthers(rels: seq<string>, links: map<string, seq<LinkObject>>,
                                                  rel: string, bucket: seq<LinkObject>)
    requires rel !in rels
    ensures LinkCount(rels, links[rel := bucket]) == LinkCount(rels, links)
  {
    if rels != [] {
      LinkCountIgnoresOthers(rels[..|rels| - 1], links, rel, bucket);
    }
  }

  lemma {:induction false} LinkCountGrows(rels: seq<string>, links: map<string, seq<LinkObject>>,
                                          rel: string, link: LinkObject)
    requires Distinct(rels) && rel in rels && rel in links
    ensures LinkCount(rels, links[rel := links[rel] + [link]]) == LinkCount(rels, links) + 1
  {
    var init := rels[..|rels| - 1];
    if rels[|rels| - 1] == rel {
      assert rel !in init;
      LinkCountIgnoresOthers(init, links, rel, links[rel] + [link]);
    } else {
      assert Distinct(init);
      assert rel in init by {
        var j :| 0 <= j < |rels| && rels[j] == rel;
        assert init[j] == rel;
      }
      LinkCountGrows(init, links, rel, link);
    }
  }

  /** Every spec becomes exactly one link object: the buckets together hold `|specs|` of them. */
  lemma {:induction false} LinkCountIsSpecCount(specs: seq<ApiSpecRef>)
    ensures LinkCount(RelOrder(specs), Buckets(specs)) == |specs|
    decreases |specs|
  {
    if specs != [] {
      var init := specs[..|specs| - 1];
      var last := specs[|specs| - 1];
      var rel := RelOf(last);
      LinkCountIsSpecCount(init);
      RelOrderMatchesBuckets(init);
      if rel in RelOrder(init) {
        LinkCountGrows(RelOrder(init), Buckets(init), rel, LinkOf(last));
      } else {
        var rels, links := RelOrder(init), Buckets(init)[rel := [LinkOf(last)]];
        assert rel !in Buckets(init) && [] + [LinkOf(last)] == [LinkOf(last)];
        assert RelOrder(specs) == rels + [rel] && Buckets(specs) == links;
        LinkCountIgnoresOthers(rels, Buckets(init), rel, [LinkOf(last)]);
        assert (rels + [rel])[..|rels|] == rels;
        assert LinkCount(rels + [rel], links) == LinkCount(rels, links) + 1;
      }
    }
  }

  // ---------------------------------------------------------------------------
  // Metadata and the document

  /** The metadata list `buildMetadata` returns. */
  function MetadataFor(publisher: Option<string>): (metadata: seq<LinksetMetadata>)
    ensures |metadata| == 1 && metadata[0].profile == "https://www.rfc-editor.org/info/rfc9727"
    ensures metadata[0].publisher.Some? <==> publisher.Some? && publisher.value != ""
    ensures metadata[0].publisher.Some? ==> metadata[0].publisher == publisher
  {
    [LinksetMetadata(Rfc9727Profile, if publisher.Some? && publisher.value != "" then publisher else None)]
  }

  /** `buildMetadata`: sets `publisher` on the entry only when it is a non-empty string. */
  method BuildMetadata(publisher: Option<string>) returns (metadata: seq<LinksetMetadata>)
    ensures metadata == MetadataFor(publisher)
  {
    var entry := LinksetMetadata(Rfc9727Profile, None);
    if publisher.Some? && publisher.value != "" {
      entry := entry.(publisher := publisher);
    }
    metadata := [entry];
  }

  /** `config.apis.map((api) => buildContextForApi(api, origin, prefix))`. */
  function ContextsFor(apis: seq<ApiEntryConfig>, origin: string, prefix: Option<string>): (contexts: seq<LinksetContext>)
    requires forall i | 0 <= i < |apis| :: SpecsBucketable(apis[i].specs)
    ensures |contexts| == |apis|
    ensures forall i | 0 <= i < |apis| :: contexts[i] == ContextFor(apis[i], origin, prefix)
  {
    seq(|apis|, i requires 0 <= i < |apis| => ContextFor(apis[i], origin, prefix))
  }

  /** `buildApiCatalogLinksetForOriginInternal`. */
  function BuildForOriginInternal(config: ApiCatalogConfig, origin: string, basePathPrefix: Option<string>)
    : (linkset: ApiCatalogLinkset)
    requires ConfigBucketable(config)
    ensures |linkset.linkset| == |config.apis|
    ensures forall i | 0 <= i < |config.apis| :: linkset.linkset[i] == ContextFor(config.apis[i], origin, basePathPrefix)
    ensures linkset.metadata == MetadataFor(config.publisher)
  {
    ApiCatalogLinkset(ContextsFor(config.apis, origin, basePathPrefix), MetadataFor(config.publisher))
  }

  /** `BuildContextOptions`. */
  datatype BuildContextOptions = BuildContextOptions(
    req: IncomingRequest,
    originStrategy: Option<OriginStrategy>,
    resolvedOrigin: Option<OriginResult>)

  /** `options.originStrategy ?? normalizeOriginStrategy(config.originStrategy)`. */
  function StrategyFor(config: ApiCatalogConfig, options: BuildContextOptions): OriginStrategy {
    options.originStrategy.GetOr(NormalizeOriginStrategy(config.originStrategy))
  }

  /** `buildApiCatalogLinkset`. */
  function BuildApiCatalogLinkset(config: ApiCatalogConfig, options: BuildContextOptions, libs: Libraries)
    : (linkset: ApiCatalogLinkset)
    requires ConfigBucketable(config)
    requires options.resolvedOrigin.None? ==> Resolvable(StrategyFor(config, options), libs)
    ensures |linkset.linkset| == |config.apis|
    ensures linkset.metadata == MetadataFor(config.publisher)
  {
    var strategy := StrategyFor(config, options);
    var resolved :=
      if options.resolvedOrigin.Some? then options.resolvedOrigin.value
      else OriginOf(strategy, options.req, libs);
    BuildForOriginInternal(config, resolved.origin, strategy.basePath)
  }

  /** `buildApiCatalogLinksetForOrigin`; `basePathPrefix` is `options?.basePathPrefix`. */
  function BuildApiCatalogLinksetForOrigin(config: ApiCatalogConfig, origin: string, basePathPrefix: Option<string>)
    : (linkset: ApiCatalogLinkset)
    requires ConfigBucketable(config)
    ensures |linkset.linkset| == |config.apis|
    ensures linkset.metadata == MetadataFor(config.publisher)
  {
    var strategy := NormalizeOriginStrategy(config.originStrategy);
    BuildForOriginInternal(config, origin, if basePathPrefix.Some? then basePathPrefix else strategy.basePath)
  }

  /**
   * Prefix precedence in `buildApiCatalogLinksetForOrigin`: an explicit prefix
   * is used and the configured strategy is then irrelevant; without one the
   * configured (or default) strategy's `basePath` applies.
   */
  lemma ForOriginPrefixPrecedence(config: ApiCatalogConfig, origin: string, prefix: string,
                                  otherStrategy: Option<OriginStrategy>)
    requires ConfigBucketable(config)
    ensures BuildApiCatalogLinksetForOrigin(config, origin, Some(prefix))
         == BuildForOriginInternal(config, origin, Some(prefix))
         == BuildApiCatalogLinksetForOrigin(config.(originStrategy := otherStrategy), origin, Some(prefix))
    ensures BuildApiCatalogLinksetForOrigin(config, origin, None)
         == BuildForOriginInternal(config, origin, NormalizeOriginStrategy(config.originStrategy).basePath)
  {
  }

  /**
   * An explicit empty prefix still overrides the strategy's `basePath` (it is
   * not nullish), and `joinPaths` then skips it (it is falsy): the anchors are
   * built with no prefix at all.
   */
  lemma EmptyPrefixSuppressesStrategyPrefix(config: ApiCatalogConfig, origin: string)
    requires ConfigBucketable(config)
    ensures BuildApiCatalogLinksetForOrigin(config, origin, Some("")) == BuildForOriginInternal(config, origin, None)
  {
    var withEmpty := BuildApiCatalogLinksetForOrigin(config, origin, Some(""));
    var without := BuildForOriginInternal(config, origin, None);
    forall i | 0 <= i < |config.apis|
      ensures withEmpty.linkset[i] == without.linkset[i]
    {
      assert Anchor(config.apis[i], origin, Some("")) == Anchor(config.apis[i], origin, None);
    }
  }

  /** Without a supplied origin, `buildApiCatalogLinkset` resolves one from the request under the chosen strategy. */
  lemma RequestOriginIsResolved(config: ApiCatalogConfig, options: BuildContextOptions, libs: Libraries)
    requires ConfigBucketable(config)
    requires options.resolvedOrigin.None? && Resolvable(StrategyFor(config, options), libs)
    ensures BuildApiCatalogLinkset(config, options, libs)
         == BuildForOriginInternal(config, OriginOf(StrategyFor(config, options), options.req, libs).origin,
                                   StrategyFor(config, options).basePath)
  {
  }

  /**
   * `buildApiCatalogLinkset` uses what it is given: a supplied resolved origin
   * makes the request and the libraries irrelevant, and a supplied strategy
   * replaces the configured one, also as the source of the prefix.
   */
  lemma SuppliedOriginAndStrategyAreUsed(config: ApiCatalogConfig, options: BuildContextOptions, libs: Libraries,
                                         otherReq: IncomingRequest, otherLibs: Libraries,
                                         otherStrategy: Option<OriginStrategy>)
    requires ConfigBucketable(config)
    requires options.resolvedOrigin.None? ==> Resolvable(StrategyFor(config, options), libs)
    ensures options.resolvedOrigin.Some? ==>
      && BuildApiCatalogLinkset(config, options, libs)
         == BuildForOriginInternal(config, options.resolvedOrigin.value.origin, StrategyFor(config, options).basePath)
      && BuildApiCatalogLinkset(config, options, libs)
         == BuildApiCatalogLinkset(config, options.(req := otherReq), otherLibs)
    ensures options.originStrategy.Some? ==>
      && StrategyFor(config, options) == options.originStrategy.value
      && BuildApiCatalogLinkset(config, options, libs)
         == BuildApiCatalogLinkset(config.(originStrategy := otherStrategy), options, libs)
  {
  }
}
