/**
 * The configuration types of packages/api-catalog/src/types.ts and the
 * document types of packages/api-catalog/src/linkset.ts.
 */
module Types {
  import opened Wrappers

  /** A `string | string[]` field. */
  datatype Text = One(text: string) | Many(items: seq<string>)

  /**
   * A link target object of RFC 9264 (`LinkObject`). The TypeScript field
   * `type` is called `mediaType` here, since `type` is a Dafny keyword.
   */
  datatype LinkObject = LinkObject(
    href: string,
    mediaType: Option<string>,
    hreflang: Option<Text>,
    title: Option<Text>,
    profile: Option<Text>)

  datatype ApiSpecKind = OpenApi | AsyncApi | GraphQL | JsonSchema | OtherKind

  /** `ApiSpecRef`: a link object plus the relation to file it under and a metadata-only kind. */
  datatype ApiSpecRef = ApiSpecRef(
    href: string,
    mediaType: Option<string>,
    hreflang: Option<Text>,
    title: Option<Text>,
    profile: Option<Text>,
    rel: Option<string>,
    kind: Option<ApiSpecKind>)

  /** A trust predicate `(addr, index) => boolean`, as `proxy-addr` uses them. */
  type TrustFunction = (string, int) -> bool

  /** `TrustProxySetting`: a boolean, a (list of) address or keyword specifiers, or a predicate. */
  datatype TrustProxySetting =
    | TrustAll(enabled: bool)
    | TrustList(specifiers: Text)
    | TrustPredicate(trust: TrustFunction)

  /** `OriginStrategy`: where the public origin comes from, plus an optional path prefix. */
  datatype OriginStrategy =
    | FromRequest(trustProxy: Option<TrustProxySetting>, basePath: Option<string>)
    | Fixed(origin: string, basePath: Option<string>)

  datatype ApiEntryConfig = ApiEntryConfig(
    id: string,
    title: Option<string>,
    description: Option<string>,
    basePath: Option<string>,
    absoluteAnchor: Option<string>,
    specs: seq<ApiSpecRef>)

  datatype ApiCatalogConfig = ApiCatalogConfig(
    publisher: Option<string>,
    originStrategy: Option<OriginStrategy>,
    apis: seq<ApiEntryConfig>)

  /**
   * `LinksetContext`: the anchor and the relation buckets. `rels` lists the
   * relation keys in the order they were first assigned (the key order of the
   * JavaScript object after `anchor`); `links` maps each to its bucket.
   */
  datatype LinksetContext = LinksetContext(
    anchor: string,
    rels: seq<string>,
    links: map<string, seq<LinkObject>>)

  datatype LinksetMetadata = LinksetMetadata(profile: string, publisher: Option<string>)

  /** The document: `linkset` and `linkset-metadata`. */
  datatype ApiCatalogLinkset = ApiCatalogLinkset(
    linkset: seq<LinksetContext>,
    metadata: seq<LinksetMetadata>)
}
