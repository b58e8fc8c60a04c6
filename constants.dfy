/** The literals of packages/api-catalog/src/constants.ts. */
module Constants {

  /** The profile URI of RFC 9727, the api-catalog specification. */
  const Rfc9727Profile: string := "https://www.rfc-editor.org/info/rfc9727"

  /** The well-known path of section 2 of RFC 9727. */
  const ApiCatalogPath: string := "/.well-known/api-catalog"

  /** The media type of the JSON linkset format (section 4.2 of RFC 9264) with the RFC 9727 profile. */
  const LinksetContentType: string := "application/linkset+json; profile=\"" + Rfc9727Profile + "\""

  /** The link relation type registered by RFC 9727. */
  const ApiCatalogLinkRel: string := "api-catalog"

  /** The relation a spec reference is filed under when it names none. */
  const ServiceDesc: string := "service-desc"
}
