/**
 * The origin resolver of packages/api-catalog/src/origin.ts: the public
 * scheme and host of a request, either fixed by configuration or derived from
 * the request, where forwarding headers count only when the nearest peer is
 * trusted.
 *
 * The libraries the resolver calls are inputs here: `new URL(...)` is
 * `parseUrl` (`None` when it throws), `proxyaddr.compile` is `compileTrust`,
 * and what `proxyaddr.all(req)` and `forwarded(req, { allowPrivate: true })`
 * return is part of the request.
 */
module Origin {
  import opened Wrappers
  import opened Strings
  import opened Types

  /** The parts of a WHATWG URL the resolver reads: `url.protocol` (with its colon) and `url.host`. */
  datatype Url = Url(protocol: string, host: string)

  /** What `forwarded-http` extracts from `Forwarded` or `X-Forwarded-*`. */
  datatype ForwardedInfo = ForwardedInfo(proto: Option<string>, host: Option<string>)

  /** The parts of a Node `IncomingMessage` the resolver depends on. */
  datatype IncomingRequest = IncomingRequest(
    encrypted: bool,                  // req.socket.encrypted
    hostHeader: Option<string>,       // req.headers['host']
    isNodeMessage: bool,              // req instanceof IncomingMessage
    addresses: Option<seq<string>>,   // proxyaddr.all(req), nearest first; None when it throws
    forwarded: ForwardedInfo)         // forwarded(req, { allowPrivate: true })

  datatype Libraries = Libraries(
    parseUrl: string -> Option<Url>,
    compileTrust: Text -> TrustFunction)

  /** `OriginResult`. */
  datatype OriginResult = OriginResult(scheme: string, host: string, origin: string)

  /** `DEFAULT_ORIGIN_STRATEGY`. */
  const DefaultOriginStrategy: OriginStrategy := FromRequest(Some(TrustAll(false)), None)

  /** `normalizeOriginStrategy`: a missing strategy reads the request and trusts no proxy. */
  function NormalizeOriginStrategy(strategy: Option<OriginStrategy>): (s: OriginStrategy)
    ensures strategy.Some? ==> s == strategy.value
    ensures strategy.None? ==> s.FromRequest? && s.trustProxy == Some(TrustAll(false)) && s.basePath == None
  {
    strategy.GetOr(DefaultOriginStrategy)
  }

  /** `getTrustFunction`: every form of the setting becomes one predicate over (address, hop index). */
  function GetTrustFunction(setting: Option<TrustProxySetting>, libs: Libraries): (f: Option<TrustFunction>)
    ensures f.None? <==> setting.None?
    ensures setting.Some? && setting.value.TrustAll? ==>
      forall addr, index :: f.value(addr, index) == setting.value.enabled
    ensures setting.Some? && setting.value.TrustPredicate? ==> f.value == setting.value.trust
    ensures setting.Some? && setting.value.TrustList? ==> f.value == libs.compileTrust(setting.value.specifiers)
  {
    match setting
    case None => None
    case Some(TrustAll(enabled)) => Some((addr: string, index: int) => enabled)
    case Some(TrustPredicate(trust)) => Some(trust)
    case Some(TrustList(specifiers)) => Some(libs.compileTrust(specifiers))
  }

  /** Whether the connection is trusted: the predicate asked about the nearest hop only. */
  function IsTrusted(req: IncomingRequest, trustFn: Option<TrustFunction>): bool {
    && trustFn.Some?
    && req.addresses.Some?
    && |req.addresses.value| > 0
    && trustFn.value(req.addresses.value[0], 0)
  }

  /** `connectionIsTrusted`. */
  method ConnectionIsTrusted(req: IncomingRequest, trustFn: Option<TrustFunction>) returns (trusted: bool)
    ensures trusted == IsTrusted(req, trustFn)
  {
    if trustFn.None? {
      return false;
    }
    var addresses: seq<string> := [];
    match req.addresses {
      case None =>
        return false;
      case Some(all) =>
        addresses := all;
    }
    if |addresses| == 0 {
      return false;
    }
    trusted := trustFn.value(addresses[0], 0);
  }

  /** Trust fails closed: no setting, a chain resolution that throws, or an empty chain means untrusted. */
  lemma TrustFailsClosed(req: IncomingRequest, trustFn: Option<TrustFunction>)
    ensures trustFn.None? ==> !IsTrusted(req, trustFn)
    ensures req.addresses.None? ==> !IsTrusted(req, trustFn)
    ensures req.addresses == Some([]) ==> !IsTrusted(req, trustFn)
  {
  }

  /**
   * Single-hop trust: the verdict depends on the predicate's answer for the
   * first address at index 0 only, never on the rest of the chain.
   */
  lemma TrustIsSingleHop(req1: IncomingRequest, req2: IncomingRequest, f: TrustFunction, g: TrustFunction)
    requires req1.addresses.Some? && req2.addresses.Some?
    requires |req1.addresses.value| > 0 && |req2.addresses.value| > 0
    requires req1.addresses.value[0] == req2.addresses.value[0]
    requires f(req1.addresses.value[0], 0) == g(req2.addresses.value[0], 0)
    ensures IsTrusted(req1, Some(f)) == IsTrusted(req2, Some(g))
  {
  }

  /** `normalizeHost`: trimmed, then every trailing slash removed. */
  function NormalizeHost(host: string): (r: string)
    ensures r <= JsTrim(host)
    ensures forall i | |r| <= i < |JsTrim(host)| :: JsTrim(host)[i] == '/'
    ensures r == [] || (r[|r| - 1] != '/' && !IsJsWhitespace(r[0]))
  {
    TrimTrailingSlashes(JsTrim(host))
  }

  /** `normalizeHost` is not idempotent: a slash behind a space uncovers the space. */
  lemma NormalizeHostNotIdempotent()
    ensures NormalizeHost("a /") == "a "
    ensures NormalizeHost(NormalizeHost("a /")) == "a"
  {
    SlashBehindSpaceIsDropped();
    SpaceIsTrimmed();
  }

  lemma SlashBehindSpaceIsDropped()
    ensures NormalizeHost("a /") == "a "
  {
    var x := "a /";
    assert x[0] == 'a' && x[2] == '/' && x[..2] == "a ";
    TrimStartStops(x, IsJsWhitespace);
    TrimEndStops(x, IsJsWhitespace);
    TrimEndDrops(x, IsSlash);
    TrimEndStops(x[..2], IsSlash);
  }

  lemma SpaceIsTrimmed()
    ensures NormalizeHost("a ") == "a"
  {
    var x := "a ";
    assert x[0] == 'a' && x[1] == ' ' && x[..1] == "a";
    TrimStartStops(x, IsJsWhitespace);
    TrimEndDrops(x, IsJsWhitespace);
    TrimEndStops(x[..1], IsJsWhitespace);
    TrimEndStops(x[..1], IsSlash);
  }

  /** `defaultScheme`. */
  function DefaultScheme(req: IncomingRequest): (scheme: string)
    ensures scheme == "https" <==> req.encrypted
    ensures scheme == "http" <==> !req.encrypted
  {
    if req.encrypted then "https" else "http"
  }

  /** A fixed origin's literal must parse, as `new URL` throws otherwise. */
  predicate Resolvable(strategy: OriginStrategy, libs: Libraries) {
    strategy.Fixed? ==> libs.parseUrl(TrimTrailingSlashes(strategy.origin)).Some?
  }

  /** `url.protocol.replace(':', '') || 'https'`. */
  function FixedScheme(url: Url): string {
    var scheme := RemoveFirst(url.protocol, ':');
    if scheme == "" then "https" else scheme
  }

  /** Whether the forwarding information is read at all. */
  function UsesForwarded(trustProxy: Option<TrustProxySetting>, req: IncomingRequest, libs: Libraries): bool {
    IsTrusted(req, GetTrustFunction(trustProxy, libs)) && req.isNodeMessage
  }

  /** The result of `resolveOrigin`, stated as one expression per field. */
  function OriginOf(strategy: OriginStrategy, req: IncomingRequest, libs: Libraries): (r: OriginResult)
    requires Resolvable(strategy, libs)
    ensures r.origin == r.scheme + "://" + r.host
    ensures strategy.FromRequest? ==> r.scheme == "http" || r.scheme == "https"
  {
    match strategy
    case Fixed(origin, _) =>
      var url := libs.parseUrl(TrimTrailingSlashes(origin)).value;
      var scheme := FixedScheme(url);
      var host := NormalizeHost(url.host);
      OriginResult(scheme, host, scheme + "://" + host)
    case FromRequest(trustProxy, _) =>
      var useForwarded := UsesForwarded(trustProxy, req, libs);
      var proto := req.forwarded.proto;
      var scheme :=
        if useForwarded && (proto == Some("http") || proto == Some("https")) then proto.value
        else DefaultScheme(req);
      var forwardedHost := req.forwarded.host;
      var host :=
        if useForwarded && forwardedHost.Some? && forwardedHost.value != "" then NormalizeHost(forwardedHost.value)
        else NormalizeHost(req.hostHeader.GetOr("localhost"));
      OriginResult(scheme, host, scheme + "://" + host)
  }

  /** Whichever source the host comes from, it is normalised: it never ends in a slash. */
  lemma ResolvedHostIsNormalized(strategy: OriginStrategy, req: IncomingRequest, libs: Libraries)
    requires Resolvable(strategy, libs)
    ensures var host := OriginOf(strategy, req, libs).host;
      host == [] || (host[|host| - 1] != '/' && !IsJsWhitespace(host[0]))
  {
    match strategy
    case Fixed(origin, _) =>
      var url := libs.parseUrl(TrimTrailingSlashes(origin)).value;
      assert OriginOf(strategy, req, libs).host == NormalizeHost(url.host);
    case FromRequest(trustProxy, _) =>
      var fhost := req.forwarded.host;
      if UsesForwarded(trustProxy, req, libs) && fhost.Some? && fhost.value != "" {
        assert OriginOf(strategy, req, libs).host == NormalizeHost(fhost.value);
      } else {
        assert OriginOf(strategy, req, libs).host == NormalizeHost(req.hostHeader.GetOr("localhost"));
      }
  }

  /** `resolveOrigin`. */
  method ResolveOrigin(strategy: OriginStrategy, req: IncomingRequest, libs: Libraries) returns (r: OriginResult)
    requires Resolvable(strategy, libs)
    ensures r == OriginOf(strategy, req, libs)
  {
    if strategy.Fixed? {
      var url := libs.parseUrl(TrimTrailingSlashes(strategy.origin)).value;
      var fixedScheme := FixedScheme(url);
      var fixedHost := NormalizeHost(url.host);
      return OriginResult(fixedScheme, fixedHost, fixedScheme + "://" + fixedHost);
    }

    var scheme := DefaultScheme(req);
    var host := NormalizeHost(req.hostHeader.GetOr("localhost"));

    var trustFn := GetTrustFunction(strategy.trustProxy, libs);
    var forwardedTrusted := ConnectionIsTrusted(req, trustFn);
    var canUseForwarded := forwardedTrusted && req.isNodeMessage;

    if canUseForwarded {
      var info := req.forwarded;
      if info.proto == Some("http") || info.proto == Some("https") {
        scheme := info.proto.value;
      }
      if info.host.Some? && info.host.value != "" {
        host := NormalizeHost(info.host.value);
      }
    }

    var origin := scheme + "://" + host;
    r := OriginResult(scheme, host, origin);
  }

  /** A fixed strategy's result depends on its literal alone: not on the request, not on `basePath`. */
  lemma FixedIgnoresRequest(origin: string, basePath1: Option<string>, basePath2: Option<string>,
                            req1: IncomingRequest, req2: IncomingRequest, libs: Libraries)
    requires Resolvable(Fixed(origin, basePath1), libs)
    ensures OriginOf(Fixed(origin, basePath1), req1, libs) == OriginOf(Fixed(origin, basePath2), req2, libs)
  {
  }

  /**
   * Without trust the connection decides: the scheme follows the socket's
   * encryption, the host is the normalised `Host` header or `localhost`, and
   * the forwarding information is never read.
   */
  lemma UntrustedUsesConnection(trustProxy: Option<TrustProxySetting>, basePath: Option<string>,
                                req: IncomingRequest, libs: Libraries, other: ForwardedInfo)
    requires !UsesForwarded(trustProxy, req, libs)
    ensures var r := OriginOf(FromRequest(trustProxy, basePath), req, libs);
      && (r.scheme == "https" <==> req.encrypted)
      && r.host == NormalizeHost(req.hostHeader.GetOr("localhost"))
      && r == OriginOf(FromRequest(trustProxy, basePath), req.(forwarded := other), libs)
  {
    var req2 := req.(forwarded := other);
    var scheme := DefaultScheme(req);
    var host := NormalizeHost(req.hostHeader.GetOr("localhost"));
    assert UsesForwarded(trustProxy, req2, libs) == UsesForwarded(trustProxy, req, libs);
    assert OriginOf(FromRequest(trustProxy, basePath), req, libs) == OriginResult(scheme, host, scheme + "://" + host);
    assert OriginOf(FromRequest(trustProxy, basePath), req2, libs) == OriginResult(scheme, host, scheme + "://" + host);
  }

  /** With trust disabled or unset (the default), no request can make the forwarding headers count. */
  lemma DisabledTrustIgnoresForwarding(trustProxy: Option<TrustProxySetting>, basePath: Option<string>,
                                       req: IncomingRequest, libs: Libraries, other: ForwardedInfo)
    requires trustProxy == None || trustProxy == Some(TrustAll(false))
    ensures OriginOf(FromRequest(trustProxy, basePath), req, libs)
         == OriginOf(FromRequest(trustProxy, basePath), req.(forwarded := other), libs)
  {
    UntrustedUsesConnection(trustProxy, basePath, req, libs, other);
  }

  /**
   * With trust, a forwarded `proto` replaces the scheme exactly when it is
   * `http` or `https`, and a non-empty forwarded host replaces the host after
   * normalisation.
   */
  lemma TrustedForwardedOverrides(trustProxy: Option<TrustProxySetting>, basePath: Option<string>,
                                  req: IncomingRequest, libs: Libraries)
    requires UsesForwarded(trustProxy, req, libs)
    ensures var r := OriginOf(FromRequest(trustProxy, basePath), req, libs);
      var proto := req.forwarded.proto;
      var fhost := req.forwarded.host;
      && (proto == Some("http") || proto == Some("https") ==> r.scheme == proto.value)
      && (proto != Some("http") && proto != Some("https") ==> r.scheme == DefaultScheme(req))
      && (fhost.Some? && fhost.value != "" ==> r.host == NormalizeHost(fhost.value))
      && (fhost.None? || fhost.value == "" ==> r.host == NormalizeHost(req.hostHeader.GetOr("localhost")))
  {
  }
}
