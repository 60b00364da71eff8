/**
 * What the middleware promises about resolvers built from a configuration:
 * precedence of the signals, the fallbacks, and the fixed header names.
 */
module LocationProperties {
  import opened Http
  import opened Location

  /** The forwarded-scheme header as the built resolver reads it. */
  function ProtoHeader(r: Request): string { HeaderGet(r.header, ForwardedProto) }

  /** The forwarded-host header as the built resolver reads it. */
  function ForHeader(r: Request): string { HeaderGet(r.header, ForwardedFor) }

  /** No request signal for the scheme. */
  predicate NoSchemeSignal(r: Request)
  {
    ProtoHeader(r) != "https" && r.url.scheme != "https" && !r.tls && !HasPrefix(r.proto, "HTTPS")
  }

  /** No request source for the host. */
  predicate NoHostSource(r: Request)
  {
    ForHeader(r) == "" && HeaderGet(r.header, XHost) == "" && r.host == "" && r.url.host == ""
  }

  /** An X-Forwarded-Proto of exactly "https" decides, whatever the URL, TLS state or Proto say. */
  lemma ForwardedProtoWins(c: Config, r: Request)
    requires ProtoHeader(r) == "https"
    ensures ResolveScheme(NewLocation(c), r) == "https"
  {
  }

  /**
   * Scheme signals are matched case-sensitively: with no other signal the
   * scheme is "https" exactly when Proto starts with "HTTPS", so an
   * X-Forwarded-Proto of "HTTPS" or a Proto of "https/1.1" leaves the fallback.
   */
  lemma SchemeMatchIsCaseSensitive(c: Config, r: Request)
    requires ProtoHeader(r) != "https" && r.url.scheme != "https" && !r.tls
    ensures ResolveScheme(NewLocation(c), r) == if "HTTPS" <= r.proto then "https" else c.scheme
  {
  }

  /** Without any scheme signal the configured scheme is used. */
  lemma SchemeFallback(c: Config, r: Request)
    requires NoSchemeSignal(r)
    ensures ResolveScheme(NewLocation(c), r) == c.scheme
  {
  }

  /**
   * Host precedence: X-Forwarded-For over X-Host over the connection host over
   * the URL host over the configured host; each source is used only when it is
   * non-empty and every earlier one is empty.
   */
  lemma HostPrecedence(c: Config, r: Request)
    ensures ForHeader(r) != "" ==> ResolveHost(NewLocation(c), r) == ForHeader(r)
    ensures ForHeader(r) == "" && HeaderGet(r.header, XHost) != "" ==>
      ResolveHost(NewLocation(c), r) == HeaderGet(r.header, XHost)
    ensures ForHeader(r) == "" && HeaderGet(r.header, XHost) == "" && r.host != "" ==>
      ResolveHost(NewLocation(c), r) == r.host
    ensures ForHeader(r) == "" && HeaderGet(r.header, XHost) == "" && r.host == "" && r.url.host != "" ==>
      ResolveHost(NewLocation(c), r) == r.url.host
    ensures NoHostSource(r) ==> ResolveHost(NewLocation(c), r) == c.host
  {
  }

  /**
   * When X-Forwarded-For and X-Host are both set, X-Forwarded-For wins: two
   * requests that agree on it resolve to the same host whatever else differs.
   */
  lemma ForwardedForBeatsXHost(c: Config, r1: Request, r2: Request)
    requires ForHeader(r1) != "" && ForHeader(r1) == ForHeader(r2)
    ensures ResolveHost(NewLocation(c), r1) == ResolveHost(NewLocation(c), r2)
  {
  }

  /** The resolved host is "" only when every source and the configured host are empty. */
  lemma EmptyHostOnlyWhenAllEmpty(c: Config, r: Request)
    ensures ResolveHost(NewLocation(c), r) == "" <==> NoHostSource(r) && c.host == ""
  {
  }

  /**
   * The header names a configuration carries make no difference to any
   * resolution: only its scheme, host and base do.
   */
  lemma ConfigHeadersIgnored(c1: Config, c2: Config, r: Request)
    requires c1.scheme == c2.scheme && c1.host == c2.host && c1.base == c2.base
    ensures Resolve(NewLocation(c1), r) == Resolve(NewLocation(c2), r)
  {
    NewLocationIgnoresHeaders(c1, c2);
  }

  /** The path of the attached URL is the configured base, verbatim. */
  lemma PathIsBase(c: Config, r: Request)
    ensures Resolve(New(c).location, r).path == c.base
  {
  }

  /** With no request signals a custom handler attaches the configured scheme, host and base. */
  lemma NewWithoutSignals(c: Config, r: Request)
    requires NoSchemeSignal(r) && NoHostSource(r)
    ensures Resolve(New(c).location, r) == URL(c.scheme, c.host, c.base)
  {
  }

  /** Default() resolves exactly as New(DefaultConfig()) does, on every request. */
  lemma DefaultIsNewOfDefaultConfig(r: Request)
    ensures Resolve(Default().location, r) == Resolve(New(DefaultConfig()).location, r)
  {
  }

  /** With no request signals the default handler attaches http://localhost:8080. */
  lemma DefaultWithoutSignals(r: Request)
    requires NoSchemeSignal(r) && NoHostSource(r)
    ensures Resolve(Default().location, r) == URL("http", "localhost:8080", "")
    ensures Render(Resolve(Default().location, r)) == "http://localhost:8080"
  {
  }
}
