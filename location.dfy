/**
 * The location middleware: it works out the scheme, host and base path under
 * which a request behind proxies was addressed, and attaches them to the
 * request context under a fixed key.
 */
module Location {
  import opened Wrappers
  import opened Http
  import opened Gin
  import opened Chain

  /** The context key the resolved URL is stored under. */
  const Key := "location"

  /** The header names hard-wired into every resolver. */
  const ForwardedProto := "X-Forwarded-Proto"
  const ForwardedFor := "X-Forwarded-For"
  /** The secondary host header, looked up whatever the configuration says. */
  const XHost := "X-Host"

  /** Header names for the forwarded scheme and host. */
  datatype Headers = Headers(scheme: string, host: string)

  /** Fallback scheme and host, the base path, and the header names. */
  datatype Config = Config(scheme: string, host: string, base: string, headers: Headers)

  /** A configured resolver: fallbacks, base path and the header names it reads. */
  datatype Location = Location(scheme: string, host: string, base: string, headers: Headers)

  // ---------------------------------------------------------------------------
  // Configuration and construction

  /** The generic default configuration, mapped to localhost. */
  function DefaultConfig(): (c: Config)
    ensures c.scheme == "http" && c.host == "localhost:8080" && c.base == ""
    ensures c.headers == Headers(ForwardedProto, ForwardedFor)
  {
    Config("http", "localhost:8080", "", Headers(ForwardedProto, ForwardedFor))
  }

  /**
   * Builds a resolver from a configuration. The fallbacks and the base path are
   * copied; the header names are the fixed ones, not those of the configuration.
   */
  function NewLocation(config: Config): (l: Location)
    ensures l.scheme == config.scheme && l.host == config.host && l.base == config.base
    ensures l.headers == Headers(ForwardedProto, ForwardedFor)
  {
    Location(config.scheme, config.host, config.base, Headers(ForwardedProto, ForwardedFor))
  }

  /** Configurations that differ only in their header names build the same resolver. */
  lemma NewLocationIgnoresHeaders(c1: Config, c2: Config)
    requires c1.scheme == c2.scheme && c1.host == c2.host && c1.base == c2.base
    ensures NewLocation(c1) == NewLocation(c2)
  {
  }

  // ---------------------------------------------------------------------------
  // Scheme resolution

  /** Some request signal says the request arrived over https. */
  predicate HttpsSignalled(l: Location, r: Request)
  {
    HeaderGet(r.header, l.headers.scheme) == "https"
    || r.url.scheme == "https"
    || r.tls
    || HasPrefix(r.proto, "HTTPS")
  }

  /** The scheme chain, in the order the middleware consults it. */
  function SchemeChain(l: Location, r: Request): seq<Rule>
  {
    [ Rule(HeaderGet(r.header, l.headers.scheme) == "https", "https"),
      Rule(r.url.scheme == "https", "https"),
      Rule(r.tls, "https"),
      Rule(HasPrefix(r.proto, "HTTPS"), "https") ]
  }

  /**
   * The external scheme: "https" when any signal says so, otherwise the
   * configured fallback. Every signal yields the same answer, so the order of
   * the checks does not change the result.
   */
  function ResolveScheme(l: Location, r: Request): (s: string)
    ensures s == "https" || s == l.scheme
    ensures HttpsSignalled(l, r) ==> s == "https"
    ensures !HttpsSignalled(l, r) ==> s == l.scheme
  {
    if HeaderGet(r.header, l.headers.scheme) == "https" then "https"
    else if r.url.scheme == "https" then "https"
    else if r.tls then "https"
    else if HasPrefix(r.proto, "HTTPS") then "https"
    else l.scheme
  }

  /** ResolveScheme is the first-match-wins chain over SchemeChain, falling back to the default. */
  lemma ResolveSchemeIsChain(l: Location, r: Request)
    ensures ResolveScheme(l, r) == FirstMatch(SchemeChain(l, r), l.scheme)
  {
    FirstMatchOfFour(SchemeChain(l, r), l.scheme);
  }

  // ---------------------------------------------------------------------------
  // Host resolution

  /** The host sources, in the order the middleware consults them. */
  function HostSources(l: Location, r: Request): seq<string>
  {
    [HeaderGet(r.header, l.headers.host), HeaderGet(r.header, XHost), r.host, r.url.host]
  }

  /** The host chain: each source applies when it is non-empty. */
  function HostChain(l: Location, r: Request): seq<Rule>
  {
    var s := HostSources(l, r);
    [Rule(s[0] != "", s[0]), Rule(s[1] != "", s[1]), Rule(s[2] != "", s[2]), Rule(s[3] != "", s[3])]
  }

  /**
   * The external host: the first non-empty source among the forwarded host
   * header, X-Host, the connection host and the URL host, else the fallback.
   */
  function ResolveHost(l: Location, r: Request): (h: string)
    ensures h in HostSources(l, r) || h == l.host
    ensures h == l.host <== (forall i :: 0 <= i < 4 ==> HostSources(l, r)[i] == "")
    ensures h == "" <==> (forall i :: 0 <= i < 4 ==> HostSources(l, r)[i] == "") && l.host == ""
  {
    if HeaderGet(r.header, l.headers.host) != "" then HeaderGet(r.header, l.headers.host)
    else if HeaderGet(r.header, XHost) != "" then HeaderGet(r.header, XHost)
    else if r.host != "" then r.host
    else if r.url.host != "" then r.url.host
    else l.host
  }

  /** ResolveHost is the first-match-wins chain over HostChain, falling back to the default. */
  lemma ResolveHostIsChain(l: Location, r: Request)
    ensures ResolveHost(l, r) == FirstMatch(HostChain(l, r), l.host)
  {
    FirstMatchOfFour(HostChain(l, r), l.host);
  }

  // ---------------------------------------------------------------------------
  // Attachment and retrieval

  /** The URL a resolver attaches for a request. */
  function Resolve(l: Location, r: Request): URL
  {
    URL(ResolveScheme(l, r), ResolveHost(l, r), l.base)
  }

  /**
   * Resolves the request's URL and stores it under Key. No other key and not
   * the request itself changes.
   */
  method ApplyToContext(l: Location, c: Context)
    modifies c
    ensures c.request == old(c.request)
    ensures c.keys == old(c.keys)[Key := URLValue(Resolve(l, old(c.request)))]
  {
    var value := URL("", "", "");
    value := value.(scheme := ResolveScheme(l, c.request));
    value := value.(host := ResolveHost(l, c.request));
    value := value.(path := l.base);
    c.Set(Key, URLValue(value));
  }

  /** The middleware handler: a resolver applied to each request's context. */
  datatype Handler = Handler(location: Location)

  /** The handler for a custom configuration. */
  function New(config: Config): Handler
  {
    Handler(NewLocation(config))
  }

  /** The handler for the default configuration. */
  function Default(): Handler
  {
    New(DefaultConfig())
  }

  /** Runs a handler on a context. */
  method Serve(h: Handler, c: Context)
    modifies c
    ensures c.request == old(c.request)
    ensures c.keys == old(c.keys)[Key := URLValue(Resolve(h.location, old(c.request)))]
  {
    ApplyToContext(h.location, c);
  }

  /**
   * The URL attached to the context, or None when nothing is stored under Key
   * or the stored value is not a URL.
   */
  method Get(c: Context) returns (u: Option<URL>)
    ensures u.None? <==> Key !in c.keys || !c.keys[Key].URLValue?
    ensures u.Some? ==> c.keys[Key] == URLValue(u.value)
  {
    var v, ok := c.Get(Key);
    if !ok {
      return None;
    }
    match v {
      case URLValue(url) => return Some(url);
      case _ => return None;
    }
  }

  /** Running the handler and then Get yields exactly the resolved URL. */
  method ServeThenGet(h: Handler, c: Context) returns (u: Option<URL>)
    modifies c
    ensures u == Some(Resolve(h.location, old(c.request)))
    ensures c.request == old(c.request)
    ensures c.keys == old(c.keys)[Key := URLValue(Resolve(h.location, old(c.request)))]
  {
    Serve(h, c);
    u := Get(c);
  }

  /** Get on a context the middleware never ran on yields None. */
  method GetBeforeServe(r: Request) returns (u: Option<URL>)
    ensures u == None
  {
    var c := new Context(r);
    u := Get(c);
  }
}
