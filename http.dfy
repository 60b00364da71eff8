/**
 * The parts of Go's net/http and net/url request records that the location
 * middleware observes.
 */
module Http {

  /** An http.Header: canonical header name to its list of values. */
  type Header = map<string, seq<string>>

  /**
   * http.Header.Get: the first value stored under `name`, or "" when the name
   * is absent or holds no values. Go canonicalises the name looked up; every
   * name the middleware looks up is canonical already, so the lookup is literal.
   */
  function HeaderGet(h: Header, name: string): string
  {
    if name in h && |h[name]| > 0 then h[name][0] else ""
  }

  /** strings.HasPrefix: case-sensitive prefix test. */
  predicate HasPrefix(s: string, prefix: string)
  {
    prefix <= s
  }

  /** The url.URL fields the middleware reads or writes. */
  datatype URL = URL(scheme: string, host: string, path: string)

  /**
   * An http.Request as far as the middleware sees it. `tls` is true when the
   * request's TLS connection state is non-nil; `host` is the connection-level
   * Host field, distinct from `url.host`.
   */
  datatype Request = Request(header: Header, tls: bool, proto: string, url: URL, host: string)

  /**
   * A simplified url.URL.String() for a URL with a scheme and a host and a path
   * that is empty or absolute: no escaping, no user info, query or fragment.
   */
  function Render(u: URL): string
    requires u.scheme != "" && u.host != ""
    requires u.path == "" || u.path[0] == '/'
  {
    u.scheme + "://" + u.host + u.path
  }
}
