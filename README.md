# gin-contrib/location in Dafny

This project models the location middleware for the Gin web framework. For each
request the middleware works out the externally visible `scheme://host/base`
when the service sits behind proxies, load balancers or TLS terminators. It
stores the result as a URL record under the key `"location"` in the request
context, and `Get` reads it back.

Modules:

- `Http` (http.dfy): the request fields the middleware reads. These are the
  header map, TLS presence, `Proto`, the request URL's scheme and host, and the
  connection host. It also holds `HeaderGet` (http.Header.Get: first value or
  `""`), the case-sensitive `HasPrefix`, and a simplified URL rendering.
- `Gin` (gin.dfy): the request context, cut down to a class with the request and
  a `map` key/value store, plus its `Set` and `Get` methods.
- `Chain` (chain.dfy): an ordered first-match-wins chain given as data, with its
  characterisation proved. Both resolution chains are instances of it.
- `Location` (location.dfy): config.go and location.go. This covers the
  configuration records, `DefaultConfig`, `NewLocation`, `ResolveScheme`,
  `ResolveHost`, `ApplyToContext`, the handlers `New`/`Default`/`Serve`, and `Get`.
- `LocationProperties` (properties.dfy): precedence, fallback and
  configuration-independence lemmas about resolvers built by `NewLocation`.
- `LocationExamples` (examples.dfy): the table-driven cases of location_test.go
  and the two router tests, each as a concrete lemma.

The resolvers are total functions, so resolving the same request twice always
gives the same URL.

The code and its documented intent disagree on one point, and the model follows
the code. The comment on `Config.Headers` (location.go:31-32) says the header
fields may be overridden to read values from custom header fields. But
`newLocation` (config.go:29-32) always installs `X-Forwarded-Proto` and
`X-Forwarded-For`, whatever the configuration says. So the header names in a
configuration have no effect (`ConfigHeadersIgnored`). The test case at
location_test.go:110-123 expects `http://bar.com/bar`, but under this code it
resolves to `http://foo.com/bar` (`CustomHostHeaderIsIgnored`).

## Model

| member | source | states |
|---|---|---|
| `Chain.FirstMatch` | config.go:44-72 | a first-match-wins chain returns the fallback when no rule applies, the value of the first applicable rule whatever later rules say, and always either the fallback or the value of some applicable rule |
| `Location.DefaultConfig` | location.go:37-46 | the default configuration has scheme `http`, host `localhost:8080`, empty base, and headers `X-Forwarded-Proto` / `X-Forwarded-For` |
| `Location.NewLocation` | config.go:24-34 | the resolver copies scheme, host and base from the configuration verbatim; its header names are always `X-Forwarded-Proto` / `X-Forwarded-For` |
| `Location.NewLocationIgnoresHeaders` | config.go:29-32 | two configurations that differ only in their header names build the same resolver |
| `Location.ResolveScheme` | config.go:44-57 | the scheme is always `"https"` or the configured default; it is `"https"` whenever some signal (forwarded header exactly `"https"`, URL scheme `"https"`, TLS, Proto prefix `"HTTPS"`) is present, and the configured default otherwise |
| `Location.ResolveSchemeIsChain` | config.go:45-56 | scheme resolution equals the ordered first-match chain header, URL scheme, TLS, Proto, with the default as fallback |
| `Location.ResolveHost` | config.go:59-72 | the host is one of the four sources or the default; it is the default when all sources are empty; it is `""` exactly when every source and the default are empty |
| `Location.ResolveHostIsChain` | config.go:60-71 | host resolution equals the ordered first-match chain forwarded header, `X-Host`, connection host, URL host (each when non-empty), with the default as fallback |
| `Location.ApplyToContext` | config.go:36-42 | afterwards the store maps `"location"` to the URL with the resolved scheme, the resolved host and the base as path; every other key and the request are unchanged |
| `Location.Serve` | location.go:55-61 | the handler returned by `New` has exactly the effect of `applyToContext` with the resolver built from its configuration |
| `Location.Get` | location.go:65-79 | returns None exactly when nothing is stored under `"location"` or the stored value is not a URL; otherwise returns the stored URL |
| `Location.ServeThenGet` | location.go:58-78 | after the handler runs, `Get` returns exactly the URL it resolved for the request; the request is unchanged and the store is the old one with `"location"` set |
| `Location.GetBeforeServe` | location.go:66-70 | on a fresh context the middleware never ran on, `Get` returns None |
| `Gin.Context.Set` | config.go:41 | the store gains the key with the new value; other keys and the request are unchanged |
| `Gin.Context.Get` | location.go:66 | lookup reports presence of the key and returns its value, or nil when absent |
| `Gin.Context.constructor` | location_test.go:128-129 | a new context carries the given request and an empty store |
| `LocationProperties.ForwardedProtoWins` | config.go:46-47 | an `X-Forwarded-Proto` of exactly `"https"` gives `"https"` whatever the URL, TLS or Proto say |
| `LocationProperties.SchemeMatchIsCaseSensitive` | config.go:52 | with no other scheme signal the result is `"https"` when Proto has the case-sensitive prefix `"HTTPS"`, and the configured default otherwise |
| `LocationProperties.SchemeFallback` | config.go:45-56 | with no scheme signal the configured scheme is used |
| `LocationProperties.HostPrecedence` | config.go:60-70 | `X-Forwarded-For` beats `X-Host`, which beats the connection host, which beats the URL host, which beats the configured host; each only when non-empty |
| `LocationProperties.ForwardedForBeatsXHost` | config.go:61-64 | two requests with the same non-empty `X-Forwarded-For` resolve to the same host whatever their `X-Host` or other sources |
| `LocationProperties.EmptyHostOnlyWhenAllEmpty` | config.go:61-70 | the resolved host is `""` exactly when all four sources and the configured host are empty |
| `LocationProperties.ConfigHeadersIgnored` | config.go:24-34 | a configuration's header names never affect the resolved URL |
| `LocationProperties.PathIsBase` | config.go:40 | the attached path is the configured base, verbatim |
| `LocationProperties.NewWithoutSignals` | location.go:55-61 | with no request signals a custom handler attaches the configured scheme, host and base |
| `LocationProperties.DefaultIsNewOfDefaultConfig` | location.go:49-52 | `Default()` resolves every request exactly as `New(DefaultConfig())` does |
| `LocationProperties.DefaultWithoutSignals` | location.go:37-52 | with no request signals the default handler attaches `http://localhost:8080` |
| `LocationExamples.DefaultsCase` | location_test.go:29-36 | default configuration and empty request give `http://localhost:8080` |
| `LocationExamples.URLSchemeCase` | location_test.go:39-48 | a URL scheme of `https` alone gives `https://localhost:8080` |
| `LocationExamples.ForwardedHeadersCase` | location_test.go:51-61 | forwarded proto `https` and forwarded host `bar.com` give `https://bar.com/bar` |
| `LocationExamples.XHostCase` | location_test.go:64-73 | `X-Host: bar.com` gives `http://bar.com/bar` |
| `LocationExamples.URLHostCase` | location_test.go:76-85 | URL host `bar.com` gives `http://bar.com/bar` |
| `LocationExamples.ProtoAndConnectionHostCase` | location_test.go:88-97 | Proto `HTTPS://` and connection host `baz.com` give `https://baz.com/bar` |
| `LocationExamples.TLSCase` | location_test.go:100-108 | TLS with no headers gives `https://foo.com/bar` |
| `LocationExamples.CustomHostHeaderIsIgnored` | location_test.go:110-123 | a configured `X-Forwarded-Host` is not read: the request resolves to `http://foo.com/bar`, not the `http://bar.com/bar` the test expects |
| `LocationExamples.CustomConfigCase` | location_test.go:179-188 | a custom configuration with a plain GET gives `https://foo.com/base` |
| `LocationExamples.CaseSensitiveSignalsCase` | config.go:46-52 | an `X-Forwarded-Proto` of `HTTPS` and a Proto of `https/1.1` match no signal, so the configured scheme is used |
| `LocationExamples.DefaultRouterCase` | location_test.go:160-165 | the default handler with a plain GET gives `http://localhost:8080` |

The other declarations have no row. They are definitions used by the members
above: `Location.New`, `Location.Default`, `Location.Resolve`,
`Location.HttpsSignalled`, `Location.SchemeChain`, `Location.HostSources`,
`Location.HostChain`, `Http.HeaderGet`, `Http.HasPrefix` and `Http.Render`
(whose only contract is the precondition under which its simplified rendering
applies). One helper lemma has no row either: `Chain.FirstMatchOfFour` unfolds
`FirstMatch` on a four-rule chain for the two chain lemmas.

## Left out

- Header name canonicalisation (textproto's canonical MIME header keys) is not modelled. http.Header.Get canonicalises only the name it looks up, and the three names the middleware looks up (`X-Forwarded-Proto`, `X-Forwarded-For`, `X-Host`) are already canonical, so `Http.HeaderGet` agrees with it on every header map.
- url.URL.String() is replaced by `Http.Render`, the simplified `scheme + "://" + host + path`. It is defined only for a non-empty scheme and host and a path that is empty or starts with `/`, and it does no escaping.
- The stored `*url.URL` is modelled as a value, not a pointer, so pointer identity and aliasing of the stored URL are not captured. A typed nil pointer stored under the key is not modelled either.
- A nil request and a nil request URL are not modelled. A nil request panics at config.go:46. A nil URL panics only when resolution reaches config.go:48 or config.go:67. It resolves without a panic when `X-Forwarded-Proto` is exactly `https` and one of `X-Forwarded-For`, `X-Host` or the connection host is non-empty. In the model the context always carries a request and the request always has a URL.
- Of the TLS connection state, only whether it is nil matters; its contents are not modelled.
- The Gin engine, router, handler chaining, and the context's internals (its mutex, lazy map allocation, everything besides the store and the request) are left out. `Gin.Context` is a minimal store.
- The two example programs under example/ are wiring around `router.Run()`, which is network I/O. They are not part of this model.
- config.go and location.go import Gin under different paths. That is a build concern with no behaviour.
