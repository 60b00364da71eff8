/**
 * The table-driven cases of location_test.go, each as a concrete request
 * resolved by a resolver built from its configuration.
 */
module LocationExamples {
  import opened Http
  import opened Location

  const DefaultHeaders := Headers(ForwardedProto, ForwardedFor)
  const FooConfig := Config("http", "foo.com", "/bar", DefaultHeaders)
  const NoURL := URL("", "", "")

  lemma DefaultsCase()
    ensures Render(Resolve(NewLocation(DefaultConfig()), Request(map[], false, "", NoURL, "")))
      == "http://localhost:8080"
  {
  }

  lemma URLSchemeCase()
    ensures Render(Resolve(NewLocation(DefaultConfig()), Request(map[], false, "", URL("https", "", ""), "")))
      == "https://localhost:8080"
  {
  }

  lemma ForwardedHeadersCase()
    ensures Render(Resolve(NewLocation(FooConfig),
      Request(map[ForwardedProto := ["https"], ForwardedFor := ["bar.com"]], false, "", NoURL, "")))
      == "https://bar.com/bar"
  {
  }

  lemma XHostCase()
    ensures Render(Resolve(NewLocation(FooConfig), Request(map[XHost := ["bar.com"]], false, "", NoURL, "")))
      == "http://bar.com/bar"
  {
  }

  lemma URLHostCase()
    ensures Render(Resolve(NewLocation(FooConfig), Request(map[], false, "", URL("", "bar.com", ""), "")))
      == "http://bar.com/bar"
  {
  }

  lemma ProtoAndConnectionHostCase()
    ensures Render(Resolve(NewLocation(FooConfig), Request(map[], false, "HTTPS://", NoURL, "baz.com")))
      == "https://baz.com/bar"
  {
  }

  lemma TLSCase()
    ensures Render(Resolve(NewLocation(FooConfig), Request(map[], true, "", NoURL, "")))
      == "https://foo.com/bar"
  {
  }

  /**
   * The custom host header case: the configuration names X-Forwarded-Host, but
   * the resolver reads X-Forwarded-For, so bar.com is never seen and the
   * configured foo.com is attached instead of the expected http://bar.com/bar.
   */
  lemma CustomHostHeaderIsIgnored()
    ensures
      var c := Config("http", "foo.com", "/bar", Headers(ForwardedProto, "X-Forwarded-Host"));
      var r := Request(map["X-Forwarded-Host" := ["bar.com"]], false, "", NoURL, "");
      Resolve(NewLocation(c), r) == URL("http", "foo.com", "/bar")
      && Render(Resolve(NewLocation(c), r)) == "http://foo.com/bar"
      && Render(Resolve(NewLocation(c), r)) != "http://bar.com/bar"
  {
  }

  /** The custom router case: with no request signals a custom configuration is attached as is. */
  lemma CustomConfigCase()
    ensures Render(Resolve(New(Config("https", "foo.com", "/base", Headers("", ""))).location, Request(map[], false, "HTTP/1.1", URL("", "", "/"), "")))
      == "https://foo.com/base"
  {
  }

  /**
   * Scheme signals are case-sensitive: an X-Forwarded-Proto of "HTTPS" and a
   * Proto of "https/1.1" match nothing, so the configured scheme is used.
   */
  lemma CaseSensitiveSignalsCase(c: Config)
    ensures ResolveScheme(NewLocation(c), Request(map[ForwardedProto := ["HTTPS"]], false, "https/1.1", NoURL, ""))
      == c.scheme
  {
    assert !HasPrefix("https/1.1", "HTTPS") by { assert "https/1.1"[0] != "HTTPS"[0]; }
  }

  /** The default router case: a plain GET / through Default() yields http://localhost:8080. */
  lemma DefaultRouterCase()
    ensures Render(Resolve(Default().location, Request(map[], false, "HTTP/1.1", URL("", "", "/"), ""))) == "http://localhost:8080"
  {
    assert !HasPrefix("HTTP/1.1", "HTTPS") by { assert "HTTP/1.1"[4] != "HTTPS"[4]; }
  }
}
