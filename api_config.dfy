/** src/config/api.js: the API base address and `buildApiUrl`, which joins the base and an endpoint
    with one slash. The environment is a parameter. */
module ApiConfig {
  import opened Wrappers
  import opened JsText

  const DefaultApiBase := "http://localhost:5000/api"

  /** `process.env.REACT_APP_API_URL || default`: an unset or empty variable gives the default. */
  function ApiBase(env: Option<string>): (base: string)
    ensures env.Some? && env.value != [] ==> base == env.value
    ensures env.None? || env.value == [] ==> base == DefaultApiBase
  {
    if env.Some? && env.value != [] then env.value else DefaultApiBase
  }

  /** The endpoint with one leading slash removed, if it has one. */
  function CleanEndpoint(endpoint: string): (r: string)
    ensures StartsWith(endpoint, "/") ==> endpoint == "/" + r
    ensures !StartsWith(endpoint, "/") ==> r == endpoint
  {
    if StartsWith(endpoint, "/") then endpoint[1..] else endpoint
  }

  function BuildApiUrl(base: string, endpoint: string): (url: string)
    ensures StartsWith(url, base + "/")
  {
    var u := base + "/" + CleanEndpoint(endpoint);
    assert u[..|base + "/"|] == base + "/";
    u
  }

  /** A leading slash is optional: "/x" and "x" name the same address, as long as "x" does not
      itself begin with a slash; an endpoint without one is inserted unchanged. */
  lemma LeadingSlashOptional(base: string, x: string)
    ensures !StartsWith(x, "/") ==> BuildApiUrl(base, "/" + x) == BuildApiUrl(base, x) == base + "/" + x
    ensures StartsWith(x, "/") ==> BuildApiUrl(base, "/" + x) == base + "/" + x
  {
    assert StartsWith("/" + x, "/");
    assert ("/" + x)[1..] == x;
  }

  /** Only one slash is removed: "//x" keeps one, so "//x" and "/x" give different addresses. */
  lemma OnlyOneSlashRemoved(base: string)
    ensures BuildApiUrl(base, "//orders") == base + "//orders"
    ensures BuildApiUrl(base, "//orders") != BuildApiUrl(base, "/orders")
  {
    assert StartsWith("//orders", "/") && "//orders"[1..] == "/orders";
    assert StartsWith("/orders", "/") && "/orders"[1..] == "orders";
    assert (base + "//orders")[|base| + 1] == '/';
    assert (base + "/orders")[|base| + 1] == 'o';
  }
}
