/**
 * The `origin` option the backend gives its CORS middleware: which value
 * the `Access-Control-Allow-Origin` header carries for a request.
 */
module CorsOrigin {
  import opened JsText

  /** The origins the backend answers to: `FRONTEND_URL`, and, when that URL
      names `localhost`, the same URL with its first `localhost` replaced by
      `127.0.0.1`. */
  function AllowedOrigins(frontendUrl: string): (allowed: seq<string>)
    ensures 1 <= |allowed| <= 2 && allowed[0] == frontendUrl
    ensures |allowed| == 2 <==> IndexOf(frontendUrl, "localhost") != -1
    ensures |allowed| == 2 ==> allowed[1] == ReplaceFirst(frontendUrl, "localhost", "127.0.0.1")
  {
    [frontendUrl] +
    if IndexOf(frontendUrl, "localhost") != -1
    then [ReplaceFirst(frontendUrl, "localhost", "127.0.0.1")]
    else []
  }

  /** The origin callback; `origin` is the request's `Origin` header, the
      empty string when there is none. A listed origin is echoed back; a
      missing or unlisted one gets `FRONTEND_URL`, so no other site is ever
      named in the header. */
  function ChooseOrigin(frontendUrl: string, origin: string): (r: string)
    ensures r in AllowedOrigins(frontendUrl)
    ensures origin in AllowedOrigins(frontendUrl) ==> r == origin
    ensures origin !in AllowedOrigins(frontendUrl) ==> r == frontendUrl
  {
    var allowed := AllowedOrigins(frontendUrl);
    if origin == "" || origin in allowed then
      (if origin != "" then origin else allowed[0])
    else allowed[0]
  }

  /** In development (`FRONTEND_URL` such as `http://localhost:3080`), a
      page opened on 127.0.0.1 is answered with its own origin, like one
      opened on localhost; any other site still gets `FRONTEND_URL`. */
  lemma DevelopmentAliases(scheme: string, rest: string, origin: string)
    requires 'l' !in scheme
    ensures var f := scheme + "localhost" + rest;
      var alias := scheme + "127.0.0.1" + rest;
      && AllowedOrigins(f) == [f, alias]
      && ChooseOrigin(f, alias) == alias
      && (origin != f && origin != alias ==> ChooseOrigin(f, origin) == f)
  {
    var f := scheme + "localhost" + rest;
    var n := |scheme|;
    assert OccursAt(f, "localhost", n) by {
      assert f[n..n + 9] == "localhost";
    }
    forall j | 0 <= j < n ensures !OccursAt(f, "localhost", j) {
      assert f[j] == scheme[j];
    }
    assert IndexOf(f, "localhost") == n;
    assert f[..n] == scheme && f[n + 9..] == rest;
  }

  /** In production, where the URL does not name localhost, the only origin
      ever sent is the URL itself. */
  lemma ProductionSingleOrigin(frontendUrl: string, origin: string)
    requires IndexOf(frontendUrl, "localhost") == -1
    ensures AllowedOrigins(frontendUrl) == [frontendUrl]
    ensures ChooseOrigin(frontendUrl, origin) == frontendUrl
  {
  }
}
