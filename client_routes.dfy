/**
 * The page script's pure builders: which page the query selects, which
 * origin the backend is reached at, and the URL the offer locker is told
 * to send the browser back to.
 */
module ClientRoutes {
  import opened JsText

  /** The backend's port in development. */
  const DEV_BACKEND_PORT: string := ":3080"

  /** The backend origin when there is no `window.location`. */
  const FALLBACK_BACKEND: string := "http://localhost:3080"

  /** The route the backend redeems offer tokens on, with its query key. */
  const OFFER_COMPLETE_PATH: string := "/offer-complete?token="

  const HOME: string := "home"
  const SIGNUP: string := "signup"
  const SIGNIN: string := "signin"

  // ---------------------------------------------------------------------
  // getPageFromQuery

  predicate IsAuthPage(p: string)
  {
    p == SIGNUP || p == SIGNIN
  }

  /** `getPageFromQuery`; `page` is `params.get("page")`, `None` for null. */
  function PageFromQuery(page: Option<string>): (r: string)
    ensures r == HOME || IsAuthPage(r)
    ensures IsAuthPage(r) ==> page == Some(r)
    ensures page.Some? && IsAuthPage(page.value) ==> r == page.value
  {
    if page.Some? && IsAuthPage(page.value) then page.value else HOME
  }

  /** Routing to the page the router chose selects that page again: the
      chosen page is a fixed point (the router writes `?page=<page>`). */
  lemma PageIsFixedPoint(page: Option<string>)
    ensures PageFromQuery(Some(PageFromQuery(page))) == PageFromQuery(page)
  {
  }

  // ---------------------------------------------------------------------
  // getBackendOrigin

  /** The parts of `window.location` the script reads. */
  datatype Location = Location(protocol: string, hostname: string, origin: string)

  predicate IsLoopback(host: string)
  {
    host == "localhost" || host == "127.0.0.1"
  }

  /** The origin a loopback page reaches the development backend at. */
  function DevBackend(loc: Location): string
  {
    loc.protocol + "//" + loc.hostname + DEV_BACKEND_PORT
  }

  /** `getBackendOrigin`; `location` is `None` when there is no window or
      no `window.location`. Off loopback, the backend is the page's own
      origin, so the session cookie goes with every request. */
  function BackendOrigin(location: Option<Location>): (r: string)
    ensures location.None? ==> r == FALLBACK_BACKEND
    ensures location.Some? && !IsLoopback(location.value.hostname) ==> r == location.value.origin
    ensures location.Some? && IsLoopback(location.value.hostname) ==> r == DevBackend(location.value)
  {
    match location
    case None => FALLBACK_BACKEND
    case Some(loc) => if IsLoopback(loc.hostname) then DevBackend(loc) else loc.origin
  }

  /** Whenever the page itself is served by the backend (any production
      host, or a loopback host on port 3080), the script talks to the
      page's own origin. */
  lemma SameOriginWhenServedByBackend(loc: Location)
    requires !IsLoopback(loc.hostname) || loc.origin == DevBackend(loc)
    ensures BackendOrigin(Some(loc)) == loc.origin
  {
  }

  // ---------------------------------------------------------------------
  // The offer redirect URL

  /** `API_BASE_URL + "/offer-complete?token=" + encodeURIComponent(token)`,
      given the encoded token: a URL on the API base's redemption route
      whose tail after the route and query key is exactly the encoded
      token. */
  function OfferRedirectUrl(apiBase: string, encodedToken: string): (url: string)
    ensures StartsWith(url, apiBase + OFFER_COMPLETE_PATH)
    ensures url[|apiBase + OFFER_COMPLETE_PATH|..] == encodedToken
  {
    apiBase + OFFER_COMPLETE_PATH + encodedToken
  }
}
