/** The request middleware: route classification by path prefix, the redirect decision, and
    the security headers put on every response that passes through. */
module Middleware {
  import opened Text

  const ProtectedRoutes: seq<string> := ["/dashboard", "/settings", "/billing"]
  const AuthRoutes: seq<string> := ["/login", "/register", "/reset-password"]

  /** `routes.some(route => pathname.startsWith(route))`. */
  predicate AnyPrefix(routes: seq<string>, pathname: string)
    ensures AnyPrefix(routes, pathname) <==> exists k :: 0 <= k < |routes| && StartsWith(pathname, routes[k])
  {
    if |routes| == 0 then false
    else StartsWith(pathname, routes[0]) || AnyPrefix(routes[1..], pathname)
  }

  predicate IsProtectedRoute(pathname: string) {
    AnyPrefix(ProtectedRoutes, pathname)
  }

  predicate IsAuthRoute(pathname: string) {
    AnyPrefix(AuthRoutes, pathname)
  }

  datatype Decision = RedirectToLogin(redirect: string) | RedirectToDashboard | PassThrough

  /** The decision of `middleware` (lines 17-51) for a signed-in or anonymous visitor. */
  function Decide(signedIn: bool, pathname: string): (d: Decision)
    ensures d.RedirectToLogin? <==> IsProtectedRoute(pathname) && !signedIn
    ensures d.RedirectToLogin? ==> d.redirect == pathname
    ensures d == RedirectToDashboard <==> IsAuthRoute(pathname) && signedIn
  {
    ProtectedAuthDisjoint(pathname);
    if IsProtectedRoute(pathname) && !signedIn then RedirectToLogin(pathname)
    else if IsAuthRoute(pathname) && signedIn then RedirectToDashboard
    else PassThrough
  }

  /** No path is both protected and an auth route, so at most one redirect rule applies. */
  lemma ProtectedAuthDisjoint(pathname: string)
    ensures !(IsProtectedRoute(pathname) && IsAuthRoute(pathname))
  {
    if IsProtectedRoute(pathname) {
      var i :| 0 <= i < |ProtectedRoutes| && StartsWith(pathname, ProtectedRoutes[i]);
      assert pathname[1] == pathname[..|ProtectedRoutes[i]|][1] == ProtectedRoutes[i][1];
      forall j | 0 <= j < |AuthRoutes|
        ensures !StartsWith(pathname, AuthRoutes[j])
      {
        assert AuthRoutes[j][1] != ProtectedRoutes[i][1];
      }
    }
  }

  /** The test is a prefix test: '/dashboardx' is protected too. */
  lemma PrefixNotSegment()
    ensures IsProtectedRoute("/dashboardx") && !IsProtectedRoute("/dash")
  {
    assert StartsWith("/dashboardx", ProtectedRoutes[0]);
  }

  /** The five headers and their values (lines 56-74). */
  function SecurityHeaders(): (h: map<string, string>)
    ensures |h.Keys| == 5
  {
    map["X-Frame-Options" := "SAMEORIGIN",
        "X-Content-Type-Options" := "nosniff",
        "X-XSS-Protection" := "1; mode=block",
        "Referrer-Policy" := "strict-origin-when-cross-origin",
        "Permissions-Policy" := "camera=(), microphone=(), geolocation=(), interest-cohort=()"]
  }

  /** The response's headers after each `headers.set`: the five keys overwritten, all others kept. */
  function Secured(headers: map<string, string>): (h: map<string, string>)
    ensures h.Keys == headers.Keys + SecurityHeaders().Keys
    ensures forall k :: k in SecurityHeaders() ==> h[k] == SecurityHeaders()[k]
    ensures forall k :: k in headers && k !in SecurityHeaders() ==> h[k] == headers[k]
  {
    headers["X-Frame-Options" := "SAMEORIGIN"]
           ["X-Content-Type-Options" := "nosniff"]
           ["X-XSS-Protection" := "1; mode=block"]
           ["Referrer-Policy" := "strict-origin-when-cross-origin"]
           ["Permissions-Policy" := "camera=(), microphone=(), geolocation=(), interest-cohort=()"]
  }

  /** The mutable header list of a response. */
  class ResponseHeaders {
    var headers: map<string, string>

    constructor (initial: map<string, string>)
      ensures headers == initial
    {
      headers := initial;
    }

    /** applySecurityHeaders (lines 56-74): five `set` calls in order. */
    method ApplySecurityHeaders()
      modifies this
      ensures headers == Secured(old(headers))
    {
      headers := headers["X-Frame-Options" := "SAMEORIGIN"];
      headers := headers["X-Content-Type-Options" := "nosniff"];
      headers := headers["X-XSS-Protection" := "1; mode=block"];
      headers := headers["Referrer-Policy" := "strict-origin-when-cross-origin"];
      headers := headers["Permissions-Policy" := "camera=(), microphone=(), geolocation=(), interest-cohort=()"];
    }
  }

  /** middleware (lines 17-51): redirects carry no security headers; a pass-through response does. */
  method Handle(signedIn: bool, pathname: string, response: ResponseHeaders) returns (d: Decision)
    modifies response
    ensures d == Decide(signedIn, pathname)
    ensures response.headers == if d.PassThrough? then Secured(old(response.headers)) else old(response.headers)
  {
    var isProtectedRoute := AnyPrefix(ProtectedRoutes, pathname);
    var isAuthRoute := AnyPrefix(AuthRoutes, pathname);
    if isProtectedRoute && !signedIn {
      return RedirectToLogin(pathname);
    }
    if isAuthRoute && signedIn {
      return RedirectToDashboard;
    }
    response.ApplySecurityHeaders();
    d := PassThrough;
  }
}
