/** The route guard (`src/middleware.ts`), modelled for every path; the
    framework's matcher, which keeps some paths away from it, is not
    modelled. Public and static paths pass, a request without a session
    gets a 401 on the task API and a redirect to the login page elsewhere.
    Whether a session token is present is decided outside (token decoding);
    the model receives the answer and reports whether it was asked for. */
module Middleware {
  import opened Strings

  const PublicRoutes: seq<string> := [
    "/login",
    "/register",
    "/api/auth/register",
    "/api/auth/signin",
    "/api/auth/session",
    "/api/auth/callback",
    "/api/auth/csrf",
    "/api/auth/signout"
  ]

  const ProtectedApiRoutes: seq<string> := ["/api/tarefas"]

  const UnauthorizedBody := "{\"error\":\"Não autorizado. Faça login para continuar.\"}"

  /** The three things the guard can do with a request. */
  datatype Decision =
    | Next
    | Unauthorized(status: int, body: string)
    | RedirectToLogin(path: string, callbackUrl: string)

  /** The decision, and whether the session token had to be read for it. */
  datatype Guarded = Guarded(decision: Decision, sessionRead: bool)

  /** Some entry of `routes` is a prefix of `path`. */
  predicate MatchesAny(path: string, routes: seq<string>) {
    exists k :: 0 <= k < |routes| && StartsWith(path, routes[k])
  }

  predicate IsPublic(path: string) {
    MatchesAny(path, PublicRoutes)
  }

  /** Framework assets, the icon, images, and anything that looks like a
      file name. */
  predicate IsStatic(path: string) {
    || StartsWith(path, "/_next")
    || StartsWith(path, "/favicon.ico")
    || StartsWith(path, "/images")
    || '.' in path
  }

  /** `middleware(request)`: `path` is the request's pathname, `url` its full
      URL, `hasSession` whether a session token is present, and `encodeUri`
      JavaScript's `encodeURI`. */
  function Guard(path: string, url: string, hasSession: bool, encodeUri: string -> string): (r: Guarded)
    ensures r.sessionRead <==> !IsPublic(path) && !IsStatic(path)
    ensures r.decision.Next? <==> IsPublic(path) || IsStatic(path) || hasSession
    ensures r.decision.Unauthorized? <==>
      !IsPublic(path) && !IsStatic(path) && !hasSession && MatchesAny(path, ProtectedApiRoutes)
    ensures r.decision.Unauthorized? ==> r.decision == Unauthorized(401, UnauthorizedBody)
    ensures r.decision.RedirectToLogin? ==> r.decision == RedirectToLogin("/login", encodeUri(url))
  {
    if IsPublic(path) then Guarded(Next, false)
    else if IsStatic(path) then Guarded(Next, false)
    else if !hasSession then
      if MatchesAny(path, ProtectedApiRoutes) then Guarded(Unauthorized(401, UnauthorizedBody), true)
      else Guarded(RedirectToLogin("/login", encodeUri(url)), true)
    else Guarded(Next, true)
  }

  /** Matching is by prefix: every extension of a public path is public. */
  lemma PublicIsPrefixClosed(path: string, more: string)
    requires IsPublic(path)
    ensures IsPublic(path + more)
  {
    var k :| 0 <= k < |PublicRoutes| && StartsWith(path, PublicRoutes[k]);
    StartsWithAppend(path, PublicRoutes[k], more);
  }

  /** A public path passes, whatever the session and whatever follows the
      public prefix. */
  lemma PublicPassesAlways(path: string, more: string, url: string, s: bool, encodeUri: string -> string)
    requires IsPublic(path)
    ensures Guard(path + more, url, s, encodeUri) == Guarded(Next, false)
  {
    PublicIsPrefixClosed(path, more);
  }

  /** When the session is not read, its value cannot matter. */
  lemma SessionIrrelevantWhenUnread(path: string, url: string, encodeUri: string -> string)
    requires !Guard(path, url, true, encodeUri).sessionRead
    ensures Guard(path, url, true, encodeUri) == Guard(path, url, false, encodeUri)
  {
  }

  /** Some concrete paths. */
  lemma Examples(encodeUri: string -> string)
    ensures Guard("/login/x", "u", false, encodeUri).decision == Next
    ensures Guard("/api/tarefas/7", "u", false, encodeUri).decision == Unauthorized(401, UnauthorizedBody)
    ensures Guard("/", "u", false, encodeUri).decision == RedirectToLogin("/login", encodeUri("u"))
    ensures Guard("/logo.png", "u", false, encodeUri).decision == Next
    ensures Guard("/", "u", true, encodeUri).decision == Next
  {
    assert StartsWith("/login/x", PublicRoutes[0]);
    assert StartsWith("/api/tarefas/7", ProtectedApiRoutes[0]);
    assert '.' in "/logo.png";
    var api := "/api/tarefas/7";
    MismatchNotPrefix(api, "/_next", 1);
    MismatchNotPrefix(api, "/favicon.ico", 1);
    MismatchNotPrefix(api, "/images", 1);
    assert '.' !in api by {
      forall k | 0 <= k < |api|
        ensures api[k] != '.'
      {
      }
    }
    assert !IsPublic(api) by {
      MismatchNotPrefix(api, PublicRoutes[0], 1);
      MismatchNotPrefix(api, PublicRoutes[1], 1);
      MismatchNotPrefix(api, PublicRoutes[2], 5);
      MismatchNotPrefix(api, PublicRoutes[3], 5);
      MismatchNotPrefix(api, PublicRoutes[4], 5);
      MismatchNotPrefix(api, PublicRoutes[5], 5);
      MismatchNotPrefix(api, PublicRoutes[6], 5);
      MismatchNotPrefix(api, PublicRoutes[7], 5);
    }
    assert !IsPublic("/");
  }
}
