/**
 * The route gate run in front of page requests: a pure decision from the request's
 * pathname and from whether a session token could be read for it.
 */
module Middleware {
  import opened Wrappers
  import opened JsString
  import opened Auth

  /** A redirect target: a same-origin path and its query parameters, in order. */
  datatype Location = Location(path: string, query: seq<(string, string)>)

  datatype Decision = Next | Redirect(to: Location)

  const ProtectedRoutes: seq<string> := ["/upload"]
  const AuthRoutes: seq<string> := ["/login", "/register"]

  /** `routes.some((route) => pathname.startsWith(route))`. */
  predicate StartsWithAny(pathname: string, routes: seq<string>) {
    exists k :: 0 <= k < |routes| && StartsWith(pathname, routes[k])
  }

  predicate IsProtectedRoute(pathname: string) {
    StartsWithAny(pathname, ProtectedRoutes)
  }

  predicate IsAuthRoute(pathname: string) {
    StartsWithAny(pathname, AuthRoutes)
  }

  /** The login page, with the requested path carried as `callbackUrl`. */
  function LoginRedirect(pathname: string): Location {
    Location("/login", [("callbackUrl", pathname)])
  }

  /** The home page. */
  function HomeRedirect(): Location {
    Location("/", [])
  }

  /**
   * `middleware(request)`: an anonymous request for a protected path goes to the login
   * page, a signed-in request for the login or register page goes home, all else passes.
   */
  function Gate(pathname: string, token: Option<Claims>): (d: Decision)
    ensures d == Next || d == Redirect(LoginRedirect(pathname)) || d == Redirect(HomeRedirect())
    ensures d == Redirect(LoginRedirect(pathname)) <==> IsProtectedRoute(pathname) && token.None?
    ensures d == Redirect(HomeRedirect()) <==> IsAuthRoute(pathname) && token.Some?
  {
    if IsProtectedRoute(pathname) && token.None? then Redirect(LoginRedirect(pathname))
    else if IsAuthRoute(pathname) && token.Some? then Redirect(HomeRedirect())
    else Next
  }

  /** Any path beginning with "/upload" (including "/upload/x" and "/uploads") is protected. */
  lemma UploadPrefixIsProtected(pathname: string)
    requires StartsWith(pathname, "/upload")
    ensures IsProtectedRoute(pathname)
    ensures !IsAuthRoute(pathname)
    ensures Gate(pathname, None) == Redirect(Location("/login", [("callbackUrl", pathname)]))
    ensures forall c :: Gate(pathname, Some(c)) == Next
  {
    assert StartsWith(pathname, ProtectedRoutes[0]);
    assert pathname[1] == 'u';
  }

  /** The login and register pages: anonymous visitors pass, signed-in ones are sent home. */
  lemma AuthPagesForAnonymousOnly(pathname: string, c: Claims)
    requires StartsWith(pathname, "/login") || StartsWith(pathname, "/register")
    ensures Gate(pathname, None) == Next
    ensures Gate(pathname, Some(c)) == Redirect(Location("/", []))
  {
    if StartsWith(pathname, "/login") {
      assert StartsWith(pathname, AuthRoutes[0]);
    } else {
      assert StartsWith(pathname, AuthRoutes[1]);
    }
    assert pathname[1] != 'u';
    assert !StartsWith(pathname, ProtectedRoutes[0]);
  }

  /** A path in neither list passes whatever the token. */
  lemma UnlistedPathsPass(pathname: string, token: Option<Claims>)
    requires !IsProtectedRoute(pathname) && !IsAuthRoute(pathname)
    ensures Gate(pathname, token) == Next
  {
  }

  /** Only the presence of a token matters, never what it contains. */
  lemma TokenContentsIgnored(pathname: string, a: Claims, b: Claims)
    ensures Gate(pathname, Some(a)) == Gate(pathname, Some(b))
  {
  }

  /**
   * `config.matcher`: the gate runs for "/upload" and any path below it
   * ("/upload/:path*"), and for exactly "/login" and "/register".
   */
  predicate MatcherApplies(pathname: string): (b: bool)
    ensures b ==> IsProtectedRoute(pathname) || IsAuthRoute(pathname)
    ensures b ==> (IsProtectedRoute(pathname) <==> !IsAuthRoute(pathname))
  {
    var b := pathname == "/upload" || StartsWith(pathname, "/upload/")
      || pathname == "/login" || pathname == "/register";
    if pathname == "/upload" || StartsWith(pathname, "/upload/") then
      assert StartsWith(pathname, ProtectedRoutes[0]);
      assert !StartsWith(pathname, AuthRoutes[0]) && !StartsWith(pathname, AuthRoutes[1]) by {
        assert pathname[1] == 'u';
      }
      b
    else if pathname == "/login" || pathname == "/register" then
      assert StartsWith(pathname, AuthRoutes[0]) || StartsWith(pathname, AuthRoutes[1]);
      assert !StartsWith(pathname, ProtectedRoutes[0]) by {
        assert pathname[1] != 'u';
      }
      b
    else b
  }

  /** What a page request meets: the gate when the matcher selects the path, else nothing. */
  function HandleRequest(pathname: string, token: Option<Claims>): (d: Decision)
    ensures !MatcherApplies(pathname) ==> d == Next
    ensures MatcherApplies(pathname) ==> d == Gate(pathname, token)
  {
    if MatcherApplies(pathname) then Gate(pathname, token) else Next
  }

  /**
   * Under the matcher the gate's prefix tests are exact: a path it runs for is redirected
   * to the login page exactly when it is "/upload" or below and no token was found.
   */
  lemma MatchedPathsPolicy(pathname: string, token: Option<Claims>)
    requires MatcherApplies(pathname)
    ensures HandleRequest(pathname, token) == Redirect(LoginRedirect(pathname))
      <==> (pathname == "/upload" || StartsWith(pathname, "/upload/")) && token.None?
    ensures HandleRequest(pathname, token) == Redirect(HomeRedirect())
      <==> (pathname == "/login" || pathname == "/register") && token.Some?
  {
    if pathname == "/upload" || StartsWith(pathname, "/upload/") {
      assert StartsWith(pathname, "/upload");
      UploadPrefixIsProtected(pathname);
      assert pathname != "/login" && pathname != "/register" by {
        assert pathname[1] == 'u';
      }
    } else {
      assert StartsWith(pathname, "/login") || StartsWith(pathname, "/register");
      if token.Some? {
        AuthPagesForAnonymousOnly(pathname, token.value);
      } else {
        AuthPagesForAnonymousOnly(pathname, Claims(None, None));
      }
    }
  }

  /** "/uploads" is protected by the prefix test, yet the matcher never runs the gate for it. */
  lemma UploadsSiblingNotGated(token: Option<Claims>)
    ensures IsProtectedRoute("/uploads")
    ensures HandleRequest("/uploads", token) == Next
  {
    UploadPrefixIsProtected("/uploads");
    assert !StartsWith("/uploads", "/upload/") by {
      assert "/uploads"[7] != "/upload/"[7];
    }
  }
}
