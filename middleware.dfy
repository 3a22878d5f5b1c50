/** The request guard (middleware.ts): an unauthenticated request for a
    protected path is sent to the sign-in page; everything else passes. */
module Middleware {
  import opened Optional
  import Text

  /** `protectedRoutes`. */
  const ProtectedRoutes: seq<string> := ["/admin", "/order"]

  /** The guard's answer. */
  datatype Response = Redirect(location: string) | Next

  /** `!userId` is false: a user id is present and not empty. */
  predicate Authenticated(userId: Option<string>)
    ensures Authenticated(userId) ==> userId.Some?
    ensures userId == Some("") ==> !Authenticated(userId)
  {
    userId.Some? && userId.value != ""
  }

  /** `protectedRoutes.some(route => pathname.startsWith(route))`. */
  predicate IsProtected(pathname: string)
    ensures IsProtected(pathname) <==> Text.StartsWith(pathname, "/admin") || Text.StartsWith(pathname, "/order")
  {
    assert ProtectedRoutes[0] == "/admin" && ProtectedRoutes[1] == "/order";
    exists i :: 0 <= i < |ProtectedRoutes| && Text.StartsWith(pathname, ProtectedRoutes[i])
  }

  /** The guard. The e-mail restriction for "/admin" is commented out in
      the source, so an authenticated user passes everywhere. */
  function Guard(userId: Option<string>, pathname: string): (r: Response)
    ensures r.Redirect? <==> !Authenticated(userId) && IsProtected(pathname)
    ensures r.Redirect? ==> r.location == "/sign-in"
  {
    if !Authenticated(userId) && IsProtected(pathname) then Redirect("/sign-in") else Next
  }

  /** Protection is a raw prefix test: "/admin" and "/order" themselves,
      anything below them, and also "/administrator" and "/orders". */
  lemma ProtectedByPrefix()
    ensures IsProtected("/admin") && IsProtected("/order")
    ensures IsProtected("/admin/roles") && IsProtected("/order/123")
    ensures IsProtected("/administrator") && IsProtected("/orders")
  {
    assert Text.StartsWith("/admin", ProtectedRoutes[0]);
    assert Text.StartsWith("/order", ProtectedRoutes[1]);
    assert Text.StartsWith("/admin/roles", ProtectedRoutes[0]);
    assert Text.StartsWith("/order/123", ProtectedRoutes[1]);
    assert Text.StartsWith("/administrator", ProtectedRoutes[0]);
    assert Text.StartsWith("/orders", ProtectedRoutes[1]);
  }

  /** A path under "/track" is never protected, so it is never redirected,
      signed in or not. */
  lemma TrackNeverRedirected(userId: Option<string>, rest: string)
    ensures Guard(userId, "/track" + rest) == Next
  {
    var p := "/track" + rest;
    assert p[1] == 't';
    assert !Text.StartsWith(p, ProtectedRoutes[0]) by { assert ProtectedRoutes[0][1] == 'a'; }
    assert !Text.StartsWith(p, ProtectedRoutes[1]) by { assert ProtectedRoutes[1][1] == 'o'; }
  }

  /** An authenticated user is never redirected. */
  lemma AuthenticatedPasses(userId: Option<string>, pathname: string)
    requires Authenticated(userId)
    ensures Guard(userId, pathname) == Next
  {
  }
}
