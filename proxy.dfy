/** The request middleware: every address under "/login" is sent to the
    dashboard, since the application always runs signed in as one user; every
    other address goes through unchanged. */
module Proxy {
  import opened Text

  datatype Outcome = Redirect(location: string) | PassThrough

  const LoginPath: string := "/login"
  const Dashboard: string := "/dashboard"

  /** `middleware`: the test on the path name as the source writes it, an
      exact comparison or a prefix test. */
  function Middleware(pathname: string): (o: Outcome)
    ensures o.Redirect? ==> o.location == Dashboard
    ensures o == PassThrough <==> !StartsWith(pathname, LoginPath)
  {
    if pathname == LoginPath || StartsWith(pathname, LoginPath) then Redirect(Dashboard) else PassThrough
  }

  /** The exact comparison adds nothing: "/login" itself starts with "/login". */
  lemma ExactTestSubsumed(pathname: string)
    ensures (pathname == LoginPath || StartsWith(pathname, LoginPath)) == StartsWith(pathname, LoginPath)
  {
    if pathname == LoginPath {
      assert pathname[..|LoginPath|] == pathname;
    }
  }

  /** The prefix test is textual, so sub-paths and longer names are redirected too. */
  lemma LongerLoginPathsRedirect()
    ensures Middleware("/login") == Redirect(Dashboard)
    ensures Middleware("/login/x") == Redirect(Dashboard)
    ensures Middleware("/loginfoo") == Redirect(Dashboard)
    ensures Middleware("/dashboard") == PassThrough
  {
    assert "/login/x"[..6] == LoginPath;
    assert "/loginfoo"[..6] == LoginPath;
    assert "/dashboard"[1] != LoginPath[1];
  }

  /** The path prefixes the route matcher excludes from the middleware. */
  predicate Excluded(pathname: string)
  {
    StartsWith(pathname, "/api") || StartsWith(pathname, "/_next/static")
    || StartsWith(pathname, "/_next/image") || StartsWith(pathname, "/favicon.ico")
  }

  /** The matcher never keeps the middleware away from a login address. */
  lemma LoginPathsReachMiddleware(pathname: string)
    requires StartsWith(pathname, LoginPath)
    ensures !Excluded(pathname)
  {
    assert pathname[1] == 'l';
  }
}
