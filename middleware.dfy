/**
  The route guard run before every page request: public pages pass, a page under a protected
  section without a session cookie is redirected to the login page, everything else passes.
 */
module Middleware {
  const ProtectedRoutes: seq<string> := ["/dashboard", "/planet", "/map", "/fleet", "/alliance", "/market", "/settings"]
  const PublicRoutes: seq<string> := ["/", "/login"]
  const SessionCookie: string := "authjs.session-token"
  const SecureSessionCookie: string := "__Secure-authjs.session-token"

  datatype Decision = Next | RedirectToLogin(callbackUrl: string)

  /** A path under a protected section: it starts with one of the protected routes. */
  predicate IsProtected(path: string)
  {
    exists route :: route in ProtectedRoutes && route <= path
  }

  /** A request carries a session when either session cookie is set. */
  predicate HasSession(cookies: set<string>)
  {
    SessionCookie in cookies || SecureSessionCookie in cookies
  }

  /** middleware: the decision for a request to `path` carrying the cookies named in `cookies`. */
  function Decide(path: string, cookies: set<string>): Decision
  {
    if path in PublicRoutes then Next
    else if IsProtected(path) && !HasSession(cookies) then RedirectToLogin(path)
    else Next
  }

  /** "/" and "/login" pass whatever cookies come with them. */
  lemma PublicRoutesPass(cookies: set<string>)
    ensures Decide("/", cookies) == Next && Decide("/login", cookies) == Next
  {
  }

  /**
    A request is redirected exactly when its path is not public, lies under a protected
    section and no session cookie is set; the redirect carries the path to come back to.
   */
  lemma RedirectExactly(path: string, cookies: set<string>)
    ensures Decide(path, cookies).RedirectToLogin? <==>
      path !in PublicRoutes && IsProtected(path) && !HasSession(cookies)
    ensures Decide(path, cookies).RedirectToLogin? ==> Decide(path, cookies).callbackUrl == path
  {
  }

  /** Either cookie alone lets every path through. */
  lemma EitherCookieSuffices(path: string, cookies: set<string>)
    ensures Decide(path, cookies + {SessionCookie}) == Next
    ensures Decide(path, cookies + {SecureSessionCookie}) == Next
  {
  }

  /** The protected test is a bare prefix test: "/planetary" falls under "/planet". */
  lemma PrefixMatchesLongerNames()
    ensures IsProtected("/planetary")
    ensures Decide("/planetary", {}) == RedirectToLogin("/planetary")
  {
    assert "/planet" in ProtectedRoutes && "/planet" <= "/planetary";
  }

  /** Paths outside every protected section pass even without a session. */
  lemma UnprotectedPathsPass(path: string, cookies: set<string>)
    requires forall route :: route in ProtectedRoutes ==> !(route <= path)
    ensures Decide(path, cookies) == Next
  {
  }
}
