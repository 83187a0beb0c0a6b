/**
 * The request gate that runs before every page: the login page is always served,
 * any other page needs the `employee_token` cookie, and without it the browser is
 * sent to the login page.
 */
module Middleware {

  const LoginPath: string := "/login"
  const TokenCookie: string := "employee_token"

  /** `NextResponse.next()` or `NextResponse.redirect(new URL(location, req.url))`. */
  datatype Response = Next | Redirect(location: string)

  /**
   * The decision for a request to `pathname` carrying the cookie jar `cookies` (name to value).
   * Only the presence of the token cookie is looked at, never its value.
   */
  function Decide(pathname: string, cookies: map<string, string>): (r: Response)
    ensures pathname == LoginPath ==> r == Next
    ensures pathname != LoginPath ==> (r == Next <==> TokenCookie in cookies)
    ensures r.Redirect? ==> r.location == LoginPath && pathname != LoginPath
  {
    if pathname == LoginPath then Next
    else if TokenCookie !in cookies then Redirect(LoginPath)
    else Next
  }

  /** The decision depends only on the path and on whether the token cookie exists. */
  lemma OnlyPresenceMatters(pathname: string, a: map<string, string>, b: map<string, string>)
    requires (TokenCookie in a) == (TokenCookie in b)
    ensures Decide(pathname, a) == Decide(pathname, b)
  {
  }

  /** A token cookie whose value is empty still lets the request through. */
  lemma EmptyTokenPasses(pathname: string, cookies: map<string, string>)
    ensures Decide(pathname, cookies[TokenCookie := ""]) == Next
  {
  }

  /** Following a redirect lands on a page the gate always serves, so redirects never loop. */
  lemma NoRedirectLoop(pathname: string, cookies: map<string, string>)
    requires Decide(pathname, cookies).Redirect?
    ensures Decide(Decide(pathname, cookies).location, cookies) == Next
  {
  }
}
