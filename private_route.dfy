/** The route guard: protected content only for an authenticated session. */
module PrivateRoute {
  import opened Wrappers
  import opened AuthContext

  /** What the guard renders: a redirect (with its `replace` flag) or the protected element. */
  datatype Route<+T> = Redirect(to: string, replace: bool) | Render(element: T)

  /** `PrivateRoute({children})` under the context state `ctx`. */
  function Guard<T>(ctx: AuthState, children: T): (r: Route<T>)
    ensures r.Redirect? <==> !ctx.isAuthenticated
    ensures r.Redirect? ==> r.to == LoginPath && r.replace
    ensures r.Render? ==> r.element == children
  {
    if !ctx.isAuthenticated then Redirect(LoginPath, true) else Render(children)
  }

  /** The decision reads `isAuthenticated` only: the user and the token do not matter. */
  lemma GuardReadsOnlyAuthenticated<T>(a: AuthState, b: AuthState, children: T)
    requires a.isAuthenticated == b.isAuthenticated
    ensures Guard(a, children) == Guard(b, children)
  {
  }

  /** In a consistent state the guard lets through exactly the sessions that hold a token. */
  lemma GuardAdmitsTokenHolders<T>(ctx: AuthState, children: T)
    requires ctx.Consistent()
    ensures Guard(ctx, children).Render? <==> ctx.token.Some?
  {
  }

  /** After a logout every guarded route redirects to the login page. */
  lemma GuardAfterLogout<T>(s: Session, children: T)
    ensures Guard(LogoutStep(s).auth, children) == Redirect(LoginPath, true)
  {
  }

  /** Outside a provider the context is anonymous, so every guarded route redirects. */
  lemma GuardOutsideProvider<T>(children: T)
    ensures Guard(UseAuthContext(None), children) == Redirect(LoginPath, true)
  {
  }
}
