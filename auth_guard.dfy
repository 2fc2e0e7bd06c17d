/** The route guard (`authGuard`): lets navigation through when the session
    is authenticated, and otherwise refuses it and sends the user to the
    login page. */
module AuthGuard {
  import opened Domain
  import Session

  const LoginPath: string := "/login"

  /** The guard's answer and the navigation it requests, if any. */
  datatype Decision = Decision(allow: bool, redirect: Option<string>)

  /** The guard's decision on the current authentication state. */
  function CanActivate(state: AuthState): (d: Decision)
    ensures d.allow <==> state.isAuthenticated
    ensures d.redirect == if d.allow then None else Some(LoginPath)
  {
    if state.isAuthenticated then Decision(true, None)
    else Decision(false, Some(LoginPath))
  }

  /** Only `isAuthenticated` matters: neither the user nor the loading flag
      changes the decision. */
  lemma DecisionIgnoresUserAndLoading(a: AuthState, b: AuthState)
    requires a.isAuthenticated == b.isAuthenticated
    ensures CanActivate(a) == CanActivate(b)
  {
  }

  /** After `setCurrentUser` the guard lets navigation through; after
      `logout` it redirects to the login page. */
  lemma GuardFollowsSession(u: User)
    ensures CanActivate(Session.SignedIn(u)) == Decision(true, None)
    ensures CanActivate(Session.Anonymous()) == Decision(false, Some(LoginPath))
  {
  }
}
