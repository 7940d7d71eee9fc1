/** The route guard of src/components/ProtectedRoute.tsx: a three-way
    decision on the authentication state alone. Its only prop is `children`;
    it never reads the profile, so it never redirects to onboarding. */
module Guard {
  import opened Common
  import opened DatabaseTypes

  /** What the guard renders: a spinner, a `<Navigate to replace>`, or its
      children. */
  datatype GuardOutcome =
    | Pending
    | Redirect(to: string, replace: bool)
    | RenderChildren

  const LoginPath: string := "/login"

  /** `ProtectedRoute`: loading is checked first, then the user. */
  function ProtectedRoute(auth: AuthState): (r: GuardOutcome)
    ensures r.Pending? <==> auth.loading
    ensures r.Redirect? <==> !auth.loading && auth.user.None?
    ensures r.Redirect? ==> r == Redirect(LoginPath, true)
    ensures r.RenderChildren? <==> !auth.loading && auth.user.Some?
  {
    if auth.loading then Pending
    else if auth.user.None? then Redirect(LoginPath, true)
    else RenderChildren
  }

  /** While the session check runs, nothing is redirected, even when a user
      is already known. */
  lemma NoRedirectWhileLoading(user: Option<User>)
    ensures ProtectedRoute(AuthState(user, true)) == Pending
  {
  }

  /** A signed-in user whose profile says onboarding is not done still gets
      the protected content: the profile plays no part in the decision. */
  lemma IncompleteProfileStillRendered(u: User, profile: Option<Profile>)
    requires profile.None? || !profile.value.onboardingCompleted
    ensures ProtectedRoute(AuthState(Some(u), false)) == RenderChildren
  {
  }
}
