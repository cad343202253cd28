/** The two route guards: what a protected page and a public (sign-in,
    sign-up) page render for a given authentication state. */
module RouteGuard {
  import opened Types

  datatype Decision = Spinner | Redirect(path: string) | RenderChildren

  /** `preferences?.onboardingCompleted` is truthy. */
  predicate OnboardingDone(preferences: Option<PartialPreferences>) {
    preferences.Some? && preferences.value.onboardingCompleted == Some(true)
  }

  /** `ProtectedRoute`. */
  function ProtectedRoute(isInitialized: bool, isLoading: bool, user: Option<AppUser>): (d: Decision)
    ensures d == Spinner <==> !isInitialized || isLoading
    ensures d == Redirect("/login") <==> isInitialized && !isLoading && user.None?
    ensures d == RenderChildren <==> isInitialized && !isLoading && user.Some?
  {
    if !isInitialized || isLoading then Spinner
    else if user.None? then Redirect("/login")
    else RenderChildren
  }

  /** `PublicRoute`. */
  function PublicRoute(isInitialized: bool, isLoading: bool, user: Option<AppUser>,
                       preferences: Option<PartialPreferences>): (d: Decision)
    ensures d == Spinner <==> !isInitialized || isLoading
    ensures d == RenderChildren <==> isInitialized && !isLoading && user.None?
    ensures d == Redirect("/") <==> isInitialized && !isLoading && user.Some? && OnboardingDone(preferences)
    ensures d == Redirect("/onboarding") <==> isInitialized && !isLoading && user.Some? && !OnboardingDone(preferences)
  {
    if !isInitialized || isLoading then Spinner
    else if user.Some? then (if OnboardingDone(preferences) then Redirect("/") else Redirect("/onboarding"))
    else RenderChildren
  }

  /** Once the state is settled the two guards never both render their page:
      exactly one of them sends the visitor elsewhere. */
  lemma GuardsAreComplementary(isInitialized: bool, isLoading: bool, user: Option<AppUser>,
                               preferences: Option<PartialPreferences>)
    requires isInitialized && !isLoading
    ensures (ProtectedRoute(isInitialized, isLoading, user) == RenderChildren)
        != (PublicRoute(isInitialized, isLoading, user, preferences) == RenderChildren)
  {
  }
}
