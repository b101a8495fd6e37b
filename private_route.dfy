/** The guard around every signed-in page (src/components/PrivateRoute.tsx). */
module PrivateRoute {
  import opened Common
  import Auth

  /** What the guard renders. */
  datatype Outcome = Spinner | Redirect(to: string) | RenderChildren

  /** Pages that are never sent to onboarding. */
  const ExcludeFromOnboarding: seq<string> := ["/onboarding"]

  /** `!user.company`: an absent or empty company name. */
  predicate LacksCompany(user: Auth.UserProfile)
  {
    user.company.None? || user.company.value == ""
  }

  /** The guard's decision: a spinner while the session is being restored,
      the login page with nobody signed in, the onboarding page for an
      account without a company (unless already there), the page otherwise. */
  function Decide(isLoading: bool, user: Option<Auth.UserProfile>, pathname: string): (r: Outcome)
    ensures r == Spinner <==> isLoading
    ensures r == Redirect("/login") <==> !isLoading && user.None?
    ensures r == Redirect("/onboarding") <==>
      !isLoading && user.Some? && LacksCompany(user.value) && pathname != "/onboarding"
    ensures r == RenderChildren <==>
      !isLoading && user.Some? && (!LacksCompany(user.value) || pathname == "/onboarding")
    ensures r.Redirect? ==> r.to == "/login" || r.to == "/onboarding"
  {
    if isLoading then Spinner
    else if user.None? then Redirect("/login")
    else if LacksCompany(user.value) && pathname !in ExcludeFromOnboarding then Redirect("/onboarding")
    else RenderChildren
  }

  /** The guard's decision for the live session of an auth provider. */
  function RouteFor(auth: Auth.AuthProvider, pathname: string): (r: Outcome)
    reads auth
    ensures r == RenderChildren ==> auth.IsAuthenticated()
  {
    Decide(auth.isLoading, auth.user, pathname)
  }

  /** The onboarding page never redirects to itself, so no redirect loop. */
  lemma OnboardingDoesNotLoop(isLoading: bool, user: Option<Auth.UserProfile>)
    ensures Decide(isLoading, user, "/onboarding") != Redirect("/onboarding")
    ensures !isLoading && user.Some? ==> Decide(isLoading, user, "/onboarding") == RenderChildren
  {
  }

  /** A freshly signed-up account has no company, so every guarded page but
      onboarding sends it to onboarding. */
  lemma NewAccountIsOnboarded(email: string, name: string, now: int, pathname: string)
    requires pathname != "/onboarding"
    ensures Decide(false, Some(Auth.NewAccount(email, name, now)), pathname) == Redirect("/onboarding")
  {
  }

  /** The demonstration account has a company and reaches every guarded page. */
  lemma DemoUserIsAdmitted(now: int, pathname: string)
    ensures Decide(false, Some(Auth.DemoUser(now)), pathname) == RenderChildren
  {
  }
}
