/** The start screen: where the app sends the user once the session is known. */
module IndexRedirect {
  import opened Wrappers
  import opened Records
  import opened AuthStore

  datatype Route = AuthScreen | OnboardingStep1 | Tabs {
    function Path(): string {
      match this
      case AuthScreen => "/auth"
      case OnboardingStep1 => "/onboarding/1"
      case Tabs => "/(tabs)"
    }
  }

  /** None while loading (the spinner stays); afterwards exactly one route */
  function Redirect(s: AuthState): (r: Option<Route>)
    ensures r.None? <==> s.loading
    ensures r == Some(AuthScreen) <==> !s.loading && s.user.None?
    ensures r == Some(OnboardingStep1) <==> !s.loading && s.user.Some? && !s.hasCompletedOnboarding
    ensures r == Some(Tabs) <==> !s.loading && s.user.Some? && s.hasCompletedOnboarding
  {
    if s.loading then None
    else if s.user.None? then Some(AuthScreen)
    else if !s.hasCompletedOnboarding then Some(OnboardingStep1)
    else Some(Tabs)
  }

  /** The three routes are distinct paths. */
  lemma PathsDistinct()
    ensures AuthScreen.Path() != OnboardingStep1.Path()
    ensures AuthScreen.Path() != Tabs.Path()
    ensures OnboardingStep1.Path() != Tabs.Path()
  {
  }

  /** Once loaded, signing out always leads to the sign-in screen. */
  lemma SignOutGoesToAuth(s: AuthState)
    requires !s.loading
    ensures Redirect(SignOut(s)) == Some(AuthScreen)
  {
  }

  /** The store's transitions from a loaded, signed-in state: a profile with
      a primary style leads to the tabs, one without (or none) to the first
      onboarding step, whatever the premium status. */
  lemma ProfileDecidesOnboarding(s: AuthState, profile: Option<Profile>, flag: Option<string>)
    requires !s.loading && s.user.Some?
    ensures Redirect(SetProfile(s, profile, flag)) ==
      Some(if profile.Some? && |profile.value.stylePrimary| > 0 then Tabs else OnboardingStep1)
  {
  }

  /** Nothing is decided before loading ends: the initial state stays put. */
  lemma InitialWaits()
    ensures Redirect(Initial).None?
    ensures Redirect(SetLoading(Initial, false)) == Some(AuthScreen)
  {
  }
}
