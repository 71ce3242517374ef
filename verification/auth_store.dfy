/** The authentication store: who is signed in, their profile, and the two
    flags derived from the profile. The developer premium switch is a
    parameter. */
module AuthStore {
  import opened Wrappers
  import opened Records

  datatype AuthState = AuthState(
    user: Option<User>,
    session: Option<Session>,
    profile: Option<Profile>,
    loading: bool,
    isPremium: bool,
    hasCompletedOnboarding: bool)

  /** The state before anything is known */
  const Initial := AuthState(None, None, None, true, false, false)

  /** `EXPO_PUBLIC_DEV_PREMIUM === 'true'` */
  predicate DevPremium(flag: Option<string>) {
    flag == Some("true")
  }

  function SetUser(s: AuthState, user: Option<User>): (t: AuthState)
    ensures t.user == user
    ensures t.session == s.session && t.profile == s.profile && t.loading == s.loading
    ensures t.isPremium == s.isPremium && t.hasCompletedOnboarding == s.hasCompletedOnboarding
  {
    s.(user := user)
  }

  function SetSession(s: AuthState, session: Option<Session>): (t: AuthState)
    ensures t.session == session
    ensures t.user == s.user && t.profile == s.profile && t.loading == s.loading
    ensures t.isPremium == s.isPremium && t.hasCompletedOnboarding == s.hasCompletedOnboarding
  {
    s.(session := session)
  }

  function SetLoading(s: AuthState, loading: bool): (t: AuthState)
    ensures t.loading == loading
    ensures t.user == s.user && t.session == s.session && t.profile == s.profile
    ensures t.isPremium == s.isPremium && t.hasCompletedOnboarding == s.hasCompletedOnboarding
  {
    s.(loading := loading)
  }

  /** `checkPremiumStatus`: premium by the developer switch or by the profile */
  function CheckPremiumStatus(s: AuthState, flag: Option<string>): (t: AuthState)
    ensures t.isPremium <==> DevPremium(flag) || (s.profile.Some? && s.profile.value.isPremium)
    ensures t == s.(isPremium := t.isPremium)
  {
    s.(isPremium := DevPremium(flag) || (s.profile.Some? && s.profile.value.isPremium))
  }

  /** `setProfile(p)`, which ends with `checkPremiumStatus` */
  function SetProfile(s: AuthState, profile: Option<Profile>, flag: Option<string>): (t: AuthState)
    ensures t.profile == profile
    ensures t.hasCompletedOnboarding <==> profile.Some? && |profile.value.stylePrimary| > 0
    ensures t.isPremium <==> DevPremium(flag) || (profile.Some? && profile.value.isPremium)
    ensures profile.None? ==> (t.isPremium <==> DevPremium(flag))
    ensures t.user == s.user && t.session == s.session && t.loading == s.loading
  {
    var withProfile := s.(profile := profile, hasCompletedOnboarding := profile.Some? && |profile.value.stylePrimary| > 0);
    CheckPremiumStatus(withProfile, flag)
  }

  /** `signOut`, once the sign-out call has returned */
  function SignOut(s: AuthState): (t: AuthState)
    ensures t.user.None? && t.session.None? && t.profile.None?
    ensures !t.isPremium && !t.hasCompletedOnboarding
    ensures t.loading == s.loading
  {
    s.(user := None, session := None, profile := None, isPremium := false, hasCompletedOnboarding := false)
  }

  /** Signing out forgets the developer switch until a profile is set again:
      even with the switch on, the signed-out state is not premium, and
      setting a profile (any, even none) brings premium back. */
  lemma DevPremiumSurvivesOnlyThroughSetProfile(s: AuthState, profile: Option<Profile>)
    ensures !SignOut(s).isPremium
    ensures SetProfile(SignOut(s), profile, Some("true")).isPremium
  {
  }

  /** Signing out twice is signing out once, and signing out from the initial
      state changes nothing. */
  lemma SignOutIdempotent(s: AuthState)
    ensures SignOut(SignOut(s)) == SignOut(s)
    ensures SignOut(Initial) == Initial
  {
  }
}
