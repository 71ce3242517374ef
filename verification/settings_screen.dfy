/** The settings screen: what it shows of the account and of the style
    preferences, and the label of the comfort/style preference. */
module SettingsScreen {
  import opened Wrappers
  import opened Seqs
  import opened Records

  /** What the preference screen of onboarding stores as `preference_balance` */
  const OnboardingBalances: seq<string> := ["style_first", "balanced", "comfort_first"]

  /** The three French labels of a known preference */
  const KnownLabels: set<string> := {"Confort", "Équilibré", "Stylé"}

  /** `getBalanceLabel` as written: it knows `comfort`, `balanced` and `style`. */
  function BalanceLabel(balance: Option<string>): (text: string)
    ensures !Truthy(balance) ==> text == "Non défini"
    ensures balance == Some("comfort") ==> text == "Confort"
    ensures balance == Some("balanced") ==> text == "Équilibré"
    ensures balance == Some("style") ==> text == "Stylé"
    ensures Truthy(balance) && balance.value !in {"comfort", "balanced", "style"} ==> text == balance.value
  {
    if !Truthy(balance) then "Non défini"
    else if balance.value == "comfort" then "Confort"
    else if balance.value == "balanced" then "Équilibré"
    else if balance.value == "style" then "Stylé"
    else balance.value
  }

  /** Two of the three values onboarding stores are shown as raw ids. */
  lemma OnboardingBalancesShownRaw()
    ensures BalanceLabel(Some("comfort_first")) == "comfort_first"
    ensures BalanceLabel(Some("style_first")) == "style_first"
    ensures BalanceLabel(Some("comfort_first")) !in KnownLabels && BalanceLabel(Some("style_first")) !in KnownLabels
    ensures BalanceLabel(Some("balanced")) == "Équilibré"
  {
  }

  /** The label with the ids onboarding stores added to the ones it knows */
  function BalanceLabelCorrected(balance: Option<string>): (text: string)
    ensures !Truthy(balance) ==> text == "Non défini"
    ensures Truthy(balance) && balance.value in {"comfort", "comfort_first"} ==> text == "Confort"
    ensures balance == Some("balanced") ==> text == "Équilibré"
    ensures Truthy(balance) && balance.value in {"style", "style_first"} ==> text == "Stylé"
    ensures Truthy(balance) && balance.value !in {"comfort", "comfort_first", "balanced", "style", "style_first"} ==>
              text == balance.value
  {
    if Truthy(balance) && balance.value == "comfort_first" then "Confort"
    else if Truthy(balance) && balance.value == "style_first" then "Stylé"
    else BalanceLabel(balance)
  }

  /** With the correction every value onboarding can store gets a French
      label, and the values the original knew keep theirs. */
  lemma CorrectedLabelsOnboarding(balance: Option<string>)
    ensures balance.Some? && balance.value in OnboardingBalances ==> BalanceLabelCorrected(balance) in KnownLabels
    ensures balance.Some? && balance.value !in {"comfort_first", "style_first"} ==>
              BalanceLabelCorrected(balance) == BalanceLabel(balance)
  {
  }

  /** A list preference: joined with ", ", or "Non défini" when absent or empty */
  function ListShown(xs: Option<seq<string>>): (text: string)
    ensures xs.None? || xs.value == [] ==> text == "Non défini"
    ensures xs.Some? && |xs.value| == 1 ==> text == xs.value[0]
    ensures xs.Some? && |xs.value| > 1 ==> text == xs.value[0] + ", " + Join(xs.value[1..], ", ")
  {
    if xs.Some? && |xs.value| > 0 then Join(xs.value, ", ") else "Non défini"
  }

  /** What the screen shows */
  datatype SettingsView = SettingsView(
    email: string,
    plan: string,
    quotaHint: Option<string>,
    stylePrimary: string,
    mainContext: string,
    balance: string,
    improvementGoals: string)

  /** The stored `preference_balance`, if there is a profile */
  function BalanceOf(profile: Option<Profile>): Option<string> {
    if profile.Some? then profile.value.preferenceBalance else None
  }

  function SettingsViewOf(user: Option<User>, profile: Option<Profile>, isPremium: bool): (v: SettingsView)
    ensures v.quotaHint.Some? <==> !isPremium
    ensures v.quotaHint.Some? ==> v.quotaHint.value == "(3 actions/semaine)"
    ensures v.plan == (if isPremium then "⭐ Premium" else "Gratuit")
    ensures user.None? || !Truthy(user.value.email) ==> v.email == "Non connecté"
    ensures user.Some? && Truthy(user.value.email) ==> v.email == user.value.email.value
    ensures profile.None? ==>
              v.stylePrimary == "Non défini" && v.mainContext == "Non défini" && v.improvementGoals == "Non défini"
    ensures profile.Some? && profile.value.stylePrimary == [] ==> v.stylePrimary == "Non défini"
    ensures profile.Some? && profile.value.stylePrimary != [] ==> v.stylePrimary == Join(profile.value.stylePrimary, ", ")
    ensures profile.Some? && profile.value.improvementGoals == [] ==> v.improvementGoals == "Non défini"
    ensures profile.Some? && profile.value.improvementGoals != [] ==>
              v.improvementGoals == Join(profile.value.improvementGoals, ", ")
    ensures profile.Some? && !Truthy(profile.value.mainContext) ==> v.mainContext == "Non défini"
    ensures profile.Some? && Truthy(profile.value.mainContext) ==> v.mainContext == profile.value.mainContext.value
    ensures !Truthy(BalanceOf(profile)) ==> v.balance == "Non défini"
    ensures Truthy(BalanceOf(profile)) && BalanceOf(profile).value in {"comfort", "balanced", "style"} ==>
              v.balance in KnownLabels
    ensures Truthy(BalanceOf(profile)) && BalanceOf(profile).value !in {"comfort", "balanced", "style"} ==>
              v.balance == BalanceOf(profile).value
  {
    var p := if profile.Some? then Some(profile.value.stylePrimary) else None;
    var g := if profile.Some? then Some(profile.value.improvementGoals) else None;
    var c := if profile.Some? then profile.value.mainContext else None;
    SettingsView(
      OrElse(if user.Some? then user.value.email else None, "Non connecté"),
      if isPremium then "⭐ Premium" else "Gratuit",
      if isPremium then None else Some("(3 actions/semaine)"),
      ListShown(p),
      OrElse(c, "Non défini"),
      BalanceLabel(BalanceOf(profile)),
      ListShown(g))
  }

  /** On the screen as written, a profile saved by onboarding with
      `comfort_first` or `style_first` shows the raw id, not a French label. */
  lemma OnboardedBalanceShownRaw(user: Option<User>, profile: Profile, isPremium: bool)
    requires profile.preferenceBalance in {Some("comfort_first"), Some("style_first")}
    ensures SettingsViewOf(user, Some(profile), isPremium).balance == profile.preferenceBalance.value
    ensures SettingsViewOf(user, Some(profile), isPremium).balance !in KnownLabels
  {
  }

  /** The screen with the corrected label: the same rows, the balance row
      labelled by `BalanceLabelCorrected` */
  function SettingsViewCorrected(user: Option<User>, profile: Option<Profile>, isPremium: bool): (v: SettingsView)
    ensures v.(balance := "") == SettingsViewOf(user, profile, isPremium).(balance := "")
    ensures profile.Some? && Truthy(profile.value.preferenceBalance) && profile.value.preferenceBalance.value in OnboardingBalances ==>
              v.balance in KnownLabels
    ensures BalanceOf(profile) !in {Some("comfort_first"), Some("style_first")} ==>
              v.balance == SettingsViewOf(user, profile, isPremium).balance
  {
    CorrectedLabelsOnboarding(BalanceOf(profile));
    SettingsViewOf(user, profile, isPremium).(balance := BalanceLabelCorrected(BalanceOf(profile)))
  }
}
