/** The premium lock around a piece of content. */
module LockedCard {
  import opened Wrappers
  import AuthStore
  import Records

  const DefaultTitle := "Contenu Premium"
  const DefaultDescription := "Passe à Premium pour débloquer cette fonctionnalité"

  /** An explicit `isLocked` prop wins; otherwise only non-premium users are locked out. */
  function IsLocked(prop: Option<bool>, isPremium: bool): (locked: bool)
    ensures prop.Some? ==> locked == prop.value
    ensures prop.None? ==> (locked <==> !isPremium)
  {
    match prop
    case Some(b) => b
    case None => !isPremium
  }

  /** What the card renders: the children alone, or the children dimmed under
      an overlay whose button leads to `route` */
  datatype Rendered<C> =
    | Plain(children: C)
    | Overlay(dimmed: C, title: string, description: string, route: string)

  /** `title` and `description` fall back to their defaults only when absent
      (a default parameter does not replace an empty string). */
  function Render<C>(children: C, prop: Option<bool>, title: Option<string>, description: Option<string>, isPremium: bool): (r: Rendered<C>)
    ensures r.Plain? <==> !IsLocked(prop, isPremium)
    ensures r.Plain? ==> r.children == children
    ensures r.Overlay? ==> r.dimmed == children && r.route == "/upgrade"
    ensures r.Overlay? ==> r.title == title.GetOr(DefaultTitle) && r.description == description.GetOr(DefaultDescription)
  {
    if !IsLocked(prop, isPremium) then Plain(children)
    else Overlay(children, title.GetOr(DefaultTitle), description.GetOr(DefaultDescription), "/upgrade")
  }

  /** With the store: after signing out, a card without the prop is locked;
      with the developer switch on, any profile unlocks it. */
  lemma LockFollowsStore(s: AuthStore.AuthState, profile: Option<Records.Profile>)
    ensures IsLocked(None, AuthStore.SignOut(s).isPremium)
    ensures !IsLocked(None, AuthStore.SetProfile(s, profile, Some("true")).isPremium)
  {
  }
}
