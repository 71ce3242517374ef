/** What the data hooks share: the errors they throw and the user context
    they build from the signed-in profile. */
module HookCommon {
  import opened Wrappers
  import opened Records
  import opened AiTypes

  /** The errors a hook throws, in the order its steps can fail */
  datatype HookError =
    | NotAuthenticated
    | QueryFailed(message: string)
    | EmptyWardrobe
    | UploadFailed(message: string)
    | SaveFailed(message: string)
    | DeleteFailed(message: string)

  /** `{ style_primary: profile?.style_primary || [], main_context: profile?.main_context || null, ... }` */
  function UserContextOf(profile: Option<Profile>): (c: UserContext)
    ensures profile.None? ==> c == UserContext([], None, None, [])
    ensures profile.Some? ==> c.stylePrimary == profile.value.stylePrimary && c.improvementGoals == profile.value.improvementGoals
    ensures c.mainContext.Some? ==> c.mainContext.value != "" && profile.Some? && c.mainContext == profile.value.mainContext
    ensures c.preferenceBalance.Some? ==> c.preferenceBalance.value != "" && profile.Some? && c.preferenceBalance == profile.value.preferenceBalance
    ensures profile.Some? && Truthy(profile.value.mainContext) ==> c.mainContext == profile.value.mainContext
    ensures profile.Some? && Truthy(profile.value.preferenceBalance) ==> c.preferenceBalance == profile.value.preferenceBalance
  {
    match profile
    case None => UserContext([], None, None, [])
    case Some(p) => UserContext(p.stylePrimary, OrNull(p.mainContext), OrNull(p.preferenceBalance), p.improvementGoals)
  }

  /** `Date.now()` written in decimal, as a template literal renders it */
  function Decimal(n: nat): (s: string)
    ensures |s| > 0
    ensures forall k :: 0 <= k < |s| ==> '0' <= s[k] <= '9'
  {
    var d := ['0', '1', '2', '3', '4', '5', '6', '7', '8', '9'][n % 10];
    if n < 10 then [d] else Decimal(n / 10) + [d]
  }

  /** The storage client: `upload(path)` answers the stored path or an error,
      `getPublicUrl(path)` the public address of a stored path. */
  datatype Storage = Storage(upload: string -> Result<string, string>, publicUrl: string -> string)
}
