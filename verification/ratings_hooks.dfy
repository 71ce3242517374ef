/** `useRateOutfit`: upload the photo, rate it with the provider, save the
    rating row, and return the rating with its id and public address. Storage
    and database answers are parameters. */
module RatingsHooks {
  import opened Wrappers
  import opened Records
  import opened AiTypes
  import opened HookCommon
  import MockProvider

  /** `${user.id}/ratings/${Date.now()}.jpg` */
  function RatingPath(userId: string, now: nat): (path: string)
    ensures |path| > |userId| + 9
    ensures path[..|userId| + 9] == userId + "/ratings/"
    ensures path[|path| - 4..] == ".jpg"
  {
    var p := userId + "/ratings/" + Decimal(now) + ".jpg";
    assert p[..|userId| + 9] == userId + "/ratings/";
    p
  }

  /** The `outfit_ratings` row the hook inserts */
  datatype RatingRow = RatingRow(
    userId: string,
    imageUrl: string,
    overallScore: int,
    axes: Axes,
    strengths: seq<string>,
    improvements: seq<string>,
    wardrobeSuggestions: seq<Suggestion>)

  /** `{ ...result, overall_score: result.score, id, image_url }` */
  datatype RatingView = RatingView(result: RatingResult, overallScore: int, id: string, imageUrl: string)

  datatype Rated = Rated(row: RatingRow, view: RatingView)

  /** `useRateOutfit().mutationFn(imageUri)`. `wardrobeQuery` is the
      `wardrobe_items` select (None when it returned null) and `save` the
      insert's new id or error. The photo's bytes are not modelled. */
  function UseRateOutfit(
    user: Option<User>, profile: Option<Profile>, now: nat, storage: Storage,
    wardrobeQuery: Option<seq<WardrobeItemInput>>, save: Result<string, string>): (r: Result<Rated, HookError>)
    ensures user.None? ==> r == Err(NotAuthenticated)
    ensures user.Some? && storage.upload(RatingPath(user.value.id, now)).Err? ==>
              r == Err(UploadFailed(storage.upload(RatingPath(user.value.id, now)).error))
    ensures r.Ok? <==> user.Some? && storage.upload(RatingPath(user.value.id, now)).Ok? && save.Ok?
    ensures r.Ok? ==>
      var url := storage.publicUrl(storage.upload(RatingPath(user.value.id, now)).value);
      var w := wardrobeQuery.GetOr([]);
      var g := r.value;
      && g.view.result == MockProvider.RateOutfit(url, UserContextOf(profile), Some(w))
      && g.view.overallScore == g.view.result.score == g.row.overallScore
      && g.view.imageUrl == url == g.row.imageUrl
      && g.view.id == save.value
      && g.row.userId == user.value.id
      && g.row.axes == g.view.result.axes
      && g.row.strengths == g.view.result.strengths && g.row.improvements == g.view.result.improvements
      && g.row.wardrobeSuggestions == g.view.result.wardrobeSuggestions.GetOr([])
      && (w == [] ==> g.row.wardrobeSuggestions == [])
      && 60 <= g.view.overallScore <= 94
  {
    if user.None? then Err(NotAuthenticated)
    else
      var path := RatingPath(user.value.id, now);
      var uploaded := storage.upload(path);
      if uploaded.Err? then Err(UploadFailed(uploaded.error))
      else
        var url := storage.publicUrl(uploaded.value);
        RatedFrom(user.value.id, url, MockProvider.RateOutfit(url, UserContextOf(profile), Some(wardrobeQuery.GetOr([]))), save)
  }

  /** The row saved and the view returned for a rating of the photo at `url` */
  function RatedFrom(userId: string, url: string, result: RatingResult, save: Result<string, string>): Result<Rated, HookError> {
    var row := RatingRow(userId, url, result.score, result.axes, result.strengths, result.improvements,
                         result.wardrobeSuggestions.GetOr([]));
    if save.Err? then Err(SaveFailed(save.error))
    else Ok(Rated(row, RatingView(result, result.score, save.value, url)))
  }

  /** The profile only feeds the user context, which the mock provider
      ignores: two users' profiles give the same rating, row and view. */
  lemma RatingIgnoresProfile(
    user: Option<User>, p1: Option<Profile>, p2: Option<Profile>, now: nat, storage: Storage,
    wardrobeQuery: Option<seq<WardrobeItemInput>>, save: Result<string, string>)
    ensures UseRateOutfit(user, p1, now, storage, wardrobeQuery, save) == UseRateOutfit(user, p2, now, storage, wardrobeQuery, save)
  {
    if user.Some? && storage.upload(RatingPath(user.value.id, now)).Ok? {
      var url := storage.publicUrl(storage.upload(RatingPath(user.value.id, now)).value);
      var w := Some(wardrobeQuery.GetOr([]));
      MockProvider.RatingDependsOnlyOnImage(url, UserContextOf(p1), UserContextOf(p2), w, w);
      var result := MockProvider.RateOutfit(url, UserContextOf(p1), w);
      assert UseRateOutfit(user, p1, now, storage, wardrobeQuery, save) == RatedFrom(user.value.id, url, result, save);
      assert UseRateOutfit(user, p2, now, storage, wardrobeQuery, save) == RatedFrom(user.value.id, url, result, save);
    }
  }
}
