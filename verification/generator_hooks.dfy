/** `useGenerateOutfit`: guard the request, ask the provider for an outfit,
    save it, and return it with the full records of the chosen items. The
    database and the image renderer are parameters. */
module GeneratorHooks {
  import opened Wrappers
  import opened Seqs
  import opened Records
  import opened AiTypes
  import opened HookCommon
  import MockProvider

  /** What the generator screen asks for */
  datatype GenerateRequest = GenerateRequest(occasion: string, comfortStyle: int)

  /** The slider value (0 = comfort, 100 = style) as the provider's enum */
  function ComfortStyleOf(v: int): (c: ComfortStyle)
    ensures c == ComfortFirst <==> v < 30
    ensures c == StyleFirst <==> v > 70
    ensures c == Balanced <==> 30 <= v <= 70
  {
    if v < 30 then ComfortFirst else if v > 70 then StyleFirst else Balanced
  }

  /** `id` kept by `.filter(Boolean)`: present and non-empty */
  function Kept(id: Option<string>): (r: seq<string>)
    ensures |r| <= 1
    ensures r != [] <==> Truthy(id)
    ensures r != [] ==> r[0] == id.value
  {
    if Truthy(id) then [id.value] else []
  }

  /** `[top_id, bottom_id, shoes_id].filter(Boolean)` */
  function SelectedItemIds(sel: OutfitSelection): (ids: seq<string>)
    ensures |ids| <= 3
    ensures forall x :: x in ids ==> x != "" && (Some(x) == sel.topId || Some(x) == sel.bottomId || Some(x) == sel.shoesId)
    ensures Truthy(sel.topId) ==> sel.topId.value in ids && ids[0] == sel.topId.value
    ensures Truthy(sel.bottomId) ==> sel.bottomId.value in ids
    ensures Truthy(sel.shoesId) ==> sel.shoesId.value in ids && ids[|ids| - 1] == sel.shoesId.value
    ensures |ids| == (if Truthy(sel.topId) then 1 else 0) + (if Truthy(sel.bottomId) then 1 else 0) + (if Truthy(sel.shoesId) then 1 else 0)
  {
    Kept(sel.topId) + Kept(sel.bottomId) + Kept(sel.shoesId)
  }

  /** `[top_id, bottom_id, shoes_id].includes(item.id)` */
  predicate Chosen(sel: OutfitSelection, item: WardrobeItemInput) {
    Some(item.id) == sel.topId || Some(item.id) == sel.bottomId || Some(item.id) == sel.shoesId
  }

  /** The wardrobe items the outfit names, in wardrobe order */
  function SelectedItems(wardrobe: seq<WardrobeItemInput>, sel: OutfitSelection): (items: seq<WardrobeItemInput>)
    ensures IsSubsequence(items, wardrobe)
    ensures forall x :: x in items ==> x in wardrobe && Chosen(sel, x)
    ensures forall x :: x in wardrobe && Chosen(sel, x) ==> x in items
  {
    Filter(wardrobe, (x: WardrobeItemInput) => Chosen(sel, x))
  }

  /** The `generated_outfits` row the hook inserts */
  datatype OutfitRow = OutfitRow(
    userId: string,
    selectedItemIds: seq<string>,
    generatedImageUrl: string,
    description: string,
    estimatedScore: int,
    occasion: string)

  /** What the hook returns: the outfit, the saved id, the image and the items */
  datatype OutfitView = OutfitView(outfit: OutfitSelection, id: string, imageUrl: string, selectedItems: seq<WardrobeItemInput>)

  datatype Generated = Generated(row: OutfitRow, view: OutfitView)

  /** The provider call the hook makes */
  function ProviderParams(wardrobe: seq<WardrobeItemInput>, profile: Option<Profile>, req: GenerateRequest): GenerateOutfitParams {
    GenerateOutfitParams(wardrobe, UserContextOf(profile), Some(req.occasion), Some(ComfortStyleOf(req.comfortStyle)), None)
  }

  /** `useGenerateOutfit().mutationFn(params)`. `wardrobeQuery` is the
      `wardrobe_items` select (a null result reads as empty), `imageUrl` what
      `renderOutfitImage` produced, and `save` the insert's new id or error. */
  function UseGenerateOutfit(
    user: Option<User>, profile: Option<Profile>,
    wardrobeQuery: Result<seq<WardrobeItemInput>, string>,
    req: GenerateRequest, draws: MockProvider.Draws,
    imageUrl: string, save: Result<string, string>): (r: Result<Generated, HookError>)
    requires wardrobeQuery.Ok? ==> MockProvider.DrawsFit(draws, wardrobeQuery.value)
    ensures user.None? ==> r == Err(NotAuthenticated)
    ensures user.Some? && wardrobeQuery.Err? ==> r == Err(QueryFailed(wardrobeQuery.error))
    ensures user.Some? && wardrobeQuery == Ok([]) ==> r == Err(EmptyWardrobe)
    ensures user.Some? && wardrobeQuery.Ok? && wardrobeQuery.value != [] && save.Err? ==> r == Err(SaveFailed(save.error))
    ensures r.Ok? <==> user.Some? && wardrobeQuery.Ok? && wardrobeQuery.value != [] && save.Ok?
    ensures r.Ok? ==>
      var w := wardrobeQuery.value; var g := r.value;
      && g.view.outfit == MockProvider.GenerateOutfit(ProviderParams(w, profile, req), draws)
      && NoFabrication(g.view.outfit, w)
      && g.row.userId == user.value.id
      && g.row.selectedItemIds == SelectedItemIds(g.view.outfit)
      && g.row.description == g.view.outfit.description
      && g.row.estimatedScore == g.view.outfit.estimatedScore
      && g.row.occasion == req.occasion
      && g.row.generatedImageUrl == imageUrl == g.view.imageUrl
      && g.view.id == save.value
      && IsSubsequence(g.view.selectedItems, w)
      && (forall x :: x in g.view.selectedItems ==> Chosen(g.view.outfit, x))
  {
    if user.None? then Err(NotAuthenticated)
    else if wardrobeQuery.Err? then Err(QueryFailed(wardrobeQuery.error))
    else if wardrobeQuery.value == [] then Err(EmptyWardrobe)
    else
      var w := wardrobeQuery.value;
      var outfit := MockProvider.GenerateOutfit(ProviderParams(w, profile, req), draws);
      var row := OutfitRow(user.value.id, SelectedItemIds(outfit), imageUrl, outfit.description, outfit.estimatedScore, req.occasion);
      if save.Err? then Err(SaveFailed(save.error))
      else Ok(Generated(row, OutfitView(outfit, save.value, imageUrl, SelectedItems(w, outfit))))
  }

  /** With a signed-in user, a non-empty wardrobe and a working insert the hook
      succeeds, and every id it saves is the id of an item of that wardrobe. */
  lemma SavedIdsComeFromWardrobe(
    user: User, profile: Option<Profile>, w: seq<WardrobeItemInput>,
    req: GenerateRequest, draws: MockProvider.Draws, imageUrl: string, id: string)
    requires w != [] && MockProvider.DrawsFit(draws, w)
    ensures var r := UseGenerateOutfit(Some(user), profile, Ok(w), req, draws, imageUrl, Ok(id));
      && r.Ok?
      && forall x :: x in r.value.row.selectedItemIds ==> exists i :: 0 <= i < |w| && w[i].id == x
  {
    var r := UseGenerateOutfit(Some(user), profile, Ok(w), req, draws, imageUrl, Ok(id));
    var sel := r.value.view.outfit;
    assert NoFabrication(sel, w);
    forall x | x in r.value.row.selectedItemIds
      ensures exists i :: 0 <= i < |w| && w[i].id == x
    {
      assert Some(x) == sel.topId || Some(x) == sel.bottomId || Some(x) == sel.shoesId;
    }
  }

  /** The mock picks the outfit from the wardrobe, the occasion and the draws;
      the profile's context changes nothing the hook saves or returns. */
  lemma GenerationIgnoresProfile(
    user: Option<User>, p1: Option<Profile>, p2: Option<Profile>,
    wardrobeQuery: Result<seq<WardrobeItemInput>, string>,
    req: GenerateRequest, draws: MockProvider.Draws,
    imageUrl: string, save: Result<string, string>)
    requires wardrobeQuery.Ok? ==> MockProvider.DrawsFit(draws, wardrobeQuery.value)
    ensures UseGenerateOutfit(user, p1, wardrobeQuery, req, draws, imageUrl, save)
         == UseGenerateOutfit(user, p2, wardrobeQuery, req, draws, imageUrl, save)
  {
    if wardrobeQuery.Ok? {
      var w := wardrobeQuery.value;
      MockProvider.OutfitIgnoresContext(ProviderParams(w, p1, req), ProviderParams(w, p2, req), draws);
    }
  }
}
