/** The data exchanged with an outfit provider (rating, generation) and the
    contract every provider result must satisfy. */
module AiTypes {
  import opened Wrappers

  /** Garment categories as the catalogue stores them */
  const Top := "top"
  const Bottom := "bottom"
  const Shoes := "shoes"
  const Jacket := "jacket"
  const Accessory := "accessory"

  /** What the provider is told about the user; absent fields are `[]`/null. */
  datatype UserContext = UserContext(
    stylePrimary: seq<string>,
    mainContext: Option<string>,
    preferenceBalance: Option<string>,
    improvementGoals: seq<string>)

  /** A wardrobe item as handed to a provider (`type` is spelt `garment`). */
  datatype WardrobeItemInput = WardrobeItemInput(
    id: string,
    category: string,
    garment: string,
    colorPrimary: string,
    colorSecondary: Option<string>,
    styleTags: seq<string>,
    seasonTags: seq<string>,
    imageUrl: Option<string>)

  /** The three axis sub-scores; the datatype has exactly these fields. */
  datatype Axes = Axes(colors: int, coherence: int, occasion: int)

  /** One `{item_id, reason}` entry of `wardrobe_suggestions` */
  datatype Suggestion = Suggestion(itemId: string, reason: string)

  datatype RatingResult = RatingResult(
    score: int,
    axes: Axes,
    strengths: seq<string>,
    improvements: seq<string>,
    wardrobeSuggestions: Option<seq<Suggestion>>)

  /** Explanations, keyed only by the three selectable slots */
  datatype Reasons = Reasons(top: Option<string>, bottom: Option<string>, shoes: Option<string>)

  /** Five optional slot ids, a description and a score */
  datatype OutfitSelection = OutfitSelection(
    topId: Option<string>,
    bottomId: Option<string>,
    shoesId: Option<string>,
    jacketId: Option<string>,
    accessoryId: Option<string>,
    description: string,
    estimatedScore: int,
    reasons: Reasons)

  /** The only values `comfortStyle` may take */
  datatype ComfortStyle = ComfortFirst | Balanced | StyleFirst

  datatype GenerateOutfitParams = GenerateOutfitParams(
    wardrobeItems: seq<WardrobeItemInput>,
    userContext: UserContext,
    occasion: Option<string>,
    comfortStyle: Option<ComfortStyle>,
    allowNonWardrobeSuggestions: Option<bool>)

  /** The operations a provider offers; there are exactly these three. */
  datatype ProviderOperation = RateOutfit | GenerateOutfit | RenderOutfitImage

  /** A slot is either absent or names an item of the slot's category. */
  predicate SlotFrom(id: Option<string>, wardrobe: seq<WardrobeItemInput>, category: string) {
    id.Some? ==> exists i :: 0 <= i < |wardrobe| && wardrobe[i].id == id.value && wardrobe[i].category == category
  }

  /** A selection references only wardrobe items of the matching category. */
  predicate NoFabrication(sel: OutfitSelection, wardrobe: seq<WardrobeItemInput>) {
    && SlotFrom(sel.topId, wardrobe, Top)
    && SlotFrom(sel.bottomId, wardrobe, Bottom)
    && SlotFrom(sel.shoesId, wardrobe, Shoes)
    && SlotFrom(sel.jacketId, wardrobe, Jacket)
    && SlotFrom(sel.accessoryId, wardrobe, Accessory)
  }

  /** A reason is given exactly for the filled slots. */
  predicate ReasonsMatchSlots(sel: OutfitSelection) {
    && (sel.reasons.top.Some? <==> sel.topId.Some?)
    && (sel.reasons.bottom.Some? <==> sel.bottomId.Some?)
    && (sel.reasons.shoes.Some? <==> sel.shoesId.Some?)
  }

  /** The provider contract for generation: well-formed, in range, no invented items */
  predicate ConformingSelection(sel: OutfitSelection, wardrobe: seq<WardrobeItemInput>) {
    && NoFabrication(sel, wardrobe)
    && ReasonsMatchSlots(sel)
    && 0 <= sel.estimatedScore <= 100
  }

  /** The provider contract for rating */
  predicate ConformingRating(r: RatingResult) {
    && 0 <= r.score <= 100
    && 0 <= r.axes.colors <= 100
    && 0 <= r.axes.coherence <= 100
    && 0 <= r.axes.occasion <= 100
    && (r.wardrobeSuggestions.Some? ==> |r.wardrobeSuggestions.value| <= 2)
  }

  /** Every suggestion names an item of the given wardrobe. */
  predicate SuggestionsFrom(s: seq<Suggestion>, wardrobe: seq<WardrobeItemInput>) {
    forall k :: 0 <= k < |s| ==> exists i :: 0 <= i < |wardrobe| && wardrobe[i].id == s[k].itemId
  }
}
