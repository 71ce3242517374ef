/** The mock outfit provider: a 32-bit rolling string hash, a hash-derived
    rating, and a wardrobe-constrained outfit pick. The random choices of the
    generator are explicit draw parameters. */
module MockProvider {
  import opened Wrappers
  import opened Seqs
  import opened AiTypes

  // ---------------------------------------------------------------------------
  // 32-bit integer arithmetic of JavaScript

  /** ECMAScript ToInt32: reduce modulo 2^32 into [-2^31, 2^31). */
  function ToInt32(x: int): (r: int)
    ensures -0x8000_0000 <= r < 0x8000_0000
    ensures (x - r) % 0x1_0000_0000 == 0
  {
    var m := x % 0x1_0000_0000;
    if m < 0x8000_0000 then m else m - 0x1_0000_0000
  }

  /** Two numbers equal modulo 2^32 have the same ToInt32. */
  lemma ToInt32Congruent(x: int, y: int)
    requires (x - y) % 0x1_0000_0000 == 0
    ensures ToInt32(x) == ToInt32(y)
  {
  }

  function Abs(x: int): int {
    if x < 0 then -x else x
  }

  // ---------------------------------------------------------------------------
  // simpleHash

  /** `charCodeAt` sees UTF-16 code units: one per BMP character, a surrogate pair otherwise. */
  function Utf16(c: char): (u: seq<int>)
    ensures 1 <= |u| <= 2
    ensures forall k :: 0 <= k < |u| ==> 0 <= u[k] < 0x1_0000
    ensures |u| == 1 <==> (c as int) < 0x1_0000
  {
    var v := c as int;
    if v < 0x1_0000 then [v]
    else [0xD800 + (v - 0x1_0000) / 0x400, 0xDC00 + (v - 0x1_0000) % 0x400]
  }

  /** The UTF-16 code units of a string, in order */
  function CodeUnits(s: string): (u: seq<int>)
    ensures |s| <= |u| <= 2 * |s|
    ensures forall k :: 0 <= k < |u| ==> 0 <= u[k] < 0x1_0000
  {
    if s == [] then [] else CodeUnits(s[..|s| - 1]) + Utf16(s[|s| - 1])
  }

  /** Reference step: `h := ToInt32(31 * h + unit)` */
  function Step(h: int, unit: int): int {
    ToInt32(31 * h + unit)
  }

  /** The loop body as written: `(h << 5) - h + unit`, then `h & h`.
      On an int32, `h << 5` is ToInt32(32 * h) and `x & x` is ToInt32(x). */
  function SourceStep(h: int, unit: int): int {
    ToInt32(ToInt32(h * 32) - h + unit)
  }

  /** The shift-and-subtract step computes the reference step. */
  lemma SourceStepIsStep(h: int, unit: int)
    ensures SourceStep(h, unit) == Step(h, unit)
  {
    var s := ToInt32(h * 32);
    assert ((s - h + unit) - (31 * h + unit)) % 0x1_0000_0000 == 0;
    ToInt32Congruent(s - h + unit, 31 * h + unit);
  }

  /** The signed hash of a sequence of code units, folded left from 0 */
  function Fold(units: seq<int>): (h: int)
    ensures -0x8000_0000 <= h < 0x8000_0000
  {
    if units == [] then 0 else Step(Fold(units[..|units| - 1]), units[|units| - 1])
  }

  /** `simpleHash(str)`: the absolute value of the folded hash */
  function SimpleHash(s: string): (h: nat)
    ensures h <= 0x8000_0000
    ensures h == Fold(CodeUnits(s)) || h == -Fold(CodeUnits(s))
  {
    Abs(Fold(CodeUnits(s)))
  }

  /** One more code unit: the source's step takes the fold of a prefix to the
      fold of the next prefix. */
  lemma FoldStep(units: seq<int>, i: nat, hash: int)
    requires i < |units| && hash == Fold(units[..i])
    ensures SourceStep(hash, units[i]) == Fold(units[..i + 1])
  {
    assert units[..i + 1][..i] == units[..i];
    SourceStepIsStep(hash, units[i]);
  }

  /** The hash loop as the source writes it, over the code units of `s` */
  method ComputeSimpleHash(s: string) returns (h: int)
    ensures h == SimpleHash(s)
    ensures 0 <= h <= 0x8000_0000
  {
    var units := CodeUnits(s);
    var hash := 0;
    var i := 0;
    while i < |units|
      invariant 0 <= i <= |units|
      invariant hash == Fold(units[..i])
    {
      FoldStep(units, i, hash);
      hash := (ToInt32(hash * 32)) - hash + units[i];
      hash := ToInt32(hash);
      i := i + 1;
    }
    assert units[..|units|] == units;
    h := Abs(hash);
  }

  // ---------------------------------------------------------------------------
  // Pools

  const StrengthsPool: seq<string> := [
    "Les couleurs se complètent bien \U{1F44C}",
    "Bon équilibre entre les pièces",
    "Style cohérent, bien joué",
    "Les proportions fonctionnent bien",
    "Mix casual/stylé réussi",
    "Bonne harmonie générale \U{1F525}"
  ]

  const ImprovementsPool: seq<string> := [
    "Essaie des couleurs plus variées",
    "Les chaussures pourraient mieux matcher",
    "Un layering pourrait ajouter du style",
    "Teste un accessoire pour élever le look",
    "Les proportions pourraient être ajustées",
    "Une pièce statement ferait la diff"
  ]

  const OutfitDescriptions: seq<string> := [
    "Look simple et efficace",
    "Vibe chill et décontracté",
    "Stylé sans en faire trop",
    "Propre et bien pensé",
    "Équilibré et cohérent",
    "Look qui tue, nickel"
  ]

  /** Each pool holds six distinct phrases. */
  lemma PoolsDistinct()
    ensures |StrengthsPool| == 6 && NoDup(StrengthsPool)
    ensures |ImprovementsPool| == 6 && NoDup(ImprovementsPool)
    ensures |OutfitDescriptions| == 6 && NoDup(OutfitDescriptions)
  {
  }

  // ---------------------------------------------------------------------------
  // rateOutfit

  /** Items eligible as rating suggestions */
  predicate Suggestible(item: WardrobeItemInput) {
    item.category == Shoes || item.category == Top
  }

  /** `Essaie avec <type> <color>` for one item */
  function SuggestionFor(item: WardrobeItemInput): Suggestion {
    Suggestion(item.id, "Essaie avec " + item.garment + " " + item.colorPrimary)
  }

  /** `items.map(SuggestionFor)` */
  function SuggestionsOf(items: seq<WardrobeItemInput>): (s: seq<Suggestion>)
    ensures |s| == |items|
    ensures forall k :: 0 <= k < |s| ==> s[k] == SuggestionFor(items[k])
  {
    if items == [] then [] else [SuggestionFor(items[0])] + SuggestionsOf(items[1..])
  }

  /** The first two top/shoes items, in input order, as suggestions */
  function SuggestionsFor(items: seq<WardrobeItemInput>): (s: seq<Suggestion>)
    ensures |s| <= 2
    ensures |s| == if |Filter(items, Suggestible)| < 2 then |Filter(items, Suggestible)| else 2
    ensures forall k :: 0 <= k < |s| ==> s[k] == SuggestionFor(Filter(items, Suggestible)[k])
    ensures forall k :: 0 <= k < |s| ==>
              exists i :: 0 <= i < |items| && Suggestible(items[i]) && s[k] == SuggestionFor(items[i])
  {
    var eligible := Filter(items, Suggestible);
    var chosen := if |eligible| < 2 then eligible else eligible[..2];
    var s := SuggestionsOf(chosen);
    forall k | 0 <= k < |s|
      ensures exists i :: 0 <= i < |items| && Suggestible(items[i]) && s[k] == SuggestionFor(items[i])
    {
      EligibleFromItems(items, k);
    }
    s
  }

  /** Each eligible item is a suggestible item of the wardrobe. */
  lemma EligibleFromItems(items: seq<WardrobeItemInput>, k: nat)
    requires k < |Filter(items, Suggestible)|
    ensures exists i :: 0 <= i < |items| && Suggestible(items[i]) && items[i] == Filter(items, Suggestible)[k]
  {
    var eligible := Filter(items, Suggestible);
    assert eligible[k] in eligible;
    var i :| 0 <= i < |items| && items[i] == eligible[k];
  }

  /** Two phrases of a six-entry pool, at positions `start` and `start + 1` modulo 6 */
  function PickTwo(pool: seq<string>, start: nat): (r: seq<string>)
    requires |pool| == 6 && NoDup(pool)
    ensures |r| == 2 && r[0] in pool && r[1] in pool && r[0] != r[1]
    ensures r[0] == pool[start % 6] && r[1] == pool[(start % 6 + 1) % 6]
  {
    [pool[start % 6], pool[(start + 1) % 6]]
  }

  /** `rateOutfit(imageUrl, userContext, wardrobeItems?)` */
  function RateOutfit(imageUrl: string, userContext: UserContext, wardrobe: Option<seq<WardrobeItemInput>>): (r: RatingResult)
    ensures 60 <= r.score <= 94
    ensures 65 <= r.axes.colors <= 94
    ensures 70 <= r.axes.coherence <= 94
    ensures 60 <= r.axes.occasion <= 94
    ensures |r.strengths| == 2 && r.strengths[0] in StrengthsPool && r.strengths[1] in StrengthsPool
    ensures r.strengths[0] != r.strengths[1]
    ensures |r.improvements| == 2 && r.improvements[0] in ImprovementsPool && r.improvements[1] in ImprovementsPool
    ensures r.improvements[0] != r.improvements[1]
    ensures r.wardrobeSuggestions.None? <==> (wardrobe.None? || wardrobe.value == [])
    ensures r.wardrobeSuggestions.Some? ==>
              |r.wardrobeSuggestions.value| <= 2 && SuggestionsFrom(r.wardrobeSuggestions.value, wardrobe.value)
    ensures ConformingRating(r)
  {
    PoolsDistinct();
    var h := SimpleHash(imageUrl);
    var suggestions :=
      if wardrobe.Some? && |wardrobe.value| > 0 then Some(SuggestionsFor(wardrobe.value)) else None;
    RatingResult(
      60 + h % 35,
      Axes(65 + h % 30, 70 + (h + 5) % 25, 60 + (h + 10) % 35),
      PickTwo(StrengthsPool, h),
      PickTwo(ImprovementsPool, h + 2),
      suggestions)
  }

  /** The rating is a function of the image reference alone, apart from the
      suggestions: neither the user context nor the wardrobe changes the scores,
      strengths or improvements. */
  lemma RatingDependsOnlyOnImage(url: string, c1: UserContext, c2: UserContext,
                                 w1: Option<seq<WardrobeItemInput>>, w2: Option<seq<WardrobeItemInput>>)
    ensures RateOutfit(url, c1, w1).score == RateOutfit(url, c2, w2).score
    ensures RateOutfit(url, c1, w1).axes == RateOutfit(url, c2, w2).axes
    ensures RateOutfit(url, c1, w1).strengths == RateOutfit(url, c2, w2).strengths
    ensures RateOutfit(url, c1, w1).improvements == RateOutfit(url, c2, w2).improvements
    ensures RateOutfit(url, c1, w1) == RateOutfit(url, c2, w1)
  {
  }

  /** The picked strengths and improvements never overlap positions: the four
      indices are h, h+1, h+2, h+3 modulo 6. */
  lemma RatingPhrasesFollowHash(url: string, c: UserContext, w: Option<seq<WardrobeItemInput>>)
    ensures var h := SimpleHash(url); var r := RateOutfit(url, c, w);
      && r.strengths[0] == StrengthsPool[h % 6]
      && r.strengths[1] == StrengthsPool[(h + 1) % 6]
      && r.improvements[0] == ImprovementsPool[(h + 2) % 6]
      && r.improvements[1] == ImprovementsPool[(h + 3) % 6]
  {
    PoolsDistinct();
  }

  /** Some suggestion is made exactly when some item is a top or a pair of shoes. */
  lemma SuggestionsForNonEmpty(items: seq<WardrobeItemInput>)
    ensures SuggestionsFor(items) != [] <==> exists i :: 0 <= i < |items| && Suggestible(items[i])
  {
    var eligible := Filter(items, Suggestible);
    if eligible != [] {
      assert eligible[0] in eligible;
      var i :| 0 <= i < |items| && items[i] == eligible[0];
      assert Suggestible(items[i]);
    }
    if exists i :: 0 <= i < |items| && Suggestible(items[i]) {
      var i :| 0 <= i < |items| && Suggestible(items[i]);
      assert items[i] in eligible;
    }
  }

  /** A rating carries at least one suggestion exactly when the wardrobe holds
      a top or a pair of shoes. */
  lemma SuggestionsIffSuggestible(url: string, c: UserContext, w: Option<seq<WardrobeItemInput>>)
    ensures RateOutfit(url, c, w).wardrobeSuggestions.GetOr([]) != [] <==>
              w.Some? && exists i :: 0 <= i < |w.value| && Suggestible(w.value[i])
  {
    if w.Some? {
      SuggestionsForNonEmpty(w.value);
      assert |w.value| > 0 ==> RateOutfit(url, c, w).wardrobeSuggestions == Some(SuggestionsFor(w.value));
    }
  }

  // ---------------------------------------------------------------------------
  // generateOutfit

  /** `wardrobeItems.filter((i) => i.category === category)` */
  function Partition(items: seq<WardrobeItemInput>, category: string): (p: seq<WardrobeItemInput>)
    ensures forall x :: x in p ==> x in items && x.category == category
    ensures |p| > 0 <==> exists i :: 0 <= i < |items| && items[i].category == category
  {
    Filter(items, (x: WardrobeItemInput) => x.category == category)
  }

  /** The values `Math.floor(Math.random() * partition.length)` took for the three slots */
  datatype Draws = Draws(top: nat, bottom: nat, shoes: nat)

  /** A draw lies below its partition's length whenever the partition is non-empty. */
  predicate DrawsFit(d: Draws, items: seq<WardrobeItemInput>) {
    && (|Partition(items, Top)| > 0 ==> d.top < |Partition(items, Top)|)
    && (|Partition(items, Bottom)| > 0 ==> d.bottom < |Partition(items, Bottom)|)
    && (|Partition(items, Shoes)| > 0 ==> d.shoes < |Partition(items, Shoes)|)
  }

  /** `partition[i]`, which is `undefined` past the end */
  function Pick(part: seq<WardrobeItemInput>, i: nat): Option<WardrobeItemInput> {
    if i < |part| then Some(part[i]) else None
  }

  function IdOf(item: Option<WardrobeItemInput>): Option<string> {
    if item.Some? then Some(item.value.id) else None
  }

  /** `occasion || 'default'` */
  function OccasionKey(occasion: Option<string>): (k: string)
    ensures k != ""
  {
    OrElse(occasion, "default")
  }

  /** The templated reasons for the picked top, bottom and shoes */
  function TopReason(x: WardrobeItemInput): string {
    x.garment + " " + x.colorPrimary + " pour la base"
  }

  function BottomReason(x: WardrobeItemInput): string {
    x.garment + " " + x.colorPrimary + " bien assorti"
  }

  function ShoesReason(x: WardrobeItemInput): string {
    x.garment + " qui complètent le look"
  }

  /** The slot picked from the items of `category` */
  function PickSlot(items: seq<WardrobeItemInput>, category: string, draw: nat): (r: Option<WardrobeItemInput>)
    requires |Partition(items, category)| > 0 ==> draw < |Partition(items, category)|
    ensures r.Some? <==> exists i :: 0 <= i < |items| && items[i].category == category
    ensures r.Some? ==> r.value in items && r.value.category == category
  {
    Pick(Partition(items, category), draw)
  }

  /** The id of a picked item is the id of a wardrobe item of that category. */
  lemma SlotIdFrom(item: Option<WardrobeItemInput>, items: seq<WardrobeItemInput>, category: string)
    requires item.Some? ==> item.value in items && item.value.category == category
    ensures SlotFrom(IdOf(item), items, category)
  {
    if item.Some? {
      var i :| 0 <= i < |items| && items[i] == item.value;
    }
  }

  /** The outfit `generateOutfit` builds: one drawn item per slot, and a
      score and description hashed from the occasion */
  function Outfit(items: seq<WardrobeItemInput>, occasion: Option<string>, draws: Draws): OutfitSelection
    requires DrawsFit(draws, items)
  {
    var top := PickSlot(items, Top, draws.top);
    var bottom := PickSlot(items, Bottom, draws.bottom);
    var shoes := PickSlot(items, Shoes, draws.shoes);
    var h := SimpleHash(OccasionKey(occasion));
    OutfitSelection(
      IdOf(top), IdOf(bottom), IdOf(shoes), None, None,
      OutfitDescriptions[h % |OutfitDescriptions|],
      70 + h % 25,
      Reasons(
        if top.Some? then Some(TopReason(top.value)) else None,
        if bottom.Some? then Some(BottomReason(bottom.value)) else None,
        if shoes.Some? then Some(ShoesReason(shoes.value)) else None))
  }

  /** `generateOutfit(params)` with its random draws */
  function GenerateOutfit(params: GenerateOutfitParams, draws: Draws): (sel: OutfitSelection)
    requires DrawsFit(draws, params.wardrobeItems)
    ensures ConformingSelection(sel, params.wardrobeItems)
    ensures sel.topId.Some? <==> exists i :: 0 <= i < |params.wardrobeItems| && params.wardrobeItems[i].category == Top
    ensures sel.bottomId.Some? <==> exists i :: 0 <= i < |params.wardrobeItems| && params.wardrobeItems[i].category == Bottom
    ensures sel.shoesId.Some? <==> exists i :: 0 <= i < |params.wardrobeItems| && params.wardrobeItems[i].category == Shoes
    ensures sel.jacketId.None? && sel.accessoryId.None?
    ensures 70 <= sel.estimatedScore <= 94
    ensures sel.description in OutfitDescriptions
    ensures sel.reasons.top.Some? ==>
              exists x :: x in params.wardrobeItems && x.category == Top && sel.topId == Some(x.id) && sel.reasons.top == Some(TopReason(x))
    ensures sel.reasons.bottom.Some? ==>
              exists x :: x in params.wardrobeItems && x.category == Bottom && sel.bottomId == Some(x.id) && sel.reasons.bottom == Some(BottomReason(x))
    ensures sel.reasons.shoes.Some? ==>
              exists x :: x in params.wardrobeItems && x.category == Shoes && sel.shoesId == Some(x.id) && sel.reasons.shoes == Some(ShoesReason(x))
  {
    var items := params.wardrobeItems;
    var top := PickSlot(items, Top, draws.top);
    var bottom := PickSlot(items, Bottom, draws.bottom);
    var shoes := PickSlot(items, Shoes, draws.shoes);
    SlotIdFrom(top, items, Top);
    SlotIdFrom(bottom, items, Bottom);
    SlotIdFrom(shoes, items, Shoes);
    var sel := Outfit(items, params.occasion, draws);
    assert sel.reasons.top.Some? ==> sel.reasons.top == Some(TopReason(top.value)) && sel.topId == Some(top.value.id);
    assert sel.reasons.bottom.Some? ==> sel.reasons.bottom == Some(BottomReason(bottom.value)) && sel.bottomId == Some(bottom.value.id);
    assert sel.reasons.shoes.Some? ==> sel.reasons.shoes == Some(ShoesReason(shoes.value)) && sel.shoesId == Some(shoes.value.id);
    sel
  }

  /** An empty wardrobe degrades to an outfit with no items and no reasons. */
  lemma EmptyWardrobeSelectsNothing(params: GenerateOutfitParams, draws: Draws)
    requires params.wardrobeItems == []
    ensures var sel := GenerateOutfit(params, draws);
      && sel.topId.None? && sel.bottomId.None? && sel.shoesId.None?
      && sel.jacketId.None? && sel.accessoryId.None?
      && sel.reasons == Reasons(None, None, None)
  {
  }

  /** Score and description depend on the occasion only, and a missing or
      empty occasion behaves exactly like `'default'`. */
  lemma OccasionDrivesScore(p1: GenerateOutfitParams, d1: Draws, p2: GenerateOutfitParams, d2: Draws)
    requires DrawsFit(d1, p1.wardrobeItems) && DrawsFit(d2, p2.wardrobeItems)
    requires OccasionKey(p1.occasion) == OccasionKey(p2.occasion)
    ensures GenerateOutfit(p1, d1).estimatedScore == GenerateOutfit(p2, d2).estimatedScore
    ensures GenerateOutfit(p1, d1).description == GenerateOutfit(p2, d2).description
  {
  }

  /** The outfit is a function of the wardrobe, the occasion and the draws:
      the user context and the comfort/style preference are never read. */
  lemma OutfitIgnoresContext(p1: GenerateOutfitParams, p2: GenerateOutfitParams, d: Draws)
    requires DrawsFit(d, p1.wardrobeItems)
    requires p1.wardrobeItems == p2.wardrobeItems && p1.occasion == p2.occasion
    ensures GenerateOutfit(p1, d) == GenerateOutfit(p2, d)
  {
    assert GenerateOutfit(p1, d) == Outfit(p1.wardrobeItems, p1.occasion, d);
    assert GenerateOutfit(p2, d) == Outfit(p2.wardrobeItems, p2.occasion, d);
  }

  /** The occasions `undefined` and `''` both hash as `'default'`. */
  lemma MissingOccasionIsDefault(occasion: Option<string>)
    requires occasion == None || occasion == Some("")
    ensures OccasionKey(occasion) == OccasionKey(Some("default"))
  {
  }
}
