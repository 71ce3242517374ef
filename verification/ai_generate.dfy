/** The `ai-generate` edge function: authenticate, check the weekly generation
    quota of a non-premium user, pick one item per slot, then count the use. */
module AiGenerate {
  import opened Wrappers
  import opened AiTypes
  import opened Quota
  import MockProvider

  /** The values of the four `Math.floor(Math.random() * n)` expressions */
  datatype GenerateDraws = GenerateDraws(top: nat, bottom: nat, shoes: nat, score: nat)

  predicate DrawsFit(d: GenerateDraws, items: seq<WardrobeItemInput>) {
    && MockProvider.DrawsFit(MockProvider.Draws(d.top, d.bottom, d.shoes), items)
    && d.score < 20
  }

  /** The three fixed reasons, sent even for an empty slot */
  const FixedReasons := Reasons(Some("Base solide pour le look"), Some("Bien assorti"), Some("Complètent le style"))

  /** The selection the function returns */
  function MockSelection(items: seq<WardrobeItemInput>, d: GenerateDraws): (sel: OutfitSelection)
    requires DrawsFit(d, items)
    ensures NoFabrication(sel, items)
    ensures sel.topId.Some? <==> exists i :: 0 <= i < |items| && items[i].category == Top
    ensures sel.bottomId.Some? <==> exists i :: 0 <= i < |items| && items[i].category == Bottom
    ensures sel.shoesId.Some? <==> exists i :: 0 <= i < |items| && items[i].category == Shoes
    ensures sel.jacketId.None? && sel.accessoryId.None?
    ensures 75 <= sel.estimatedScore <= 94
    ensures sel.description == "Look simple et efficace"
    ensures sel.reasons == FixedReasons
  {
    var top := MockProvider.PickSlot(items, Top, d.top);
    var bottom := MockProvider.PickSlot(items, Bottom, d.bottom);
    var shoes := MockProvider.PickSlot(items, Shoes, d.shoes);
    MockProvider.SlotIdFrom(top, items, Top);
    MockProvider.SlotIdFrom(bottom, items, Bottom);
    MockProvider.SlotIdFrom(shoes, items, Shoes);
    var sel := OutfitSelection(
      MockProvider.IdOf(top), MockProvider.IdOf(bottom), MockProvider.IdOf(shoes), None, None,
      "Look simple et efficace",
      75 + d.score,
      FixedReasons);
    assert NoFabrication(sel, items);
    sel
  }

  /** Unlike the client-side mock, the server reasons do not follow the slots:
      with no top in the wardrobe there is still a top reason. */
  lemma ReasonsIgnoreSlots(d: GenerateDraws)
    requires DrawsFit(d, [])
    ensures !ReasonsMatchSlots(MockSelection([], d))
  {
  }

  datatype Outcome = Outcome(response: Response<OutfitSelection>, usage: Usage)

  /** One request to `ai-generate`; `wardrobe` is None when the body has no
      `wardrobeItems`, and `.filter` then throws after the quota check. */
  function Handle(env: Env, wardrobe: Option<seq<WardrobeItemInput>>, d: GenerateDraws, u: Usage): (o: Outcome)
    requires wardrobe.Some? ==> DrawsFit(d, wardrobe.value)
    ensures env.authUser.None? ==> o == Outcome(BadRequest(Unauthorized), u)
    ensures env.authUser.Some? && OverQuota(env, u, env.authUser.value, Generation) ==>
              o == Outcome(QuotaResponse(), u)
    ensures env.authUser.Some? && !OverQuota(env, u, env.authUser.value, Generation) && wardrobe.None? ==>
              o == Outcome(BadRequest(WardrobeMissing), u)
    ensures o.response.Success? <==>
              env.authUser.Some? && !OverQuota(env, u, env.authUser.value, Generation) && wardrobe.Some?
    ensures o.response.Success? ==>
              o.usage == Charge(env, u, env.authUser.value, Generation) && NoFabrication(o.response.body, wardrobe.value)
    ensures !o.response.Success? ==> o.usage == u
  {
    if env.authUser.None? then Outcome(BadRequest(Unauthorized), u)
    else
      var user := env.authUser.value;
      if OverQuota(env, u, user, Generation) then Outcome(QuotaResponse(), u)
      else if wardrobe.None? then Outcome(BadRequest(WardrobeMissing), u)
      else Outcome(Success(MockSelection(wardrobe.value, d)), Charge(env, u, user, Generation))
  }

  /** A premium user is never rejected by the quota and never counted. */
  lemma PremiumBypassesQuota(env: Env, items: seq<WardrobeItemInput>, d: GenerateDraws, u: Usage)
    requires DrawsFit(d, items)
    requires env.authUser.Some? && IsPremium(env)
    ensures Handle(env, Some(items), d, u).response.Success?
    ensures Handle(env, Some(items), d, u).usage == u
  {
  }

  /** At three generations this week a non-premium user gets a 402 and nothing changes. */
  lemma LimitRejects(env: Env, wardrobe: Option<seq<WardrobeItemInput>>, d: GenerateDraws, u: Usage)
    requires wardrobe.Some? ==> DrawsFit(d, wardrobe.value)
    requires env.authUser.Some? && !IsPremium(env) && !env.counterReadFails
    requires Row(u, KeyFor(env.authUser.value, env)).generationsUsed >= FreeLimit
    ensures Status(Handle(env, wardrobe, d, u).response) == 402
    ensures Handle(env, wardrobe, d, u).usage == u
  {
  }

  /** Success for a non-premium user adds exactly one generation and leaves
      the rating counter and every other row alone. */
  lemma SuccessCountsOneGeneration(env: Env, items: seq<WardrobeItemInput>, d: GenerateDraws, u: Usage)
    requires DrawsFit(d, items)
    requires env.authUser.Some? && !IsPremium(env) && !env.incrementFails
    requires Handle(env, Some(items), d, u).response.Success?
    ensures var k := KeyFor(env.authUser.value, env); var u' := Handle(env, Some(items), d, u).usage;
      && u'[k].generationsUsed == Row(u, k).generationsUsed + 1
      && u'[k].ratingsUsed == Row(u, k).ratingsUsed
      && forall k' :: k' in u && k' != k ==> k' in u' && u'[k'] == u[k']
  {
    var k := KeyFor(env.authUser.value, env);
    assert Handle(env, Some(items), d, u).usage == Increment(u, k, Generation);
    assert Rating != Generation;
  }

  /** The increment's error is ignored: a request the gate lets through still
      gets its outfit when the increment fails, and nothing is counted. */
  lemma FailedIncrementUncounted(env: Env, items: seq<WardrobeItemInput>, d: GenerateDraws, u: Usage)
    requires DrawsFit(d, items)
    requires env.authUser.Some? && env.incrementFails
    requires !OverQuota(env, u, env.authUser.value, Generation)
    ensures Handle(env, Some(items), d, u).response.Success?
    ensures Handle(env, Some(items), d, u).usage == u
  {
  }
}
