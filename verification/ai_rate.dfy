/** The `ai-rate` edge function: authenticate, check the weekly rating quota
    of a non-premium user, produce a mock rating, then count the use. */
module AiRate {
  import opened Wrappers
  import opened AiTypes
  import opened Quota

  /** The values of the four `Math.floor(Math.random() * n)` expressions */
  datatype RateDraws = RateDraws(score: nat, colors: nat, coherence: nat, occasion: nat)

  predicate DrawsFit(d: RateDraws) {
    d.score < 20 && d.colors < 25 && d.coherence < 20 && d.occasion < 30
  }

  /** `Essaie avec <type>` for one of the first two items, whatever its category */
  function SuggestionOf(item: WardrobeItemInput): Suggestion {
    Suggestion(item.id, "Essaie avec " + item.garment)
  }

  /** `wardrobeItems ? wardrobeItems.slice(0, 2).map(...) : []` */
  function ServerSuggestions(items: Option<seq<WardrobeItemInput>>): (s: seq<Suggestion>)
    ensures items.None? ==> s == []
    ensures items.Some? ==> |s| == if |items.value| < 2 then |items.value| else 2
    ensures forall k :: 0 <= k < |s| ==> s[k] == SuggestionOf(items.value[k])
  {
    if items.None? then []
    else
      var first := if |items.value| < 2 then items.value else items.value[..2];
      seq(|first|, k requires 0 <= k < |first| => SuggestionOf(first[k]))
  }

  /** The mock rating the function returns */
  function MockRating(items: Option<seq<WardrobeItemInput>>, d: RateDraws): (r: RatingResult)
    requires DrawsFit(d)
    ensures 75 <= r.score <= 94
    ensures 70 <= r.axes.colors <= 94 && 75 <= r.axes.coherence <= 94 && 65 <= r.axes.occasion <= 94
    ensures |r.strengths| == 2 && |r.improvements| == 2
    ensures r.wardrobeSuggestions.Some? && |r.wardrobeSuggestions.value| <= 2
    ensures ConformingRating(r)
  {
    RatingResult(
      75 + d.score,
      Axes(70 + d.colors, 75 + d.coherence, 65 + d.occasion),
      ["Les couleurs se complètent bien \U{1F44C}", "Bon équilibre entre les pièces"],
      ["Essaie des couleurs plus variées", "Un layering pourrait ajouter du style"],
      Some(ServerSuggestions(items)))
  }

  /** A response together with the counter table after the request */
  datatype Outcome = Outcome(response: Response<RatingResult>, usage: Usage)

  /** One request to `ai-rate` */
  function Handle(env: Env, wardrobe: Option<seq<WardrobeItemInput>>, d: RateDraws, u: Usage): (o: Outcome)
    requires DrawsFit(d)
    ensures env.authUser.None? ==> o == Outcome(BadRequest(Unauthorized), u)
    ensures env.authUser.Some? && OverQuota(env, u, env.authUser.value, Rating) ==>
              o == Outcome(QuotaResponse(), u)
    ensures o.response.Success? <==> env.authUser.Some? && !OverQuota(env, u, env.authUser.value, Rating)
    ensures o.response.Success? ==> o.usage == Charge(env, u, env.authUser.value, Rating)
    ensures !o.response.Success? ==> o.usage == u
  {
    if env.authUser.None? then Outcome(BadRequest(Unauthorized), u)
    else
      var user := env.authUser.value;
      if OverQuota(env, u, user, Rating) then Outcome(QuotaResponse(), u)
      else Outcome(Success(MockRating(wardrobe, d)), Charge(env, u, user, Rating))
  }

  /** A premium user is never rejected and never counted, whatever the counter says. */
  lemma PremiumBypassesQuota(env: Env, wardrobe: Option<seq<WardrobeItemInput>>, d: RateDraws, u: Usage)
    requires DrawsFit(d)
    requires env.authUser.Some? && IsPremium(env)
    ensures Handle(env, wardrobe, d, u).response.Success?
    ensures Handle(env, wardrobe, d, u).usage == u
  {
  }

  /** Success for a non-premium user adds exactly one rating and leaves the
      generation counter and every other row alone. */
  lemma SuccessCountsOneRating(env: Env, wardrobe: Option<seq<WardrobeItemInput>>, d: RateDraws, u: Usage)
    requires DrawsFit(d)
    requires env.authUser.Some? && !IsPremium(env) && !env.incrementFails
    requires Handle(env, wardrobe, d, u).response.Success?
    ensures var k := KeyFor(env.authUser.value, env); var u' := Handle(env, wardrobe, d, u).usage;
      && u'[k].ratingsUsed == Row(u, k).ratingsUsed + 1
      && u'[k].generationsUsed == Row(u, k).generationsUsed
      && forall k' :: k' in u && k' != k ==> k' in u' && u'[k'] == u[k']
  {
    var k := KeyFor(env.authUser.value, env);
    var u' := Handle(env, wardrobe, d, u).usage;
    assert u' == Increment(u, k, Rating);
    assert Generation != Rating;
  }

  /** A failed counter read lets the request through even at the limit. */
  lemma FailedReadAdmits(env: Env, wardrobe: Option<seq<WardrobeItemInput>>, d: RateDraws, u: Usage)
    requires DrawsFit(d)
    requires env.authUser.Some? && env.counterReadFails
    ensures Handle(env, wardrobe, d, u).response.Success?
  {
  }

  /** The increment's error is ignored: a request the gate lets through still
      succeeds when the increment fails, and nothing is counted. */
  lemma FailedIncrementUncounted(env: Env, wardrobe: Option<seq<WardrobeItemInput>>, d: RateDraws, u: Usage)
    requires DrawsFit(d)
    requires env.authUser.Some? && env.incrementFails
    requires !OverQuota(env, u, env.authUser.value, Rating)
    ensures Handle(env, wardrobe, d, u).response.Success?
    ensures Handle(env, wardrobe, d, u).usage == u
  {
  }

  /** `n` consecutive requests of one user on one day; which ones succeeded,
      and the counters afterwards */
  function Run(env: Env, wardrobe: Option<seq<WardrobeItemInput>>, d: RateDraws, u: Usage, n: nat): (r: (seq<bool>, Usage))
    requires DrawsFit(d)
    ensures |r.0| == n
    decreases n
  {
    if n == 0 then ([], u)
    else
      var o := Handle(env, wardrobe, d, u);
      var rest := Run(env, wardrobe, d, o.usage, n - 1);
      ([o.response.Success?] + rest.0, rest.1)
  }

  /** One request of a non-premium user whose counter read works */
  lemma StepAtCount(env: Env, wardrobe: Option<seq<WardrobeItemInput>>, d: RateDraws, u: Usage)
    requires DrawsFit(d)
    requires env.authUser.Some? && !IsPremium(env) && !env.counterReadFails && !env.incrementFails
    ensures var k := KeyFor(env.authUser.value, env); var o := Handle(env, wardrobe, d, u);
      && (o.response.Success? <==> Row(u, k).ratingsUsed < FreeLimit)
      && (o.response.Success? ==> Row(o.usage, k) == Row(u, k).(ratingsUsed := Row(u, k).ratingsUsed + 1))
      && (!o.response.Success? ==> o.usage == u)
  {
    var k := KeyFor(env.authUser.value, env);
    var o := Handle(env, wardrobe, d, u);
    if o.response.Success? {
      assert o.usage == Increment(u, k, Rating);
      assert Generation != Rating;
    }
  }

  /** The counters one request leaves, as numbers */
  lemma StepCounts(env: Env, wardrobe: Option<seq<WardrobeItemInput>>, d: RateDraws, u: Usage)
    requires DrawsFit(d)
    requires env.authUser.Some? && !IsPremium(env) && !env.counterReadFails && !env.incrementFails
    ensures var k := KeyFor(env.authUser.value, env); var c := Row(u, k).ratingsUsed; var o := Handle(env, wardrobe, d, u);
      && (o.response.Success? <==> c < FreeLimit)
      && Row(o.usage, k).ratingsUsed == (if c < FreeLimit then c + 1 else c)
      && Row(o.usage, k).generationsUsed == Row(u, k).generationsUsed
  {
    StepAtCount(env, wardrobe, d, u);
  }

  /** A run of n > 0 requests is the first request followed by a run of n - 1
      from the counters it leaves. */
  lemma RunStep(env: Env, wardrobe: Option<seq<WardrobeItemInput>>, d: RateDraws, u: Usage, n: nat)
    requires DrawsFit(d) && n > 0
    ensures var o := Handle(env, wardrobe, d, u); var rest := Run(env, wardrobe, d, o.usage, n - 1);
      Run(env, wardrobe, d, u, n) == ([o.response.Success?] + rest.0, rest.1)
  {
  }

  /** The rating count after n requests from c: min(3, c + n), or c when it
      was already over the limit */
  function RatingsAfter(c: nat, n: nat): nat {
    if c + n < FreeLimit then c + n else if c < FreeLimit then FreeLimit else c
  }

  /** The count after n requests from c is the count after n - 1 requests
      from where the first request leaves it. */
  lemma RatingsAfterStep(c: nat, n: nat)
    requires n > 0
    ensures RatingsAfter(if c < FreeLimit then c + 1 else c, n - 1) == RatingsAfter(c, n)
  {
  }

  /** The rating count after a run */
  lemma {:induction false} RunRatings(env: Env, wardrobe: Option<seq<WardrobeItemInput>>, d: RateDraws, u: Usage, n: nat)
    requires DrawsFit(d)
    requires env.authUser.Some? && !IsPremium(env) && !env.counterReadFails && !env.incrementFails
    ensures var k := KeyFor(env.authUser.value, env);
      Row(Run(env, wardrobe, d, u, n).1, k).ratingsUsed == RatingsAfter(Row(u, k).ratingsUsed, n)
    decreases n
  {
    if n > 0 {
      var o := Handle(env, wardrobe, d, u);
      StepCounts(env, wardrobe, d, u);
      RunRatings(env, wardrobe, d, o.usage, n - 1);
      RunStep(env, wardrobe, d, u, n);
      RatingsAfterStep(Row(u, KeyFor(env.authUser.value, env)).ratingsUsed, n);
    }
  }

  /** A run leaves the generation count alone. */
  lemma {:induction false} RunGenerations(env: Env, wardrobe: Option<seq<WardrobeItemInput>>, d: RateDraws, u: Usage, n: nat)
    requires DrawsFit(d)
    requires env.authUser.Some? && !IsPremium(env) && !env.counterReadFails && !env.incrementFails
    ensures var k := KeyFor(env.authUser.value, env);
      Row(Run(env, wardrobe, d, u, n).1, k).generationsUsed == Row(u, k).generationsUsed
    decreases n
  {
    if n > 0 {
      StepCounts(env, wardrobe, d, u);
      RunGenerations(env, wardrobe, d, Handle(env, wardrobe, d, u).usage, n - 1);
      RunStep(env, wardrobe, d, u, n);
    }
  }

  /** The success pattern of a run, one request at a time: a first answer
      given at count c, followed by a pattern that starts at the next count. */
  lemma ShiftedSuccesses(r: seq<bool>, rest: seq<bool>, c: nat, c': nat, n: nat)
    requires n > 0 && |r| == n && |rest| == n - 1
    requires r[0] <==> c < FreeLimit
    requires forall i :: 1 <= i < n ==> r[i] == rest[i - 1]
    requires c' == (if c < FreeLimit then c + 1 else c)
    requires forall i :: 0 <= i < n - 1 ==> (rest[i] <==> c' + i < FreeLimit)
    ensures forall i :: 0 <= i < n ==> (r[i] <==> c + i < FreeLimit)
  {
    forall i | 1 <= i < n
      ensures r[i] <==> c + i < FreeLimit
    {
      assert rest[i - 1] <==> c' + (i - 1) < FreeLimit;
    }
  }

  /** Which requests of a run succeed: those made while the count is below 3. */
  lemma {:induction false} RunSuccesses(env: Env, wardrobe: Option<seq<WardrobeItemInput>>, d: RateDraws, u: Usage, n: nat)
    requires DrawsFit(d)
    requires env.authUser.Some? && !IsPremium(env) && !env.counterReadFails && !env.incrementFails
    ensures var c := Row(u, KeyFor(env.authUser.value, env)).ratingsUsed; var r := Run(env, wardrobe, d, u, n);
      forall i :: 0 <= i < n ==> (r.0[i] <==> c + i < FreeLimit)
    decreases n
  {
    var k := KeyFor(env.authUser.value, env);
    var c := Row(u, k).ratingsUsed;
    if n > 0 {
      var o := Handle(env, wardrobe, d, u);
      StepCounts(env, wardrobe, d, u);
      var c' := Row(o.usage, k).ratingsUsed;
      RunSuccesses(env, wardrobe, d, o.usage, n - 1);
      RunStep(env, wardrobe, d, u, n);
      ShiftedSuccesses(Run(env, wardrobe, d, u, n).0, Run(env, wardrobe, d, o.usage, n - 1).0, c, c', n);
    }
  }

  /** From `c` ratings used, the requests succeed while the count is below 3
      and are rejected from then on. The count ends at min(3, c + n), or stays
      at c when it was already over the limit (as concurrent requests can
      leave it). The generation count does not move. */
  lemma RunStopsAtLimit(env: Env, wardrobe: Option<seq<WardrobeItemInput>>, d: RateDraws, u: Usage, n: nat)
    requires DrawsFit(d)
    requires env.authUser.Some? && !IsPremium(env) && !env.counterReadFails && !env.incrementFails
    ensures var k := KeyFor(env.authUser.value, env); var c := Row(u, k).ratingsUsed; var r := Run(env, wardrobe, d, u, n);
      && (forall i :: 0 <= i < n ==> (r.0[i] <==> c + i < FreeLimit))
      && Row(r.1, k).ratingsUsed == (if c + n < FreeLimit then c + n else if c < FreeLimit then FreeLimit else c)
      && Row(r.1, k).generationsUsed == Row(u, k).generationsUsed
  {
    RunSuccesses(env, wardrobe, d, u, n);
    RunRatings(env, wardrobe, d, u, n);
    RunGenerations(env, wardrobe, d, u, n);
  }

  /** While the increment keeps failing, a user under the limit is never
      stopped: every request of a run succeeds and the counters never move. */
  lemma {:induction false} FailingIncrementNeverLimits(env: Env, wardrobe: Option<seq<WardrobeItemInput>>, d: RateDraws, u: Usage, n: nat)
    requires DrawsFit(d)
    requires env.authUser.Some? && env.incrementFails
    requires !OverQuota(env, u, env.authUser.value, Rating)
    ensures var r := Run(env, wardrobe, d, u, n);
      && (forall i :: 0 <= i < n ==> r.0[i])
      && r.1 == u
    decreases n
  {
    if n > 0 {
      FailedIncrementUncounted(env, wardrobe, d, u);
      FailingIncrementNeverLimits(env, wardrobe, d, u, n - 1);
      RunStep(env, wardrobe, d, u, n);
    }
  }

  /** From an empty week, exactly the first three of any run succeed. */
  lemma FirstThreeSucceed(env: Env, wardrobe: Option<seq<WardrobeItemInput>>, d: RateDraws, u: Usage, n: nat)
    requires DrawsFit(d)
    requires env.authUser.Some? && !IsPremium(env) && !env.counterReadFails && !env.incrementFails
    requires KeyFor(env.authUser.value, env) !in u
    ensures var r := Run(env, wardrobe, d, u, n);
      && (forall i :: 0 <= i < n ==> (r.0[i] <==> i < 3))
      && Row(r.1, KeyFor(env.authUser.value, env)).ratingsUsed == (if n < 3 then n else 3)
  {
    RunStopsAtLimit(env, wardrobe, d, u, n);
  }
}
