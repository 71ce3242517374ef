/** The generator screen: the occasion and the comfort/style slider, the label
    under the slider, and what the screen does with the hook's answer. */
module GeneratorModal {
  import opened Wrappers
  import opened AiTypes
  import opened HookCommon
  import opened GeneratorHooks
  import Records
  import MockProvider

  /** The screen's two pieces of state */
  datatype ModalState = ModalState(occasion: string, comfortStyle: int)

  /** The state a freshly opened screen starts in */
  const Initial := ModalState("casual", 50)

  /** The minus button: one step of 25 towards comfort, stopping at 0 */
  function Minus(v: int): (r: int)
    ensures 0 <= v <= 100 ==> 0 <= r <= 100
    ensures r >= 0
    ensures r <= v || v < 0
    ensures v >= 25 ==> r == v - 25
    ensures v <= 25 ==> r == 0
  {
    if v - 25 > 0 then v - 25 else 0
  }

  /** The plus button: one step of 25 towards style, stopping at 100 */
  function Plus(v: int): (r: int)
    ensures 0 <= v <= 100 ==> 0 <= r <= 100
    ensures r <= 100
    ensures r >= v || v > 100
    ensures v <= 75 ==> r == v + 25
    ensures v >= 75 ==> r == 100
  {
    if v + 25 < 100 then v + 25 else 100
  }

  /** A sequence of button presses: true for plus, false for minus */
  function Press(v: int, presses: seq<bool>): int
    decreases |presses|
  {
    if presses == [] then v
    else Press(if presses[0] then Plus(v) else Minus(v), presses[1..])
  }

  /** The five positions of the slider */
  predicate OnGrid(v: int) {
    v == 0 || v == 25 || v == 50 || v == 75 || v == 100
  }

  /** Whatever the presses, a value on the grid stays on the grid (so stays in [0, 100]). */
  lemma {:induction false} PressStaysOnGrid(v: int, presses: seq<bool>)
    requires OnGrid(v)
    ensures OnGrid(Press(v, presses))
    ensures 0 <= Press(v, presses) <= 100
    decreases |presses|
  {
    if presses != [] {
      var next := if presses[0] then Plus(v) else Minus(v);
      assert OnGrid(next);
      PressStaysOnGrid(next, presses[1..]);
    }
  }

  /** Two presses in a row */
  lemma PressTwo(v: int, a: bool, b: bool)
    ensures Press(v, [a, b]) == Press(if a then Plus(v) else Minus(v), [b])
  {
    assert [a, b][1..] == [b];
  }

  /** From the initial 50 the reachable values are exactly the five grid positions. */
  lemma ReachableFromInitial(t: int)
    ensures (exists presses :: Press(Initial.comfortStyle, presses) == t) <==> OnGrid(t)
  {
    if exists presses :: Press(Initial.comfortStyle, presses) == t {
      var presses :| Press(Initial.comfortStyle, presses) == t;
      PressStaysOnGrid(Initial.comfortStyle, presses);
    }
    if OnGrid(t) {
      var path: seq<bool>;
      if t == 0 {
        path := [false, false];
        PressTwo(50, false, false);
      } else if t == 25 {
        path := [false];
      } else if t == 50 {
        path := [];
      } else if t == 75 {
        path := [true];
      } else {
        path := [true, true];
        PressTwo(50, true, true);
      }
      assert Press(Initial.comfortStyle, path) == t;
    }
  }

  /** The label shown under the slider */
  function Label(v: int): string {
    if v < 30 then "Ultra confort"
    else if v < 50 then "Plutôt confort"
    else if v < 70 then "Équilibré"
    else if v < 90 then "Plutôt stylé"
    else "Ultra stylé"
  }

  /** On the five reachable positions, "Plutôt confort" never shows, and each
      label agrees with the preference the hook sends to the provider:
      the comfort label for comfort first, the balanced label for balanced,
      a style label for style first. */
  lemma LabelOnGrid(v: int)
    requires OnGrid(v)
    ensures Label(v) != "Plutôt confort"
    ensures Label(v) == "Ultra confort" <==> ComfortStyleOf(v) == ComfortFirst
    ensures Label(v) == "Équilibré" <==> ComfortStyleOf(v) == Balanced
    ensures Label(v) in {"Plutôt stylé", "Ultra stylé"} <==> ComfortStyleOf(v) == StyleFirst
  {
  }

  /** Off the grid the label and the sent preference disagree: 40 reads
      "Plutôt confort" yet is sent as balanced. */
  lemma LabelOffGridDisagrees()
    ensures Label(40) == "Plutôt confort" && ComfortStyleOf(40) == Balanced
  {
  }

  /** The parameters of the navigation to the outfit screen */
  datatype NavParams = NavParams(
    id: string, imageUrl: string, score: int, description: string,
    topId: string, bottomId: string, shoesId: string,
    topReason: string, bottomReason: string, shoesReason: string,
    occasion: string)

  /** Absent ids and reasons travel as empty strings. */
  function NavParamsOf(view: OutfitView, occasion: string): (p: NavParams)
    ensures p.topId == "" <==> !Truthy(view.outfit.topId)
    ensures p.bottomId == "" <==> !Truthy(view.outfit.bottomId)
    ensures p.shoesId == "" <==> !Truthy(view.outfit.shoesId)
    ensures p.topReason == "" <==> !Truthy(view.outfit.reasons.top)
    ensures p.bottomReason == "" <==> !Truthy(view.outfit.reasons.bottom)
    ensures p.shoesReason == "" <==> !Truthy(view.outfit.reasons.shoes)
    ensures Truthy(view.outfit.topId) ==> Some(p.topId) == view.outfit.topId
    ensures Truthy(view.outfit.bottomId) ==> Some(p.bottomId) == view.outfit.bottomId
    ensures Truthy(view.outfit.shoesId) ==> Some(p.shoesId) == view.outfit.shoesId
    ensures p.id == view.id && p.imageUrl == view.imageUrl && p.occasion == occasion
    ensures p.score == view.outfit.estimatedScore && p.description == view.outfit.description
  {
    var o := view.outfit;
    NavParams(view.id, view.imageUrl, o.estimatedScore, o.description,
              OrElse(o.topId, ""), OrElse(o.bottomId, ""), OrElse(o.shoesId, ""),
              OrElse(o.reasons.top, ""), OrElse(o.reasons.bottom, ""), OrElse(o.reasons.shoes, ""),
              occasion)
  }

  /** What pressing "generate" leads to */
  datatype GenerateEffect = Navigate(params: NavParams) | Alert(title: string, message: string)

  /** The `message` of each error `useGenerateOutfit` throws */
  function ErrorMessage(e: HookError): string {
    match e
    case NotAuthenticated => "User not authenticated"
    case EmptyWardrobe => "Tu dois ajouter des vêtements dans ton placard d'abord !"
    case QueryFailed(m) => m
    case UploadFailed(m) => m
    case SaveFailed(m) => m
    case DeleteFailed(m) => m
  }

  /** `handleGenerate`: navigate on success, otherwise an alert with the
      error's message, or the fallback text when that message is empty. */
  function HandleGenerate(state: ModalState, outcome: Result<Generated, HookError>): (e: GenerateEffect)
    ensures e.Navigate? <==> outcome.Ok?
    ensures e.Navigate? ==> e.params == NavParamsOf(outcome.value.view, state.occasion)
    ensures e.Alert? ==> e.title == "Erreur" && e.message != ""
    ensures e.Alert? && ErrorMessage(outcome.error) != "" ==> e.message == ErrorMessage(outcome.error)
    ensures e.Alert? && ErrorMessage(outcome.error) == "" ==> e.message == "Impossible de générer un outfit"
  {
    match outcome
    case Ok(g) => Navigate(NavParamsOf(g.view, state.occasion))
    case Err(err) => Alert("Erreur", if ErrorMessage(err) != "" then ErrorMessage(err) else "Impossible de générer un outfit")
  }

  /** The reasons built from the provider's selection: each slot's reason is
      sent exactly when the wardrobe holds that category. */
  lemma OutfitReasons(
    w: seq<WardrobeItemInput>, profile: Option<Records.Profile>, req: GenerateRequest,
    draws: MockProvider.Draws, view: OutfitView, occasion: string)
    requires MockProvider.DrawsFit(draws, w)
    requires view.outfit == MockProvider.GenerateOutfit(ProviderParams(w, profile, req), draws)
    ensures var p := NavParamsOf(view, occasion);
      && (p.topReason != "" <==> exists i :: 0 <= i < |w| && w[i].category == Top)
      && (p.bottomReason != "" <==> exists i :: 0 <= i < |w| && w[i].category == Bottom)
      && (p.shoesReason != "" <==> exists i :: 0 <= i < |w| && w[i].category == Shoes)
  {
    var sel := view.outfit;
    if sel.reasons.top.Some? {
      var x :| x in w && x.category == Top && sel.reasons.top == Some(MockProvider.TopReason(x));
    }
    if sel.reasons.bottom.Some? {
      var x :| x in w && x.category == Bottom && sel.reasons.bottom == Some(MockProvider.BottomReason(x));
    }
    if sel.reasons.shoes.Some? {
      var x :| x in w && x.category == Shoes && sel.reasons.shoes == Some(MockProvider.ShoesReason(x));
    }
  }

  /** The ids built from the provider's selection: each non-empty id names a
      wardrobe item of its category, and the score stays in [70, 94]. */
  lemma OutfitIds(
    w: seq<WardrobeItemInput>, profile: Option<Records.Profile>, req: GenerateRequest,
    draws: MockProvider.Draws, view: OutfitView, occasion: string)
    requires MockProvider.DrawsFit(draws, w)
    requires view.outfit == MockProvider.GenerateOutfit(ProviderParams(w, profile, req), draws)
    ensures var p := NavParamsOf(view, occasion);
      && (p.topId != "" ==> exists i :: 0 <= i < |w| && w[i].id == p.topId && w[i].category == Top)
      && (p.bottomId != "" ==> exists i :: 0 <= i < |w| && w[i].id == p.bottomId && w[i].category == Bottom)
      && (p.shoesId != "" ==> exists i :: 0 <= i < |w| && w[i].id == p.shoesId && w[i].category == Shoes)
      && 70 <= p.score <= 94
  {
  }

  /** The navigation after a generation by the hook: each slot's reason is
      sent exactly when the wardrobe holds that category, each non-empty id
      names a wardrobe item of its category, and a category the wardrobe
      lacks travels as "". */
  lemma GeneratedNavigation(
    user: Option<Records.User>, profile: Option<Records.Profile>,
    wardrobeQuery: Result<seq<WardrobeItemInput>, string>,
    req: GenerateRequest, draws: MockProvider.Draws,
    imageUrl: string, save: Result<string, string>, state: ModalState)
    requires wardrobeQuery.Ok? ==> MockProvider.DrawsFit(draws, wardrobeQuery.value)
    requires UseGenerateOutfit(user, profile, wardrobeQuery, req, draws, imageUrl, save).Ok?
    ensures var e := HandleGenerate(state, UseGenerateOutfit(user, profile, wardrobeQuery, req, draws, imageUrl, save));
      var w := wardrobeQuery.value;
      && e.Navigate?
      && (e.params.topReason != "" <==> exists i :: 0 <= i < |w| && w[i].category == Top)
      && (e.params.bottomReason != "" <==> exists i :: 0 <= i < |w| && w[i].category == Bottom)
      && (e.params.shoesReason != "" <==> exists i :: 0 <= i < |w| && w[i].category == Shoes)
      && (e.params.topId != "" ==> exists i :: 0 <= i < |w| && w[i].id == e.params.topId && w[i].category == Top)
      && (e.params.bottomId != "" ==> exists i :: 0 <= i < |w| && w[i].id == e.params.bottomId && w[i].category == Bottom)
      && (e.params.shoesId != "" ==> exists i :: 0 <= i < |w| && w[i].id == e.params.shoesId && w[i].category == Shoes)
      && 70 <= e.params.score <= 94
      && e.params.id == save.value && e.params.imageUrl == imageUrl && e.params.occasion == state.occasion
  {
    var g := UseGenerateOutfit(user, profile, wardrobeQuery, req, draws, imageUrl, save).value;
    OutfitReasons(wardrobeQuery.value, profile, req, draws, g.view, state.occasion);
    OutfitIds(wardrobeQuery.value, profile, req, draws, g.view, state.occasion);
  }

  /** A failed generation alerts with the hook's own message: no user, or an
      empty wardrobe, each with its French or English text. */
  lemma GenerationAlerts(
    profile: Option<Records.Profile>, user: Records.User, req: GenerateRequest, draws: MockProvider.Draws,
    imageUrl: string, save: Result<string, string>, state: ModalState)
    ensures HandleGenerate(state, UseGenerateOutfit(None, profile, Ok([]), req, draws, imageUrl, save))
              == Alert("Erreur", "User not authenticated")
    ensures HandleGenerate(state, UseGenerateOutfit(Some(user), profile, Ok([]), req, draws, imageUrl, save))
              == Alert("Erreur", "Tu dois ajouter des vêtements dans ton placard d'abord !")
  {
  }
}
