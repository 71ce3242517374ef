# FitChek core in Dafny

FitChek is a mobile outfit assistant. A user photographs an outfit and gets a score with comments. The user can also keep a wardrobe of garments and ask for an outfit picked from it. Free users get three ratings and three generations per week; premium users are unlimited.

This project models the deterministic core of the app as pure Dafny functions over immutable datatypes, and proves properties of it:

- **The mock AI provider** (`mock_provider.dfy`).
  - The 32-bit rolling string hash over UTF-16 code units.
  - The hash-derived rating: score, three axes, two strengths, two improvements, and suggestions taken from the wardrobe.
  - The outfit pick, one item per slot, chosen by explicit random draws.
- **The provider types and provider selection** (`ai_types.dfy`, `provider_selection.dfy`).
- **The weekly quota gate of the two edge functions** (`quota.dfy`, `ai_rate.dfy`, `ai_generate.dfy`).
  - The counters form a map from (user, week start) to (ratings used, generations used).
  - Week starts are computed on abstract day numbers (day 0 is Thursday 1 January 1970).
  - Premium users bypass the gate. At 3 uses a request is rejected with a 402. A success increments exactly one counter.
- **The client hooks** (`generator_hooks.dfy`, `ratings_hooks.dfy`, `wardrobe_hooks.dfy`, with shared parts in `hook_common.dfy`).
  - Each hook is modelled as a function of what the database and storage answered. Those answers are parameters.
  - The model covers the guards, the rows inserted and the values returned.
- **The client's pure decision logic**:
  - the generator slider and its labels (`generator_modal.dfy`);
  - style-tag toggling and form submission (`add_item_modal.dfy`);
  - the score parameter, colour bands and premium sections of the result screen (`rating_result_screen.dfy`);
  - the settings screen (`settings_screen.dfy`);
  - the auth and onboarding stores as record state machines (`auth_store.dfy`, `onboarding_store.dfy`);
  - the premium lock (`locked_card.dfy`);
  - the start-screen redirect (`index_redirect.dfy`).

`Math.random()` results, `Date.now()`, the current day, the developer premium switch and the provider setting are all parameters. Where the source states a bound on one of them, a predicate carries it, for example `DrawsFit`: a draw is smaller than its partition's length.

Where the code departs from the obvious reading, the model follows the code:

- **Week start.** The code computes `date - getDay() + 1`. That sends a Sunday to the following Monday rather than to the ISO Monday on or before it. `Quota.WeekStart` follows the code, and `Quota.WeekStartVersusIso` proves the two keys differ exactly on Sundays, by seven days.
- **A failed increment.** Both functions await `increment_usage_counter` and never read its `{ error }`. A failed increment therefore still answers 200, and the request goes uncounted (`Env.incrementFails`, `AiRate.FailedIncrementUncounted`, `AiGenerate.FailedIncrementUncounted`). If the increment keeps failing, a non-premium user is never limited (`AiRate.FailingIncrementNeverLimits`).
- **Toggling a tag twice.** Toggling twice restores the tag list exactly when the tag was absent, or occurred once as the last tag (`AddItemModal.ToggleTwiceRestoresIff`). Any other present tag comes back at the end: the same tags, in another order (`AddItemModal.ToggleTwicePresent`, `AddItemModal.ToggleTwiceReorders`).
- **Reasons in the server mock.** The `ai-generate` mock sends all three reasons even for an empty slot (`AiGenerate.ReasonsIgnoreSlots`). The client mock sends a reason exactly for each filled slot.

## Model

| member | source | states |
|---|---|---|
| MockProvider.ToInt32 | src/lib/ai/mockProvider.ts:15-16 | the int32 conversion lands in [-2^31, 2^31) and differs from its input by a multiple of 2^32 |
| MockProvider.SourceStepIsStep | src/lib/ai/mockProvider.ts:15-16 | the loop body `(h << 5) - h + c` followed by `h & h` equals the reference step ToInt32(31·h + c) for every h and c |
| MockProvider.CodeUnits | src/lib/ai/mockProvider.ts:13-14 | `charCodeAt` walks UTF-16 code units: between one and two per character, each below 2^16 |
| MockProvider.SimpleHash | src/lib/ai/mockProvider.ts:11-19 | the hash is the absolute value of the reference fold, a pure function of the string, in [0, 2^31] |
| MockProvider.ComputeSimpleHash | src/lib/ai/mockProvider.ts:11-19 | the loop as written, with shift, subtract and `& hash` on int32, returns the reference hash, in [0, 2^31] |
| MockProvider.PoolsDistinct | src/lib/ai/mockProvider.ts:21-46 | each of the three phrase pools has six pairwise distinct entries |
| MockProvider.PickTwo | src/lib/ai/mockProvider.ts:63-80 | the two phrases picked at consecutive positions modulo 6 are both from the pool and differ |
| MockProvider.SuggestionsFor | src/lib/ai/mockProvider.ts:84-92 | at most two suggestions, one per top/shoes item in input order, each naming an input item with "Essaie avec <type> <color>" |
| MockProvider.RateOutfit | src/lib/ai/mockProvider.ts:51-96 | score in [60,94], colors in [65,94], coherence in [70,94], occasion in [60,94]; two distinct strengths and two distinct improvements from their pools; suggestions absent exactly when the wardrobe is missing or empty, otherwise at most two naming wardrobe items |
| MockProvider.RatingDependsOnlyOnImage | src/lib/ai/mockProvider.ts:59-81 | equal image URLs give equal score, axes, strengths and improvements whatever the context and wardrobe; the context never matters |
| MockProvider.RatingPhrasesFollowHash | src/lib/ai/mockProvider.ts:63-80 | strengths sit at hash positions h, h+1 and improvements at h+2, h+3, modulo 6 |
| MockProvider.Partition | src/lib/ai/mockProvider.ts:105-107 | a partition holds only items of its category and is non-empty exactly when the wardrobe has one |
| MockProvider.PickSlot | src/lib/ai/mockProvider.ts:110-112 | a slot is filled exactly when its category occurs, and then with a wardrobe item of that category |
| MockProvider.SlotIdFrom | src/lib/ai/mockProvider.ts:120-122 | the id of a picked item is the id of a wardrobe item of the slot's category |
| MockProvider.OccasionKey | src/lib/ai/mockProvider.ts:114 | the hashed occasion is never empty: a missing or empty occasion becomes "default" |
| MockProvider.GenerateOutfit | src/lib/ai/mockProvider.ts:98-131 | ids come only from wardrobe items of the matching category; a slot is set exactly when its category occurs; jacket and accessory never set; score in [70,94]; description from the pool; each reason present exactly with its slot and templated from that item |
| MockProvider.EmptyWardrobeSelectsNothing | src/lib/ai/mockProvider.ts:105-129 | an empty wardrobe yields no ids and no reasons |
| MockProvider.OccasionDrivesScore | src/lib/ai/mockProvider.ts:114-117 | score and description depend only on the occasion (after the "default" fallback), not on the wardrobe or the draws |
| MockProvider.MissingOccasionIsDefault | src/lib/ai/mockProvider.ts:114 | an absent or empty occasion behaves as "default" |
| MockProvider.SuggestionsIffSuggestible | src/lib/ai/mockProvider.ts:84-92 | a rating carries suggestions exactly when the wardrobe holds a top or shoes |
| MockProvider.OutfitIgnoresContext | src/lib/ai/mockProvider.ts:98-130 | the outfit depends only on the wardrobe, the occasion and the draws; the user context and comfort/style preference are never read |
| ProviderSelection.Lower | src/lib/ai/index.ts:8 | lower-casing keeps the length and maps each Latin capital to its small letter |
| ProviderSelection.GetAIProvider | src/lib/ai/index.ts:5-28 | every setting yields the mock; a warning is emitted exactly for openai, anthropic and replicate in any case |
| ProviderSelection.SelectionIgnoresCase | src/lib/ai/index.ts:8-27 | two settings equal up to case select identically |
| ProviderSelection.MissingSettingIsMock | src/lib/ai/index.ts:6 | a missing or empty setting behaves as "mock", with no warning |
| ProviderSelection.MixedCaseOpenAIWarns | src/lib/ai/index.ts:8-11 | "OpenAI" warns like "openai" |
| ProviderSelection.UnknownNameIsSilent | src/lib/ai/index.ts:24-26 | an unknown name falls back to the mock with no warning |
| Quota.Weekday | supabase/functions/ai-rate/index.ts:54 | `getDay()` is in [0, 7), 0 being Sunday |
| Quota.WeekStart | supabase/functions/ai-rate/index.ts:53-54 | the key is always a Monday; Monday to Saturday map to the Monday on or before; a Sunday maps to the next day |
| Quota.WeekStartWindow | supabase/functions/ai-rate/index.ts:53-55 | a week key covers the Sunday before its Monday through the following Saturday, and nothing else |
| Quota.WeekStartVersusIso | supabase/functions/ai-rate/index.ts:53-55 | the key equals the ISO Monday except on Sundays, where it is seven days later |
| Quota.Row | supabase/functions/ai-rate/index.ts:57-64 | an absent counter row reads as zero ratings and zero generations |
| Quota.UsedSoFar | supabase/functions/ai-rate/index.ts:57-64 | a missing row or a failed read counts as 0 uses; otherwise the row's count |
| Quota.Increment | supabase/functions/ai-rate/index.ts:107-112 | one more use of the named counter in the (user, week) row, creating it if needed; the other counter and every other row unchanged |
| Quota.Status | supabase/functions/ai-rate/index.ts:67-124 | success is 200, quota rejection exactly 402, any thrown error exactly 400 |
| Quota.Charge | supabase/functions/ai-rate/index.ts:106-112 | premium users' counters never change, and neither do anyone's when the increment answers with an error; otherwise one increment of the row the gate reads |
| Quota.IsoKeyedIncrement | supabase/functions/ai-rate/index.ts:107-112 | an increment keyed by the ISO Monday bumps the gate's row on Monday to Saturday, but on a Sunday leaves the gate's row untouched |
| AiRate.ServerSuggestions | supabase/functions/ai-rate/index.ts:98-103 | no wardrobe gives []; otherwise the first two items of any category, "Essaie avec <type>" each |
| AiRate.MockRating | supabase/functions/ai-rate/index.ts:83-104 | score in [75,94], colors [70,94], coherence [75,94], occasion [65,94], two strengths, two improvements, at most two suggestions |
| AiRate.Handle | supabase/functions/ai-rate/index.ts:30-124 | no user gives 400 with counters untouched; over quota gives the 402 body with counters untouched; success exactly when signed in and not over quota, charging only then |
| AiRate.PremiumBypassesQuota | supabase/functions/ai-rate/index.ts:49-112 | a premium user always succeeds and is never counted, whatever the counter says |
| AiRate.SuccessCountsOneRating | supabase/functions/ai-rate/index.ts:107-112 | a non-premium success adds exactly one rating, leaves generations and all other rows unchanged |
| AiRate.FailedReadAdmits | supabase/functions/ai-rate/index.ts:57-64 | when the counter read fails, the request is admitted even at the limit |
| AiRate.StepAtCount | supabase/functions/ai-rate/index.ts:64-112 | with a working read, a request succeeds exactly below 3 uses and then bumps only the rating count |
| AiRate.RunStopsAtLimit | supabase/functions/ai-rate/index.ts:64-112 | over any run from c uses, request i succeeds exactly when c + i < 3; the count ends at min(3, c + n), or stays at c when it was already above 3; generations never move |
| AiRate.FailedIncrementUncounted | supabase/functions/ai-rate/index.ts:106-114 | when the increment fails, a request within quota still succeeds and the counters are unchanged |
| AiRate.FailingIncrementNeverLimits | supabase/functions/ai-rate/index.ts:64-114 | while the increment keeps failing, every request of any run succeeds and the counters never move |
| AiRate.FirstThreeSucceed | supabase/functions/ai-rate/index.ts:64-112 | from an empty week exactly the first three requests succeed and the count stays at 3 |
| AiGenerate.MockSelection | supabase/functions/ai-generate/index.ts:80-95 | ids only from wardrobe items of the matching category, set exactly when the category occurs; score in [75,94]; constant description; the three fixed reasons |
| AiGenerate.ReasonsIgnoreSlots | supabase/functions/ai-generate/index.ts:90-94 | reasons are present even for empty slots, unlike the client mock |
| AiGenerate.Handle | supabase/functions/ai-generate/index.ts:38-116 | no user gives 400; over quota gives 402; a body without wardrobe items gives 400 after the gate and is not counted; success exactly otherwise, charged and without invented items |
| AiGenerate.PremiumBypassesQuota | supabase/functions/ai-generate/index.ts:47-103 | a premium user always succeeds and is never counted |
| AiGenerate.LimitRejects | supabase/functions/ai-generate/index.ts:62-77 | at 3 generations this week a non-premium user gets 402 and the counters are unchanged |
| AiGenerate.SuccessCountsOneGeneration | supabase/functions/ai-generate/index.ts:97-103 | a non-premium success adds exactly one generation and changes nothing else |
| AiGenerate.FailedIncrementUncounted | supabase/functions/ai-generate/index.ts:97-105 | when the increment fails, a generation within quota still succeeds and the counters are unchanged |
| HookCommon.UserContextOf | src/features/generator/hooks.ts:32-37 | no profile gives empty lists and nulls; lists are copied; an empty-string context or balance becomes null |
| HookCommon.Decimal | src/features/ratings/hooks.ts:16 | the rendering of `Date.now()` is a non-empty string of decimal digits |
| GeneratorHooks.ComfortStyleOf | src/features/generator/hooks.ts:41-45 | below 30 is comfort first, above 70 style first, 30 through 70 balanced |
| GeneratorHooks.Kept | src/features/generator/hooks.ts:66 | `filter(Boolean)` keeps an id exactly when it is present and non-empty |
| GeneratorHooks.SelectedItemIds | src/features/generator/hooks.ts:66 | the saved ids are the present ids among top, bottom and shoes, in that order, at most three, none empty |
| GeneratorHooks.SelectedItems | src/features/generator/hooks.ts:78-80 | the returned items are a subsequence of the wardrobe holding exactly the items the outfit names |
| GeneratorHooks.UseGenerateOutfit | src/features/generator/hooks.ts:12-88 | no user fails first; a failed query, then an empty wardrobe fail before the provider; a failed insert fails; on success the saved row and returned value carry the outfit, the image and the saved id, with no invented item |
| GeneratorHooks.SavedIdsComeFromWardrobe | src/features/generator/hooks.ts:47-75 | every saved id is the id of an item of the user's wardrobe |
| GeneratorHooks.GenerationIgnoresProfile | src/features/generator/hooks.ts:32-52 | two different profiles give the same saved row and returned outfit: the user context built from the profile changes nothing under the mock |
| RatingsHooks.RatingPath | src/features/ratings/hooks.ts:16 | the upload path starts with "<user id>/ratings/" and ends with ".jpg" |
| RatingsHooks.UseRateOutfit | src/features/ratings/hooks.ts:9-73 | no user fails before upload; an upload error fails before the provider; on success the row and the return value share the score (as overall_score), the public URL and the provider's result, suggestions default to [] |
| RatingsHooks.RatingIgnoresProfile | src/features/ratings/hooks.ts:42-53 | two different profiles give the same rating, row and return value: the user context built from the profile changes nothing under the mock |
| WardrobeHooks.UseAddWardrobeItem | src/features/wardrobe/hooks.ts:42-84 | no user fails first; the row has the user's id, an image URL exactly when an image was given, a secondary colour only when non-empty, and tags defaulting to [] |
| WardrobeHooks.DeleteWardrobeItem | src/features/wardrobe/hooks.ts:95-99 | the table loses exactly the rows with that id, keeps every other row, in order |
| WardrobeHooks.UseDeleteWardrobeItem | src/features/wardrobe/hooks.ts:95-102 | a database error is thrown and leaves the table as it was; otherwise the delete applies |
| WardrobeHooks.DeleteIdempotent | src/features/wardrobe/hooks.ts:96-99 | deleting the same id twice is deleting it once |
| WardrobeHooks.DeleteIsLocal | src/features/wardrobe/hooks.ts:96-99 | deleting from a table split in two deletes from each part independently |
| GeneratorModal.Minus | src/features/generator/GeneratorModal.tsx:134 | minus steps 25 towards comfort, never below 0, and stays in [0,100] |
| GeneratorModal.Plus | src/features/generator/GeneratorModal.tsx:148 | plus steps 25 towards style, never above 100, and stays in [0,100] |
| GeneratorModal.PressStaysOnGrid | src/features/generator/GeneratorModal.tsx:134-148 | any sequence of presses from a grid value stays on {0,25,50,75,100} |
| GeneratorModal.ReachableFromInitial | src/features/generator/GeneratorModal.tsx:32-148 | the values reachable from the initial 50 are exactly 0, 25, 50, 75 and 100 |
| GeneratorModal.LabelOnGrid | src/features/generator/GeneratorModal.tsx:156-164 | on reachable values "Plutôt confort" never shows, and each label matches the preference sent to the provider |
| GeneratorModal.LabelOffGridDisagrees | src/features/generator/GeneratorModal.tsx:156-164 | off the grid the label and the sent preference can disagree (40: "Plutôt confort" but balanced) |
| GeneratorModal.NavParamsOf | src/features/generator/GeneratorModal.tsx:46-61 | absent (or empty) ids and reasons travel as "", present ones unchanged |
| GeneratorModal.HandleGenerate | src/features/generator/GeneratorModal.tsx:36-65 | success navigates with the outfit's parameters; failure alerts "Erreur" with the error's message or, when that is empty, exactly "Impossible de générer un outfit" |
| GeneratorModal.GeneratedNavigation | src/features/generator/GeneratorModal.tsx:46-61 | after a generation by the hook, each slot's reason is sent exactly when the wardrobe holds that category, each non-empty id names a wardrobe item of its category, the score is in [70,94], and the id and image are the saved ones |
| GeneratorModal.GenerationAlerts | src/features/generator/GeneratorModal.tsx:62-64 | no user alerts "User not authenticated"; an empty wardrobe alerts "Tu dois ajouter des vêtements dans ton placard d'abord !" |
| AddItemModal.ToggleStyleTag | src/features/wardrobe/AddItemModal.tsx:67-73 | a present tag disappears entirely, every other tag keeps its number of copies and its order; an absent tag is appended at the end |
| AddItemModal.ToggleKeepsNoDup | src/features/wardrobe/AddItemModal.tsx:67-73 | toggling keeps a duplicate-free list duplicate-free |
| AddItemModal.ToggleTwiceAbsent | src/features/wardrobe/AddItemModal.tsx:67-73 | toggling an absent tag twice restores the list exactly |
| AddItemModal.ToggleTwicePresent | src/features/wardrobe/AddItemModal.tsx:67-73 | toggling a present tag twice keeps the same tags, duplicate-free, with the tag last |
| AddItemModal.ToggleTwiceReorders | src/features/wardrobe/AddItemModal.tsx:67-73 | ["Casual","Chic"] toggled twice on "Casual" gives ["Chic","Casual"] |
| AddItemModal.ToggleTwiceLastRestores | src/features/wardrobe/AddItemModal.tsx:67-73 | a tag occurring once, as the last tag, is restored in place by toggling twice |
| AddItemModal.ToggleTwiceRestoredWasLast | src/features/wardrobe/AddItemModal.tsx:67-73 | a present tag that toggling twice restores occurred once, as the last tag |
| AddItemModal.ToggleTwiceRestoresIff | src/features/wardrobe/AddItemModal.tsx:67-73 | toggling twice restores the list exactly when the tag is absent or occurs once, as the last tag |
| AddItemModal.InputOf | src/features/wardrobe/AddItemModal.tsx:82-88 | the sent input carries the three fields and the tags; a null or empty image is sent as undefined |
| AddItemModal.HandleSubmit | src/features/wardrobe/AddItemModal.tsx:75-101 | an incomplete form is rejected with no call and no change; a successful add resets all five fields and closes; a failed add keeps the form and alerts |
| AddItemModal.InsertedRowFollowsForm | src/features/wardrobe/AddItemModal.tsx:81-88 | the row a valid form inserts has the form's fields and tags, no secondary colour, no season tags, and an image exactly when a photo was chosen |
| RatingResultScreen.ParseInt | app/rating-result.tsx:11 | `parseInt` is NaN exactly when no digit follows the space, sign and radix prefix |
| RatingResultScreen.ParseDecimal | app/rating-result.tsx:11 | parsing the decimal rendering of n gives n back |
| RatingResultScreen.ScoreParam | app/rating-result.tsx:11 | a missing or non-numeric score parameter reads as 0, otherwise as its parsed value |
| RatingResultScreen.ScoreRoundTrip | app/rating-result.tsx:11 | a natural-number score sent through the navigation arrives unchanged |
| RatingResultScreen.NonNumericScoreIsZero | app/rating-result.tsx:11 | "abc" reads as 0 |
| RatingResultScreen.ColorsAgree | app/rating-result.tsx:22-34 | text colour and ring colour always select the same band, and bands are monotone in the score |
| RatingResultScreen.MockScoreIsBlueOrGreen | app/rating-result.tsx:22-27 | any mock rating, sent and read back, is shown blue or green |
| RatingResultScreen.AxisShown | app/rating-result.tsx:82 | a missing axis shows 0 |
| RatingResultScreen.RenderTexts | app/rating-result.tsx:148-152 | drawing text children succeeds exactly when every child is a string, and then gives each child's text in order |
| RatingResultScreen.ListedLinesAsWritten | app/rating-result.tsx:148-152 | handing the suggestion records themselves to the text fails for every non-empty list |
| RatingResultScreen.ListedLines | app/rating-result.tsx:148-152 | the corrected list always draws, one line per suggestion, each its reason |
| RatingResultScreen.SuggestionsSectionOf | app/rating-result.tsx:137-177 | hidden exactly when there are no suggestions; listed exactly for premium users, one reason per suggestion in order; otherwise locked with the PRO badge and a route to /upgrade |
| RatingResultScreen.ListShown | app/rating-result.tsx:107-134 | the strengths and improvements lists show exactly when non-empty |
| RatingResultScreen.MockRatingShowsBothLists | app/rating-result.tsx:107-134 | a mock rating always shows both lists with two lines each |
| RatingResultScreen.SavedScoreOnScreen | src/features/ratings/RatingModal.tsx:51-56 | the saved `overall_score`, sent through the navigation and read back by the result screen, is unchanged, at least 60, and shown blue or green |
| RatingResultScreen.SavedSuggestionsOnScreen | src/features/ratings/RatingModal.tsx:51-63 | for the hook's rating the suggestions section is hidden exactly when the wardrobe holds no top and no shoes, and otherwise locked exactly for non-premium users |
| RatingResultScreen.SavedSuggestionsFailAsWritten | src/features/ratings/RatingModal.tsx:51-63 | for the hook's rating and a wardrobe with a top or shoes, a premium user's list is shown, and as written it cannot be drawn |
| SettingsScreen.BalanceLabel | app/settings.tsx:30-36 | null, undefined and "" read "Non défini"; comfort, balanced, style get their labels; any other string is shown as is |
| SettingsScreen.OnboardingBalancesShownRaw | app/settings.tsx:30-36 | the onboarding values comfort_first and style_first are shown raw |
| SettingsScreen.BalanceLabelCorrected | app/settings.tsx:30-36 | as the label, with comfort_first and style_first mapped to Confort and Stylé |
| SettingsScreen.CorrectedLabelsOnboarding | app/settings.tsx:30-36 | with the correction every onboarding value gets a French label, and all other values keep the original label |
| SettingsScreen.ListShown | app/settings.tsx:91-93 | an absent or empty list reads "Non défini"; otherwise its items joined with ", " |
| SettingsScreen.SettingsViewOf | app/settings.tsx:56-117 | the "(3 actions/semaine)" hint shows exactly for non-premium users; email or "Non connecté"; each list joined with ", " or "Non défini" when empty; context or "Non défini"; the comfort/style row shows a French label for comfort, balanced and style, "Non défini" when unset, and the raw value otherwise |
| SettingsScreen.OnboardedBalanceShownRaw | app/settings.tsx:102-107 | a profile saved by onboarding with comfort_first or style_first shows that raw id on the screen, not a French label |
| SettingsScreen.SettingsViewCorrected | app/settings.tsx:102-107 | with the corrected label every row is unchanged except the comfort/style row, which is a French label for every onboarding value |
| AuthStore.SetUser | src/store/useAuthStore.ts:29 | changes the user only |
| AuthStore.SetSession | src/store/useAuthStore.ts:31 | changes the session only |
| AuthStore.SetLoading | src/store/useAuthStore.ts:41 | changes the loading flag only |
| AuthStore.CheckPremiumStatus | src/store/useAuthStore.ts:43-48 | premium exactly when the developer switch is "true" or the profile is premium; nothing else changes |
| AuthStore.SetProfile | src/store/useAuthStore.ts:33-39 | onboarding complete exactly when the profile has a primary style; premium exactly when the switch is on or the profile is premium; user, session and loading kept |
| AuthStore.SignOut | src/store/useAuthStore.ts:50-59 | user, session and profile cleared and both flags false, loading kept |
| AuthStore.DevPremiumSurvivesOnlyThroughSetProfile | src/store/useAuthStore.ts:43-58 | signing out drops premium even with the switch on; setting any profile brings it back |
| AuthStore.SignOutIdempotent | src/store/useAuthStore.ts:50-59 | signing out twice is signing out once, and the initial state is already signed out |
| OnboardingStore.Apply | src/store/useOnboardingStore.ts:36-59 | each updater changes its own answer and nothing else, the step included |
| OnboardingStore.SetCurrentStep | src/store/useOnboardingStore.ts:61 | changes only the step |
| OnboardingStore.Reset | src/store/useOnboardingStore.ts:63 | back to the initial answers and step 1 |
| OnboardingStore.UpdatesKeepStep | src/store/useOnboardingStore.ts:36-59 | any sequence of updates leaves the step where it was |
| OnboardingStore.UpdatesCommute | src/store/useOnboardingStore.ts:36-59 | updates of two different answers commute |
| OnboardingStore.ResetForgets | src/store/useOnboardingStore.ts:63 | reset is idempotent and forgets every earlier update and step change |
| LockedCard.IsLocked | src/features/paywall/LockedCard.tsx:23 | an explicit prop decides; without it the card is locked exactly for non-premium users |
| LockedCard.Render | src/features/paywall/LockedCard.tsx:13-57 | unlocked renders only the children; locked renders them dimmed under the title and description (defaults when absent) and a button to /upgrade |
| LockedCard.LockFollowsStore | src/features/paywall/LockedCard.tsx:23 | after sign-out a card without the prop is locked; with the developer switch, setting any profile unlocks it |
| IndexRedirect.Redirect | app/index.tsx:9-16 | nothing while loading; then exactly one of /auth (no user), /onboarding/1 (not onboarded), /(tabs) |
| IndexRedirect.SignOutGoesToAuth | app/index.tsx:11-12 | once loaded, signing out leads to /auth |
| IndexRedirect.ProfileDecidesOnboarding | app/index.tsx:13-16 | for a signed-in user, setting a profile with a primary style leads to the tabs, otherwise to the first onboarding step |
| IndexRedirect.InitialWaits | app/index.tsx:10 | the initial state waits; once loading ends with no user the route is /auth |

## Findings

| source | as written | input that shows it | evidently intended | confidence | as-written member | corrected member |
|---|---|---|---|---|---|---|
| app/settings.tsx:30-36 | the balance label knows `comfort`, `balanced` and `style` | `preference_balance = 'comfort_first'` or `'style_first'`, the values the onboarding step "Tu préfères quoi ?" stores (app/onboarding/[step].tsx:34-43), is displayed as the raw id | "Confort" and "Stylé" for those values | medium, not executed | SettingsScreen.OnboardingBalancesShownRaw | SettingsScreen.BalanceLabelCorrected |
| app/rating-result.tsx:148-152 | each premium suggestion is drawn as `<Text>{suggestion}</Text>`, typed as a string | any rating with wardrobe suggestions, which are `{ item_id, reason }` records (src/lib/ai/types.ts:28-31, passed on by src/features/ratings/RatingModal.tsx:60), seen by a premium user: React refuses an object as a text child | `<Text>{suggestion.reason}</Text>` | medium, not executed | RatingResultScreen.ListedLinesAsWritten | RatingResultScreen.ListedLines |

`SettingsScreen.BalanceLabel` models the label as written. `SettingsScreen.BalanceLabelCorrected` adds the two onboarding ids. `SettingsScreen.CorrectedLabelsOnboarding` proves that it labels every onboarding value and agrees with the original everywhere else. On the screen as written, `SettingsScreen.OnboardedBalanceShownRaw` shows the raw id reaching the comfort/style row; `SettingsScreen.SettingsViewCorrected` is the same screen with the corrected label.

`RatingResultScreen.RenderTexts` models drawing `<Text>` children, where a record child fails the render. `RatingResultScreen.ListedLinesAsWritten` hands it the records and fails on every non-empty list; `RatingResultScreen.SavedSuggestionsFailAsWritten` shows this happens for the hook's own ratings. `RatingResultScreen.ListedLines` draws the reasons and always succeeds. `RatingResultScreen.SuggestionsSectionOf` uses the corrected list.

## Left out

- `renderOutfitImage`, its SVG templating and `encodeURIComponent`. The generator hook takes the rendered image URL as a parameter.
- The simulated network delays (`setTimeout`), which are timing only.
- I/O of every kind: the database client, storage, auth calls, `fetch`, blob conversion and the image pickers.
  - Each answer the core reads (a query result, an upload result, an insert error, the signed-in user) is a parameter.
  - The body of the `increment_usage_counter` procedure is not part of this model. It receives only the user and the counter type. The model takes it that a working call increments the named counter in the row the gate reads (`Quota.Increment`); a failing call changes nothing.
- Concurrency. The gate's read and the later increment are not atomic. Requests are modelled one after another.
- Time zones. Local `setDate` versus UTC `toISOString` is not modelled: the week start works on day numbers with a weekday.
- The distribution of `Math.random()`. Only the drawn values are modelled, with their bounds.
- CORS, the OPTIONS preflight, and a malformed JSON body. Only the 200, 402 and 400 outcomes are modelled.
- React Query caching and invalidation, and the screens that only render (sign-in, upgrade, outfit result, rating modal, layouts).
- AI provider objects are records of functions in the source. Only the mock exists, so the model calls its functions directly. The provider interface is the `ProviderOperation` datatype.
- The provider is chosen once when the module initialises. `ProviderSelection.GetAIProvider` models that one choice.
- ProviderSelection.Lower: lower-cases the Latin capitals only. JavaScript's `toLowerCase` also lowers non-ASCII letters. That can only matter for a name that lower-cases to one of the four ASCII names; the Kelvin sign lowers to "k" but only "mock" contains a k, and mock is the default anyway.
- RatingResultScreen.ParseInt: skips ASCII white space, no-break space and the byte-order mark only. JavaScript also skips the other Unicode space separators and the line and paragraph separators.
- RatingResultScreen.SuggestionsSectionOf: lists the reasons, as the corrected screen would. As written, the premium branch passes each suggestion record to a text child and fails to render (see Findings); the section as written is not promised to show anything.
- AiRate.Handle: a failed profile read reads as non-premium, as in the source. A malformed request body is not modelled.
- AiGenerate.Handle: a malformed request body is not modelled. A body without `wardrobeItems` is modelled and gives a 400 after the gate.
- Quota.Charge: takes it that the increment procedure keys its row as the gate does, by `date - getDay() + 1`, so a Sunday counts with the following Monday. Its body is not part of this model. If it keys by the ISO Monday instead, a Sunday charge bumps a row the gate never reads, and Sunday requests are never limited (`Quota.IsoKeyedIncrement`). AiRate.RunStopsAtLimit, AiRate.FirstThreeSucceed and AiGenerate.LimitRejects rest on this on Sundays. They, and AiRate.SuccessCountsOneRating and AiGenerate.SuccessCountsOneGeneration, are stated for a working increment (`!env.incrementFails`); a failing one is covered by the FailedIncrementUncounted lemmas.
- SettingsScreen.SettingsViewOf: does not model the CSS `capitalize` applied to the main context.
