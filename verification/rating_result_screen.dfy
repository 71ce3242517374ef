/** The rating result screen: reading the score back from the navigation
    parameters, the colour bands of the score, the axis values shown, and
    the premium-only suggestions section. */
module RatingResultScreen {
  import opened Wrappers
  import opened AiTypes
  import opened HookCommon
  import MockProvider
  import Records
  import RatingsHooks

  // ---------------------------------------------------------------------------
  // `parseInt(s)` with no radix
  // ---------------------------------------------------------------------------

  /** The white space `parseInt` skips before the number (ASCII and the two
      common non-ASCII spaces) */
  predicate IsSpace(c: char) {
    c == ' ' || c == '\t' || c == '\n' || c == '\r' || c == '\U{B}' || c == '\U{C}' || c == '\U{A0}' || c == '\U{FEFF}'
  }

  function TrimStart(s: string): (t: string)
    ensures |t| <= |s| && t == s[|s| - |t|..]
    ensures t == [] || !IsSpace(t[0])
    ensures s == [] || !IsSpace(s[0]) ==> t == s
    decreases |s|
  {
    if s != [] && IsSpace(s[0]) then TrimStart(s[1..]) else s
  }

  /** The value of `c` as a digit in base `radix` (10 or 16) */
  function DigitValue(c: char, radix: nat): (d: Option<nat>)
    requires radix == 10 || radix == 16
    ensures d.Some? ==> d.value < radix
    ensures '0' <= c <= '9' ==> d == Some(c as nat - '0' as nat)
  {
    if '0' <= c <= '9' then Some(c as nat - '0' as nat)
    else if radix == 16 && 'a' <= c <= 'f' then Some(c as nat - 'a' as nat + 10)
    else if radix == 16 && 'A' <= c <= 'F' then Some(c as nat - 'A' as nat + 10)
    else None
  }

  predicate AllDigits(s: string, radix: nat)
    requires radix == 10 || radix == 16
  {
    forall k :: 0 <= k < |s| ==> DigitValue(s[k], radix).Some?
  }

  /** The longest prefix of `s` made of digits */
  function DigitPrefix(s: string, radix: nat): (p: string)
    requires radix == 10 || radix == 16
    ensures |p| <= |s| && p == s[..|p|]
    ensures AllDigits(p, radix)
    ensures |p| < |s| ==> DigitValue(s[|p|], radix).None?
    decreases |s|
  {
    if s == [] || DigitValue(s[0], radix).None? then []
    else
      var rest := DigitPrefix(s[1..], radix);
      assert forall k :: 0 < k <= |rest| ==> ([s[0]] + rest)[k] == rest[k - 1];
      [s[0]] + rest
  }

  /** The number a string of digits denotes, most significant digit first */
  function DigitsValue(s: string, radix: nat): (v: nat)
    requires radix == 10 || radix == 16
    requires AllDigits(s, radix)
    decreases |s|
  {
    if s == [] then 0
    else DigitsValue(s[..|s| - 1], radix) * radix + DigitValue(s[|s| - 1], radix).value
  }

  /** `parseInt(s)`: None stands for NaN. Leading space is skipped, one sign is
      read, a `0x`/`0X` prefix switches to base 16, and the longest run of
      digits that follows is the number; anything after it is ignored. */
  function ParseInt(s: string): (r: Option<int>)
    ensures r.None? <==> DigitPrefix(Body(s), Radix(s)) == []
  {
    var body := Body(s);
    var digits := DigitPrefix(body, Radix(s));
    if digits == [] then None
    else Some(Sign(s) * DigitsValue(digits, Radix(s)))
  }

  /** The text after the space and the sign */
  function Unsigned(s: string): string {
    var t := TrimStart(s);
    if t != [] && (t[0] == '-' || t[0] == '+') then t[1..] else t
  }

  function Sign(s: string): int {
    var t := TrimStart(s);
    if t != [] && t[0] == '-' then -1 else 1
  }

  function Radix(s: string): (radix: nat)
    ensures radix == 10 || radix == 16
  {
    var u := Unsigned(s);
    if |u| >= 2 && u[0] == '0' && (u[1] == 'x' || u[1] == 'X') then 16 else 10
  }

  /** The digits part, after any `0x` prefix */
  function Body(s: string): string {
    var u := Unsigned(s);
    if Radix(s) == 16 then u[2..] else u
  }

  /** The value of a string of digits built by `Decimal` is the number. */
  lemma {:induction false} DecimalValue(n: nat)
    ensures AllDigits(Decimal(n), 10)
    ensures DigitsValue(Decimal(n), 10) == n
    decreases n
  {
    var s := Decimal(n);
    if n >= 10 {
      DecimalValue(n / 10);
      assert s[..|s| - 1] == Decimal(n / 10);
      assert DigitValue(s[|s| - 1], 10).value == n % 10;
    } else {
      assert DigitValue(s[0], 10).value == n;
    }
  }

  /** A digit string is its own longest digit prefix. */
  lemma {:induction false} DigitPrefixOfDigits(s: string)
    requires AllDigits(s, 10)
    ensures DigitPrefix(s, 10) == s
    decreases |s|
  {
    if s != [] {
      assert AllDigits(s[1..], 10) by {
        forall k | 0 <= k < |s[1..]| ensures DigitValue(s[1..][k], 10).Some? {
          assert s[1..][k] == s[k + 1];
        }
      }
      DigitPrefixOfDigits(s[1..]);
      assert [s[0]] + s[1..] == s;
    }
  }

  /** A non-empty string of decimal digits parses to its value. */
  lemma ParseDigits(s: string)
    requires s != [] && AllDigits(s, 10)
    ensures ParseInt(s) == Some(DigitsValue(s, 10))
  {
    assert DigitValue(s[0], 10).Some?;
    assert !IsSpace(s[0]) && s[0] != '-' && s[0] != '+';
    assert TrimStart(s) == s;
    assert Unsigned(s) == s;
    assert Sign(s) == 1;
    if |s| >= 2 {
      assert DigitValue(s[1], 10).Some?;
    }
    assert Radix(s) == 10;
    assert Body(s) == s;
    DigitPrefixOfDigits(s);
  }

  /** `parseInt(String(n))` gives back `n` for every natural number. */
  lemma ParseDecimal(n: nat)
    ensures ParseInt(Decimal(n)) == Some(n)
  {
    DecimalValue(n);
    ParseDigits(Decimal(n));
  }

  /** `parseInt(params.score) || 0`: NaN (and a missing parameter, which
      reads as the text "undefined") become 0. */
  function ScoreParam(param: Option<string>): (score: int)
    ensures param.None? ==> score == 0
    ensures param.Some? && ParseInt(param.value).None? ==> score == 0
    ensures param.Some? && ParseInt(param.value).Some? ==> score == ParseInt(param.value).value
  {
    match param
    case None => 0
    case Some(s) => ParseInt(s).GetOr(0)
  }

  /** The score the rating screen sent (a natural number) arrives unchanged. */
  lemma ScoreRoundTrip(n: nat)
    ensures ScoreParam(Some(Decimal(n))) == n
  {
    ParseDecimal(n);
  }

  /** Text that holds no digit reads as 0. */
  lemma NonNumericScoreIsZero()
    ensures ScoreParam(Some("abc")) == 0
  {
    assert TrimStart("abc") == "abc";
    assert Unsigned("abc") == "abc";
    assert Radix("abc") == 10;
    assert DigitPrefix("abc", 10) == [];
  }

  // ---------------------------------------------------------------------------
  // Colour bands
  // ---------------------------------------------------------------------------

  /** `getScoreColor`: the text colour class of the score */
  function ScoreColor(score: int): string {
    if score >= 80 then "text-green-500"
    else if score >= 60 then "text-blue-500"
    else if score >= 40 then "text-orange-500"
    else "text-red-500"
  }

  /** `getRingColor`: the border colour of the ring */
  function RingColor(score: int): string {
    if score >= 80 then "#10b981"
    else if score >= 60 then "#0ea5e9"
    else if score >= 40 then "#f97316"
    else "#ef4444"
  }

  datatype Band = Green | Blue | Orange | Red

  /** The band a score colour class belongs to */
  function BandOfClass(c: string): Option<Band> {
    if c == "text-green-500" then Some(Green)
    else if c == "text-blue-500" then Some(Blue)
    else if c == "text-orange-500" then Some(Orange)
    else if c == "text-red-500" then Some(Red)
    else None
  }

  /** The band a ring colour belongs to */
  function BandOfRing(c: string): Option<Band> {
    if c == "#10b981" then Some(Green)
    else if c == "#0ea5e9" then Some(Blue)
    else if c == "#f97316" then Some(Orange)
    else if c == "#ef4444" then Some(Red)
    else None
  }

  /** The text and the ring always pick the same band, for every score, and
      a higher score never lands in a lower band. */
  lemma ColorsAgree(score: int, higher: int)
    requires score <= higher
    ensures BandOfClass(ScoreColor(score)).Some?
    ensures BandOfClass(ScoreColor(score)) == BandOfRing(RingColor(score))
    ensures BandOfClass(ScoreColor(score)) == Some(Green) ==> BandOfClass(ScoreColor(higher)) == Some(Green)
    ensures BandOfClass(ScoreColor(higher)) == Some(Red) ==> BandOfClass(ScoreColor(score)) == Some(Red)
  {
  }

  /** A mock rating, sent through the navigation and read back, is always
      shown blue or green. */
  lemma MockScoreIsBlueOrGreen(imageUrl: string, context: UserContext, wardrobe: Option<seq<WardrobeItemInput>>)
    ensures var r := MockProvider.RateOutfit(imageUrl, context, wardrobe);
      var shown := ScoreParam(Some(Decimal(r.score)));
      BandOfClass(ScoreColor(shown)) in {Some(Green), Some(Blue)}
  {
    var r := MockProvider.RateOutfit(imageUrl, context, wardrobe);
    ScoreRoundTrip(r.score);
  }

  // ---------------------------------------------------------------------------
  // Axes and sections
  // ---------------------------------------------------------------------------

  /** `axes.x || 0`: a missing axis shows 0 */
  function AxisShown(axis: Option<int>): (v: int)
    ensures axis.None? ==> v == 0
    ensures axis.Some? ==> v == axis.value
  {
    axis.GetOr(0)
  }

  /** A child of a `<Text>`: a string is drawn as text, while a plain object
      is refused by React ("Objects are not valid as a React child"), which
      fails the whole render. */
  datatype TextChild = StringChild(text: string) | RecordChild(record: Suggestion)

  /** Drawing a list of `<Text>` children: the texts in order, or the error
      of the first child that is not a string */
  function RenderTexts(children: seq<TextChild>): (r: Result<seq<string>, string>)
    ensures r.Ok? <==> forall i :: 0 <= i < |children| ==> children[i].StringChild?
    ensures r.Ok? ==> |r.value| == |children|
    ensures r.Ok? ==> forall i :: 0 <= i < |children| ==> r.value[i] == children[i].text
    decreases |children|
  {
    if children == [] then Ok([])
    else if children[0].RecordChild? then Err("Objects are not valid as a React child")
    else match RenderTexts(children[1..])
      case Ok(rest) => Ok([children[0].text] + rest)
      case Err(e) => Err(e)
  }

  /** The premium list as written: `<Text>{suggestion}</Text>` hands each
      `{ item_id, reason }` record itself to the text, so any non-empty list
      fails to render. */
  function ListedLinesAsWritten(items: seq<Suggestion>): (r: Result<seq<string>, string>)
    ensures items == [] ==> r == Ok([])
    ensures items != [] ==> r.Err?
  {
    var children := seq(|items|, i requires 0 <= i < |items| => RecordChild(items[i]));
    assert items != [] ==> !children[0].StringChild?;
    RenderTexts(children)
  }

  /** The premium list as evidently intended: one line per suggestion,
      showing its `reason` */
  function ListedLines(items: seq<Suggestion>): (r: Result<seq<string>, string>)
    ensures r.Ok?
    ensures |r.value| == |items|
    ensures forall i :: 0 <= i < |items| ==> r.value[i] == items[i].reason
  {
    RenderTexts(seq(|items|, i requires 0 <= i < |items| => StringChild(items[i].reason)))
  }

  /** The suggestions section: hidden, locked behind the upgrade screen, or
      listing the reason of each suggestion */
  datatype SuggestionsSection =
    | Hidden
    | Locked(proBadge: bool, route: string)
    | Listed(lines: seq<string>)

  function SuggestionsSectionOf(suggestions: seq<Suggestion>, isPremium: bool): (s: SuggestionsSection)
    ensures s.Hidden? <==> suggestions == []
    ensures s.Listed? <==> suggestions != [] && isPremium
    ensures s.Listed? ==> |s.lines| == |suggestions|
    ensures s.Listed? ==> forall i :: 0 <= i < |suggestions| ==> s.lines[i] == suggestions[i].reason
    ensures s.Locked? <==> suggestions != [] && !isPremium
    ensures s.Locked? ==> s.proBadge && s.route == "/upgrade"
  {
    if suggestions == [] then Hidden
    else if isPremium then Listed(ListedLines(suggestions).value)
    else Locked(true, "/upgrade")
  }

  /** The "Ce qui marche" and "À tester" lists show only when non-empty. */
  function ListShown(xs: seq<string>): (shown: Option<seq<string>>)
    ensures shown.Some? <==> xs != []
    ensures shown.Some? ==> shown.value == xs
  {
    if xs == [] then None else Some(xs)
  }

  /** A mock rating always shows both lists, each with two lines. */
  lemma MockRatingShowsBothLists(imageUrl: string, context: UserContext, wardrobe: Option<seq<WardrobeItemInput>>)
    ensures var r := MockProvider.RateOutfit(imageUrl, context, wardrobe);
      && ListShown(r.strengths).Some? && |ListShown(r.strengths).value| == 2
      && ListShown(r.improvements).Some? && |ListShown(r.improvements).value| == 2
  {
  }

  /** The rating the hook saves, sent by its `overall_score` and read back by
      this screen, shows that same score, in the blue or green band. */
  lemma SavedScoreOnScreen(
    user: Option<Records.User>, profile: Option<Records.Profile>, now: nat, storage: Storage,
    wardrobeQuery: Option<seq<WardrobeItemInput>>, save: Result<string, string>)
    requires RatingsHooks.UseRateOutfit(user, profile, now, storage, wardrobeQuery, save).Ok?
    ensures var g := RatingsHooks.UseRateOutfit(user, profile, now, storage, wardrobeQuery, save).value;
      && 60 <= g.row.overallScore
      && ScoreParam(Some(Decimal(g.row.overallScore as nat))) == g.row.overallScore
      && BandOfClass(ScoreColor(g.row.overallScore)) in {Some(Green), Some(Blue)}
  {
    var g := RatingsHooks.UseRateOutfit(user, profile, now, storage, wardrobeQuery, save).value;
    ScoreRoundTrip(g.row.overallScore as nat);
  }

  /** The suggestions the hook's rating sends (`wardrobe_suggestions || []`):
      the section is hidden exactly when the wardrobe holds no top and no
      shoes, and otherwise locked exactly for a non-premium user. */
  lemma SavedSuggestionsOnScreen(
    user: Option<Records.User>, profile: Option<Records.Profile>, now: nat, storage: Storage,
    wardrobeQuery: Option<seq<WardrobeItemInput>>, save: Result<string, string>, isPremium: bool)
    requires RatingsHooks.UseRateOutfit(user, profile, now, storage, wardrobeQuery, save).Ok?
    ensures var g := RatingsHooks.UseRateOutfit(user, profile, now, storage, wardrobeQuery, save).value;
      var w := wardrobeQuery.GetOr([]);
      var shown := SuggestionsSectionOf(g.view.result.wardrobeSuggestions.GetOr([]), isPremium);
      && (shown.Hidden? <==> !exists i :: 0 <= i < |w| && MockProvider.Suggestible(w[i]))
      && (shown.Locked? <==> !isPremium && exists i :: 0 <= i < |w| && MockProvider.Suggestible(w[i]))
  {
    var g := RatingsHooks.UseRateOutfit(user, profile, now, storage, wardrobeQuery, save).value;
    var url := storage.publicUrl(storage.upload(RatingsHooks.RatingPath(user.value.id, now)).value);
    MockProvider.SuggestionsIffSuggestible(url, UserContextOf(profile), Some(wardrobeQuery.GetOr([])));
  }

  /** As written, a premium user whose rating carries suggestions (the
      wardrobe holds a top or shoes) gets a list that cannot be drawn; the
      corrected list shows one reason per suggestion. */
  lemma SavedSuggestionsFailAsWritten(
    user: Option<Records.User>, profile: Option<Records.Profile>, now: nat, storage: Storage,
    wardrobeQuery: Option<seq<WardrobeItemInput>>, save: Result<string, string>)
    requires RatingsHooks.UseRateOutfit(user, profile, now, storage, wardrobeQuery, save).Ok?
    requires var w := wardrobeQuery.GetOr([]); exists i :: 0 <= i < |w| && MockProvider.Suggestible(w[i])
    ensures var g := RatingsHooks.UseRateOutfit(user, profile, now, storage, wardrobeQuery, save).value;
      var suggestions := g.view.result.wardrobeSuggestions.GetOr([]);
      && SuggestionsSectionOf(suggestions, true).Listed?
      && ListedLinesAsWritten(suggestions).Err?
      && |SuggestionsSectionOf(suggestions, true).lines| == |suggestions|
  {
    SavedSuggestionsOnScreen(user, profile, now, storage, wardrobeQuery, save, true);
  }
}
