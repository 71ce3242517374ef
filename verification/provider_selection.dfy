/** Choosing the outfit provider from the `EXPO_PUBLIC_AI_PROVIDER` setting.
    Every name currently yields the mock; the three planned back-ends warn. */
module ProviderSelection {
  import opened Wrappers

  /** The implementations that exist; only the mock does */
  datatype ProviderKind = Mock

  /** The chosen provider and the console warning emitted while choosing it */
  datatype Selection = Selection(provider: ProviderKind, warning: Option<string>)

  /** `toLowerCase` on the Latin capitals; other characters are unchanged. */
  function LowerChar(c: char): (d: char)
    ensures 'A' <= c <= 'Z' ==> 'a' <= d <= 'z'
    ensures !('A' <= c <= 'Z') ==> d == c
  {
    if 'A' <= c <= 'Z' then (c as int + 32) as char else c
  }

  function Lower(s: string): (r: string)
    ensures |r| == |s|
    ensures forall k :: 0 <= k < |s| ==> r[k] == LowerChar(s[k])
  {
    if s == [] then [] else [LowerChar(s[0])] + Lower(s[1..])
  }

  /** `process.env.EXPO_PUBLIC_AI_PROVIDER || 'mock'`, lower-cased */
  function ProviderName(setting: Option<string>): string {
    Lower(OrElse(setting, "mock"))
  }

  /** The back-ends that are announced but not implemented */
  predicate Planned(name: string) {
    name == "openai" || name == "anthropic" || name == "replicate"
  }

  /** `getAIProvider()` for a given environment setting */
  function GetAIProvider(setting: Option<string>): (s: Selection)
    ensures s.provider == Mock
    ensures s.warning.Some? <==> Planned(ProviderName(setting))
  {
    match ProviderName(setting)
    case "openai" => Selection(Mock, Some("OpenAI provider not implemented yet, falling back to mock"))
    case "anthropic" => Selection(Mock, Some("Anthropic provider not implemented yet, falling back to mock"))
    case "replicate" => Selection(Mock, Some("Replicate provider not implemented yet, falling back to mock"))
    case _ => Selection(Mock, None)
  }

  /** Lower-casing is idempotent. */
  lemma {:induction false} LowerIdempotent(s: string)
    ensures Lower(Lower(s)) == Lower(s)
  {
    if s != [] {
      LowerIdempotent(s[1..]);
    }
  }

  /** Matching ignores case: settings equal up to case select identically. */
  lemma SelectionIgnoresCase(a: string, b: string)
    requires Lower(a) == Lower(b)
    ensures GetAIProvider(Some(a)) == GetAIProvider(Some(b))
  {
    if a == "" || b == "" {
      assert |a| == |Lower(a)| == |Lower(b)| == |b|;
    }
  }

  /** A missing or empty setting behaves as `'mock'`: no warning. */
  lemma MissingSettingIsMock(setting: Option<string>)
    requires setting == None || setting == Some("")
    ensures GetAIProvider(setting) == GetAIProvider(Some("mock"))
    ensures GetAIProvider(setting).warning == None
  {
  }

  /** Any casing of a planned name warns. */
  lemma MixedCaseOpenAIWarns()
    ensures GetAIProvider(Some("OpenAI")).warning.Some?
  {
    var l := Lower("OpenAI");
    assert l == "openai" by {
      assert l[0] == 'o' && l[1] == 'p' && l[2] == 'e' && l[3] == 'n' && l[4] == 'a' && l[5] == 'i';
    }
  }

  /** An unknown name falls back to the mock without a warning. */
  lemma UnknownNameIsSilent()
    ensures GetAIProvider(Some("gemini")) == Selection(Mock, None)
  {
    var l := Lower("gemini");
    assert l == "gemini";
  }
}
