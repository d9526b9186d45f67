/** The stored API keys, one per provider, and the two lookups on them. */
module ApiKeys {
  import opened Text

  datatype Keys = Keys(openai: string, anthropic: string, google: string, groq: string, mistral: string)

  /** What the key store holds before anything is saved. */
  const DefaultKeys: Keys := Keys("", "", "", "", "")

  /** `getAPIKey`: the key of the provider named case-insensitively, `''` for an unset key and
      for a provider the store does not know. */
  function GetAPIKey(provider: string, keys: Keys): (r: string)
    ensures ToLower(provider) == "openai" ==> r == keys.openai
    ensures ToLower(provider) == "anthropic" ==> r == keys.anthropic
    ensures ToLower(provider) == "google" ==> r == keys.google
    ensures ToLower(provider) == "groq" ==> r == keys.groq
    ensures ToLower(provider) == "mistral" ==> r == keys.mistral
    ensures ToLower(provider) !in {"openai", "anthropic", "google", "groq", "mistral"} ==> r == ""
  {
    match ToLower(provider)
    case "openai" => if keys.openai != "" then keys.openai else ""
    case "anthropic" => if keys.anthropic != "" then keys.anthropic else ""
    case "google" => if keys.google != "" then keys.google else ""
    case "groq" => if keys.groq != "" then keys.groq else ""
    case "mistral" => if keys.mistral != "" then keys.mistral else ""
    case _ => ""
  }

  /** Names that differ only in letter case find the same key. */
  lemma KeyLookupIgnoresCase(a: string, b: string, keys: Keys)
    requires ToLower(a) == ToLower(b)
    ensures GetAPIKey(a, keys) == GetAPIKey(b, keys)
  {
  }

  /** Every lookup in the default store finds the empty string. */
  lemma DefaultKeysEmpty(provider: string)
    ensures GetAPIKey(provider, DefaultKeys) == ""
  {
  }

  /** `getProviderFromModel`: the provider a model name's prefix points to, OpenAI otherwise. */
  function ProviderFromModel(model: string): (r: string)
    ensures r in {"openai", "anthropic", "google"}
    ensures StartsWith(model, "gpt-") || StartsWith(model, "o1-") ==> r == "openai"
    ensures StartsWith(model, "claude-") ==> r == "anthropic"
    ensures StartsWith(model, "gemini-") ==> r == "google"
    ensures !StartsWith(model, "claude-") && !StartsWith(model, "gemini-") ==> r == "openai"
  {
    if StartsWith(model, "gpt-") || StartsWith(model, "o1-") then
      OpenAIPrefixesOnly(model);
      "openai"
    else if StartsWith(model, "claude-") then "anthropic"
    else if StartsWith(model, "gemini-") then "google"
    else "openai"
  }

  /** Two prefixes of one string agree on their first two characters. */
  lemma PrefixHead(s: string)
    ensures forall p :: |p| >= 2 && StartsWith(s, p) ==> p[..2] == s[..2]
  {
    forall p | |p| >= 2 && StartsWith(s, p) ensures p[..2] == s[..2] {
      assert s[..2] == s[..|p|][..2];
    }
  }

  /** A model name has at most one provider's prefix. */
  lemma OpenAIPrefixesOnly(model: string)
    requires StartsWith(model, "gpt-") || StartsWith(model, "o1-")
    ensures !StartsWith(model, "claude-") && !StartsWith(model, "gemini-")
  {
    PrefixHead(model);
    assert "gpt-"[..2] == "gp" && "o1-"[..2] == "o1";
    assert "claude-"[..2] == "cl" && "gemini-"[..2] == "ge";
  }

  /** The key used for a model is its provider's key; the Groq and Mistral keys are never used. */
  lemma ModelKey(model: string, keys: Keys)
    ensures GetAPIKey(ProviderFromModel(model), keys) in {keys.openai, keys.anthropic, keys.google}
    ensures StartsWith(model, "claude-") ==> GetAPIKey(ProviderFromModel(model), keys) == keys.anthropic
  {
    var p := ProviderFromModel(model);
    if p == "openai" {
      LowerFixed("openai");
    } else if p == "anthropic" {
      LowerFixed("anthropic");
    } else {
      LowerFixed("google");
    }
  }

  /** A name already in lower case is its own lower case. */
  lemma LowerFixed(s: string)
    requires forall k :: 0 <= k < |s| ==> !('A' <= s[k] <= 'Z')
    ensures ToLower(s) == s
  {
  }
}
