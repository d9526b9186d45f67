/** The model-provider page: providers with a status that can be toggled, and new providers
    added by name. */
module Mcp {
  import opened Text
  import opened Lists

  datatype Provider = Provider(name: string, status: string, models: seq<string>)

  /** The page's state: the providers and the name being typed. */
  datatype Page = Page(providers: seq<Provider>, newProvider: string)

  const InitialProviders: seq<Provider> := [
    Provider("OpenAI", "active", ["gpt-4o", "gpt-4-turbo", "gpt-3.5-turbo"]),
    Provider("Anthropic", "active", ["claude-3-opus", "claude-3-sonnet", "claude-3-haiku"]),
    Provider("Ollama", "inactive", ["llama2", "codellama", "mistral"])
  ]

  /** The status a toggle gives: `'active'` becomes `'inactive'`, anything else `'active'`. */
  function Flipped(status: string): (r: string)
    ensures r == "active" <==> status != "active"
    ensures r == "active" || r == "inactive"
  {
    if status == "active" then "inactive" else "active"
  }

  /** `toggleProvider(name)`: every provider with that name flips its status; the others, and
      every other field, stay as they are. */
  function ToggleProvider(ps: seq<Provider>, name: string): (r: seq<Provider>)
    ensures |r| == |ps|
    ensures forall k :: 0 <= k < |ps| ==> r[k].name == ps[k].name && r[k].models == ps[k].models
    ensures forall k :: 0 <= k < |ps| && ps[k].name != name ==> r[k] == ps[k]
    ensures forall k :: 0 <= k < |ps| && ps[k].name == name ==> (r[k].status == "active" <==> ps[k].status != "active")
  {
    seq(|ps|, k requires 0 <= k < |ps| =>
      if ps[k].name == name then ps[k].(status := Flipped(ps[k].status)) else ps[k])
  }

  /** Toggling the same name twice restores the list when the providers with that name are
      `'active'` or `'inactive'`. */
  lemma ToggleTwice(ps: seq<Provider>, name: string)
    requires forall k :: 0 <= k < |ps| && ps[k].name == name ==> ps[k].status in {"active", "inactive"}
    ensures ToggleProvider(ToggleProvider(ps, name), name) == ps
  {
    var r := ToggleProvider(ToggleProvider(ps, name), name);
    forall k | 0 <= k < |ps| ensures r[k] == ps[k] {
    }
  }

  /** `addProvider`: blank input is ignored; otherwise an inactive provider with the trimmed
      name and the two placeholder models goes last, and the input is cleared. */
  function AddProvider(p: Page): (r: Page)
    ensures IsBlank(p.newProvider) ==> r == p
    ensures !IsBlank(p.newProvider) ==>
      r.providers == p.providers + [Provider(Trim(p.newProvider), "inactive", ["model-1", "model-2"])] &&
      r.newProvider == ""
  {
    if Trim(p.newProvider) != "" then
      p.(providers := p.providers + [Provider(Trim(p.newProvider), "inactive", ["model-1", "model-2"])],
         newProvider := "")
    else p
  }

  /** The Active Providers figure: how many providers have status `'active'`. */
  function ActiveCount(ps: seq<Provider>): nat {
    |Filter(ps, (q: Provider) => q.status == "active")|
  }

  /** The figure counts providers one by one: a provider adds one exactly when it is active. */
  lemma ActiveCountAppend(ps: seq<Provider>, q: Provider)
    ensures ActiveCount(ps + [q]) == ActiveCount(ps) + (if q.status == "active" then 1 else 0)
  {
    FilterAppend(ps, [q], (x: Provider) => x.status == "active");
    assert [q][..0] == [];
  }

  /** Adding a provider leaves the Active Providers figure as it was. */
  lemma AddKeepsActiveCount(p: Page)
    ensures ActiveCount(AddProvider(p).providers) == ActiveCount(p.providers)
  {
    if !IsBlank(p.newProvider) {
      ActiveCountAppend(p.providers, Provider(Trim(p.newProvider), "inactive", ["model-1", "model-2"]));
    }
  }
}
