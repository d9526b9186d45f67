/** The settings page: a table of API keys by identifier and the RAG database switches. */
module Settings {
  import opened Text

  /** The page's state: the API keys, the two custom-key inputs and the RAG switches. */
  datatype Page = Page(apiKeys: map<string, string>, customApiKey: string, customApiKeyName: string,
                       ragEnabled: map<string, bool>)

  /** `addApiKey(name, key)`: the key is present with the empty value, whatever it held before;
      every other entry is unchanged. */
  function AddApiKey(p: Page, name: string, key: string): (r: Page)
    ensures key in r.apiKeys && r.apiKeys[key] == ""
    ensures forall k :: k != key ==> (k in r.apiKeys <==> k in p.apiKeys)
    ensures forall k :: k != key && k in p.apiKeys ==> r.apiKeys[k] == p.apiKeys[k]
    ensures r.customApiKey == p.customApiKey && r.customApiKeyName == p.customApiKeyName
    ensures r.ragEnabled == p.ragEnabled
  {
    p.(apiKeys := p.apiKeys[key := ""])
  }

  /** `addCustomApiKey`: nothing happens unless both inputs are non-blank; then the identifier,
      as typed and not trimmed, becomes a key with the empty value and both inputs are cleared. */
  function AddCustomApiKey(p: Page): (r: Page)
    ensures IsBlank(p.customApiKeyName) || IsBlank(p.customApiKey) ==> r == p
    ensures !IsBlank(p.customApiKeyName) && !IsBlank(p.customApiKey) ==>
      r.apiKeys == AddApiKey(p, p.customApiKeyName, p.customApiKey).apiKeys &&
      r.customApiKey == "" && r.customApiKeyName == "" && r.ragEnabled == p.ragEnabled
  {
    if Trim(p.customApiKeyName) != "" && Trim(p.customApiKey) != "" then
      p.(apiKeys := p.apiKeys[p.customApiKey := ""], customApiKey := "", customApiKeyName := "")
    else p
  }

  /** `removeApiKey(key)`: that key is gone and every other entry is unchanged. */
  function RemoveApiKey(p: Page, key: string): (r: Page)
    ensures key !in r.apiKeys
    ensures forall k :: k != key ==> (k in r.apiKeys <==> k in p.apiKeys)
    ensures forall k :: k != key && k in p.apiKeys ==> r.apiKeys[k] == p.apiKeys[k]
    ensures r.customApiKey == p.customApiKey && r.customApiKeyName == p.customApiKeyName
    ensures r.ragEnabled == p.ragEnabled
  {
    p.(apiKeys := p.apiKeys - {key})
  }

  /** Removing a key that was just added restores the table when the key was not there before. */
  lemma RemoveAfterAdd(p: Page, name: string, key: string)
    requires key !in p.apiKeys
    ensures RemoveApiKey(AddApiKey(p, name, key), key) == p
  {
    assert RemoveApiKey(AddApiKey(p, name, key), key).apiKeys == p.apiKeys;
  }

  /** A database's checkbox shows `!!ragEnabled[key]`. */
  predicate RagChecked(p: Page, key: string) {
    key in p.ragEnabled && p.ragEnabled[key]
  }

  /** The RAG checkbox of one database sets that database's flag to the checked value and no
      other. */
  function SetRag(p: Page, key: string, checked: bool): (r: Page)
    ensures RagChecked(r, key) == checked
    ensures forall k :: k != key ==> RagChecked(r, k) == RagChecked(p, k)
    ensures r.apiKeys == p.apiKeys && r.customApiKey == p.customApiKey && r.customApiKeyName == p.customApiKeyName
  {
    p.(ragEnabled := p.ragEnabled[key := checked])
  }
}
