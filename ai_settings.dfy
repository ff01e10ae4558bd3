/**
 * The provider settings store: one key-value preferences file holding the selected provider's
 * name and one serialised provider record per provider name, with lookups that fall back to a
 * fixed list of default providers.
 */
module AiSettings {
  import opened Text

  datatype AiProviderInfo = AiProviderInfo(name: string, apiUrl: string, apiKey: string)

  const KEY_SELECTED_PROVIDER_NAME: string := "selected_ai_provider_name"
  const KEY_PROVIDER_CONFIG_PREFIX: string := "ai_provider_config_"

  const PROVIDER_GEMINI: string := "Gemini"
  const PROVIDER_AZURE_OPENAI: string := "Azure OpenAI"
  const PROVIDER_DEEPSEEK: string := "DeepSeek"
  const PROVIDER_OPENAI: string := "OpenAI"
  const PROVIDER_CUSTOM: string := "Custom"

  const DEFAULT_PROVIDERS: seq<AiProviderInfo> := [
    AiProviderInfo(PROVIDER_GEMINI, "https://generativelanguage.googleapis.com/", ""),
    AiProviderInfo(PROVIDER_AZURE_OPENAI, "YOUR_AZURE_OPENAI_ENDPOINT", ""),
    AiProviderInfo(PROVIDER_DEEPSEEK, "https://api.deepseek.com/", ""),
    AiProviderInfo(PROVIDER_OPENAI, "https://api.openai.com/", ""),
    AiProviderInfo(PROVIDER_CUSTOM, "", "")
  ]

  /** A stored preference: a plain string, or a provider record serialised as JSON. */
  datatype Pref = StringPref(text: string) | ProviderJson(info: AiProviderInfo)

  function ConfigKey(providerName: string): string {
    KEY_PROVIDER_CONFIG_PREFIX + providerName
  }

  /** Distinct provider names are stored under distinct keys. */
  lemma ConfigKeyInjective(a: string, b: string)
    requires ConfigKey(a) == ConfigKey(b)
    ensures a == b
  {
    var n := |KEY_PROVIDER_CONFIG_PREFIX|;
    assert a == ConfigKey(a)[n..];
    assert b == ConfigKey(b)[n..];
  }

  /** No provider record can overwrite the selected name, whatever the provider is called. */
  lemma ConfigKeyIsNotSelectedKey(providerName: string)
    ensures ConfigKey(providerName) != KEY_SELECTED_PROVIDER_NAME
  {
    assert ConfigKey(providerName)[0] == 'a';
    assert KEY_SELECTED_PROVIDER_NAME[0] == 's';
  }

  /** The store's typing discipline: the selected name is a string, each record sits under its own name's key. */
  ghost predicate WellTyped(prefs: map<string, Pref>) {
    && (KEY_SELECTED_PROVIDER_NAME in prefs ==> prefs[KEY_SELECTED_PROVIDER_NAME].StringPref?)
    && forall name :: ConfigKey(name) in prefs ==>
         prefs[ConfigKey(name)].ProviderJson? && prefs[ConfigKey(name)].info.name == name
  }

  /** `DEFAULT_PROVIDERS.find { it.name == providerName }`. */
  function FindDefault(providerName: string): (r: Option<AiProviderInfo>)
    ensures r.Some? ==> r.value in DEFAULT_PROVIDERS && r.value.name == providerName
    ensures r.None? ==> forall i :: 0 <= i < |DEFAULT_PROVIDERS| ==> DEFAULT_PROVIDERS[i].name != providerName
  {
    FindIn(DEFAULT_PROVIDERS, providerName)
  }

  function FindIn(providers: seq<AiProviderInfo>, providerName: string): (r: Option<AiProviderInfo>)
    ensures r.Some? ==> r.value in providers && r.value.name == providerName
    ensures r.None? ==> forall i :: 0 <= i < |providers| ==> providers[i].name != providerName
  {
    if providers == [] then None
    else if providers[0].name == providerName then Some(providers[0])
    else FindIn(providers[1..], providerName)
  }

  /** `getSelectedProviderName`: the stored name, else the first default's name. */
  function SelectedIn(prefs: map<string, Pref>): (r: Option<string>)
    requires WellTyped(prefs)
    ensures r.Some?
    ensures KEY_SELECTED_PROVIDER_NAME !in prefs ==> r == Some(PROVIDER_GEMINI)
  {
    if KEY_SELECTED_PROVIDER_NAME in prefs then Some(prefs[KEY_SELECTED_PROVIDER_NAME].text)
    else Some(DEFAULT_PROVIDERS[0].name)
  }

  /** `getProviderConfig`: the stored record, else the default record of that name, else none. */
  function ConfigIn(prefs: map<string, Pref>, providerName: string): (r: Option<AiProviderInfo>)
    requires WellTyped(prefs)
    ensures r.Some? ==> r.value.name == providerName
    ensures r.None? <==> ConfigKey(providerName) !in prefs && FindDefault(providerName).None?
  {
    if ConfigKey(providerName) in prefs then Some(prefs[ConfigKey(providerName)].info)
    else FindDefault(providerName)
  }

  /** Saving a record and reading it back by its name gives the record; other names are untouched. */
  lemma {:induction false} ConfigAfterSave(prefs: map<string, Pref>, info: AiProviderInfo, providerName: string)
    requires WellTyped(prefs)
    ensures WellTyped(prefs[ConfigKey(info.name) := ProviderJson(info)])
    ensures ConfigIn(prefs[ConfigKey(info.name) := ProviderJson(info)], providerName)
         == if providerName == info.name then Some(info) else ConfigIn(prefs, providerName)
    ensures SelectedIn(prefs[ConfigKey(info.name) := ProviderJson(info)]) == SelectedIn(prefs)
  {
    var p := prefs[ConfigKey(info.name) := ProviderJson(info)];
    ConfigKeyIsNotSelectedKey(info.name);
    forall name | ConfigKey(name) in p
      ensures p[ConfigKey(name)].ProviderJson? && p[ConfigKey(name)].info.name == name
    {
      if ConfigKey(name) == ConfigKey(info.name) { ConfigKeyInjective(name, info.name); }
    }
    if providerName != info.name && ConfigKey(providerName) == ConfigKey(info.name) {
      ConfigKeyInjective(providerName, info.name);
    }
  }

  /** Saving the selected name and reading it back gives that name; records are untouched. */
  lemma {:induction false} SelectedAfterSave(prefs: map<string, Pref>, providerName: string, other: string)
    requires WellTyped(prefs)
    ensures WellTyped(prefs[KEY_SELECTED_PROVIDER_NAME := StringPref(providerName)])
    ensures SelectedIn(prefs[KEY_SELECTED_PROVIDER_NAME := StringPref(providerName)]) == Some(providerName)
    ensures ConfigIn(prefs[KEY_SELECTED_PROVIDER_NAME := StringPref(providerName)], other) == ConfigIn(prefs, other)
  {
    var p := prefs[KEY_SELECTED_PROVIDER_NAME := StringPref(providerName)];
    forall name | ConfigKey(name) in p
      ensures p[ConfigKey(name)].ProviderJson? && p[ConfigKey(name)].info.name == name
    {
      ConfigKeyIsNotSelectedKey(name);
    }
    ConfigKeyIsNotSelectedKey(other);
  }

  /** Every default provider resolves to some record, so the initialiser's guarded writes never fire. */
  lemma DefaultsAlwaysResolve(prefs: map<string, Pref>, i: int)
    requires WellTyped(prefs) && 0 <= i < |DEFAULT_PROVIDERS|
    ensures ConfigIn(prefs, DEFAULT_PROVIDERS[i].name).Some?
  {
  }

  /** `getAllProviderConfigs`: one entry per default provider, in the default order. */
  function AllConfigsIn(prefs: map<string, Pref>): (r: seq<AiProviderInfo>)
    requires WellTyped(prefs)
    ensures |r| == |DEFAULT_PROVIDERS|
    ensures forall i :: 0 <= i < |r| ==> r[i].name == DEFAULT_PROVIDERS[i].name
    ensures forall i :: 0 <= i < |r| ==> (ConfigKey(r[i].name) !in prefs ==> r[i] == DEFAULT_PROVIDERS[i])
  {
    seq(|DEFAULT_PROVIDERS|, i requires 0 <= i < |DEFAULT_PROVIDERS| =>
      match ConfigIn(prefs, DEFAULT_PROVIDERS[i].name)
      case Some(info) => info
      case None => DEFAULT_PROVIDERS[i])
  }

  /** The repository object: a preferences map that its methods overwrite key by key. */
  class AiSettingsRepository {
    var prefs: map<string, Pref>

    ghost predicate Valid()
      reads this
    {
      WellTyped(prefs)
    }

    constructor (initial: map<string, Pref>)
      requires WellTyped(initial)
      ensures Valid() && prefs == initial
    {
      prefs := initial;
    }

    method SaveSelectedProviderName(providerName: string)
      requires Valid()
      modifies this
      ensures Valid()
      ensures prefs == old(prefs)[KEY_SELECTED_PROVIDER_NAME := StringPref(providerName)]
      ensures GetSelectedProviderName() == Some(providerName)
    {
      SelectedAfterSave(prefs, providerName, "");
      prefs := prefs[KEY_SELECTED_PROVIDER_NAME := StringPref(providerName)];
    }

    function GetSelectedProviderName(): Option<string>
      requires Valid()
      reads this
    {
      SelectedIn(prefs)
    }

    method SaveProviderConfig(info: AiProviderInfo)
      requires Valid()
      modifies this
      ensures Valid()
      ensures prefs == old(prefs)[ConfigKey(info.name) := ProviderJson(info)]
      ensures GetProviderConfig(info.name) == Some(info)
      ensures GetSelectedProviderName() == old(GetSelectedProviderName())
    {
      ConfigAfterSave(prefs, info, info.name);
      prefs := prefs[ConfigKey(info.name) := ProviderJson(info)];
    }

    function GetProviderConfig(providerName: string): Option<AiProviderInfo>
      requires Valid()
      reads this
    {
      ConfigIn(prefs, providerName)
    }

    function GetAllProviderConfigs(): seq<AiProviderInfo>
      requires Valid()
      reads this
    {
      AllConfigsIn(prefs)
    }

    /**
     * Would write each default that has no record yet, then a selected name if none can be read.
     * Both guards test a lookup that falls back to the defaults, so neither ever holds and the
     * store is left as it was.
     */
    method InitializeDefaultProviders()
      requires Valid()
      modifies this
      ensures Valid()
      ensures prefs == old(prefs)
    {
      for i := 0 to |DEFAULT_PROVIDERS|
        invariant Valid() && prefs == old(prefs)
      {
        var provider := DEFAULT_PROVIDERS[i];
        DefaultsAlwaysResolve(prefs, i);
        assert GetProviderConfig(provider.name).Some?;
      }
      assert GetSelectedProviderName().Some?;
    }
  }
}
