/**
 * The provider settings screen's state holder: the list of all provider records, the selected
 * provider and its record, and the outcome of a reachability test against a URL.
 */
module AiProviderSettings {
  import opened Text
  import opened AiSettings

  /** What probing a URL gave: an HTTP status code, or no answer at all (bad URL, I/O failure, timeout). */
  datatype PingOutcome = Responded(code: int) | Unreachable

  const MSG_URL_EMPTY: string := "API URL不能为空"
  const MSG_TESTING: string := "正在测试连接..."
  const MSG_CONNECTED: string := "连接成功"
  const MSG_CONNECT_FAILED: string := "连接失败：无法访问URL或URL无效"

  const HTTP_UNAUTHORIZED: int := 401
  const HTTP_FORBIDDEN: int := 403

  /** `pingUrl`'s verdict on a status code: any 2xx or 3xx, or a refusal that proves a server answered. */
  predicate IsReachable(code: int) {
    200 <= code <= 399 || code == HTTP_UNAUTHORIZED || code == HTTP_FORBIDDEN
  }

  /** The settled value of `testConnectionResult` after a test of `apiUrl` whose probe gave `outcome`. */
  function ConnectionResult(apiUrl: string, outcome: PingOutcome): (r: (bool, string))
    ensures r.0 <==> !IsBlank(apiUrl) && outcome.Responded? && IsReachable(outcome.code)
    ensures IsBlank(apiUrl) ==> r.1 == MSG_URL_EMPTY
    ensures r.1 == MSG_CONNECTED <==> r.0
  {
    if IsBlank(apiUrl) then (false, MSG_URL_EMPTY)
    else if outcome.Responded? && IsReachable(outcome.code) then (true, MSG_CONNECTED)
    else (false, MSG_CONNECT_FAILED)
  }

  /** The in-memory list update after a save: entries with the saved name become the saved record. */
  function ReplaceByName(list: seq<AiProviderInfo>, info: AiProviderInfo): (r: seq<AiProviderInfo>)
    ensures |r| == |list|
    ensures forall i :: 0 <= i < |r| ==> r[i].name == list[i].name
    ensures forall i :: 0 <= i < |r| ==> (list[i].name != info.name ==> r[i] == list[i])
    ensures info in r <==> exists i :: 0 <= i < |list| && list[i].name == info.name
  {
    seq(|list|, i requires 0 <= i < |list| => if list[i].name == info.name then info else list[i])
  }

  /**
   * Patching the shown list after a save gives exactly the list a fresh read of the store
   * would give, so the screen never shows stale records.
   */
  lemma {:induction false} ReplaceMatchesReload(prefs: map<string, Pref>, info: AiProviderInfo)
    requires WellTyped(prefs)
    ensures WellTyped(prefs[ConfigKey(info.name) := ProviderJson(info)])
    ensures ReplaceByName(AllConfigsIn(prefs), info) == AllConfigsIn(prefs[ConfigKey(info.name) := ProviderJson(info)])
  {
    var after := prefs[ConfigKey(info.name) := ProviderJson(info)];
    ConfigAfterSave(prefs, info, info.name);
    var lhs := ReplaceByName(AllConfigsIn(prefs), info);
    var rhs := AllConfigsIn(after);
    forall i | 0 <= i < |DEFAULT_PROVIDERS|
      ensures lhs[i] == rhs[i]
    {
      ConfigAfterSave(prefs, info, DEFAULT_PROVIDERS[i].name);
    }
  }

  class AiProviderSettingsViewModel {
    const repository: AiSettingsRepository
    var allProviderConfigs: Option<seq<AiProviderInfo>>
    var selectedProviderName: Option<string>
    var currentProviderConfig: Option<AiProviderInfo>
    var testConnectionResult: Option<(bool, string)>

    /** `providerNames`: the default providers' names, in order. */
    function ProviderNames(): (names: seq<string>)
      ensures |names| == |DEFAULT_PROVIDERS|
      ensures forall i :: 0 <= i < |names| ==> names[i] == DEFAULT_PROVIDERS[i].name
    {
      seq(|DEFAULT_PROVIDERS|, i requires 0 <= i < |DEFAULT_PROVIDERS| => DEFAULT_PROVIDERS[i].name)
    }

    ghost predicate Valid()
      reads this, repository
    {
      repository.Valid()
    }

    /** `init`: seed the defaults, show every record, then show the selected provider and its record. */
    constructor (repo: AiSettingsRepository)
      requires repo.Valid()
      modifies repo
      ensures Valid() && repository == repo
      ensures repo.prefs == old(repo.prefs)
      ensures allProviderConfigs == Some(repo.GetAllProviderConfigs())
      ensures selectedProviderName == repo.GetSelectedProviderName()
      ensures currentProviderConfig == repo.GetProviderConfig(selectedProviderName.value)
      ensures testConnectionResult.None?
    {
      repository := repo;
      testConnectionResult := None;
      new;
      repo.InitializeDefaultProviders();
      allProviderConfigs := Some(repo.GetAllProviderConfigs());
      var name := repo.GetSelectedProviderName();
      selectedProviderName := name;
      // `getSelectedProviderName` falls back to the first default, so the branch that would
      // select `providerNames.first()` is never taken.
      assert name.Some?;
      currentProviderConfig := repo.GetProviderConfig(name.value);
    }

    method LoadProviderConfig(providerName: string)
      requires Valid()
      modifies this
      ensures Valid()
      ensures currentProviderConfig == repository.GetProviderConfig(providerName)
      ensures allProviderConfigs == old(allProviderConfigs) && selectedProviderName == old(selectedProviderName)
      ensures testConnectionResult == old(testConnectionResult)
    {
      currentProviderConfig := repository.GetProviderConfig(providerName);
    }

    method SelectProvider(providerName: string)
      requires Valid()
      modifies this, repository
      ensures Valid()
      ensures repository.prefs == old(repository.prefs)[KEY_SELECTED_PROVIDER_NAME := StringPref(providerName)]
      ensures selectedProviderName == Some(providerName) == repository.GetSelectedProviderName()
      ensures currentProviderConfig == repository.GetProviderConfig(providerName) == old(repository.GetProviderConfig(providerName))
      ensures allProviderConfigs == old(allProviderConfigs) && testConnectionResult == old(testConnectionResult)
    {
      SelectedAfterSave(repository.prefs, providerName, providerName);
      repository.SaveSelectedProviderName(providerName);
      selectedProviderName := Some(providerName);
      LoadProviderConfig(providerName);
    }

    /** Stores the record, shows it as current, and patches the shown list (or starts one). */
    method SaveProviderConfig(info: AiProviderInfo)
      requires Valid()
      modifies this, repository
      ensures Valid()
      ensures repository.prefs == old(repository.prefs)[ConfigKey(info.name) := ProviderJson(info)]
      ensures currentProviderConfig == Some(info) == repository.GetProviderConfig(info.name)
      ensures allProviderConfigs == Some(match old(allProviderConfigs)
                                         case Some(list) => ReplaceByName(list, info)
                                         case None => [info])
      ensures old(allProviderConfigs) == Some(old(repository.GetAllProviderConfigs()))
              ==> allProviderConfigs == Some(repository.GetAllProviderConfigs())
      ensures selectedProviderName == old(selectedProviderName) && testConnectionResult == old(testConnectionResult)
    {
      ReplaceMatchesReload(repository.prefs, info);
      repository.SaveProviderConfig(info);
      currentProviderConfig := Some(info);
      match allProviderConfigs {
        case Some(list) => allProviderConfigs := Some(ReplaceByName(list, info));
        case None => allProviderConfigs := Some([info]);
      }
    }

    /**
     * Tests `apiUrl` with the probe's `outcome` standing for the network call; the transient
     * "testing" value shown while the probe runs is not kept.
     */
    method TestConnection(apiUrl: string, apiKey: string, outcome: PingOutcome)
      modifies this
      ensures testConnectionResult == Some(ConnectionResult(apiUrl, outcome))
      ensures allProviderConfigs == old(allProviderConfigs) && selectedProviderName == old(selectedProviderName)
      ensures currentProviderConfig == old(currentProviderConfig)
    {
      if IsBlank(apiUrl) {
        testConnectionResult := Some((false, MSG_URL_EMPTY));
        return;
      }
      testConnectionResult := Some((false, MSG_TESTING));
      var reachable := match outcome
        case Responded(code) => IsReachable(code)
        case Unreachable => false;
      if reachable {
        testConnectionResult := Some((true, MSG_CONNECTED));
      } else {
        testConnectionResult := Some((false, MSG_CONNECT_FAILED));
      }
    }
  }
}
