/**
 * The plugin store's actions (src/store/plugin/index.ts). Each action is
 * a transition of `StoreState`, and the `Store` class performs it in place
 * on its fields. The current agent comes from another store and is passed
 * in; network results are passed in too.
 */
module PluginStore {
  import opened Wrappers
  import opened JsArray
  import opened PluginTypes
  import opened PluginState
  import opened PluginSelectors
  import opened PluginService

  /** The plugin identifiers an agent has enabled; none when it has no list. */
  function EnabledIds(s: StoreState, agentId: string): seq<string>
  {
    if agentId in s.enabledAgentPluginIdsMap then s.enabledAgentPluginIdsMap[agentId] else []
  }

  /** `fetchPluginIndex`'s mapping: every listed plugin becomes a market plugin, otherwise unchanged. */
  function AsMarketPlugins(plugins: seq<Plugin>): (r: seq<Plugin>)
    ensures |r| == |plugins|
    ensures forall i :: 0 <= i < |r| ==> r[i].pluginType == MarketPlugin
    ensures forall i :: 0 <= i < |r| ==> r[i].(pluginType := plugins[i].pluginType) == plugins[i]
  {
    seq(|plugins|, i requires 0 <= i < |plugins| => plugins[i].(pluginType := MarketPlugin))
  }

  /** `fetchPluginIndex`: a listing that is an array replaces the market list; anything else changes nothing. */
  function IndexFetched(s: StoreState, plugins: Option<seq<Plugin>>): (r: StoreState)
    ensures plugins.None? ==> r == s
    ensures r.(allPlugins := s.allPlugins) == s
    ensures plugins.Some? ==> r.allPlugins == AsMarketPlugins(plugins.value)
    ensures plugins.Some? ==> (|r.allPlugins| == |plugins.value|
      && forall i :: 0 <= i < |r.allPlugins| ==> r.allPlugins[i].identifier == plugins.value[i].identifier)
  {
    if plugins.Some? then s.(allPlugins := AsMarketPlugins(plugins.value)) else s
  }

  /** `enablePlugin`: appends to the agent's list (no duplicate check), creating it when missing. */
  function PluginEnabled(s: StoreState, agentId: string, pluginId: string): (r: StoreState)
    ensures r.(enabledAgentPluginIdsMap := s.enabledAgentPluginIdsMap) == s
    ensures agentId in r.enabledAgentPluginIdsMap
    ensures EnabledIds(r, agentId) == EnabledIds(s, agentId) + [pluginId]
    ensures forall a :: a != agentId ==>
      (a in r.enabledAgentPluginIdsMap <==> a in s.enabledAgentPluginIdsMap) && EnabledIds(r, a) == EnabledIds(s, a)
  {
    var ids := s.enabledAgentPluginIdsMap;
    if agentId in ids then s.(enabledAgentPluginIdsMap := ids[agentId := ids[agentId] + [pluginId]])
    else s.(enabledAgentPluginIdsMap := ids[agentId := [pluginId]])
  }

  /**
   * `disablePlugin`: removes the first occurrence from the agent's list;
   * `indexOf` answering -1 makes `splice` drop the list's LAST element when
   * the plugin is not enabled. An agent without a list is left alone.
   */
  function PluginDisabled(s: StoreState, agentId: string, pluginId: string): (r: StoreState)
    ensures r.(enabledAgentPluginIdsMap := s.enabledAgentPluginIdsMap) == s
    ensures agentId !in s.enabledAgentPluginIdsMap ==> r == s
    ensures forall a :: (a in r.enabledAgentPluginIdsMap <==> a in s.enabledAgentPluginIdsMap)
    ensures forall a :: a != agentId ==> EnabledIds(r, a) == EnabledIds(s, a)
    ensures agentId in s.enabledAgentPluginIdsMap ==>
      EnabledIds(r, agentId) == RemoveFirst(EnabledIds(s, agentId), pluginId)
    ensures pluginId in EnabledIds(s, agentId) ==>
      multiset(EnabledIds(r, agentId)) == multiset(EnabledIds(s, agentId)) - multiset{pluginId}
    ensures pluginId !in EnabledIds(s, agentId) && EnabledIds(s, agentId) != [] ==>
      EnabledIds(r, agentId) == EnabledIds(s, agentId)[..|EnabledIds(s, agentId)| - 1]
  {
    var ids := s.enabledAgentPluginIdsMap;
    if agentId in ids then s.(enabledAgentPluginIdsMap := ids[agentId := RemoveFirst(ids[agentId], pluginId)])
    else s
  }

  /** The first half of `installPlugin`: the identifier joins the installing list. */
  function InstallStarted(s: StoreState, identifier: string): (r: StoreState)
    ensures r.(installingPluginIds := s.installingPluginIds) == s
    ensures IsPluginInstalling(r, identifier)
    ensures r.installingPluginIds == s.installingPluginIds + [identifier]
    ensures multiset(r.installingPluginIds) == multiset(s.installingPluginIds) + multiset{identifier}
  {
    s.(installingPluginIds := s.installingPluginIds + [identifier])
  }

  /**
   * The second half of `installPlugin`, once the manifest has arrived: one
   * occurrence leaves the installing list (the last entry when the
   * identifier is not there), the identifier is appended to the installed
   * list and its manifest recorded.
   */
  function InstallFinished(s: StoreState, identifier: string, manifest: Manifest): (r: StoreState)
    ensures r.allPlugins == s.allPlugins && r.pluginSettingsValueMap == s.pluginSettingsValueMap
    ensures r.enabledAgentPluginIdsMap == s.enabledAgentPluginIdsMap
    ensures r.installedPluginIds == s.installedPluginIds + [identifier]
    ensures IsPluginInstalled(r, identifier)
    ensures identifier in r.pluginManifestMap && r.pluginManifestMap[identifier] == manifest
    ensures forall k :: k != identifier ==>
      (k in r.pluginManifestMap <==> k in s.pluginManifestMap)
      && (k in r.pluginManifestMap ==> r.pluginManifestMap[k] == s.pluginManifestMap[k])
    ensures r.installingPluginIds == RemoveFirst(s.installingPluginIds, identifier)
    ensures identifier in s.installingPluginIds ==>
      multiset(r.installingPluginIds) == multiset(s.installingPluginIds) - multiset{identifier}
  {
    s.(installingPluginIds := RemoveFirst(s.installingPluginIds, identifier),
       installedPluginIds := s.installedPluginIds + [identifier],
       pluginManifestMap := s.pluginManifestMap[identifier := manifest])
  }

  /** `uninstallPlugin`: one occurrence leaves the installed list, and the manifest is dropped. */
  function Uninstalled(s: StoreState, identifier: string): (r: StoreState)
    ensures r.(installedPluginIds := s.installedPluginIds, pluginManifestMap := s.pluginManifestMap) == s
    ensures identifier !in r.pluginManifestMap
    ensures forall k :: k != identifier ==>
      (k in r.pluginManifestMap <==> k in s.pluginManifestMap)
      && (k in r.pluginManifestMap ==> r.pluginManifestMap[k] == s.pluginManifestMap[k])
    ensures r.installedPluginIds == RemoveFirst(s.installedPluginIds, identifier)
    ensures identifier in s.installedPluginIds ==>
      multiset(r.installedPluginIds) == multiset(s.installedPluginIds) - multiset{identifier}
    ensures identifier !in s.installedPluginIds && s.installedPluginIds != [] ==>
      r.installedPluginIds == s.installedPluginIds[..|s.installedPluginIds| - 1]
  {
    s.(installedPluginIds := RemoveFirst(s.installedPluginIds, identifier),
       pluginManifestMap := s.pluginManifestMap - {identifier})
  }

  /** `updatePluginSettingsValue`: the plugin's settings are replaced wholesale. */
  function SettingsUpdated(s: StoreState, identifier: string, value: SettingsValue): (r: StoreState)
    ensures r.(pluginSettingsValueMap := s.pluginSettingsValueMap) == s
    ensures identifier in r.pluginSettingsValueMap && r.pluginSettingsValueMap[identifier] == value
    ensures forall k :: k != identifier ==>
      (k in r.pluginSettingsValueMap <==> k in s.pluginSettingsValueMap)
      && (k in r.pluginSettingsValueMap ==> r.pluginSettingsValueMap[k] == s.pluginSettingsValueMap[k])
  {
    s.(pluginSettingsValueMap := s.pluginSettingsValueMap[identifier := value])
  }

  /** What `persist` stores: `partialize` keeps the installed list and the manifests only. */
  datatype PersistedState = PersistedState(installedPluginIds: seq<string>, pluginManifestMap: map<string, Manifest>)

  function Partialize(s: StoreState): (p: PersistedState)
    ensures p.installedPluginIds == s.installedPluginIds && p.pluginManifestMap == s.pluginManifestMap
  {
    PersistedState(s.installedPluginIds, s.pluginManifestMap)
  }

  /** The manifest URL `installPlugin` fetches: that of the first listed plugin with the identifier. */
  function ManifestUrl(s: StoreState, identifier: string): (url: Option<string>)
    ensures (forall i :: 0 <= i < |s.allPlugins| ==> s.allPlugins[i].identifier != identifier) ==> url == None
    ensures FirstIndexById(s.allPlugins, identifier) >= 0 ==>
      url == s.allPlugins[FirstIndexById(s.allPlugins, identifier)].manifestUrl
    ensures url.Some? ==> url == s.allPlugins[FirstIndexById(s.allPlugins, identifier)].manifestUrl
  {
    var p := GetPluginById(s, identifier);
    if p.Some? then p.value.manifestUrl else None
  }

  /** Disabling undoes enabling when the plugin was not already enabled by an agent with a list. */
  lemma DisableUndoesEnable(s: StoreState, agentId: string, pluginId: string)
    requires agentId in s.enabledAgentPluginIdsMap && pluginId !in s.enabledAgentPluginIdsMap[agentId]
    ensures PluginDisabled(PluginEnabled(s, agentId, pluginId), agentId, pluginId) == s
  {
    var ids := s.enabledAgentPluginIdsMap[agentId];
    RemoveAppended(ids, pluginId);
    assert s.enabledAgentPluginIdsMap[agentId := ids] == s.enabledAgentPluginIdsMap;
  }

  /** An agent that had no list ends with an empty one: still no enabled plugins. */
  lemma DisableAfterFirstEnable(s: StoreState, agentId: string, pluginId: string)
    requires agentId !in s.enabledAgentPluginIdsMap
    ensures var r := PluginDisabled(PluginEnabled(s, agentId, pluginId), agentId, pluginId);
      r == s.(enabledAgentPluginIdsMap := s.enabledAgentPluginIdsMap[agentId := []])
      && GetAgentEnabledPlugins(r, agentId) == [] == GetAgentEnabledPlugins(s, agentId)
  {

  }

  /** Enabling twice lists the plugin twice; one disable then leaves it enabled. */
  lemma EnableTwiceNeedsTwoDisables(s: StoreState, agentId: string, pluginId: string)
    ensures var once := PluginDisabled(PluginEnabled(PluginEnabled(s, agentId, pluginId), agentId, pluginId), agentId, pluginId);
      pluginId in EnabledIds(once, agentId)
  {
    var twice := PluginEnabled(PluginEnabled(s, agentId, pluginId), agentId, pluginId);
    var before := EnabledIds(twice, agentId);
    assert before == EnabledIds(s, agentId) + [pluginId] + [pluginId];
    assert multiset(before)[pluginId] >= 2;
    assert pluginId in before;
    var after := EnabledIds(PluginDisabled(twice, agentId, pluginId), agentId);
    assert multiset(after)[pluginId] >= 1;
    assert pluginId in multiset(after);
  }

  /** Installing a fresh plugin and uninstalling it returns the store to where it was. */
  lemma UninstallUndoesInstall(s: StoreState, identifier: string, manifest: Manifest)
    requires identifier !in s.installingPluginIds && identifier !in s.installedPluginIds
    requires identifier !in s.pluginManifestMap
    ensures Uninstalled(InstallFinished(InstallStarted(s, identifier), identifier, manifest), identifier) == s
  {
    RemoveAppended(s.installingPluginIds, identifier);
    RemoveAppended(s.installedPluginIds, identifier);
    assert s.pluginManifestMap[identifier := manifest] - {identifier} == s.pluginManifestMap;
  }

  /** After a completed installation the plugin shows as installed, not installing, with its manifest. */
  lemma InstallCompletes(s: StoreState, identifier: string, manifest: Manifest)
    requires identifier !in s.installingPluginIds
    ensures var r := InstallFinished(InstallStarted(s, identifier), identifier, manifest);
      IsPluginInstalled(r, identifier) && !IsPluginInstalling(r, identifier)
      && r.installingPluginIds == s.installingPluginIds
      && (GetPluginById(r, identifier).Some? ==> GetPluginById(r, identifier).value.pluginManifest == Some(manifest))
  {

  }

  /** Installing a plugin twice and uninstalling it once leaves it installed but without a manifest. */
  lemma DoubleInstallSurvivesUninstall(s: StoreState, identifier: string, m1: Manifest, m2: Manifest)
    ensures var twice := InstallFinished(InstallFinished(s, identifier, m1), identifier, m2);
      var r := Uninstalled(twice, identifier);
      IsPluginInstalled(r, identifier) && identifier !in r.pluginManifestMap
  {
    var twice := InstallFinished(InstallFinished(s, identifier, m1), identifier, m2);
    assert multiset(twice.installedPluginIds)[identifier] >= 2;
    assert identifier in twice.installedPluginIds;
    var after := Uninstalled(twice, identifier).installedPluginIds;
    assert multiset(after)[identifier] >= 1;
    assert identifier in multiset(after);
  }

  /** Only installing and uninstalling change what is persisted. */
  lemma OnlyInstallationIsPersisted(s: StoreState, agentId: string, identifier: string,
                                    value: SettingsValue, plugins: Option<seq<Plugin>>)
    ensures Partialize(PluginEnabled(s, agentId, identifier)) == Partialize(s)
    ensures Partialize(PluginDisabled(s, agentId, identifier)) == Partialize(s)
    ensures Partialize(InstallStarted(s, identifier)) == Partialize(s)
    ensures Partialize(SettingsUpdated(s, identifier, value)) == Partialize(s)
    ensures Partialize(IndexFetched(s, plugins)) == Partialize(s)
  {
  }

  /** The zustand store `usePluginStore`, its state held in fields updated in place. */
  class Store {
    var allPlugins: seq<Plugin>
    var installedPluginIds: seq<string>
    var pluginManifestMap: map<string, Manifest>
    var installingPluginIds: seq<string>
    var pluginSettingsValueMap: map<string, SettingsValue>
    var enabledAgentPluginIdsMap: map<string, seq<string>>

    function State(): StoreState
      reads this
    {
      StoreState(allPlugins, installedPluginIds, pluginManifestMap, installingPluginIds,
                 pluginSettingsValueMap, enabledAgentPluginIdsMap)
    }

    /** The store starts from `initialState`. */
    constructor()
      ensures State() == InitialState()
    {
      allPlugins := [];
      installedPluginIds := [];
      pluginManifestMap := map[];
      installingPluginIds := [];
      pluginSettingsValueMap := map[];
      enabledAgentPluginIdsMap := map[];
    }

    /** `fetchPluginIndex`, given the listing's `plugins` (None when it is not an array). */
    method FetchPluginIndex(plugins: Option<seq<Plugin>>)
      modifies this
      ensures State() == IndexFetched(old(State()), plugins)
    {
      if plugins.Some? {
        allPlugins := AsMarketPlugins(plugins.value);
      }
    }

    /** `enablePlugin`, for the agent currently selected. */
    method EnablePlugin(currentAgentId: string, pluginId: string)
      modifies this
      ensures State() == PluginEnabled(old(State()), currentAgentId, pluginId)
    {
      if currentAgentId in enabledAgentPluginIdsMap {
        var enabledPluginIds := enabledAgentPluginIdsMap[currentAgentId];
        enabledAgentPluginIdsMap := enabledAgentPluginIdsMap[currentAgentId := enabledPluginIds + [pluginId]];
      } else {
        enabledAgentPluginIdsMap := enabledAgentPluginIdsMap[currentAgentId := [pluginId]];
      }
    }

    /** `disablePlugin`, for the agent currently selected. */
    method DisablePlugin(currentAgentId: string, pluginId: string)
      modifies this
      ensures State() == PluginDisabled(old(State()), currentAgentId, pluginId)
    {
      if currentAgentId in enabledAgentPluginIdsMap {
        var enabledPluginIds := enabledAgentPluginIdsMap[currentAgentId];
        enabledAgentPluginIdsMap :=
          enabledAgentPluginIdsMap[currentAgentId := SpliceOne(enabledPluginIds, IndexOf(enabledPluginIds, pluginId))];
      }
    }

    /** The first `set` of `installPlugin`, and the manifest URL looked up after it. */
    method BeginInstall(identifier: string) returns (manifestUrl: Option<string>)
      modifies this
      ensures State() == InstallStarted(old(State()), identifier)
      ensures manifestUrl == ManifestUrl(old(State()), identifier)
    {
      installingPluginIds := installingPluginIds + [identifier];
      var plugin := GetPluginById(State(), identifier);
      manifestUrl := if plugin.Some? then plugin.value.manifestUrl else None;
    }

    /** The second `set` of `installPlugin`, once the manifest has arrived. */
    method FinishInstall(identifier: string, manifest: Manifest)
      modifies this
      ensures State() == InstallFinished(old(State()), identifier, manifest)
    {
      installingPluginIds := SpliceOne(installingPluginIds, IndexOf(installingPluginIds, identifier));
      installedPluginIds := installedPluginIds + [identifier];
      pluginManifestMap := pluginManifestMap[identifier := manifest];
    }

    /**
     * `installPlugin` with nothing running in between its steps. When the
     * manifest cannot be had the action rejects with the error and the
     * identifier stays in the installing list.
     */
    method InstallPlugin(
      identifier: string,
      fetchJson: string -> Result<ManifestDocument, ManifestError>,
      isValid: Manifest -> bool,
      convert: OpenApiConverter) returns (error: Option<ManifestError>)
      modifies this
      ensures var manifest := GetPluginManifest(ManifestUrl(old(State()), identifier), fetchJson, isValid, convert);
        (manifest.Err? ==> error == Some(manifest.error) && State() == InstallStarted(old(State()), identifier))
        && (manifest.Ok? ==> (error == None
            && State() == InstallFinished(InstallStarted(old(State()), identifier), identifier, manifest.value)))
    {
      var url := BeginInstall(identifier);
      var manifest := GetPluginManifest(url, fetchJson, isValid, convert);
      if manifest.Err? {
        return Some(manifest.error);
      }
      FinishInstall(identifier, manifest.value);
      error := None;
    }

    /** `uninstallPlugin`. */
    method UninstallPlugin(identifier: string)
      modifies this
      ensures State() == Uninstalled(old(State()), identifier)
    {
      installedPluginIds := SpliceOne(installedPluginIds, IndexOf(installedPluginIds, identifier));
      pluginManifestMap := pluginManifestMap - {identifier};
    }

    /** `updatePluginSettingsValue`. */
    method UpdatePluginSettingsValue(identifier: string, value: SettingsValue)
      modifies this
      ensures State() == SettingsUpdated(old(State()), identifier, value)
    {
      pluginSettingsValueMap := pluginSettingsValueMap[identifier := value];
    }
  }
}
