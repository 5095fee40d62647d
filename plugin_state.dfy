/**
 * The plugin store's state (src/store/plugin/index.ts, `PluginStore` less
 * its actions) and its initial value (src/store/plugin/initialState.ts).
 */
module PluginState {
  import opened PluginTypes

  datatype StoreState = StoreState(
    /** The plugins the market lists. */
    allPlugins: seq<Plugin>,
    installedPluginIds: seq<string>,
    pluginManifestMap: map<string, Manifest>,
    /** Identifiers whose installation has started and not finished; may repeat. */
    installingPluginIds: seq<string>,
    pluginSettingsValueMap: map<string, SettingsValue>,
    /** For each agent, the identifiers of the plugins it has enabled. */
    enabledAgentPluginIdsMap: map<string, seq<string>>)

  /** `initialState`: no plugins, nothing installed, nothing enabled. */
  function InitialState(): (s: StoreState)
    ensures s.allPlugins == [] && s.installedPluginIds == [] && s.installingPluginIds == []
    ensures s.pluginManifestMap == map[] && s.pluginSettingsValueMap == map[]
    ensures s.enabledAgentPluginIdsMap == map[]
  {
    StoreState([], [], map[], [], map[], map[])
  }
}
