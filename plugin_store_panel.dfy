/**
 * The plugin store panel's logic: whether a plugin has settings
 * (src/panels/PluginStorePanel/util.ts) and which plugins the list shows
 * (src/panels/PluginStorePanel/Plugin/List/index.tsx).
 */
module PluginStorePanel {
  import opened Wrappers
  import opened JsArray
  import opened PluginTypes
  import opened PluginState
  import opened PluginSelectors
  import opened PluginService
  import opened PluginSettings

  /** `plugin?.pluginManifest?.settings?.properties`. */
  function SettingsProperties(plugin: Option<Plugin>): Option<seq<PropertyEntry>>
  {
    if plugin.Some? && plugin.value.pluginManifest.Some? && plugin.value.pluginManifest.value.settings.Some?
    then plugin.value.pluginManifest.value.settings.value.properties
    else None
  }

  /**
   * `hasPluginSettings`: undefined (None) when the properties are missing
   * anywhere along the path, otherwise whether there is at least one.
   */
  function HasPluginSettings(plugin: Option<Plugin>): (r: Option<bool>)
    ensures r.None? <==> SettingsProperties(plugin).None?
    ensures r.Some? ==> (r.value <==> |SettingsProperties(plugin).value| > 0)
  {
    var settingsProperties := SettingsProperties(plugin);
    if settingsProperties.None? then None else Some(|settingsProperties.value| > 0)
  }

  /** A plugin has settings exactly when its settings form would have items. */
  lemma HasSettingsIffFormItems(p: Plugin)
    ensures HasPluginSettings(Some(p)) == Some(true) <==>
      (p.pluginManifest.Some? && |TransformPluginSettings(p.pluginManifest.value.settings)| > 0)
  {
  }

  /** A plugin converted from an OpenAI manifest has settings exactly when it uses HTTP service auth. */
  lemma ConvertedPluginSettings(p: Plugin, o: OpenAIPluginManifest)
    requires p.pluginManifest == Some(ConvertOpenAIManifestToLobeManifest(o))
    ensures HasPluginSettings(Some(p)) == Some(true) <==> o.auth.authType == "service_http"
    ensures o.auth.authType != "service_http" ==> HasPluginSettings(Some(p)) == None
  {
  }

  /** `PluginListTypeEnum`: the installed tab or the whole market. */
  datatype PluginListType = Installed | All

  /** `s.includes(t)`: `t` occurs in `s` (the empty string occurs everywhere). */
  predicate Contains(s: string, t: string)
    decreases |s|
  {
    (|t| <= |s| && s[..|t|] == t) || (|s| > 0 && Contains(s[1..], t))
  }

  /** `str?.toLowerCase()` then `?.includes(keyword)`: a missing field never matches. */
  predicate FieldMatches(field: Option<string>, keyword: string, lower: string -> string)
  {
    field.Some? && Contains(lower(field.value), keyword)
  }

  /**
   * The list's filter: no (or an empty) search keyword keeps every plugin;
   * otherwise a plugin is kept when its lower-cased title, description or
   * author contains the lower-cased keyword.
   */
  predicate Kept(p: Plugin, searchKeyword: Option<string>, lower: string -> string)
  {
    searchKeyword.None? || searchKeyword.value == ""
    || FieldMatches(p.meta.title, lower(searchKeyword.value), lower)
    || FieldMatches(p.meta.description, lower(searchKeyword.value), lower)
    || FieldMatches(p.author, lower(searchKeyword.value), lower)
  }

  /** `plugins.filter(...)`: the kept plugins, in their order. */
  function FilterByKeyword(plugins: seq<Plugin>, searchKeyword: Option<string>, lower: string -> string): (r: seq<Plugin>)
    ensures IsSubsequence(r, plugins)
    ensures forall p :: p in r ==> p in plugins && Kept(p, searchKeyword, lower)
    ensures forall p :: p in plugins && Kept(p, searchKeyword, lower) ==> p in r
    ensures forall p :: multiset(r)[p] == if Kept(p, searchKeyword, lower) then multiset(plugins)[p] else 0
    ensures searchKeyword.None? || searchKeyword.value == "" ==> r == plugins
  {
    if |plugins| == 0 then []
    else
      var first, rest := plugins[0], FilterByKeyword(plugins[1..], searchKeyword, lower);
      var r := if Kept(first, searchKeyword, lower) then [first] + rest else rest;
      assert IsSubsequence(r, plugins) by {
        if Kept(first, searchKeyword, lower) {
          assert r[1..] == rest;
        } else {
          assert rest == [] || IsSubsequence(rest, plugins[1..]);
        }
      }
      assert forall p :: p in plugins <==> p == first || p in plugins[1..] by {
        assert plugins == [first] + plugins[1..];
      }
      assert forall p :: multiset(r)[p] == if Kept(p, searchKeyword, lower) then multiset(plugins)[p] else 0 by {
        assert plugins == [first] + plugins[1..];
        assert multiset(plugins) == multiset{first} + multiset(plugins[1..]);
      }
      r
  }

  /** `listData`: the installed plugins or all of them, filtered by the search keyword. */
  function ListData(listType: PluginListType, s: StoreState, searchKeyword: Option<string>,
                    lower: string -> string): (r: seq<Plugin>)
    ensures listType == Installed ==> IsSubsequence(r, GetInstalledPlugins(s))
    ensures listType == All ==> IsSubsequence(r, GetAllPlugins(s))
    ensures listType == Installed ==> forall p :: p in r ==> IsPluginInstalled(s, p.identifier)
    ensures forall p :: p in r ==> Kept(p, searchKeyword, lower)
    ensures forall p :: Kept(p, searchKeyword, lower) ==>
      multiset(r)[p] == multiset(if listType == Installed then GetInstalledPlugins(s) else GetAllPlugins(s))[p]
    ensures forall p :: (&& p in (if listType == Installed then GetInstalledPlugins(s) else GetAllPlugins(s))
                         && Kept(p, searchKeyword, lower)) ==> p in r
    ensures searchKeyword.None? || searchKeyword.value == "" ==>
      r == (if listType == Installed then GetInstalledPlugins(s) else GetAllPlugins(s))
  {
    var source := if listType == Installed then GetInstalledPlugins(s) else GetAllPlugins(s);
    FilterByKeyword(source, searchKeyword, lower)
  }

  /** The search ignores case: two keywords that lower-case alike show the same plugins. */
  lemma {:induction false} SearchIgnoresCase(plugins: seq<Plugin>, k1: string, k2: string, lower: string -> string)
    requires k1 != "" && k2 != "" && lower(k1) == lower(k2)
    ensures FilterByKeyword(plugins, Some(k1), lower) == FilterByKeyword(plugins, Some(k2), lower)
  {
    if |plugins| > 0 {
      SearchIgnoresCase(plugins[1..], k1, k2, lower);
    }
  }
}
