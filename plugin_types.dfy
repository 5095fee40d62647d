/**
 * The plugin records the store, the selectors and the panels work on
 * (src/types/plugin.ts and the manifest and market-entry shapes it extends).
 * Fields named `type` or `enum` in the source are renamed, both being
 * reserved in this language: `pluginType`, `manifestType`, `schemaType`,
 * `propertyType`, `enumValues`.
 */
module PluginTypes {
  import opened Wrappers

  /** `PluginType`: 'builtin' | 'customPlugin' | 'plugin' (a market plugin). */
  datatype PluginType = Builtin | CustomPlugin | MarketPlugin

  /** A value a user enters for one setting. */
  datatype SettingValue = SettingString(s: string) | SettingNumber(n: int) | SettingBool(b: bool)

  type SettingsValue = map<string, SettingValue>

  /** One property of a settings schema. */
  datatype SchemaProperty = SchemaProperty(
    default: Option<string>,
    description: Option<string>,
    enumValues: Option<seq<string>>,
    format: Option<string>,
    maximum: Option<int>,
    minimum: Option<int>,
    title: Option<string>,
    propertyType: Option<string>)

  datatype PropertyEntry = PropertyEntry(key: string, property: SchemaProperty)

  /** A settings schema; `properties` holds its entries in the object's key order. */
  datatype PluginSchema = PluginSchema(properties: Option<seq<PropertyEntry>>, schemaType: string)

  datatype ManifestMeta = ManifestMeta(avatar: Option<string>, description: Option<string>, title: Option<string>)

  datatype PluginApi = PluginApi(name: string, description: string, url: Option<string>)

  /** A plugin manifest (`LobeChatPluginManifest`). */
  datatype Manifest = Manifest(
    api: seq<PluginApi>,
    homepage: Option<string>,
    identifier: string,
    meta: ManifestMeta,
    openapi: Option<string>,
    settings: Option<PluginSchema>,
    systemRole: Option<string>,
    manifestType: string,
    version: string)

  datatype PluginMeta = PluginMeta(avatar: Option<string>, description: Option<string>, title: Option<string>)

  /**
   * A market entry (`LobeChatPluginMeta`, with `manifest` the manifest's URL)
   * plus what the store attaches to it.
   */
  datatype Plugin = Plugin(
    identifier: string,
    author: Option<string>,
    manifestUrl: Option<string>,
    meta: PluginMeta,
    pluginManifest: Option<Manifest>,
    pluginSettingsValue: Option<SettingsValue>,
    pluginType: PluginType)
}
