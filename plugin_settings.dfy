/**
 * `transformPluginSettings` (src/features/PluginSettings/index.tsx): turns a
 * plugin's settings schema into the form items the settings panel renders.
 */
module PluginSettings {
  import opened Wrappers
  import opened PluginTypes

  /** One form item; `displayLabel`, `enumValues` and `itemType` are the source's `label`, `enum` and `type`. */
  datatype SettingItem = SettingItem(
    desc: Option<string>,
    enumValues: Option<seq<string>>,
    format: Option<string>,
    displayLabel: string,
    maximum: Option<int>,
    minimum: Option<int>,
    name: string,
    tag: string,
    itemType: Option<string>)

  /** `i.title || name`: an empty or missing title falls back to the key. */
  function Label(name: string, title: Option<string>): (text: string)
    ensures title.Some? && title.value != "" ==> text == title.value
    ensures title.None? || title.value == "" ==> text == name
  {
    if title.Some? && title.value != "" then title.value else name
  }

  function ToSettingItem(entry: PropertyEntry): SettingItem
  {
    var i := entry.property;
    SettingItem(i.description, i.enumValues, i.format, Label(entry.key, i.title),
                i.maximum, i.minimum, entry.key, entry.key, i.propertyType)
  }

  /**
   * `transformPluginSettings`: one item per schema property, in order, named
   * and tagged by the property's key and carrying its description, enum,
   * format, bounds and type; no schema or no properties gives no items.
   */
  function TransformPluginSettings(pluginSettings: Option<PluginSchema>): (r: seq<SettingItem>)
    ensures pluginSettings.None? || pluginSettings.value.properties.None? ==> r == []
    ensures pluginSettings.Some? && pluginSettings.value.properties.Some? ==>
      |r| == |pluginSettings.value.properties.value|
    ensures pluginSettings.Some? && pluginSettings.value.properties.Some? ==>
      var ps := pluginSettings.value.properties.value;
      forall i :: 0 <= i < |r| ==>
        r[i].name == ps[i].key && r[i].tag == ps[i].key
        && r[i].displayLabel == Label(ps[i].key, ps[i].property.title)
        && r[i].desc == ps[i].property.description && r[i].enumValues == ps[i].property.enumValues
        && r[i].format == ps[i].property.format && r[i].itemType == ps[i].property.propertyType
        && r[i].maximum == ps[i].property.maximum && r[i].minimum == ps[i].property.minimum
  {
    if pluginSettings.None? || pluginSettings.value.properties.None? then []
    else
      var ps := pluginSettings.value.properties.value;
      seq(|ps|, i requires 0 <= i < |ps| => ToSettingItem(ps[i]))
  }

  /** Every item is labelled: never with an empty title, only with a title or the key. */
  lemma LabelsNeverEmptyTitles(schema: Option<PluginSchema>)
    ensures forall item :: item in TransformPluginSettings(schema) ==> item.displayLabel != "" || item.name == ""
  {
  }
}
