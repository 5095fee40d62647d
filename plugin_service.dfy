/**
 * The plugin service (src/services/plugin.ts): turning an OpenAI plugin
 * manifest into a plugin manifest, and fetching a plugin's manifest.
 * The network (`fetchJSON`), the manifest schema check and the OpenAPI
 * converter are passed in as functions.
 */
module PluginService {
  import opened Wrappers
  import opened PluginTypes

  /** `auth` of an OpenAI plugin manifest; `authType` is its `type`. */
  datatype OpenAIAuth = OpenAIAuth(authType: string, verificationTokens: map<string, string>)

  /** An OpenAI plugin manifest (`ai-plugin.json`); `apiUrl` is its `api.url`. */
  datatype OpenAIPluginManifest = OpenAIPluginManifest(
    nameForModel: string,
    nameForHuman: string,
    descriptionForModel: string,
    descriptionForHuman: string,
    logoUrl: string,
    legalInfoUrl: string,
    apiUrl: string,
    auth: OpenAIAuth)

  /** The one setting an OpenAI plugin with HTTP service auth gets: its API key. */
  function ApiKeySetting(tokens: map<string, string>): (s: PluginSchema)
    ensures s.schemaType == "object"
    ensures s.properties.Some? && |s.properties.value| == 1
    ensures s.properties.value[0].key == "apiAuthKey"
    ensures s.properties.value[0].property.default == Get(tokens, "openai")
    ensures s.properties.value[0].property.propertyType == Some("string")
    ensures s.properties.value[0].property.format == Some("password")
  {
    PluginSchema(
      Some([PropertyEntry("apiAuthKey", SchemaProperty(
        Get(tokens, "openai"), Some("API Key"), None, Some("password"), None, None, Some("API Key"), Some("string")))]),
      "object")
  }

  /**
   * `convertOpenAIManifestToLobeManifest`: the model's name becomes the
   * identifier, the model's description the system role, the API URL the
   * OpenAPI document; only 'service_http' auth yields settings.
   */
  function ConvertOpenAIManifestToLobeManifest(data: OpenAIPluginManifest): (m: Manifest)
    ensures m.identifier == data.nameForModel
    ensures m.systemRole == Some(data.descriptionForModel)
    ensures m.openapi == Some(data.apiUrl)
    ensures m.homepage == Some(data.legalInfoUrl)
    ensures m.meta == ManifestMeta(Some(data.logoUrl), Some(data.descriptionForHuman), Some(data.nameForHuman))
    ensures m.api == [] && m.manifestType == "default" && m.version == "1"
    ensures m.settings.Some? <==> data.auth.authType == "service_http"
    ensures m.settings.Some? ==> m.settings.value == ApiKeySetting(data.auth.verificationTokens)
  {
    var manifest := Manifest(
      [], Some(data.legalInfoUrl), data.nameForModel,
      ManifestMeta(Some(data.logoUrl), Some(data.descriptionForHuman), Some(data.nameForHuman)),
      Some(data.apiUrl), None, Some(data.descriptionForModel), "default", "1");
    if data.auth.authType == "service_http" then
      manifest.(settings := Some(ApiKeySetting(data.auth.verificationTokens)))
    else
      manifest
  }

  /** The reasons `getPluginManifest` rejects with (the `TypeError` messages). */
  datatype ManifestError = NoManifest | FetchError | UrlError | ManifestInvalid | OpenAPIInvalid

  /** What `fetchJSON` can deliver: a plugin manifest or an OpenAI plugin manifest. */
  datatype ManifestDocument = LobeDocument(manifest: Manifest) | OpenAIDocument(openai: OpenAIPluginManifest)

  /** The source converts a document exactly when its `description_for_model` is truthy. */
  predicate NeedsConversion(doc: ManifestDocument)
  {
    doc.OpenAIDocument? && doc.openai.descriptionForModel != ""
  }

  /** The document as it reaches the schema check. */
  function Normalised(doc: ManifestDocument): (d: ManifestDocument)
    ensures NeedsConversion(doc) ==> d == LobeDocument(ConvertOpenAIManifestToLobeManifest(doc.openai))
    ensures !NeedsConversion(doc) ==> d == doc
  {
    if NeedsConversion(doc) then LobeDocument(ConvertOpenAIManifestToLobeManifest(doc.openai)) else doc
  }

  /**
   * The OpenAPI step: given the manifest's `openapi` URL and its settings,
   * the converter yields the extra APIs and the new settings, or the error
   * (`fetchError`, `urlError` from fetching, `openAPIInvalid` from converting).
   */
  type OpenApiConverter = (string, Option<PluginSchema>) -> Result<(seq<PluginApi>, Option<PluginSchema>), ManifestError>

  function MergeOpenApi(m: Manifest, convert: OpenApiConverter): (r: Result<Manifest, ManifestError>)
    ensures m.openapi.None? || m.openapi.value == "" ==> r == Ok(m)
    ensures r.Ok? ==> r.value.identifier == m.identifier && r.value.meta == m.meta && r.value.systemRole == m.systemRole
    ensures r.Ok? ==> |r.value.api| >= |m.api| && r.value.api[..|m.api|] == m.api
    ensures r.Err? ==> m.openapi.Some? && convert(m.openapi.value, m.settings) == Err(r.error)
    ensures m.openapi.Some? && m.openapi.value != "" ==>
      (r.Err? <==> convert(m.openapi.value, m.settings).Err?)
    ensures m.openapi.Some? && m.openapi.value != "" && convert(m.openapi.value, m.settings).Ok? ==>
      var converted := convert(m.openapi.value, m.settings).value;
      r == Ok(m.(api := m.api + converted.0, settings := converted.1))
  {
    if m.openapi.None? || m.openapi.value == "" then Ok(m)
    else match convert(m.openapi.value, m.settings)
      case Err(e) => Err(e)
      case Ok((apis, settings)) =>
        var merged := m.(api := m.api + apis, settings := settings);
        assert merged.api[..|m.api|] == m.api;
        Ok(merged)
  }

  /**
   * `getPluginManifest(url)`: a missing or empty URL is rejected before any
   * fetch; a document passes the schema check only as a plugin manifest (an
   * OpenAI manifest that was not converted lacks the required fields).
   */
  function GetPluginManifest(
    url: Option<string>,
    fetchJson: string -> Result<ManifestDocument, ManifestError>,
    isValid: Manifest -> bool,
    convert: OpenApiConverter): (r: Result<Manifest, ManifestError>)
    ensures url.None? || url.value == "" ==> r == Err(NoManifest)
    ensures url.Some? && url.value != "" && fetchJson(url.value).Err? ==> r == Err(fetchJson(url.value).error)
    ensures r.Ok? ==> url.Some? && url.value != "" && fetchJson(url.value).Ok?
    ensures r.Ok? ==> Normalised(fetchJson(url.value).value).LobeDocument?
    ensures r.Ok? ==>
      var m := Normalised(fetchJson(url.value).value).manifest;
      isValid(m) && MergeOpenApi(m, convert) == r
    ensures (url.Some? && url.value != "" && fetchJson(url.value).Ok?
             && Normalised(fetchJson(url.value).value).LobeDocument?) ==>
      var m := Normalised(fetchJson(url.value).value).manifest;
      r == if isValid(m) then MergeOpenApi(m, convert) else Err(ManifestInvalid)
    ensures (url.Some? && url.value != "" && fetchJson(url.value).Ok?
             && Normalised(fetchJson(url.value).value).OpenAIDocument?) ==> r == Err(ManifestInvalid)
  {
    if url.None? || url.value == "" then Err(NoManifest)
    else match fetchJson(url.value)
      case Err(e) => Err(e)
      case Ok(doc) =>
        match Normalised(doc)
        case OpenAIDocument(_) => Err(ManifestInvalid)
        case LobeDocument(m) => if isValid(m) then MergeOpenApi(m, convert) else Err(ManifestInvalid)
  }

  /** An OpenAI manifest with a model description is served converted, whatever its other fields. */
  lemma OpenAIManifestIsConverted(
    url: string, o: OpenAIPluginManifest,
    fetchJson: string -> Result<ManifestDocument, ManifestError>,
    isValid: Manifest -> bool, convert: OpenApiConverter)
    requires url != "" && fetchJson(url) == Ok(OpenAIDocument(o)) && o.descriptionForModel != ""
    requires isValid(ConvertOpenAIManifestToLobeManifest(o))
    requires convert(o.apiUrl, ConvertOpenAIManifestToLobeManifest(o).settings).Ok?
    ensures GetPluginManifest(Some(url), fetchJson, isValid, convert).Ok?
    ensures var m := GetPluginManifest(Some(url), fetchJson, isValid, convert).value;
      m.identifier == o.nameForModel && m.systemRole == Some(o.descriptionForModel)
  {

  }
}
