# lobe-vidol chat streaming and plugin store, in Dafny

This project models two parts of lobe-vidol, a virtual-idol chat front end.

**The chat response stream** (`src/utils/fetch.ts`, `src/utils/toolCall.ts`). `fetchSEE` reads a chat completion as a stream of chunks. It then does one of two things:
- Text chunks are queued in a "smooth message" typewriter (`createSmoothMessage`). The typewriter reveals them a few characters per timer tick and reports each delta as a message update.
- Once a chunk contains `{"tool_calls":` (any letter case), the accumulated output is re-parsed as JSON. Each successful parse appends the calls it validates.

A failed response is reported once, with a message chosen by its error type. An abort hands over `output`: the text revealed so far, followed by every raw chunk read after a marker. `genToolCallingName` builds the function name a plugin API is called by, hashing names that would be too long.

**The plugin store** (`src/store/plugin/*`, `src/services/plugin.ts` and two panel helpers):
- the market list;
- installed and installing plugins;
- manifests;
- per-plugin settings values;
- the plugins each agent has enabled.

Its actions change this state in place. Its selectors derive the lists the panels show. The manifest service converts OpenAI plugin manifests. The panel helpers decide whether a plugin has settings, and filter the list by a search keyword.

Module layout (one file each):
- `Wrappers`: `Option`, `Result`, map lookup.
- `JsonValue`: parsed JSON.
- `ToolCall`: tool-call names and records.
- `TextPacer`: the smooth message, as the class `SmoothMessage`.
- `FetchStream`: `fetchSEE`, as the method `FetchSEE` proved equal to the reference function `FetchSpec`.
- `JsArray`: `indexOf` and `splice` semantics.
- `PluginTypes`.
- `PluginService`.
- `PluginState`.
- `PluginSelectors`.
- `PluginStore`: the transitions, and the class `Store` whose methods perform them in place.
- `PluginSettings`.
- `PluginStorePanel`.

Behaviour the model keeps exactly as the code has it, where a reader might expect otherwise:
- **Stopping mid-answer.** `stopAnimation` during a running `startAnimation` clears the timer, so that promise never resolves. The model keeps the pending-promise flag raised.
- **Tool calls accumulate.** They are appended on every successful re-parse of the whole output, not replaced by the latest snapshot (`ToolCallsAppendedOnEveryParse`).
- **`isAnimationActive` is frozen.** The object `createSmoothMessage` returns copies `isAnimationActive` once, so it is always false. `fetchSEE`'s trailing `startAnimation()` therefore always runs, and finds an empty queue.
- **An abort after a marker hands over raw JSON.** Once a chunk carries the marker, that chunk and every later one are appended to `output`, and an abort hands that whole string to `onAbort` (`OutputIsEveryChunk`, `AbortReportsEveryChunk`).
- **Hashed names can be long.** A hashed tool-calling name is not bounded by 64 characters; only the unhashed name is compared with the limit.

## Model

| member | source | states |
|---|---|---|
| ToolCall.TypeSuffix | src/utils/toolCall.ts:9 | the type suffix is empty for no type or 'default', otherwise the separator followed by the type |
| ToolCall.GenToolCallingName | src/utils/toolCall.ts:8-24 | the name starts with identifier plus separator, ends with the type suffix, and is either the plain or the hashed form |
| ToolCall.ShortNameKept | src/utils/toolCall.ts:12-17 | a plain name shorter than 64 characters is used as is |
| ToolCall.LongNameHashed | src/utils/toolCall.ts:17-21 | a plain name of 64 characters or more is replaced by prefix + digest, with the length that gives |
| ToolCall.HashedNameDependsOnDigestOnly | src/utils/toolCall.ts:18-20 | two long names whose digests agree get the same calling name |
| ToolCall.CallNameDeterminesMethod | src/utils/toolCall.ts:8-24 | equal calling names for one plugin mean equal API names when both are short, and equal digests when both are long |
| ToolCall.ParseToolCall | src/utils/toolCall.ts:26-33 | a JSON value validates exactly when it has string id, type, function.name and function.arguments, and the record carries those strings |
| ToolCall.ParseToolCallRoundTrip | src/utils/toolCall.ts:26-33 | a serialised tool call validates back to itself |
| ToolCall.ParseAll | src/utils/toolCall.ts:37 | mapping the schema over the new calls succeeds exactly when every call validates, element by element |
| ToolCall.ParseToolCalls | src/utils/toolCall.ts:35-38 | succeeds iff every new call validates; the result keeps the old calls as prefix followed by the parsed new ones |
| ToolCall.ParseToolCallsOfSerialised | src/utils/toolCall.ts:35-38 | parsing serialised calls after an origin yields origin followed by exactly those calls |
| TextPacer.ConcatAppend | src/utils/fetch.ts:57-58 | joining the pieces distributes over concatenation |
| TextPacer.Pieces | src/utils/fetch.ts:55-64 | the slices the typewriter reveals are empty exactly for an empty queue |
| TextPacer.PiecesConcat | src/utils/fetch.ts:55-64 | the revealed slices joined back give the whole queue: no character is lost or repeated |
| TextPacer.PiecesBounded | src/utils/fetch.ts:57 | each revealed slice is non-empty and at most `speed` characters |
| TextPacer.PiecesStep | src/utils/fetch.ts:57 | one tick reveals the first min(speed, queue) characters, then the rest follows the same rule |
| TextPacer.RevealStep | src/utils/fetch.ts:55-64 | revealing one slice and then the rest equals revealing the whole queue |
| TextPacer.DeltasSnoc | src/utils/fetch.ts:61 | each update adds its delta to the list of deltas reported |
| TextPacer.SmoothMessage.constructor | src/utils/fetch.ts:16-23 | an empty buffer and queue, no animation, no timer |
| TextPacer.SmoothMessage.IsTokenRemain | src/utils/fetch.ts:82 | true exactly when the queue is non-empty |
| TextPacer.SmoothMessage.StopAnimation | src/utils/fetch.ts:26-32 | animation off and timer cleared; text, queue and any pending promise untouched |
| TextPacer.SmoothMessage.PushToQueue | src/utils/fetch.ts:76-78 | appends the text to the queue and changes nothing else |
| TextPacer.SmoothMessage.UpdateText | src/utils/fetch.ts:45-71 | with a non-empty queue, moves its first min(speed, length) characters to the buffer, reports them with the new text and schedules the next tick (even when stopped); with an empty queue, ends the animation and resolves |
| TextPacer.SmoothMessage.StartAnimation | src/utils/fetch.ts:36-74 | resolves at once when already animating; otherwise takes the speed and runs the first update |
| TextPacer.SmoothMessage.Tick | src/utils/fetch.ts:64 | a timer firing runs one update while keeping the pacer's invariant |
| TextPacer.TickUntilResolved | src/utils/fetch.ts:45-71 | running the timer until the promise resolves reveals exactly the queued text, slice by slice, ending with the buffer as the last text |
| TextPacer.AwaitStartAnimation | src/utils/fetch.ts:172 | `await startAnimation(speed)` empties the queue into the buffer, the reported deltas being exactly the queue's slices |
| FetchStream.GetMessageByErrorType | src/utils/fetch.ts:89-96 | the three known error types map to their messages; every other key gives 'unknown error', and only those do |
| FetchStream.HasToolCallsMarker | src/utils/fetch.ts:151 | the case-insensitive pattern test holds exactly when the marker occurs in the ASCII-lower-cased chunk |
| FetchStream.MarkerAtLowerCase | src/utils/fetch.ts:151 | the pattern matches at a position exactly when the lower-cased chunk spells the marker there |
| FetchStream.MarkerFoundInAnyCase | src/utils/fetch.ts:151 | any spelling that lower-cases to the marker is found, wherever it sits in the chunk |
| FetchStream.MarkerFoundIgnoringCase | src/utils/fetch.ts:151 | the marker in lower and in upper case is found, wherever it sits in the chunk |
| FetchStream.DetectMessageType | src/utils/fetch.ts:150-160 | the last chunk always switches to text; a marker switches to tool calls; otherwise the mode is kept |
| FetchStream.TextEvents | src/utils/fetch.ts:111-120 | one text update per revealed slice, in order |
| FetchStream.ToolCallsField | src/utils/fetch.ts:180 | `?.tool_calls` yields calls exactly when the parsed output is an object with a tool_calls array |
| FetchStream.TryParseToolCalls | src/utils/fetch.ts:179-188 | succeeds exactly when the parsed output has a `tool_calls` array whose every item has the call shape; then the earlier calls are kept as prefix and each item's parsed record follows, in order |
| FetchStream.TextStep | src/utils/fetch.ts:169-176 | a text chunk extends the text and emits its slices at speed 15; a non-empty chunk sets the output to the revealed text |
| FetchStream.ToolCallsStep | src/utils/fetch.ts:177-189 | a tool-calls chunk extends the output; the calls and an update are added only when the output parses |
| FetchStream.Step | src/utils/fetch.ts:162-191 | one chunk sets the detected mode and only appends to the calls and events |
| FetchStream.Run | src/utils/fetch.ts:162-191 | reading chunks only appends to calls and events, and emits only updates |
| FetchStream.FetchSpec | src/utils/fetch.ts:100-202 | rejection gives one failure; non-ok gives one event, the mapped message when the error body parses; a null body gives nothing; the response is returned iff the stream completed; a failed run ends with exactly one error or abort event |
| FetchStream.FirstMarker | src/utils/fetch.ts:151 | the index of the first chunk carrying the marker |
| FetchStream.FirstMarkerSnoc | src/utils/fetch.ts:151-152 | reading one more chunk moves the first marker only when no earlier chunk had one |
| FetchStream.RunFromInitial | src/utils/fetch.ts:162-191 | the stream is in tool-calls mode iff some chunk had the marker, and the text is every chunk before the first marker |
| FetchStream.OutputIsTextWithoutMarker | src/utils/fetch.ts:113 | without a marker the output equals the whole revealed text |
| FetchStream.TextOfAppend | src/utils/fetch.ts:115-118 | the text reported by updates distributes over concatenation |
| FetchStream.TextOfTextEvents | src/utils/fetch.ts:115-118 | the text updates of the slices report the whole chunk |
| FetchStream.StepKeepsTextOf | src/utils/fetch.ts:162-191 | each chunk keeps "reported text equals revealed text" |
| FetchStream.RunKeepsTextOf | src/utils/fetch.ts:162-191 | the whole read keeps "reported text equals revealed text" |
| FetchStream.CompletedStreamText | src/utils/fetch.ts:162-193 | a completed stream reports all text before the first marker, plus the last chunk |
| FetchStream.OutputIsEveryChunk | src/utils/fetch.ts:108-189 | after any chunks, `output` is all of them concatenated, and equals the revealed text while in text mode |
| FetchStream.AbortReportsEveryChunk | src/utils/fetch.ts:194-197 | an abort ends with the abort event carrying every chunk read, tool-call JSON included |
| FetchStream.AbortReportsRevealedText | src/utils/fetch.ts:194-197 | without a marker, the abort event carries exactly the text revealed |
| FetchStream.TryParseSingleCall | src/utils/fetch.ts:180 | an output parsing to one serialised call appends that call |
| FetchStream.OneSlice | src/utils/fetch.ts:57 | a chunk of at most 15 characters is revealed in one slice |
| FetchStream.ToolCallsAppendedOnEveryParse | src/utils/fetch.ts:178-185 | a chunk that leaves the output parseable appends the same calls again: two events, the call listed twice |
| FetchStream.PlainTextScenario | src/utils/fetch.ts:162-193 | "Hello" then done gives one update "Hello" and the response |
| FetchStream.ToolCallScenario | src/utils/fetch.ts:177-189 | one chunk with one call gives one tool-calls update with that call |
| FetchStream.MissingKeyScenario | src/utils/fetch.ts:125-134 | a non-ok response with API_KEY_MISSING reports the missing-key message only |
| FetchStream.AbortScenario | src/utils/fetch.ts:194-197 | an abort after "Hel" reports "Hel" |
| FetchStream.HandleTextChunk | src/utils/fetch.ts:169-176 | performing a text chunk on the pacer gives exactly `TextStep` |
| FetchStream.HandleToolCallsChunk | src/utils/fetch.ts:177-189 | performing a tool-calls chunk gives exactly `ToolCallsStep` |
| FetchStream.HandleChunk | src/utils/fetch.ts:168-190 | dispatching one chunk gives exactly `Step` |
| FetchStream.FetchSEE | src/utils/fetch.ts:100-202 | the returned response and the handler calls are exactly those of `FetchSpec` |
| JsArray.IndexOf | src/store/plugin/index.ts:109 | -1 exactly when absent, otherwise the first position of the element |
| JsArray.SpliceOne | src/store/plugin/index.ts:109 | removes the element at a valid start; a negative start counts back from the end (clamped to the first element); a start past the end changes nothing |
| JsArray.RemoveFirst | src/store/plugin/index.ts:109 | removes the first occurrence (one fewer in the multiset); when absent the last element goes; an empty list stays empty |
| PluginService.ApiKeySetting | src/services/plugin.ts:62-75 | one 'apiAuthKey' password string property defaulting to the 'openai' verification token |
| PluginService.ConvertOpenAIManifestToLobeManifest | src/services/plugin.ts:41-80 | maps the model name to the identifier, the model description to the system role, the API URL to openapi; settings exist iff auth is 'service_http' |
| PluginService.Normalised | src/services/plugin.ts:106-108 | a document is converted exactly when it has a non-empty model description |
| PluginService.MergeOpenApi | src/services/plugin.ts:117-132 | without openapi the manifest is unchanged; otherwise it fails exactly when the converter does, with the converter's error, and succeeds with the converted APIs appended and the converted settings in place |
| PluginService.GetPluginManifest | src/services/plugin.ts:96-135 | no URL gives noManifest without fetching; fetch errors pass through; a normalised plugin manifest that validates gives the merge result, one that does not gives manifestInvalid, as does an unconverted OpenAI document |
| PluginService.OpenAIManifestIsConverted | src/services/plugin.ts:106-115 | a valid OpenAI manifest is served converted, keyed by its model name |
| PluginState.InitialState | src/store/plugin/initialState.ts:3-15 | every list and map starts empty |
| PluginSelectors.IsPluginInstalling | src/store/plugin/selectors.ts:8-10 | true exactly when the identifier is in the installing list |
| PluginSelectors.IsPluginInstalled | src/store/plugin/selectors.ts:12-14 | true exactly when the identifier is in the installed list |
| PluginSelectors.GetAllPlugins | src/store/plugin/selectors.ts:16-27 | every market entry in order with the store's manifest and settings for its identifier attached, present iff the store has them, nothing else changed |
| PluginSelectors.FirstIndexById | src/store/plugin/selectors.ts:31 | -1 when no plugin has the identifier, otherwise the first that does |
| PluginSelectors.LastIndexById | src/store/plugin/selectors.ts:37 | -1 when no plugin has the identifier, otherwise the last that does |
| PluginSelectors.FindById | src/store/plugin/selectors.ts:31 | none iff no plugin has the identifier, otherwise the first such plugin |
| PluginSelectors.GetPluginById | src/store/plugin/selectors.ts:29-32 | none iff unlisted, otherwise the first listed plugin with the identifier, store data attached |
| PluginSelectors.FirstIndexSameIdentifiers | src/store/plugin/selectors.ts:30-31 | attaching store data does not move which plugin `find` picks |
| PluginSelectors.KeyBy | src/store/plugin/selectors.ts:37 | keys are the identifiers present, each mapped to the last plugin carrying it |
| PluginSelectors.Resolve | src/store/plugin/selectors.ts:40 | the i-th plugin is the map's entry for the i-th known identifier: order and repeats follow the identifiers, unknown ones are skipped |
| PluginSelectors.KnownIds | src/store/plugin/selectors.ts:40 | the known identifiers: no more than the identifiers, all in the map, all of them when every identifier is known |
| PluginSelectors.KnownIdsFilter | src/store/plugin/selectors.ts:40 | the known identifiers are a subsequence holding exactly the known ones, each as often as listed |
| PluginSelectors.ResolveSources | src/store/plugin/selectors.ts:40 | every resolved plugin is the one some listed, known identifier names |
| PluginSelectors.ResolveComplete | src/store/plugin/selectors.ts:40 | every plugin a listed identifier names is resolved |
| PluginSelectors.ResolveExtremes | src/store/plugin/selectors.ts:40 | at most one plugin per identifier; none when no identifier is known; one per identifier, in place, when all are |
| PluginSelectors.ResolveAppend | src/store/plugin/selectors.ts:40 | resolving a concatenation is the concatenation of the parts' results |
| PluginSelectors.ResolveOne | src/store/plugin/selectors.ts:40 | one identifier gives its plugin, or nothing when unknown |
| PluginSelectors.ResolvedFromStore | src/store/plugin/selectors.ts:34-41 | identifiers resolved against the store give at most one plugin each, only for listed identifiers on the market list |
| PluginSelectors.ResolvedFromStoreComplete | src/store/plugin/selectors.ts:34-41 | every listed identifier on the market list shows the store's entry for its last market plugin |
| PluginSelectors.ResolvedFromStoreInOrder | src/store/plugin/selectors.ts:34-41 | the entries follow the known identifiers in order, each the store's entry for the last market plugin with it |
| PluginSelectors.PluginMap | src/store/plugin/selectors.ts:37 | the keyed market list: listed identifiers, each to its last listed entry with store data |
| PluginSelectors.LastIndexSameIdentifiers | src/store/plugin/selectors.ts:37 | attaching store data does not move which plugin `keyBy` keeps |
| PluginSelectors.GetInstalledPlugins | src/store/plugin/selectors.ts:34-41 | only installed and listed plugins, each installed listed identifier represented, unlisted ones dropped; the i-th entry is the store's entry for the i-th known installed identifier, in install order with repeats |
| PluginSelectors.GetAgentEnabledPlugins | src/store/plugin/selectors.ts:43-48 | nothing for an agent without a list; otherwise only its enabled, listed plugins, each such one present, the i-th for the i-th known enabled identifier |
| PluginSelectors.InitialStateIsEmpty | src/store/plugin/selectors.ts:8-48 | in the initial state no selector reports anything |
| PluginSelectors.DuplicateIdentifiersDisagree | src/store/plugin/selectors.ts:29-41 | with a duplicated identifier, `getPluginById` gives the first entry while the installed list shows the last |
| PluginStore.AsMarketPlugins | src/store/plugin/index.ts:78-83 | every fetched plugin becomes type 'plugin', otherwise unchanged |
| PluginStore.IndexFetched | src/store/plugin/index.ts:73-86 | an array listing becomes the market list, each entry marked as a market plugin and otherwise unchanged; anything else changes nothing |
| PluginStore.PluginEnabled | src/store/plugin/index.ts:88-101 | appends the plugin to the agent's list (creating it), other agents and fields unchanged |
| PluginStore.PluginDisabled | src/store/plugin/index.ts:103-114 | the agent's list becomes `RemoveFirst` of it: the first occurrence goes, or the last entry when not enabled; other agents and an agent without a list are untouched |
| PluginStore.InstallStarted | src/store/plugin/index.ts:117-120 | the identifier is appended to the end of the installing list, so it is now installing, added once; nothing else changes |
| PluginStore.InstallFinished | src/store/plugin/index.ts:127-133 | installing becomes `RemoveFirst` of it (one occurrence leaves), the identifier is appended to installed, its manifest recorded, other manifests kept |
| PluginStore.Uninstalled | src/store/plugin/index.ts:136-142 | installed becomes `RemoveFirst` of it (one occurrence, or the last entry when absent), the manifest is dropped, other manifests kept |
| PluginStore.SettingsUpdated | src/store/plugin/index.ts:144-149 | the plugin's settings are replaced; other plugins' kept |
| PluginStore.Partialize | src/store/plugin/index.ts:160-165 | only the installed list and the manifests are persisted |
| PluginStore.ManifestUrl | src/store/plugin/index.ts:123-125 | for a listed identifier, exactly the manifest URL of the first listed plugin with it; none when unlisted |
| PluginStore.DisableUndoesEnable | src/store/plugin/index.ts:88-114 | disabling after enabling a not-yet-enabled plugin restores the state |
| PluginStore.DisableAfterFirstEnable | src/store/plugin/index.ts:88-114 | for an agent without a list the pair leaves an empty list, and still no enabled plugins |
| PluginStore.EnableTwiceNeedsTwoDisables | src/store/plugin/index.ts:94-109 | enabling twice then disabling once leaves the plugin enabled |
| JsArray.RemoveAppended | src/store/plugin/index.ts:109 | removing an element just appended to a list that lacked it restores the list |
| PluginStore.UninstallUndoesInstall | src/store/plugin/index.ts:116-142 | installing a fresh plugin then uninstalling it restores the state |
| PluginStore.InstallCompletes | src/store/plugin/index.ts:116-134 | after installation the plugin is installed, not installing, and its manifest shows |
| PluginStore.DoubleInstallSurvivesUninstall | src/store/plugin/index.ts:130-139 | installing twice then uninstalling once leaves it installed without a manifest |
| PluginStore.OnlyInstallationIsPersisted | src/store/plugin/index.ts:160-165 | enabling, disabling, starting an install, settings and the market list leave the persisted part unchanged |
| PluginStore.Store.constructor | src/store/plugin/index.ts:70-71 | the store starts at the initial state |
| PluginStore.Store.FetchPluginIndex | src/store/plugin/index.ts:73-86 | updates the fields as `IndexFetched` |
| PluginStore.Store.EnablePlugin | src/store/plugin/index.ts:88-101 | updates the fields as `PluginEnabled` |
| PluginStore.Store.DisablePlugin | src/store/plugin/index.ts:103-114 | updates the fields as `PluginDisabled` |
| PluginStore.Store.BeginInstall | src/store/plugin/index.ts:117-123 | updates the fields as `InstallStarted` and returns the first listed plugin's manifest URL |
| PluginStore.Store.FinishInstall | src/store/plugin/index.ts:127-133 | updates the fields as `InstallFinished` |
| PluginStore.Store.InstallPlugin | src/store/plugin/index.ts:116-134 | on a manifest error rejects with it and leaves the plugin installing; otherwise installs with the fetched manifest |
| PluginStore.Store.UninstallPlugin | src/store/plugin/index.ts:136-142 | updates the fields as `Uninstalled` |
| PluginStore.Store.UpdatePluginSettingsValue | src/store/plugin/index.ts:144-149 | updates the fields as `SettingsUpdated` |
| PluginSettings.Label | src/features/PluginSettings/index.tsx:18 | a non-empty title, otherwise the key |
| PluginSettings.TransformPluginSettings | src/features/PluginSettings/index.tsx:11-25 | no schema or properties gives none; otherwise one item per property in order, named and tagged by its key, with its fields copied |
| PluginSettings.LabelsNeverEmptyTitles | src/features/PluginSettings/index.tsx:18 | an item's label is empty only when its key is |
| PluginStorePanel.HasPluginSettings | src/panels/PluginStorePanel/util.ts:3-9 | undefined when properties are missing along the path, otherwise whether there is at least one |
| PluginStorePanel.HasSettingsIffFormItems | src/panels/PluginStorePanel/util.ts:3-9 | a plugin has settings exactly when its settings form would have items |
| PluginStorePanel.ConvertedPluginSettings | src/services/plugin.ts:58-77 | a converted OpenAI plugin has settings exactly when its auth is 'service_http' |
| PluginStorePanel.FilterByKeyword | src/panels/PluginStorePanel/Plugin/List/index.tsx:69-81 | keeps the matching plugins in order as a subsequence, each matching one as often as listed and no other, and all of them for an empty keyword |
| PluginStorePanel.ListData | src/panels/PluginStorePanel/Plugin/List/index.tsx:69-81 | a subsequence of the tab's source list holding each plugin that matches the keyword as often as the source does, and no other; the installed tab shows only installed plugins; no keyword shows the whole source |
| PluginStorePanel.SearchIgnoresCase | src/panels/PluginStorePanel/Plugin/List/index.tsx:75-79 | keywords that lower-case alike show the same plugins |

## Left out

- Timers, promises and the event loop: a timer firing is the `Tick` method, and `await startAnimation` is `AwaitStartAnimation`. Callbacks are returned as events rather than called, and `console.log` is omitted.
- UTF-8 decoding of the response body (`TextDecoder`): chunks arrive as strings. Characters are modelled where JavaScript uses UTF-16 code units, so `text.split('')` is per character.
- `JSON.parse`, MD5 digests, `toLowerCase`, the plugin-name separator and the MD5 prefix constant (`src/constants/plugin.ts` is not part of this model) are parameters.
- `fetchWithProgress` is not part of the stream core and is not modelled.
- FetchStream.GetMessageByErrorType, and likewise the store's maps and the `keyBy` lookups in PluginStore and PluginSelectors: keys inherited from `Object.prototype` (such as "constructor" or "toString") are not modelled in any object used as a dictionary, so an absent key is simply absent and such an error type counts as unknown. Non-string error types are not modelled; a missing error type is the key "undefined".
- FetchStream.FetchSpec: a rejection of `res.json()` on a non-ok response is modelled through the catch branch, as the code does. Exceptions thrown by the handler callbacks themselves are not modelled.
- Numbers in settings and schemas are integers; floating point is not modelled.
- The OpenAI manifest's `verification_tokens` is a map, so a manifest without it (which would make the code throw) is not modelled.
- PluginService.GetPluginManifest: `fetchJSON`'s content-type, YAML and network behaviour, the `pluginManifestSchema` check and the OpenAPI converter are parameters. An OpenAI-shaped document that is not converted is taken to fail the schema check.
- `getPluginIndex` (the network request) is a parameter of `FetchPluginIndex`. The current agent, read from the agent store, is a parameter of `EnablePlugin` and `DisablePlugin`.
- The zustand middleware is omitted: devtools, subscription, the `shallow` equality and the persistence storage. Only `partialize` is modelled.
- PluginStore.Store.InstallPlugin: runs its two steps without other actions in between. Interleavings are possible through `BeginInstall` and `FinishInstall`, which are modelled separately.
- Object keys are kept as a sequence of property entries, so a schema with a repeated key is representable here but not in JavaScript.
- The panels' rendering, `useCalculateToken` and the React components around the modelled helpers are omitted.
