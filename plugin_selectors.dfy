/**
 * The plugin store's selectors (src/store/plugin/selectors.ts): derived
 * views of the state. `find` picks the FIRST plugin with an identifier and
 * lodash's `keyBy` the LAST, so with duplicate identifiers in the market
 * list the two disagree.
 */
module PluginSelectors {
  import opened Wrappers
  import opened PluginTypes
  import opened PluginState
  import opened JsArray

  /** `isPluginInstalling(identifier)`. */
  function IsPluginInstalling(s: StoreState, identifier: string): (r: bool)
    ensures r <==> exists i :: 0 <= i < |s.installingPluginIds| && s.installingPluginIds[i] == identifier
  {
    identifier in s.installingPluginIds
  }

  /** `isPluginInstalled(identifier)`. */
  function IsPluginInstalled(s: StoreState, identifier: string): (r: bool)
    ensures r <==> exists i :: 0 <= i < |s.installedPluginIds| && s.installedPluginIds[i] == identifier
  {
    identifier in s.installedPluginIds
  }

  /** One market entry with the store's manifest and settings for its identifier attached. */
  function WithStoreData(s: StoreState, p: Plugin): Plugin
  {
    p.(pluginManifest := Get(s.pluginManifestMap, p.identifier),
       pluginSettingsValue := Get(s.pluginSettingsValueMap, p.identifier))
  }

  /**
   * `getAllPlugins`: every market entry, in order, with `pluginManifest` and
   * `pluginSettingsValue` replaced by what the store holds for its identifier
   * (absent when the store holds nothing); nothing else changes.
   */
  function GetAllPlugins(s: StoreState): (r: seq<Plugin>)
    ensures |r| == |s.allPlugins|
    ensures forall i :: 0 <= i < |r| ==> r[i].identifier == s.allPlugins[i].identifier
    ensures forall i :: 0 <= i < |r| ==>
      r[i].(pluginManifest := s.allPlugins[i].pluginManifest,
            pluginSettingsValue := s.allPlugins[i].pluginSettingsValue) == s.allPlugins[i]
    ensures forall i :: 0 <= i < |r| ==>
      (r[i].pluginManifest.Some? <==> s.allPlugins[i].identifier in s.pluginManifestMap)
    ensures forall i :: 0 <= i < |r| && r[i].pluginManifest.Some? ==>
      r[i].pluginManifest.value == s.pluginManifestMap[r[i].identifier]
    ensures forall i :: 0 <= i < |r| ==>
      (r[i].pluginSettingsValue.Some? <==> s.allPlugins[i].identifier in s.pluginSettingsValueMap)
    ensures forall i :: 0 <= i < |r| && r[i].pluginSettingsValue.Some? ==>
      r[i].pluginSettingsValue.value == s.pluginSettingsValueMap[r[i].identifier]
  {
    seq(|s.allPlugins|, i requires 0 <= i < |s.allPlugins| => WithStoreData(s, s.allPlugins[i]))
  }

  /** The position of the first plugin carrying `identifier`, or -1. */
  function FirstIndexById(ps: seq<Plugin>, identifier: string): (i: int)
    ensures -1 <= i < |ps|
    ensures i == -1 <==> forall j :: 0 <= j < |ps| ==> ps[j].identifier != identifier
    ensures i >= 0 ==> ps[i].identifier == identifier && forall j :: 0 <= j < i ==> ps[j].identifier != identifier
  {
    if |ps| == 0 then -1
    else if ps[0].identifier == identifier then 0
    else
      var j := FirstIndexById(ps[1..], identifier);
      if j == -1 then -1 else j + 1
  }

  /** The position of the last plugin carrying `identifier`, or -1. */
  function LastIndexById(ps: seq<Plugin>, identifier: string): (i: int)
    ensures -1 <= i < |ps|
    ensures i == -1 <==> forall j :: 0 <= j < |ps| ==> ps[j].identifier != identifier
    ensures i >= 0 ==> ps[i].identifier == identifier && forall j :: i < j < |ps| ==> ps[j].identifier != identifier
  {
    if |ps| == 0 then -1
    else if ps[|ps| - 1].identifier == identifier then |ps| - 1
    else LastIndexById(ps[..|ps| - 1], identifier)
  }

  /** `Array.prototype.find` by identifier: the first plugin carrying it. */
  function FindById(ps: seq<Plugin>, identifier: string): (r: Option<Plugin>)
    ensures r.None? <==> forall i :: 0 <= i < |ps| ==> ps[i].identifier != identifier
    ensures r.Some? ==> r.value == ps[FirstIndexById(ps, identifier)]
  {
    if |ps| == 0 then None
    else if ps[0].identifier == identifier then Some(ps[0])
    else FindById(ps[1..], identifier)
  }

  /** `getPluginById(identifier)`: the first plugin of `getAllPlugins` with that identifier. */
  function GetPluginById(s: StoreState, identifier: string): (r: Option<Plugin>)
    ensures r.None? <==> forall i :: 0 <= i < |s.allPlugins| ==> s.allPlugins[i].identifier != identifier
    ensures r.Some? ==> r.value.identifier == identifier
    ensures r.Some? ==> r.value == WithStoreData(s, s.allPlugins[FirstIndexById(s.allPlugins, identifier)])
  {
    var all := GetAllPlugins(s);
    var r := FindById(all, identifier);
    assert FirstIndexById(all, identifier) == FirstIndexById(s.allPlugins, identifier) by {
      FirstIndexSameIdentifiers(all, s.allPlugins, identifier);
    }
    r
  }

  /** The first index depends only on the identifiers. */
  lemma {:induction false} FirstIndexSameIdentifiers(ps: seq<Plugin>, qs: seq<Plugin>, identifier: string)
    requires |ps| == |qs| && forall i :: 0 <= i < |ps| ==> ps[i].identifier == qs[i].identifier
    ensures FirstIndexById(ps, identifier) == FirstIndexById(qs, identifier)
  {
    if |ps| > 0 && ps[0].identifier != identifier {
      FirstIndexSameIdentifiers(ps[1..], qs[1..], identifier);
    }
  }

  /** lodash `keyBy(ps, 'identifier')`: each identifier maps to the LAST plugin carrying it. */
  function KeyBy(ps: seq<Plugin>): (m: map<string, Plugin>)
    ensures forall k :: k in m <==> LastIndexById(ps, k) >= 0
    ensures forall k :: k in m ==> m[k] == ps[LastIndexById(ps, k)]
  {
    if |ps| == 0 then map[]
    else KeyBy(ps[..|ps| - 1])[ps[|ps| - 1].identifier := ps[|ps| - 1]]
  }

  /**
   * The identifiers the map knows, in their order and with their repeats:
   * the filter applied before the lookup rather than after it.
   */
  function KnownIds(ids: seq<string>, pluginMap: map<string, Plugin>): (k: seq<string>)
    ensures |k| <= |ids|
    ensures forall i :: 0 <= i < |k| ==> k[i] in pluginMap
    ensures (forall i :: 0 <= i < |ids| ==> ids[i] in pluginMap) ==> k == ids
  {
    if |ids| == 0 then []
    else if ids[0] in pluginMap then [ids[0]] + KnownIds(ids[1..], pluginMap)
    else KnownIds(ids[1..], pluginMap)
  }

  /**
   * The known identifiers are a subsequence of the identifiers holding
   * exactly those the map knows, each as often as it is listed.
   */
  lemma {:induction false} KnownIdsFilter(ids: seq<string>, pluginMap: map<string, Plugin>)
    ensures IsSubsequence(KnownIds(ids, pluginMap), ids)
    ensures forall id :: id in KnownIds(ids, pluginMap) <==> id in ids && id in pluginMap
    ensures forall id :: multiset(KnownIds(ids, pluginMap))[id] == if id in pluginMap then multiset(ids)[id] else 0
  {
    if |ids| > 0 {
      KnownIdsFilter(ids[1..], pluginMap);
      var k, rest := KnownIds(ids, pluginMap), KnownIds(ids[1..], pluginMap);
      assert ids == [ids[0]] + ids[1..];
      assert multiset(ids) == multiset{ids[0]} + multiset(ids[1..]);
      assert forall id :: id in ids <==> id == ids[0] || id in ids[1..];
      if ids[0] in pluginMap {
        assert k == [ids[0]] + rest && k[1..] == rest;
      } else {
        assert k == rest;
        assert rest == [] || IsSubsequence(rest, ids[1..]);
      }
    }
  }

  /** One known identifier's plugin in front of plugins that follow their identifiers. */
  lemma LookedUpCons(id: string, k: seq<string>, r: seq<Plugin>, pluginMap: map<string, Plugin>)
    requires id in pluginMap && |r| == |k|
    requires forall i :: 0 <= i < |k| ==> k[i] in pluginMap && r[i] == pluginMap[k[i]]
    ensures forall i :: 0 <= i < |[id] + k| ==> ([pluginMap[id]] + r)[i] == pluginMap[([id] + k)[i]]
  {
  }

  /**
   * `ids.map((id) => pluginMap[id]).filter(Boolean)`: the i-th plugin is the
   * one the i-th known identifier names, so order and repeats follow the
   * identifiers and unknown identifiers are skipped.
   */
  function Resolve(ids: seq<string>, pluginMap: map<string, Plugin>): (r: seq<Plugin>)
    ensures |r| == |KnownIds(ids, pluginMap)|
    ensures forall i :: 0 <= i < |r| ==> r[i] == pluginMap[KnownIds(ids, pluginMap)[i]]
  {
    if |ids| == 0 then []
    else
      var rest := Resolve(ids[1..], pluginMap);
      if ids[0] in pluginMap then
        LookedUpCons(ids[0], KnownIds(ids[1..], pluginMap), rest, pluginMap);
        [pluginMap[ids[0]]] + rest
      else
        rest
  }

  /** Every plugin kept is the one some known identifier names. */
  lemma ResolveSources(ids: seq<string>, pluginMap: map<string, Plugin>)
    ensures forall p :: p in Resolve(ids, pluginMap) ==>
      exists id :: id in ids && id in pluginMap && pluginMap[id] == p
  {
    var r, k := Resolve(ids, pluginMap), KnownIds(ids, pluginMap);
    KnownIdsFilter(ids, pluginMap);
    forall p | p in r ensures exists id :: id in ids && id in pluginMap && pluginMap[id] == p {
      var i :| 0 <= i < |r| && r[i] == p;
      assert k[i] in k;
    }
  }

  /** Every plugin a listed identifier names is kept. */
  lemma ResolveComplete(ids: seq<string>, pluginMap: map<string, Plugin>)
    ensures forall id :: id in ids && id in pluginMap ==> pluginMap[id] in Resolve(ids, pluginMap)
  {
    var r, k := Resolve(ids, pluginMap), KnownIds(ids, pluginMap);
    KnownIdsFilter(ids, pluginMap);
    forall id | id in ids && id in pluginMap ensures pluginMap[id] in r {
      var j :| 0 <= j < |k| && k[j] == id;
      assert r[j] == pluginMap[id];
    }
  }

  /**
   * At most one plugin per identifier; nothing when no identifier is known,
   * and one plugin per identifier, in place, when all are.
   */
  lemma ResolveExtremes(ids: seq<string>, pluginMap: map<string, Plugin>)
    ensures |Resolve(ids, pluginMap)| <= |ids|
    ensures (forall id :: id in ids ==> id !in pluginMap) ==> Resolve(ids, pluginMap) == []
    ensures (forall id :: id in ids ==> id in pluginMap) ==>
      |Resolve(ids, pluginMap)| == |ids| && forall i :: 0 <= i < |ids| ==> Resolve(ids, pluginMap)[i] == pluginMap[ids[i]]
  {
    var k := KnownIds(ids, pluginMap);
    KnownIdsFilter(ids, pluginMap);
    assert |k| > 0 ==> k[0] in k;
    assert forall i :: 0 <= i < |ids| ==> ids[i] in ids;
  }

  /** Resolving a concatenation resolves each part: order is kept across the join. */
  lemma {:induction false} ResolveAppend(a: seq<string>, b: seq<string>, pluginMap: map<string, Plugin>)
    ensures Resolve(a + b, pluginMap) == Resolve(a, pluginMap) + Resolve(b, pluginMap)
  {
    if |a| == 0 {
      assert a + b == b;
    } else {
      assert (a + b)[0] == a[0] && (a + b)[1..] == a[1..] + b;
      ResolveAppend(a[1..], b, pluginMap);
    }
  }

  /** One identifier resolves to its plugin, or to nothing when the map lacks it. */
  lemma ResolveOne(id: string, pluginMap: map<string, Plugin>)
    ensures Resolve([id], pluginMap) == if id in pluginMap then [pluginMap[id]] else []
  {
    assert [id][1..] == [];
  }

  /** `keyBy(getAllPlugins(s), 'identifier')`: listed identifiers, each to its last listed plugin. */
  function PluginMap(s: StoreState): (m: map<string, Plugin>)
    ensures forall k :: k in m <==> LastIndexById(s.allPlugins, k) >= 0
    ensures forall k :: k in m ==> m[k].identifier == k
    ensures forall k :: k in m ==> m[k] == WithStoreData(s, s.allPlugins[LastIndexById(s.allPlugins, k)])
  {
    var all := GetAllPlugins(s);
    var m := KeyBy(all);
    forall k ensures LastIndexById(all, k) == LastIndexById(s.allPlugins, k) {
      LastIndexSameIdentifiers(all, s.allPlugins, k);
    }
    m
  }

  /** The last index depends only on the identifiers. */
  lemma {:induction false} LastIndexSameIdentifiers(ps: seq<Plugin>, qs: seq<Plugin>, identifier: string)
    requires |ps| == |qs| && forall i :: 0 <= i < |ps| ==> ps[i].identifier == qs[i].identifier
    ensures LastIndexById(ps, identifier) == LastIndexById(qs, identifier)
  {
    if |ps| > 0 && ps[|ps| - 1].identifier != identifier {
      LastIndexSameIdentifiers(ps[..|ps| - 1], qs[..|qs| - 1], identifier);
    }
  }

  /**
   * Identifiers resolved against the store's plugin map: at most one entry
   * per identifier, each for a listed identifier that is on the market list.
   */
  lemma ResolvedFromStore(s: StoreState, ids: seq<string>)
    ensures |Resolve(ids, PluginMap(s))| <= |ids|
    ensures forall p :: p in Resolve(ids, PluginMap(s)) ==>
      p.identifier in ids && LastIndexById(s.allPlugins, p.identifier) >= 0
  {
    ResolveExtremes(ids, PluginMap(s));
    ResolveSources(ids, PluginMap(s));
  }

  /** Every listed identifier on the market list shows the store's entry for its last market plugin. */
  lemma ResolvedFromStoreComplete(s: StoreState, ids: seq<string>)
    ensures forall id :: id in ids && LastIndexById(s.allPlugins, id) >= 0 ==>
      WithStoreData(s, s.allPlugins[LastIndexById(s.allPlugins, id)]) in Resolve(ids, PluginMap(s))
  {
    ResolveComplete(ids, PluginMap(s));
  }

  /** The entries follow the identifiers the market list knows, in their order and with their repeats. */
  lemma ResolvedFromStoreInOrder(s: StoreState, ids: seq<string>)
    ensures var known := KnownIds(ids, PluginMap(s));
      |Resolve(ids, PluginMap(s))| == |known| && forall i :: 0 <= i < |known| ==>
        Resolve(ids, PluginMap(s))[i] == WithStoreData(s, s.allPlugins[LastIndexById(s.allPlugins, known[i])])
  {
  }

  /**
   * `getInstalledPlugins`: the installed identifiers resolved against the
   * market list; an installed plugin no longer listed is dropped.
   */
  function GetInstalledPlugins(s: StoreState): (r: seq<Plugin>)
    ensures |r| <= |s.installedPluginIds|
    ensures forall p :: p in r ==> p.identifier in s.installedPluginIds && LastIndexById(s.allPlugins, p.identifier) >= 0
    ensures forall id :: id in s.installedPluginIds && LastIndexById(s.allPlugins, id) >= 0 ==>
      WithStoreData(s, s.allPlugins[LastIndexById(s.allPlugins, id)]) in r
    ensures var known := KnownIds(s.installedPluginIds, PluginMap(s));
      |r| == |known| && forall i :: 0 <= i < |r| ==>
        r[i] == WithStoreData(s, s.allPlugins[LastIndexById(s.allPlugins, known[i])])
  {
    ResolvedFromStore(s, s.installedPluginIds);
    ResolvedFromStoreComplete(s, s.installedPluginIds);
    ResolvedFromStoreInOrder(s, s.installedPluginIds);
    Resolve(s.installedPluginIds, PluginMap(s))
  }

  /**
   * `getAgentEnabledPlugins(agentId)`: the agent's enabled identifiers
   * resolved against the market list; nothing for an agent without a list.
   */
  function GetAgentEnabledPlugins(s: StoreState, agentId: string): (r: seq<Plugin>)
    ensures agentId !in s.enabledAgentPluginIdsMap ==> r == []
    ensures agentId in s.enabledAgentPluginIdsMap ==> |r| <= |s.enabledAgentPluginIdsMap[agentId]|
    ensures forall p :: p in r ==>
      agentId in s.enabledAgentPluginIdsMap && p.identifier in s.enabledAgentPluginIdsMap[agentId]
      && LastIndexById(s.allPlugins, p.identifier) >= 0
    ensures forall id ::
      (agentId in s.enabledAgentPluginIdsMap && id in s.enabledAgentPluginIdsMap[agentId]
       && LastIndexById(s.allPlugins, id) >= 0) ==>
      WithStoreData(s, s.allPlugins[LastIndexById(s.allPlugins, id)]) in r
    ensures agentId in s.enabledAgentPluginIdsMap ==>
      var known := KnownIds(s.enabledAgentPluginIdsMap[agentId], PluginMap(s));
      |r| == |known| && forall i :: 0 <= i < |r| ==>
        r[i] == WithStoreData(s, s.allPlugins[LastIndexById(s.allPlugins, known[i])])
  {
    if agentId in s.enabledAgentPluginIdsMap then
      ResolvedFromStore(s, s.enabledAgentPluginIdsMap[agentId]);
      ResolvedFromStoreComplete(s, s.enabledAgentPluginIdsMap[agentId]);
      ResolvedFromStoreInOrder(s, s.enabledAgentPluginIdsMap[agentId]);
      Resolve(s.enabledAgentPluginIdsMap[agentId], PluginMap(s))
    else []
  }

  /** In the initial state nothing is listed, installed, installing or enabled. */
  lemma InitialStateIsEmpty(identifier: string, agentId: string)
    ensures !IsPluginInstalled(InitialState(), identifier) && !IsPluginInstalling(InitialState(), identifier)
    ensures GetAllPlugins(InitialState()) == [] && GetPluginById(InitialState(), identifier) == None
    ensures GetInstalledPlugins(InitialState()) == [] && GetAgentEnabledPlugins(InitialState(), agentId) == []
  {
  }

  /**
   * With two market entries sharing an identifier, `getPluginById` answers
   * the first and the installed list shows the second.
   */
  lemma DuplicateIdentifiersDisagree(s: StoreState, p: Plugin, q: Plugin)
    requires s.allPlugins == [p, q] && p.identifier == q.identifier
    requires s.installedPluginIds == [p.identifier]
    ensures GetPluginById(s, p.identifier) == Some(WithStoreData(s, p))
    ensures GetInstalledPlugins(s) == [WithStoreData(s, q)]
  {

  }
}
