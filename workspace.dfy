/** The create-or-update decision and the property replacement of
    `createModel` and `createModelConfig` (soap/index.js:355-440), over an
    abstract workspace that keeps one record per model name. */
module Workspace {
  import opened Values
  import opened Seqs
  import opened Records

  /** Which workspace call a record goes to. */
  datatype Action = Create | Upsert

  function EqualsName(name: string): string -> bool {
    (other: string) => other == name
  }

  /** A name found in the snapshot of existing models is updated; any other is created. */
  function Decide(existing: seq<string>, name: string): (a: Action)
    ensures a == Upsert <==> name in existing
  {
    if Find(EqualsName(name), existing).Some? then Upsert else Create
  }

  /** A property as it is recreated: named after its key, in the model's facet. */
  function NamedProperty(key: string, p: Property, facet: string): Property {
    p.(name := Some(key), facetName := Some(facet))
  }

  /** The property set of a stored model after `createModel`: a non-empty new
      set replaces the old one entirely; an empty one leaves the old one. */
  function ReplaceProperties(current: map<string, Property>, incoming: map<string, Property>, facet: string)
    : (r: map<string, Property>)
    ensures |incoming| > 0 ==> r.Keys == incoming.Keys
    ensures |incoming| > 0 ==> forall k :: k in r ==>
              r[k].name == Some(k) && r[k].facetName == Some(facet) && r[k].propType == incoming[k].propType
    ensures |incoming| == 0 ==> r == current
  {
    if |incoming| > 0 then map k | k in incoming :: NamedProperty(k, incoming[k], facet) else current
  }

  /** A property set recreated key by key is the replacement of any old set. */
  lemma RecreatedReplaces(current: map<string, Property>, incoming: map<string, Property>, facet: string,
                          created: map<string, Property>)
    requires |incoming| > 0 && created.Keys == incoming.Keys
    requires forall k :: k in created ==> created[k] == NamedProperty(k, incoming[k], facet)
    ensures created == ReplaceProperties(current, incoming, facet)
  {
  }

  /** With a non-empty new set the outcome does not depend on what was stored. */
  lemma ReplaceForgetsOld(c1: map<string, Property>, c2: map<string, Property>,
                          incoming: map<string, Property>, facet: string)
    requires |incoming| > 0
    ensures ReplaceProperties(c1, incoming, facet) == ReplaceProperties(c2, incoming, facet)
  {
  }

  /** Replacing with the same set twice is the same as once. */
  lemma ReplaceIdempotent(current: map<string, Property>, incoming: map<string, Property>, facet: string)
    ensures ReplaceProperties(ReplaceProperties(current, incoming, facet), incoming, facet)
         == ReplaceProperties(current, incoming, facet)
  {
  }

  /** A stored model definition with its property relation. */
  datatype StoredDefinition = StoredDefinition(def: ModelDef, properties: map<string, Property>)

  /** The record handed to the workspace: an update carries the workspace's
      unique id for the model, a creation goes as built. */
  function SubmittedDef(existing: seq<string>, def: ModelDef, uniqueId: (string, string) -> string): ModelDef {
    if Decide(existing, def.name) == Upsert then def.(id := Some(uniqueId(def.facetName, def.name))) else def
  }

  /** The in-memory definition after `createModel`: the submitted record with
      its script path and, when it has properties, each named after its key. */
  function PreparedDef(existing: seq<string>, def: ModelDef,
                       uniqueId: (string, string) -> string, scriptPathOf: ModelDef -> string): ModelDef {
    var s := SubmittedDef(existing, def, uniqueId);
    s.(scriptPath := Some(scriptPathOf(s)),
       properties := ReplaceProperties(def.properties, def.properties, s.facetName))
  }

  /** `PreparedDef` as the update applied to each definition in the list. */
  function PrepareDef(existing: seq<string>, uniqueId: (string, string) -> string, scriptPathOf: ModelDef -> string)
    : ModelDef -> ModelDef {
    (def: ModelDef) => PreparedDef(existing, def, uniqueId, scriptPathOf)
  }

  /** The property relation a stored record has before its properties are
      replaced: an update keeps what the workspace held, a creation has none. */
  function PriorProperties(store: map<string, StoredDefinition>, existing: seq<string>, name: string)
    : map<string, Property> {
    if Decide(existing, name) == Upsert && name in store then store[name].properties else map[]
  }

  /** Writing a record twice under one name leaves only the second write. */
  lemma Overwrite(store: map<string, StoredDefinition>, name: string, first: StoredDefinition, second: StoredDefinition)
    ensures store[name := first][name := second] == store[name := second]
  {
  }

  /** The workspace after `createModel` of one definition. */
  function ApplyDefinition(store: map<string, StoredDefinition>, existing: seq<string>, def: ModelDef,
                           uniqueId: (string, string) -> string): map<string, StoredDefinition> {
    store[def.name := StoredDefinition(
      SubmittedDef(existing, def, uniqueId),
      ReplaceProperties(PriorProperties(store, existing, def.name), def.properties, def.facetName))]
  }

  /** The workspace after `createModel` of every definition, in list order. */
  function ApplyDefinitions(store: map<string, StoredDefinition>, existing: seq<string>, defs: seq<ModelDef>,
                            uniqueId: (string, string) -> string): map<string, StoredDefinition> {
    if defs == [] then store
    else ApplyDefinition(ApplyDefinitions(store, existing, defs[..|defs| - 1], uniqueId),
                         existing, defs[|defs| - 1], uniqueId)
  }

  /** One more definition of the list, as a loop over it needs it. */
  lemma ApplyDefinitionsPrefix(store: map<string, StoredDefinition>, existing: seq<string>, defs: seq<ModelDef>,
                               i: nat, uniqueId: (string, string) -> string)
    requires i < |defs|
    ensures ApplyDefinitions(store, existing, defs[..i + 1], uniqueId)
         == ApplyDefinition(ApplyDefinitions(store, existing, defs[..i], uniqueId), existing, defs[i], uniqueId)
  {
    assert defs[..i + 1][..i] == defs[..i];
  }

  /** The names of a list of definitions. */
  function DefNames(defs: seq<ModelDef>): set<string> {
    if defs == [] then {} else DefNames(defs[..|defs| - 1]) + {defs[|defs| - 1].name}
  }

  lemma {:induction false} DefNamesExactly(defs: seq<ModelDef>, name: string)
    ensures name in DefNames(defs) <==> exists i :: 0 <= i < |defs| && defs[i].name == name
  {
    if defs != [] {
      var init := defs[..|defs| - 1];
      DefNamesExactly(init, name);
      if exists i :: 0 <= i < |defs| - 1 && defs[i].name == name {
        var i :| 0 <= i < |defs| - 1 && defs[i].name == name;
        assert init[i].name == name;
      }
      if exists i :: 0 <= i < |init| && init[i].name == name {
        var i :| 0 <= i < |init| && init[i].name == name;
        assert defs[i].name == name;
      }
    }
  }

  /** The workspace ends up with one record per model name: the old names plus
      those of the definitions, and nothing duplicated. */
  lemma {:induction false} PersistedNames(store: map<string, StoredDefinition>, existing: seq<string>,
                                          defs: seq<ModelDef>, uniqueId: (string, string) -> string)
    ensures ApplyDefinitions(store, existing, defs, uniqueId).Keys == store.Keys + DefNames(defs)
  {
    if defs != [] {
      PersistedNames(store, existing, defs[..|defs| - 1], uniqueId);
    }
  }

  /** A definition whose name no other definition of the list carries is what
      the workspace holds under that name, since no other write touches that
      name; when it has properties, they are exactly the stored ones. */
  lemma {:induction false} UniqueDefinitionStored(store: map<string, StoredDefinition>, existing: seq<string>,
                                                  defs: seq<ModelDef>, uniqueId: (string, string) -> string, i: nat)
    requires i < |defs|
    requires forall j :: 0 <= j < |defs| && j != i ==> defs[j].name != defs[i].name
    ensures defs[i].name in ApplyDefinitions(store, existing, defs, uniqueId)
    ensures ApplyDefinitions(store, existing, defs, uniqueId)[defs[i].name].def
         == SubmittedDef(existing, defs[i], uniqueId)
    ensures |defs[i].properties| > 0 ==>
              (ApplyDefinitions(store, existing, defs, uniqueId)[defs[i].name].properties
               == map k | k in defs[i].properties :: NamedProperty(k, defs[i].properties[k], defs[i].facetName))
  {
    var init := defs[..|defs| - 1];
    if i < |defs| - 1 {
      UniqueDefinitionStored(store, existing, init, uniqueId, i);
    }
  }

  /** A definition without properties leaves an updated model's stored properties as they were. */
  lemma EmptyPropertiesKeepOld(store: map<string, StoredDefinition>, existing: seq<string>, def: ModelDef,
                               uniqueId: (string, string) -> string)
    requires def.name in existing && def.name in store && |def.properties| == 0
    ensures ApplyDefinition(store, existing, def, uniqueId)[def.name].properties == store[def.name].properties
  {
  }

  /** Running the persistence a second time with the same definitions, once
      their names are existing models, adds no record and turns each
      definition of a unique name into an update: the stored record carries
      the unique id, and its properties are those of the definition. */
  lemma RerunUpdates(store: map<string, StoredDefinition>, existing: seq<string>, existing2: seq<string>,
                     defs: seq<ModelDef>, uniqueId: (string, string) -> string, i: nat)
    requires i < |defs|
    requires forall j :: 0 <= j < |defs| && j != i ==> defs[j].name != defs[i].name
    requires forall d :: d in defs ==> d.name in existing2
    ensures ApplyDefinitions(ApplyDefinitions(store, existing, defs, uniqueId), existing2, defs, uniqueId).Keys
         == ApplyDefinitions(store, existing, defs, uniqueId).Keys
    ensures defs[i].name in ApplyDefinitions(ApplyDefinitions(store, existing, defs, uniqueId), existing2, defs, uniqueId)
    ensures ApplyDefinitions(ApplyDefinitions(store, existing, defs, uniqueId), existing2, defs, uniqueId)[defs[i].name].def
         == defs[i].(id := Some(uniqueId(defs[i].facetName, defs[i].name)))
    ensures |defs[i].properties| > 0 ==>
              (ApplyDefinitions(ApplyDefinitions(store, existing, defs, uniqueId), existing2, defs, uniqueId)[defs[i].name].properties
               == map k | k in defs[i].properties :: NamedProperty(k, defs[i].properties[k], defs[i].facetName))
  {
    var first := ApplyDefinitions(store, existing, defs, uniqueId);
    PersistedNames(store, existing, defs, uniqueId);
    PersistedNames(first, existing2, defs, uniqueId);
    assert defs[i] in defs;
    UniqueDefinitionStored(first, existing2, defs, uniqueId, i);
  }

  /** The config handed to the workspace by `createModelConfig`: an undefined
      datasource takes the generator's, and an update carries the unique id. */
  function PreparedConfig(existing: seq<string>, fallback: DataSourceRef, config: ModelConfig,
                          uniqueId: (string, string) -> string): (r: ModelConfig)
    ensures r.dataSource == if config.dataSource == UndefinedDataSource then fallback else config.dataSource
    ensures r.id == if config.name in existing then Some(uniqueId(config.facetName, config.name)) else config.id
    ensures r.(dataSource := config.dataSource, id := config.id) == config
  {
    var c := if config.dataSource == UndefinedDataSource then config.(dataSource := fallback) else config;
    if Decide(existing, c.name) == Upsert then c.(id := Some(uniqueId(c.facetName, c.name))) else c
  }

  /** `PreparedConfig` as the update applied to each config in the list. */
  function PrepareConfig(existing: seq<string>, fallback: DataSourceRef, uniqueId: (string, string) -> string)
    : ModelConfig -> ModelConfig {
    (config: ModelConfig) => PreparedConfig(existing, fallback, config, uniqueId)
  }

  /** The config store after `createModelConfig` of every config, in list order. */
  function ApplyConfigs(store: map<string, ModelConfig>, existing: seq<string>, fallback: DataSourceRef,
                        configs: seq<ModelConfig>, uniqueId: (string, string) -> string): map<string, ModelConfig> {
    if configs == [] then store
    else
      var c := configs[|configs| - 1];
      ApplyConfigs(store, existing, fallback, configs[..|configs| - 1], uniqueId)[c.name := PreparedConfig(existing, fallback, c, uniqueId)]
  }

  /** One more config of the list, as a loop over it needs it. */
  lemma ApplyConfigsPrefix(store: map<string, ModelConfig>, existing: seq<string>, fallback: DataSourceRef,
                           configs: seq<ModelConfig>, i: nat, uniqueId: (string, string) -> string)
    requires i < |configs|
    ensures ApplyConfigs(store, existing, fallback, configs[..i + 1], uniqueId)
         == ApplyConfigs(store, existing, fallback, configs[..i], uniqueId)[configs[i].name := PreparedConfig(existing, fallback, configs[i], uniqueId)]
  {
    assert configs[..i + 1][..i] == configs[..i];
  }

  /** The names of a list of configs. */
  function ConfigNames(configs: seq<ModelConfig>): set<string> {
    if configs == [] then {} else ConfigNames(configs[..|configs| - 1]) + {configs[|configs| - 1].name}
  }

  /** The config store ends up with one config per model name: the old names
      plus those of the configs, and nothing duplicated. */
  lemma {:induction false} PersistedConfigNames(store: map<string, ModelConfig>, existing: seq<string>,
                                                fallback: DataSourceRef, configs: seq<ModelConfig>,
                                                uniqueId: (string, string) -> string)
    ensures ApplyConfigs(store, existing, fallback, configs, uniqueId).Keys == store.Keys + ConfigNames(configs)
  {
    if configs != [] {
      PersistedConfigNames(store, existing, fallback, configs[..|configs| - 1], uniqueId);
    }
  }

  /** A config whose name no other config of the list carries is what the
      config store holds under that name: the config as `createModelConfig`
      submits it. */
  lemma {:induction false} UniqueConfigStored(store: map<string, ModelConfig>, existing: seq<string>,
                                              fallback: DataSourceRef, configs: seq<ModelConfig>,
                                              uniqueId: (string, string) -> string, i: nat)
    requires i < |configs|
    requires forall j :: 0 <= j < |configs| && j != i ==> configs[j].name != configs[i].name
    ensures configs[i].name in ApplyConfigs(store, existing, fallback, configs, uniqueId)
    ensures ApplyConfigs(store, existing, fallback, configs, uniqueId)[configs[i].name]
         == PreparedConfig(existing, fallback, configs[i], uniqueId)
  {
    if i < |configs| - 1 {
      UniqueConfigStored(store, existing, fallback, configs[..|configs| - 1], uniqueId, i);
    }
  }

  /** Running the config persistence a second time with the same configs,
      once their names are existing models, adds no config and turns each
      config of a unique name into an update that carries the unique id. */
  lemma RerunUpdatesConfigs(store: map<string, ModelConfig>, existing: seq<string>, existing2: seq<string>,
                            fallback: DataSourceRef, configs: seq<ModelConfig>,
                            uniqueId: (string, string) -> string, i: nat)
    requires i < |configs|
    requires forall j :: 0 <= j < |configs| && j != i ==> configs[j].name != configs[i].name
    requires forall c :: c in configs ==> c.name in existing2
    ensures ApplyConfigs(ApplyConfigs(store, existing, fallback, configs, uniqueId), existing2, fallback, configs, uniqueId).Keys
         == ApplyConfigs(store, existing, fallback, configs, uniqueId).Keys
    ensures configs[i].name in
              ApplyConfigs(ApplyConfigs(store, existing, fallback, configs, uniqueId), existing2, fallback, configs, uniqueId)
    ensures ApplyConfigs(ApplyConfigs(store, existing, fallback, configs, uniqueId), existing2, fallback, configs, uniqueId)[configs[i].name]
         == PreparedConfig(existing2, fallback, configs[i], uniqueId)
    ensures ApplyConfigs(ApplyConfigs(store, existing, fallback, configs, uniqueId), existing2, fallback, configs, uniqueId)[configs[i].name].id
         == Some(uniqueId(configs[i].facetName, configs[i].name))
  {
    var first := ApplyConfigs(store, existing, fallback, configs, uniqueId);
    PersistedConfigNames(store, existing, fallback, configs, uniqueId);
    PersistedConfigNames(first, existing2, fallback, configs, uniqueId);
    assert configs[i] in configs;
    UniqueConfigStored(first, existing2, fallback, configs, uniqueId, i);
  }

  /** A definition and a config of one name follow the same rule: both carry
      the unique id when the name is an existing model, and neither gains one
      otherwise. */
  lemma DefinitionsAndConfigsAgree(existing: seq<string>, fallback: DataSourceRef, def: ModelDef,
                                   config: ModelConfig, uniqueId: (string, string) -> string)
    requires def.name == config.name
    ensures def.name in existing ==>
              && SubmittedDef(existing, def, uniqueId).id == Some(uniqueId(def.facetName, def.name))
              && PreparedConfig(existing, fallback, config, uniqueId).id == Some(uniqueId(config.facetName, config.name))
    ensures def.name !in existing ==>
              && SubmittedDef(existing, def, uniqueId) == def
              && PreparedConfig(existing, fallback, config, uniqueId).id == config.id
  {
  }

  /** A config built with a `null` datasource keeps it. */
  lemma NullDataSourceStays(existing: seq<string>, fallback: DataSourceRef, config: ModelConfig,
                            uniqueId: (string, string) -> string)
    requires config.dataSource == NullDataSource
    ensures PreparedConfig(existing, fallback, config, uniqueId).dataSource == NullDataSource
  {
  }
}
