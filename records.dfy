/** The records the generator reads and builds, and the record lists that the
    building loops of `generate` produce (soap/index.js:296-353). */
module Records {
  import opened Values
  import opened Seqs
  import opened Sanitize

  /** A datasource of the project: its `_connector` and its `data.name` and `data.wsdl`. */
  datatype DataSource = DataSource(connector: string, name: string, wsdl: string)

  /** A property descriptor; `name` and `facetName` are filled in when it is stored. */
  datatype Property = Property(propType: string, name: Option<string>, facetName: Option<string>)

  /** A WSDL type of a generated API. `base` and `kind` (its `type`) are only
      tested for truthiness, so "" stands for an absent value. */
  datatype WsdlType = WsdlType(
    name: string,
    plural: Option<string>,
    base: string,
    kind: string,
    properties: map<string, Property>)

  /** One entry of an API's `models` object: its key and its WSDL type, in
      the object's iteration order. */
  type ModelEntry = (string, WsdlType)

  /** The part of a generated API that the record building reads. */
  datatype Api = Api(code: string, models: seq<ModelEntry>)

  /** The `dataSource` of a model config: `undefined`, `null` or a name. */
  datatype DataSourceRef = UndefinedDataSource | NullDataSource | NamedDataSource(name: string)

  /** A model definition record; `httpPath` is `http.path`. */
  datatype ModelDef = ModelDef(
    name: string,
    httpPath: Option<string>,
    plural: Option<string>,
    base: string,
    forceId: string,
    idInjection: string,
    excludeBaseProperties: seq<string>,
    facetName: string,
    properties: map<string, Property>,
    id: Option<string>,
    scriptPath: Option<string>)

  /** A model config record. */
  datatype ModelConfig = ModelConfig(
    name: string,
    facetName: string,
    dataSource: DataSourceRef,
    public: bool,
    id: Option<string>)

  function ContainerName(basePath: string): string {
    "soap_" + basePath
  }

  /** The model definition that stands for a generated API. */
  function ContainerDef(basePath: string): ModelDef {
    ModelDef(ContainerName(basePath), Some(basePath), None, "Model", "false", "false",
             ["id"], "server", map[], None, None)
  }

  /** The model config built beside every definition. */
  function ServerConfig(name: string): ModelConfig {
    ModelConfig(name, "server", NullDataSource, true, None)
  }

  /** A WSDL type yields a model unless its `type` is set and is not `object`. */
  predicate IsObjectType(e: ModelEntry) {
    e.1.kind == "" || e.1.kind == "object"
  }

  function TypeDef(e: ModelEntry): ModelDef {
    var t := e.1;
    ModelDef(t.name, None, t.plural, if t.base != "" then t.base else "Model", "false", "false",
             ["id"], "common", t.properties, None, None)
  }

  function TypeConfig(e: ModelEntry): ModelConfig {
    ServerConfig(e.1.name)
  }

  function EntryKey(e: ModelEntry): string {
    e.0
  }

  /** The entries of all APIs that yield a model, API by API. */
  function KeptEntries(apis: seq<Api>): seq<ModelEntry> {
    if apis == [] then []
    else KeptEntries(apis[..|apis| - 1]) + Filter(IsObjectType, apis[|apis| - 1].models)
  }

  /** The definitions, configs and names the building loops produce: one
      container per API (all named after the one binding), then one record per
      kept WSDL type. */
  function BuiltDefs(apis: seq<Api>, bindingName: string): seq<ModelDef> {
    Repeat(|apis|, ContainerDef(SanitizeBindingName(bindingName))) + Map(TypeDef, KeptEntries(apis))
  }

  function BuiltConfigs(apis: seq<Api>, bindingName: string): seq<ModelConfig> {
    Repeat(|apis|, ServerConfig(ContainerName(SanitizeBindingName(bindingName)))) + Map(TypeConfig, KeptEntries(apis))
  }

  function BuiltNames(apis: seq<Api>, bindingName: string): seq<string> {
    Repeat(|apis|, ContainerName(SanitizeBindingName(bindingName))) + Map(EntryKey, KeptEntries(apis))
  }

  /** Definitions and configs are built in lockstep: equal length, equal names
      index by index. */
  lemma Lockstep(apis: seq<Api>, bindingName: string)
    ensures |BuiltDefs(apis, bindingName)| == |BuiltConfigs(apis, bindingName)|
    ensures forall i :: 0 <= i < |BuiltDefs(apis, bindingName)| ==>
              BuiltDefs(apis, bindingName)[i].name == BuiltConfigs(apis, bindingName)[i].name
  {
  }

  /** Every config is public, in the `server` facet, with a `null` datasource. */
  lemma ConfigsShape(apis: seq<Api>, bindingName: string)
    ensures forall c :: c in BuiltConfigs(apis, bindingName) ==>
              c.facetName == "server" && c.dataSource == NullDataSource && c.public && c.id == None
  {
  }

  /** The first |apis| definitions are the containers: all named `soap_` plus
      the sanitised binding name, served at that base path, `server` facet,
      base `Model`, no properties. */
  lemma ContainersShape(apis: seq<Api>, bindingName: string)
    ensures |BuiltDefs(apis, bindingName)| >= |apis|
    ensures forall i :: 0 <= i < |apis| ==>
              var d := BuiltDefs(apis, bindingName)[i];
              && d.name == "soap_" + SanitizeBindingName(bindingName)
              && d.httpPath == Some(SanitizeBindingName(bindingName))
              && d.facetName == "server" && d.base == "Model" && d.properties == map[]
  {
  }

  /** Every entry of an API yields either nothing (its `type` is set and is not
      `object`) or exactly one record after those of the earlier entries. */
  lemma TypeEntryStep(apis: seq<Api>, a: Api, e: ModelEntry)
    ensures KeptEntries(apis + [a.(models := a.models + [e])])
         == KeptEntries(apis + [a]) + (if IsObjectType(e) then [e] else [])
  {
    var b := a.(models := a.models + [e]);
    assert (apis + [b])[..|apis|] == apis;
    assert (apis + [a])[..|apis|] == apis;
    FilterSnoc(IsObjectType, a.models, e);
  }

  /** A WSDL entry is among the kept entries exactly when some API holds it and
      it is of object type. */
  lemma {:induction false} KeptEntriesExactly(apis: seq<Api>, e: ModelEntry)
    ensures e in KeptEntries(apis) <==> IsObjectType(e) && exists a :: a in apis && e in a.models
  {
    if apis != [] {
      var init := apis[..|apis| - 1];
      KeptEntriesExactly(init, e);
      assert apis == init + [apis[|apis| - 1]];
      if IsObjectType(e) && exists a :: a in apis && e in a.models {
        var a :| a in apis && e in a.models;
        if a != apis[|apis| - 1] {
          assert a in init;
        }
      }
    }
  }

  /** Type definitions are in the `common` facet and carry a base: the type's
      own when it has one, `Model` otherwise. Each is the record of a kept entry. */
  lemma TypeDefsShape(apis: seq<Api>, bindingName: string)
    ensures |BuiltDefs(apis, bindingName)| == |apis| + |KeptEntries(apis)|
    ensures forall i :: |apis| <= i < |BuiltDefs(apis, bindingName)| ==>
              var d := BuiltDefs(apis, bindingName)[i];
              var e := KeptEntries(apis)[i - |apis|];
              && IsObjectType(e)
              && d.name == e.1.name && d.facetName == "common" && d.properties == e.1.properties
              && d.base == (if e.1.base != "" then e.1.base else "Model")
  {
    forall e | e in KeptEntries(apis)
      ensures IsObjectType(e)
    {
      KeptEntriesExactly(apis, e);
    }
  }

  /** The names list has one entry per definition: the container name for the
      containers and, for a type, the key of its entry in `models`. */
  lemma NamesShape(apis: seq<Api>, bindingName: string)
    ensures |BuiltNames(apis, bindingName)| == |BuiltDefs(apis, bindingName)|
    ensures forall i :: 0 <= i < |apis| ==>
              BuiltNames(apis, bindingName)[i] == BuiltDefs(apis, bindingName)[i].name
    ensures forall i :: |apis| <= i < |BuiltNames(apis, bindingName)| ==>
              BuiltNames(apis, bindingName)[i] == KeptEntries(apis)[i - |apis|].0
  {
  }

  /** The name a type is listed under is its key, which need not be the name
      its definition carries. */
  lemma NameMayDifferFromKey()
    ensures var apis := [Api("", [("Key", WsdlType("Name", None, "", "", map[]))])];
            BuiltNames(apis, "B")[1] == "Key" && BuiltDefs(apis, "B")[1].name == "Name"
  {
    var apis := [Api("", [("Key", WsdlType("Name", None, "", "", map[]))])];
    assert apis[..0] == [];
    assert KeptEntries(apis) == Filter(IsObjectType, apis[0].models);
  }
}
