/** The generator's run state and the steps of soap/index.js that change it,
    from the datasource check to the workspace writes. */
module Generator {
  import opened Values
  import opened Seqs
  import opened Sanitize
  import opened Records
  import opened Selection
  import opened Workspace

  /** How a step ends: the run goes on, halts silently, throws, or waits for
      an answer at a prompt (the interactive branches are not modelled). */
  datatype Outcome = Continue | Halt | Throw(error: GeneratorError) | AwaitPrompt

  /** What the WSDL loader's service discovery reports: the `$name`s of the
      services, or an error. */
  datatype Discovery = Services(names: seq<string>) | DiscoveryError(reason: string)

  /** How a selection step ends when its configuration branch has resolved. */
  function StepOutcome<T>(r: Resolution<T>): (o: Outcome)
    ensures o == Continue <==> r.Resolved?
    ensures o == AwaitPrompt <==> r.Interactive?
    ensures r.Failed? ==> o == Throw(r.error)
  {
    match r
    case Resolved(_) => Continue
    case Failed(e) => Throw(e)
    case Interactive => AwaitPrompt
  }

  /** How the datasource phase ends: it halts without SOAP datasources, and
      otherwise ends as the configured datasource's lookup does. */
  function DataSourceOutcome(config: SoapConfig, dataSources: seq<DataSource>): (o: Outcome)
    ensures o == Halt <==> SoapDataSources(dataSources) == []
    ensures o == AwaitPrompt <==> SoapDataSources(dataSources) != [] && !Truthy(config.datasource)
    ensures o == Throw(UnknownDataSource) <==>
              && SoapDataSources(dataSources) != [] && Truthy(config.datasource)
              && forall ds :: ds in SoapDataSources(dataSources) ==> config.datasource != Str(ds.name)
    ensures o == Continue <==>
              && Truthy(config.datasource)
              && exists ds :: ds in SoapDataSources(dataSources) && config.datasource == Str(ds.name)
  {
    if SoapDataSources(dataSources) == [] then Halt
    else StepOutcome(ResolveDataSource(config.datasource, SoapDataSources(dataSources)))
  }

  /** How the WSDL phase ends: with the discovery error, else as the service
      lookup does when it does not resolve, else as the binding lookup does. */
  function BindingOutcome(config: SoapConfig, discovery: Discovery, getBindings: string -> seq<string>): (o: Outcome)
    ensures discovery.DiscoveryError? ==> o == Throw(ServiceDiscoveryFailed(discovery.reason))
    ensures discovery.Services? ==>
              (o == Throw(UnknownService) <==>
                 Truthy(config.service) && !(config.service.Str? && config.service.s in discovery.names))
    ensures o == Continue <==>
              && discovery.Services?
              && Truthy(config.service) && config.service.Str? && config.service.s in discovery.names
              && Truthy(config.binding) && config.binding.Str? && config.binding.s in getBindings(config.service.s)
  {
    match discovery
    case DiscoveryError(reason) => Throw(ServiceDiscoveryFailed(reason))
    case Services(names) =>
      var rs := ResolveName(config.service, names, UnknownService);
      if !rs.Resolved? then StepOutcome(rs)
      else StepOutcome(ResolveName(config.binding, getBindings(rs.value), UnknownBinding))
  }

  /** How the WSDL phase and the operations step end together: the
      operations step runs only once the configured binding is found. */
  function WsdlOutcome(config: SoapConfig, discovery: Discovery, getBindings: string -> seq<string>,
                       getOperations: string -> seq<string>): (o: Outcome)
    ensures BindingOutcome(config, discovery, getBindings) != Continue ==> o == BindingOutcome(config, discovery, getBindings)
    ensures o == Continue ==>
              && BindingOutcome(config, discovery, getBindings) == Continue && config.binding.Str?
              && SelectOperations(config.operations, getOperations(config.binding.s)).Resolved?
  {
    if BindingOutcome(config, discovery, getBindings) != Continue then BindingOutcome(config, discovery, getBindings)
    else StepOutcome(SelectOperations(config.operations, getOperations(config.binding.s)))
  }

  /** How the selection steps of a run with a configuration file end: with
      the outcome of the first phase that does not continue. The WSDL is
      the selected datasource's. */
  function RunOutcome(config: SoapConfig, dataSources: seq<DataSource>, getServices: Option<string> -> Discovery,
                      getBindings: string -> seq<string>, getOperations: string -> seq<string>): (o: Outcome)
    ensures SoapDataSources(dataSources) == [] ==> o == Halt
    ensures SoapDataSources(dataSources) != [] && !Truthy(config.datasource) ==> o == AwaitPrompt
    ensures (&& SoapDataSources(dataSources) != [] && Truthy(config.datasource)
             && forall ds :: ds in SoapDataSources(dataSources) ==> config.datasource != Str(ds.name))
            ==> o == Throw(UnknownDataSource)
    ensures o == Continue ==>
              exists ds :: && ds in SoapDataSources(dataSources) && config.datasource == Str(ds.name)
                           && WsdlOutcome(config, getServices(Some(ds.wsdl)), getBindings, getOperations) == Continue
  {
    if DataSourceOutcome(config, dataSources) != Continue then DataSourceOutcome(config, dataSources)
    else match ResolveDataSource(config.datasource, SoapDataSources(dataSources))
      case Resolved(ds) => WsdlOutcome(config, getServices(Some(ds.wsdl)), getBindings, getOperations)
      case _ => DataSourceOutcome(config, dataSources)
  }

  /** The datasource fields after the datasource phase, `selectedDS` and
      `url`, from their values before it. */
  function DataSourceState(config: SoapConfig, dataSources: seq<DataSource>, selectedDS: Option<DataSource>,
                           url: Option<string>): (r: (Option<DataSource>, Option<string>))
    ensures DataSourceOutcome(config, dataSources) == Halt || DataSourceOutcome(config, dataSources) == AwaitPrompt
            ==> r == (selectedDS, url)
    ensures DataSourceOutcome(config, dataSources) == Throw(UnknownDataSource) ==> r == (None, url)
    ensures DataSourceOutcome(config, dataSources) == Continue ==>
              && r.0.Some? && r.0.value in SoapDataSources(dataSources)
              && config.datasource == Str(r.0.value.name) && r.1 == Some(r.0.value.wsdl)
  {
    if SoapDataSources(dataSources) == [] then (selectedDS, url)
    else match ResolveDataSource(config.datasource, SoapDataSources(dataSources))
      case Interactive => (selectedDS, url)
      case Failed(_) => (None, url)
      case Resolved(ds) => (Some(ds), Some(ds.wsdl))
  }

  /** The fields the WSDL and operations steps set: `serviceNames`,
      `serviceName`, `bindingNames`, `bindingName` and `operations`. */
  type WsdlFields = (seq<string>, Option<string>, seq<string>, Option<string>, seq<string>)

  /** The WSDL and operations fields after those steps, from their values
      before them. A step that does not resolve stops the later ones. */
  function WsdlState(config: SoapConfig, discovery: Discovery, getBindings: string -> seq<string>,
                     getOperations: string -> seq<string>, w: WsdlFields): (r: WsdlFields)
    ensures discovery.DiscoveryError? ==> r == w
    ensures discovery.Services? ==> r.0 == discovery.names
    ensures discovery.Services? && !Truthy(config.service) ==> r == (discovery.names, w.1, w.2, w.3, w.4)
    ensures discovery.Services? && Truthy(config.service) && !(config.service.Str? && config.service.s in discovery.names)
            ==> r == (discovery.names, None, w.2, w.3, w.4)
    ensures BindingOutcome(config, discovery, getBindings) != Continue ==> r.4 == w.4
    ensures BindingOutcome(config, discovery, getBindings) == Continue ==>
              && r.1 == Some(config.service.s) && r.2 == getBindings(config.service.s)
              && r.3 == Some(config.binding.s)
    ensures WsdlOutcome(config, discovery, getBindings, getOperations) == Continue ==>
              && r.4 == SelectOperations(config.operations, getOperations(config.binding.s)).value
              && ValidateNoOperation(r.4) == Accepted
  {
    match discovery
    case DiscoveryError(_) => w
    case Services(names) =>
      var rs := ResolveName(config.service, names, UnknownService);
      if rs.Interactive? then (names, w.1, w.2, w.3, w.4)
      else if rs.Failed? then (names, None, w.2, w.3, w.4)
      else
        var bindings := getBindings(rs.value);
        var rb := ResolveName(config.binding, bindings, UnknownBinding);
        if rb.Interactive? then (names, Some(rs.value), bindings, w.3, w.4)
        else if rb.Failed? then (names, Some(rs.value), bindings, None, w.4)
        else
          var candidates := getOperations(rb.value);
          var setting := config.operations;
          (names, Some(rs.value), bindings, Some(rb.value),
           if Truthy(setting) && setting.Arr? then Filter(Listed(setting.items), candidates) else candidates)
  }

  /** The properties of a definition, recreated one by one after the old ones
      were destroyed, each named after its key and put in the model's facet. */
  method RecreateProperties(props: map<string, Property>, facet: string) returns (created: map<string, Property>)
    ensures created.Keys == props.Keys
    ensures forall k :: k in created ==> created[k] == NamedProperty(k, props[k], facet)
  {
    created := map[];
    var remaining := props.Keys;
    while remaining != {}
      invariant remaining <= props.Keys
      invariant created.Keys == props.Keys - remaining
      invariant forall k :: k in created ==> created[k] == NamedProperty(k, props[k], facet)
      decreases remaining
    {
      var m :| m in remaining;
      created := created[m := NamedProperty(m, props[m], facet)];
      remaining := remaining - {m};
    }
  }

  /** The first building loop of `generate`: one container definition and
      config per generated API, named after the sanitised binding. */
  method BuildContainers(count: nat, binding: string)
    returns (defs: seq<ModelDef>, cfgs: seq<ModelConfig>, names: seq<string>)
    ensures defs == Repeat(count, ContainerDef(SanitizeBindingName(binding)))
    ensures cfgs == Repeat(count, ServerConfig(ContainerName(SanitizeBindingName(binding))))
    ensures names == Repeat(count, ContainerName(SanitizeBindingName(binding)))
  {
    defs, cfgs, names := [], [], [];
    ghost var base := SanitizeBindingName(binding);
    var i := 0;
    while i < count
      invariant 0 <= i <= count
      invariant defs == Repeat(i, ContainerDef(base))
      invariant cfgs == Repeat(i, ServerConfig(ContainerName(base)))
      invariant names == Repeat(i, ContainerName(base))
    {
      var basePath := SanitizeBindingName(binding);
      var soapModel := "soap_" + basePath;
      names := names + [soapModel];
      defs := defs + [ModelDef(soapModel, Some(basePath), None, "Model", "false", "false",
                               ["id"], "server", map[], None, None)];
      cfgs := cfgs + [ModelConfig(soapModel, "server", NullDataSource, true, None)];
      i := i + 1;
    }
  }

  /** The inner loop of the second building loop of `generate`: the WSDL types
      of one API, in order, skipping those that are not of object type; the
      records are pushed to the lists built so far. */
  method AppendTypeRecords(models: seq<ModelEntry>, defs0: seq<ModelDef>, cfgs0: seq<ModelConfig>, names0: seq<string>)
    returns (defs: seq<ModelDef>, cfgs: seq<ModelConfig>, names: seq<string>)
    ensures defs == defs0 + Map(TypeDef, Filter(IsObjectType, models))
    ensures cfgs == cfgs0 + Map(TypeConfig, Filter(IsObjectType, models))
    ensures names == names0 + Map(EntryKey, Filter(IsObjectType, models))
  {
    defs, cfgs, names := defs0, cfgs0, names0;
    ghost var kept: seq<ModelEntry> := [];
    var j := 0;
    while j < |models|
      invariant 0 <= j <= |models|
      invariant kept == Filter(IsObjectType, models[..j])
      invariant defs == defs0 + Map(TypeDef, kept)
      invariant cfgs == cfgs0 + Map(TypeConfig, kept)
      invariant names == names0 + Map(EntryKey, kept)
    {
      var m := models[j].0;
      var model := models[j].1;
      if !(model.kind != "" && model.kind != "object") {
        names := names + [m];
        defs := defs + [ModelDef(model.name, None, model.plural,
                                 if model.base != "" then model.base else "Model",
                                 "false", "false", ["id"], "common", model.properties, None, None)];
        cfgs := cfgs + [ModelConfig(model.name, "server", NullDataSource, true, None)];
        MapSnocAfter(defs0, TypeDef, kept, models[j]);
        MapSnocAfter(cfgs0, TypeConfig, kept, models[j]);
        MapSnocAfter(names0, EntryKey, kept, models[j]);
        kept := kept + [models[j]];
      }
      FilterPrefix(IsObjectType, models, j);
      j := j + 1;
    }
    assert models[..|models|] == models;
  }

  /** The building loops of `generate`: the containers first, then the type
      records of every generated API, definitions and configs in lockstep. */
  method BuildRecords(generated: seq<Api>, binding: string)
    returns (defs: seq<ModelDef>, cfgs: seq<ModelConfig>, names: seq<string>)
    ensures defs == BuiltDefs(generated, binding)
    ensures cfgs == BuiltConfigs(generated, binding)
    ensures names == BuiltNames(generated, binding)
  {
    defs, cfgs, names := BuildContainers(|generated|, binding);
    ghost var containerDefs, containerConfigs, containerNames := defs, cfgs, names;
    var i := 0;
    while i < |generated|
      invariant 0 <= i <= |generated|
      invariant defs == containerDefs + Map(TypeDef, KeptEntries(generated[..i]))
      invariant cfgs == containerConfigs + Map(TypeConfig, KeptEntries(generated[..i]))
      invariant names == containerNames + Map(EntryKey, KeptEntries(generated[..i]))
    {
      ghost var before := KeptEntries(generated[..i]);
      ghost var kept := Filter(IsObjectType, generated[i].models);
      defs, cfgs, names := AppendTypeRecords(generated[i].models, defs, cfgs, names);
      MapAppendAfter(containerDefs, TypeDef, before, kept);
      MapAppendAfter(containerConfigs, TypeConfig, before, kept);
      MapAppendAfter(containerNames, EntryKey, before, kept);
      assert generated[..i + 1][..i] == generated[..i];
      i := i + 1;
    }
    assert generated[..|generated|] == generated;
  }

  class SoapGenerator {
    // What earlier steps loaded: the parsed configuration file (None without
    // the option), the project's datasources and model names, and the
    // generator's own `dataSource`.
    const configFile: Option<SoapConfig>
    const dataSources: seq<DataSource>
    var modelNames: seq<string>
    var existingModels: seq<string>
    const dataSource: DataSourceRef

    // The selections.
    var soapDataSources: seq<DataSource>
    var soapDataSourceNames: seq<string>
    var selectedDS: Option<DataSource>
    var url: Option<string>
    var serviceNames: seq<string>
    var serviceName: Option<string>
    var bindingNames: seq<string>
    var bindingName: Option<string>
    var operations: seq<string>

    // The generated APIs and the records built from them.
    var apis: seq<Api>
    var modelDefs: seq<ModelDef>
    var modelConfigs: seq<ModelConfig>

    // The workspace: model definitions and model configs by model name.
    var definitions: map<string, StoredDefinition>
    var configs: map<string, ModelConfig>

    constructor (configFile: Option<SoapConfig>, dataSources: seq<DataSource>, modelNames: seq<string>,
                 definitions: map<string, StoredDefinition>, configs: map<string, ModelConfig>)
      ensures this.configFile == configFile && this.dataSources == dataSources
      ensures this.modelNames == modelNames && this.existingModels == []
      ensures this.definitions == definitions && this.configs == configs
      ensures dataSource == UndefinedDataSource
      ensures selectedDS == None && url == None && serviceName == None && bindingName == None
      ensures soapDataSources == [] && soapDataSourceNames == [] && serviceNames == []
      ensures bindingNames == [] && operations == [] && apis == [] && modelDefs == [] && modelConfigs == []
    {
      this.configFile := configFile;
      this.dataSources := dataSources;
      this.modelNames := modelNames;
      this.definitions := definitions;
      this.configs := configs;
      existingModels := [];
      dataSource := UndefinedDataSource;
      soapDataSources, soapDataSourceNames := [], [];
      selectedDS, url := None, None;
      serviceNames, serviceName := [], None;
      bindingNames, bindingName := [], None;
      operations := [];
      apis, modelDefs, modelConfigs := [], [], [];
    }

    /** `existingModels`: the snapshot of the model names loaded at startup. */
    method SnapshotExistingModels()
      modifies this`existingModels
      ensures existingModels == modelNames
    {
      existingModels := modelNames;
    }

    /** `checkForDatasource`: keep the SOAP datasources and their names; with
        none, the step never completes and the run halts. */
    method CheckForDatasource() returns (outcome: Outcome)
      modifies this`soapDataSources, this`soapDataSourceNames
      ensures soapDataSources == SoapDataSources(dataSources)
      ensures NamesOf(soapDataSourceNames, soapDataSources)
      ensures outcome == if soapDataSources == [] then Halt else Continue
    {
      soapDataSources := Filter(IsSoapDataSource, dataSources);
      var names: seq<string> := [];
      var i := 0;
      while i < |soapDataSources|
        invariant 0 <= i <= |soapDataSources|
        invariant |names| == i
        invariant forall j :: 0 <= j < i ==> names[j] == soapDataSources[j].name
      {
        names := names + [soapDataSources[i].name];
        i := i + 1;
      }
      soapDataSourceNames := names;
      outcome := if |soapDataSourceNames| == 0 then Halt else Continue;
    }

    /** `askForDataSource`, configuration branch: select the configured SOAP
        datasource and take its WSDL location. */
    method AskForDataSource() returns (outcome: Outcome)
      modifies this`selectedDS, this`url
      ensures var r := ResolveDataSource(Configured(configFile).datasource, soapDataSources);
              && (r.Interactive? ==> outcome == AwaitPrompt && selectedDS == old(selectedDS) && url == old(url))
              && (r.Failed? ==> outcome == Throw(UnknownDataSource) && selectedDS == None && url == old(url))
              && (r.Resolved? ==> outcome == Continue && selectedDS == Some(r.value) && url == Some(r.value.wsdl))
      ensures outcome == Continue ==> selectedDS.Some?
    {
      var setting := Configured(configFile).datasource;
      if !Truthy(setting) {
        return AwaitPrompt;
      }
      selectedDS := Find(NamedAs(setting), soapDataSources);
      if selectedDS.None? {
        return Throw(UnknownDataSource);
      }
      url := Some(selectedDS.value.wsdl);
      outcome := Continue;
    }

    /** `soap`: discover the services of the WSDL and keep their names. */
    method DiscoverServices(getServices: Option<string> -> Discovery) returns (outcome: Outcome)
      modifies this`serviceNames
      ensures getServices(url).Services? ==> outcome == Continue && serviceNames == getServices(url).names
      ensures getServices(url).DiscoveryError? ==>
                outcome == Throw(ServiceDiscoveryFailed(getServices(url).reason)) && serviceNames == old(serviceNames)
    {
      var discovery := getServices(url);
      if discovery.DiscoveryError? {
        return Throw(ServiceDiscoveryFailed(discovery.reason));
      }
      serviceNames := discovery.names;
      outcome := Continue;
    }

    /** `askForService`, configuration branch: select the configured service
        and ask the WSDL loader for its bindings. */
    method AskForService(getBindings: string -> seq<string>) returns (outcome: Outcome)
      modifies this`serviceName, this`bindingNames
      ensures var r := ResolveName(Configured(configFile).service, serviceNames, UnknownService);
              && (r.Interactive? ==> outcome == AwaitPrompt && serviceName == old(serviceName)
                                     && bindingNames == old(bindingNames))
              && (r.Failed? ==> outcome == Throw(UnknownService) && serviceName == None
                                && bindingNames == old(bindingNames))
              && (r.Resolved? ==> outcome == Continue && serviceName == Some(r.value)
                                  && bindingNames == getBindings(r.value))
    {
      var setting := Configured(configFile).service;
      if !Truthy(setting) {
        return AwaitPrompt;
      }
      serviceName := Find(EqualsSetting(setting), serviceNames);
      if serviceName.None? {
        return Throw(UnknownService);
      }
      bindingNames := getBindings(serviceName.value);
      outcome := Continue;
    }

    /** `askForBinding`, configuration branch: select the configured binding
        and ask the WSDL loader for its operations. */
    method AskForBinding(getOperations: string -> seq<string>) returns (outcome: Outcome)
      modifies this`bindingName, this`operations
      ensures var r := ResolveName(Configured(configFile).binding, bindingNames, UnknownBinding);
              && (r.Interactive? ==> outcome == AwaitPrompt && bindingName == old(bindingName)
                                     && operations == old(operations))
              && (r.Failed? ==> outcome == Throw(UnknownBinding) && bindingName == None
                                && operations == old(operations))
              && (r.Resolved? ==> outcome == Continue && bindingName == Some(r.value)
                                  && operations == getOperations(r.value))
      ensures outcome == Continue ==> bindingName.Some?
    {
      var setting := Configured(configFile).binding;
      if !Truthy(setting) {
        return AwaitPrompt;
      }
      bindingName := Find(EqualsSetting(setting), bindingNames);
      if bindingName.None? {
        return Throw(UnknownBinding);
      }
      operations := getOperations(bindingName.value);
      outcome := Continue;
    }

    /** `askForOperation`, configuration branch: `"all"` keeps the operations,
        an array keeps those it lists, anything else throws; an empty outcome
        throws too. The array's outcome is stored before that last check. */
    method AskForOperation() returns (outcome: Outcome)
      modifies this`operations
      ensures var setting := Configured(configFile).operations;
              var r := SelectOperations(setting, old(operations));
              && operations == (if Truthy(setting) && setting.Arr? then Filter(Listed(setting.items), old(operations))
                                else old(operations))
              && (r.Interactive? ==> outcome == AwaitPrompt)
              && (r.Failed? ==> outcome == Throw(r.error))
              && (r.Resolved? ==> outcome == Continue && operations == r.value)
      ensures outcome == StepOutcome(SelectOperations(Configured(configFile).operations, old(operations)))
      ensures outcome == Continue ==> ValidateNoOperation(operations) == Accepted
    {
      var setting := Configured(configFile).operations;
      if !Truthy(setting) {
        return AwaitPrompt;
      }
      if setting == Str("all") {
        operations := operations;
      } else if setting.Arr? {
        operations := Filter(Listed(setting.items), operations);
      } else {
        return Throw(BadOperationsConfig);
      }
      if |operations| == 0 {
        return Throw(NoMatchingOperations);
      }
      outcome := Continue;
    }

    /** `generate`: generate the API code for the selected operations, then
        build the model records from it. */
    method Generate(generateAPICode: (string, seq<string>) -> seq<Api>)
      requires selectedDS.Some? && bindingName.Some?
      modifies this`apis, this`modelDefs, this`modelConfigs, this`modelNames
      ensures apis == generateAPICode(selectedDS.value.name, operations)
      ensures modelDefs == BuiltDefs(apis, bindingName.value)
      ensures modelConfigs == BuiltConfigs(apis, bindingName.value)
      ensures modelNames == BuiltNames(apis, bindingName.value)
    {
      apis := generateAPICode(selectedDS.value.name, operations);
      modelDefs, modelConfigs, modelNames := BuildRecords(apis, bindingName.value);
    }

    /** `createModel`: update an existing model (with its unique id) or create
        it, set its script path, and replace its properties when it has any. */
    method CreateModel(def: ModelDef, uniqueId: (string, string) -> string, scriptPathOf: ModelDef -> string)
      returns (updated: ModelDef)
      modifies this`definitions
      ensures definitions == ApplyDefinition(old(definitions), existingModels, def, uniqueId)
      ensures updated == PreparedDef(existingModels, def, uniqueId, scriptPathOf)
    {
      var found := Find(EqualsName(def.name), existingModels);
      var submitted := def;
      var prior: map<string, Property> := map[];
      if found.Some? {
        submitted := def.(id := Some(uniqueId(def.facetName, def.name)));
        if def.name in definitions {
          prior := definitions[def.name].properties;
        }
      }
      assert submitted == SubmittedDef(existingModels, def, uniqueId);
      assert prior == PriorProperties(old(definitions), existingModels, def.name);
      ghost var store := definitions;
      definitions := definitions[def.name := StoredDefinition(submitted, prior)];
      updated := submitted.(scriptPath := Some(scriptPathOf(submitted)));
      if |def.properties| > 0 {
        Overwrite(store, def.name, StoredDefinition(submitted, prior), StoredDefinition(submitted, map[]));
        definitions := definitions[def.name := StoredDefinition(submitted, map[])];
        var created := RecreateProperties(def.properties, submitted.facetName);
        RecreatedReplaces(prior, def.properties, def.facetName, created);
        RecreatedReplaces(def.properties, def.properties, def.facetName, created);
        Overwrite(store, def.name, StoredDefinition(submitted, map[]), StoredDefinition(submitted, created));
        definitions := definitions[def.name := StoredDefinition(submitted, created)];
        updated := updated.(properties := created);
      }
    }

    /** `createModel` for every definition built, each updated in place. */
    method PersistModels(uniqueId: (string, string) -> string, scriptPathOf: ModelDef -> string)
      modifies this`definitions, this`modelDefs
      ensures definitions == ApplyDefinitions(old(definitions), existingModels, old(modelDefs), uniqueId)
      ensures modelDefs == Map(PrepareDef(existingModels, uniqueId, scriptPathOf), old(modelDefs))
    {
      ghost var defs := modelDefs;
      ghost var prepare := PrepareDef(existingModels, uniqueId, scriptPathOf);
      var i := 0;
      while i < |modelDefs|
        invariant 0 <= i <= |modelDefs| == |defs|
        invariant definitions == ApplyDefinitions(old(definitions), existingModels, defs[..i], uniqueId)
        invariant modelDefs == Map(prepare, defs[..i]) + defs[i..]
      {
        var updated := CreateModel(modelDefs[i], uniqueId, scriptPathOf);
        ApplyDefinitionsPrefix(old(definitions), existingModels, defs, i, uniqueId);
        MapInPlace(prepare, defs, i);
        modelDefs := modelDefs[i := updated];
        i := i + 1;
      }
      assert defs[..|defs|] == defs;
    }

    /** `createModelConfig`: an undefined datasource takes the generator's;
        the config is then updated (with its unique id) or created. */
    method CreateModelConfig(config: ModelConfig, uniqueId: (string, string) -> string)
      returns (prepared: ModelConfig)
      modifies this`configs
      ensures prepared == PreparedConfig(existingModels, dataSource, config, uniqueId)
      ensures configs == old(configs)[config.name := prepared]
    {
      prepared := config;
      if prepared.dataSource == UndefinedDataSource {
        prepared := prepared.(dataSource := dataSource);
      }
      var found := Find(EqualsName(prepared.name), existingModels);
      if found.Some? {
        prepared := prepared.(id := Some(uniqueId(prepared.facetName, prepared.name)));
      }
      configs := configs[prepared.name := prepared];
    }

    /** `createModelConfig` for every config built, each updated in place. */
    method PersistConfigs(uniqueId: (string, string) -> string)
      modifies this`configs, this`modelConfigs
      ensures configs == ApplyConfigs(old(configs), existingModels, dataSource, old(modelConfigs), uniqueId)
      ensures modelConfigs == Map(PrepareConfig(existingModels, dataSource, uniqueId), old(modelConfigs))
    {
      ghost var cfgs := modelConfigs;
      ghost var prepare := PrepareConfig(existingModels, dataSource, uniqueId);
      var i := 0;
      while i < |modelConfigs|
        invariant 0 <= i <= |modelConfigs| == |cfgs|
        invariant configs == ApplyConfigs(old(configs), existingModels, dataSource, cfgs[..i], uniqueId)
        invariant modelConfigs == Map(prepare, cfgs[..i]) + cfgs[i..]
      {
        var prepared := CreateModelConfig(modelConfigs[i], uniqueId);
        ApplyConfigsPrefix(old(configs), existingModels, dataSource, cfgs, i, uniqueId);
        MapInPlace(prepare, cfgs, i);
        modelConfigs := modelConfigs[i := prepared];
        i := i + 1;
      }
      assert cfgs[..|cfgs|] == cfgs;
    }

    /** The datasource steps of a run: the snapshot of existing models, the
        SOAP datasource check and the configured datasource. Without SOAP
        datasources the run halts before the datasource is chosen. */
    method SelectDataSource() returns (outcome: Outcome)
      modifies this`existingModels, this`soapDataSources, this`soapDataSourceNames, this`selectedDS, this`url
      ensures existingModels == modelNames
      ensures soapDataSources == SoapDataSources(dataSources)
      ensures NamesOf(soapDataSourceNames, soapDataSources)
      ensures outcome == DataSourceOutcome(Configured(configFile), dataSources)
      ensures (selectedDS, url) == DataSourceState(Configured(configFile), dataSources, old(selectedDS), old(url))
      ensures soapDataSources == [] ==> selectedDS == old(selectedDS) && url == old(url)
      ensures soapDataSources != [] ==>
                var r := ResolveDataSource(Configured(configFile).datasource, soapDataSources);
                && (r.Interactive? ==> selectedDS == old(selectedDS) && url == old(url))
                && (r.Failed? ==> selectedDS == None && url == old(url))
                && (r.Resolved? ==> selectedDS == Some(r.value) && url == Some(r.value.wsdl))
      ensures outcome != Continue ==> url == old(url)
      ensures outcome == Continue ==>
                && selectedDS.Some? && selectedDS.value in soapDataSources
                && Configured(configFile).datasource == Str(selectedDS.value.name)
                && url == Some(selectedDS.value.wsdl)
    {
      SnapshotExistingModels();
      outcome := CheckForDatasource();
      if outcome != Continue { return; }
      outcome := AskForDataSource();
    }

    /** The WSDL steps of a run: service discovery, then the configured
        service and binding. A step that does not continue ends the phase and
        leaves what the later steps set as it was. */
    method SelectBinding(getServices: Option<string> -> Discovery, getBindings: string -> seq<string>,
                         getOperations: string -> seq<string>)
      returns (outcome: Outcome)
      modifies this`serviceNames, this`serviceName, this`bindingNames, this`bindingName, this`operations
      ensures outcome == BindingOutcome(Configured(configFile), getServices(url), getBindings)
      ensures getServices(url).DiscoveryError? ==>
                && serviceNames == old(serviceNames) && serviceName == old(serviceName)
                && bindingNames == old(bindingNames) && bindingName == old(bindingName)
                && operations == old(operations)
      ensures getServices(url).Services? ==>
                var rs := ResolveName(Configured(configFile).service, getServices(url).names, UnknownService);
                && serviceNames == getServices(url).names
                && (rs.Interactive? ==> serviceName == old(serviceName))
                && (rs.Failed? ==> serviceName == None)
                && (!rs.Resolved? ==>
                      bindingNames == old(bindingNames) && bindingName == old(bindingName) && operations == old(operations))
                && (rs.Resolved? ==> serviceName == Some(rs.value) && bindingNames == getBindings(rs.value))
      ensures getServices(url).Services? &&
              ResolveName(Configured(configFile).service, getServices(url).names, UnknownService).Resolved? ==>
                var rb := ResolveName(Configured(configFile).binding, bindingNames, UnknownBinding);
                && (rb.Interactive? ==> bindingName == old(bindingName) && operations == old(operations))
                && (rb.Failed? ==> bindingName == None && operations == old(operations))
                && (rb.Resolved? ==> bindingName == Some(rb.value) && operations == getOperations(rb.value))
    {
      outcome := DiscoverServices(getServices);
      if outcome != Continue { return; }
      outcome := AskForService(getBindings);
      if outcome != Continue { return; }
      outcome := AskForBinding(getOperations);
    }

    /** The WSDL steps of a run followed by the operations step: the
        outcome is the WSDL phase's when that does not continue, and the
        operations selection's otherwise. */
    method SelectFromWsdl(getServices: Option<string> -> Discovery, getBindings: string -> seq<string>,
                          getOperations: string -> seq<string>)
      returns (outcome: Outcome)
      modifies this`serviceNames, this`serviceName, this`bindingNames, this`bindingName, this`operations
      ensures outcome == WsdlOutcome(Configured(configFile), getServices(url), getBindings, getOperations)
      ensures    (serviceNames, serviceName, bindingNames, bindingName, operations)
              == WsdlState(Configured(configFile), getServices(url), getBindings, getOperations,
                           old((serviceNames, serviceName, bindingNames, bindingName, operations)))
      ensures getServices(url).Services? ==> serviceNames == getServices(url).names
      ensures getServices(url).DiscoveryError? ==>
                (serviceNames, serviceName, bindingNames, bindingName) == old((serviceNames, serviceName, bindingNames, bindingName))
      ensures BindingOutcome(Configured(configFile), getServices(url), getBindings) == Continue ==>
                && Configured(configFile).service.Str? && serviceName == Some(Configured(configFile).service.s)
                && bindingNames == getBindings(Configured(configFile).service.s)
      ensures BindingOutcome(Configured(configFile), getServices(url), getBindings) != Continue ==>
                operations == old(operations)
      ensures BindingOutcome(Configured(configFile), getServices(url), getBindings) == Continue ==>
                && Configured(configFile).binding.Str? && bindingName == Some(Configured(configFile).binding.s)
                && var r := SelectOperations(Configured(configFile).operations, getOperations(bindingName.value));
                   r.Resolved? ==> operations == r.value
      ensures outcome == Continue ==> bindingName.Some? && ValidateNoOperation(operations) == Accepted
    {
      outcome := SelectBinding(getServices, getBindings, getOperations);
      if outcome != Continue { return; }
      outcome := AskForOperation();
    }

    /** The selection steps of a run with a configuration file, in the
        generator's order: the run ends with the outcome of the first step
        that does not continue, and the fields of the later steps keep their
        values. Selections that complete have a datasource, a binding and
        operations the validator accepts. */
    method SelectConfigured(getServices: Option<string> -> Discovery, getBindings: string -> seq<string>,
                            getOperations: string -> seq<string>)
      returns (outcome: Outcome)
      modifies this`existingModels, this`soapDataSources, this`soapDataSourceNames, this`selectedDS, this`url
      modifies this`serviceNames, this`serviceName, this`bindingNames, this`bindingName, this`operations
      ensures outcome == RunOutcome(Configured(configFile), dataSources, getServices, getBindings, getOperations)
      ensures existingModels == modelNames
      ensures soapDataSources == SoapDataSources(dataSources)
      ensures NamesOf(soapDataSourceNames, soapDataSources)
      ensures (selectedDS, url) == DataSourceState(Configured(configFile), dataSources, old(selectedDS), old(url))
      ensures DataSourceOutcome(Configured(configFile), dataSources) != Continue ==>
                (   (serviceNames, serviceName, bindingNames, bindingName, operations)
                 == old((serviceNames, serviceName, bindingNames, bindingName, operations)))
      ensures DataSourceOutcome(Configured(configFile), dataSources) == Continue ==>
                (   (serviceNames, serviceName, bindingNames, bindingName, operations)
                 == WsdlState(Configured(configFile), getServices(url), getBindings, getOperations,
                              old((serviceNames, serviceName, bindingNames, bindingName, operations))))
      ensures outcome == Continue ==> selectedDS.Some? && ValidateNoOperation(operations) == Accepted
      ensures outcome == Continue ==>
                && Configured(configFile).binding.Str? && bindingName == Some(Configured(configFile).binding.s)
                && operations
                   == SelectOperations(Configured(configFile).operations, getOperations(Configured(configFile).binding.s)).value
    {
      outcome := SelectDataSource();
      if outcome != Continue { return; }
      outcome := SelectFromWsdl(getServices, getBindings, getOperations);
    }

    /** The workspace writes of a run: every definition, then every config,
        each updated in place. The workspace ends with one record per old name
        and per record built. */
    method PersistAll(uniqueId: (string, string) -> string, scriptPathOf: ModelDef -> string)
      modifies this`modelDefs, this`modelConfigs, this`definitions, this`configs
      ensures definitions == ApplyDefinitions(old(definitions), existingModels, old(modelDefs), uniqueId)
      ensures configs == ApplyConfigs(old(configs), existingModels, dataSource, old(modelConfigs), uniqueId)
      ensures modelDefs == Map(PrepareDef(existingModels, uniqueId, scriptPathOf), old(modelDefs))
      ensures modelConfigs == Map(PrepareConfig(existingModels, dataSource, uniqueId), old(modelConfigs))
      ensures definitions.Keys == old(definitions).Keys + DefNames(old(modelDefs))
      ensures configs.Keys == old(configs).Keys + ConfigNames(old(modelConfigs))
    {
      ghost var built, builtConfigs := modelDefs, modelConfigs;
      PersistModels(uniqueId, scriptPathOf);
      PersistedNames(old(definitions), existingModels, built, uniqueId);
      PersistConfigs(uniqueId);
      PersistedConfigNames(old(configs), existingModels, dataSource, builtConfigs, uniqueId);
    }

    /** The writing steps of a run: generate the records, then persist them. */
    method GenerateAndPersist(generateAPICode: (string, seq<string>) -> seq<Api>,
                              uniqueId: (string, string) -> string, scriptPathOf: ModelDef -> string)
      requires selectedDS.Some? && bindingName.Some?
      modifies this`apis, this`modelDefs, this`modelConfigs, this`modelNames, this`definitions, this`configs
      ensures apis == generateAPICode(selectedDS.value.name, operations)
      ensures modelNames == BuiltNames(apis, bindingName.value)
      ensures definitions == ApplyDefinitions(old(definitions), existingModels, BuiltDefs(apis, bindingName.value), uniqueId)
      ensures configs == ApplyConfigs(old(configs), existingModels, dataSource, BuiltConfigs(apis, bindingName.value), uniqueId)
      ensures modelDefs == Map(PrepareDef(existingModels, uniqueId, scriptPathOf), BuiltDefs(apis, bindingName.value))
      ensures modelConfigs == Map(PrepareConfig(existingModels, dataSource, uniqueId), BuiltConfigs(apis, bindingName.value))
      ensures definitions.Keys == old(definitions).Keys + DefNames(BuiltDefs(apis, bindingName.value))
      ensures configs.Keys == old(configs).Keys + ConfigNames(BuiltConfigs(apis, bindingName.value))
    {
      Generate(generateAPICode);
      PersistAll(uniqueId, scriptPathOf);
    }
  }
}
