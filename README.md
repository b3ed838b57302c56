# SOAP generator core, modelled in Dafny

The SOAP generator of the LoopBack generators (`soap/index.js`) works from a
WSDL datasource. It discovers the services, bindings and operations of the
WSDL and builds LoopBack models from them: one container model per generated
API and one model per WSDL object type. It then writes each model definition
and model config to the workspace, updating models that already exist.

This project models the part of that run that can be stated exactly:

- `checkForDatasource` picks out the SOAP datasources.
- `askForDataSource`, `askForService`, `askForBinding` and `askForOperation`
  make their configuration-file choices.
- `validateNoOperation` checks the answer of the operations prompt.
- The binding name is sanitised with the regex.
- `generate` builds its records in two loops.
- `createModel` and `createModelConfig` make the create-or-update decision and
  replace properties.

Modules:

- `Values`: options, parsed configuration values and their JavaScript truthiness.
- `Seqs`: generic filter, find and map over sequences.
- `Sanitize`: the binding-name character class and its replacement.
- `Records`: the records `generate` builds, as functions of the generated APIs.
- `Selection`: the datasource filter, the name lookups, the operation choice,
  the validator and the error messages.
- `Workspace`: the create-or-update decision and property replacement, over a
  workspace kept as a map from model name to record.
- `Generator`: the class `SoapGenerator`, whose fields are the generator's run
  state (`selectedDS`, `url`, `serviceNames`, `bindingName`, `operations`,
  `apis`, `modelDefs`, `modelConfigs`, `modelNames`, the workspace maps, …)
  and whose methods are the generator's steps.
  - Each method is proved against the functions of the modules above.
  - `BuildRecords` holds the building loops of `generate`.
  - `RecreateProperties` holds the property loop of `createModel`.
  - `SelectDataSource`, `SelectBinding`, `SelectFromWsdl`,
    `SelectConfigured`, `PersistAll` and `GenerateAndPersist` chain the steps
    in the generator's order.
  - The functions `StepOutcome`, `DataSourceOutcome`, `BindingOutcome`,
    `WsdlOutcome` and `RunOutcome` say how each phase of the run ends.
  - The functions `DataSourceState` and `WsdlState` give the fields each
    phase leaves behind, from their values before it.

The calls the generator makes into libraries are parameters of the methods
that use them, as uninterpreted functions:

- the WSDL loader's `getServices`, `getBindings`, `getOperations` and
  `generateAPICode`;
- the workspace's `getUniqueId` and `getScriptPath`.

The workspace's `create`, `upsert`, `destroyAll` and `properties.create` are
writes to the two maps `definitions` and `configs`.

Choices and deviations:

- Where the source tests a string for truthiness (`model.type &&`,
  `model.base ||`), an absent string is `""`.
- A configuration step whose value is absent or falsy goes to the prompt. The
  model does not follow it there: the method returns `AwaitPrompt` and leaves
  the state as it was.
- A lookup that finds nothing stores the `undefined` result, `None`, before it
  throws, as the source's assignment does.
- An `operations` array stores its filtered list before the emptiness check
  throws.

## Model

| member | source | states |
|---|---|---|
| Values.FalsyValues | soap/index.js:115 | a configuration value is falsy exactly when it is absent, `null`, `false`, `0` or the empty string; an empty array and an object are truthy |
| Seqs.Filter | soap/index.js:83-86 | every element kept is an element of the input that satisfies the predicate, and every such element is kept |
| Seqs.FilterCount | soap/index.js:253-256 | a kept element occurs as often as in the input, so duplicates are preserved; a rejected one does not occur |
| Seqs.FilterAppend | soap/index.js:253-256 | filtering a concatenation is concatenating the filtered parts, so input order is kept |
| Seqs.FilterIdempotent | soap/index.js:253-256 | filtering a filtered list again changes nothing |
| Seqs.Find | soap/index.js:116-118 | the found element satisfies the predicate and is the first such element; nothing is found exactly when no element satisfies it |
| Selection.SoapDataSourcesExactly | soap/index.js:83-86 | a datasource is among the SOAP datasources, as often as in the project, exactly when its connector is `soap` or `loopback-connector-soap` |
| Selection.SoapDataSourcesInOrder | soap/index.js:83-86 | the SOAP datasources keep the project's order |
| Selection.LookupDataSource | soap/index.js:116-118 | the datasource found is a SOAP datasource whose name equals the configured value and is the first of that name; none is found exactly when the value is not the name of any of them |
| Selection.LookupName | soap/index.js:181-183 | a service or binding lookup yields the configured string exactly when it is one of the candidates, otherwise nothing |
| Selection.ResolveDataSource | soap/index.js:115-125 | a falsy value prompts; a resolved datasource is a candidate with the configured name; a failure is the unknown-datasource error and no candidate has that name |
| Selection.ResolveName | soap/index.js:214-223 | a falsy value prompts; the lookup succeeds exactly for a configured string among the candidates, with that string; otherwise the step's own error |
| Selection.SelectOperations | soap/index.js:250-270 | a falsy value prompts; a resolved selection is non-empty and made of candidates |
| Selection.SelectAll | soap/index.js:251-252 | `"all"` keeps the candidate list unchanged, and fails with the no-match error when it is empty |
| Selection.SelectArray | soap/index.js:253-257 | an array succeeds exactly when it lists some candidate, fails only with the no-match error, and keeps each candidate it lists as often as it occurs and no other |
| Selection.SelectArrayInOrder | soap/index.js:253-256 | the operations an array keeps follow the candidates' order |
| Selection.SelectOther | soap/index.js:258-263 | a truthy value that is neither `"all"` nor an array fails with the bad-config error |
| Selection.SelectArrayStable | soap/index.js:253-257 | selecting with the same array from the selected operations yields the same selection |
| Selection.ValidateNoOperation | soap/index.js:487-493 | the answer is accepted exactly when at least one operation is selected |
| Selection.SelectionPassesValidator | soap/index.js:265-270 | a selection from the configuration file always passes the prompt's validator |
| Selection.Message | soap/index.js:220-222 | a discovery failure reports the loader's message; an unknown service and an unknown binding each name what was not found |
| Selection.MessageAsWritten | soap/index.js:220-222 | as written, every error keeps its own message except an unknown binding, which reports the unknown-service message |
| Selection.BindingMessageNamesService | soap/index.js:219-223 | as written, the unknown-binding message is the unknown-service message |
| Selection.BindingMessageNamesBinding | soap/index.js:219-223 | with the corrected wording, the two messages differ |
| Sanitize.SanitizeBindingName | soap/index.js:302 | same length; each character of the class becomes `_`, every other character is kept |
| Sanitize.SanitizedHasNoSpecial | soap/index.js:302 | no class character is left in a sanitised name |
| Sanitize.SanitizeIdempotent | soap/index.js:302 | sanitising twice gives the same name as sanitising once |
| Sanitize.SanitizeFixedPoint | soap/index.js:302 | a name is left unchanged exactly when it holds no class character |
| Sanitize.SanitizeDotAndDash | soap/index.js:302 | `a.b-c` becomes `a_b_c` |
| Sanitize.SanitizeRange | soap/index.js:302 | the range `)-+` covers `*`: `a*b` becomes `a_b` |
| Sanitize.SanitizeKeepsBrackets | soap/index.js:302 | `$`, `[` and `]` are not in the class and stay |
| Sanitize.SanitizeKeepsBar | soap/index.js:302 | `\|`, space and `_` are not in the class and stay |
| Records.Lockstep | soap/index.js:296-353 | definitions and configs come out with equal length and equal names index by index |
| Records.ConfigsShape | soap/index.js:319-324 | every config is public, in the `server` facet, with a `null` datasource and no id |
| Records.ContainersShape | soap/index.js:302-317 | the first definitions, one per API, are named `soap_` plus the sanitised binding name, served at that path, in the `server` facet, base `Model`, without properties |
| Records.TypeEntryStep | soap/index.js:329-334 | a WSDL type whose `type` is set and is not `object` adds no record; any other adds exactly one, after those of the earlier types |
| Records.KeptEntriesExactly | soap/index.js:327-334 | a WSDL type yields a record exactly when some API holds it and it is of object type |
| Records.TypeDefsShape | soap/index.js:336-345 | after the containers, one definition per kept type: its name and properties, `common` facet, base the type's own or `Model` |
| Records.NamesShape | soap/index.js:304 | the names list matches the definitions: container names first, then each type's key in `models` |
| Records.NameMayDifferFromKey | soap/index.js:335-337 | a type is listed under its key, which can differ from the name of its definition |
| Workspace.Decide | soap/index.js:393-407 | a model is updated exactly when its name is in the snapshot of existing models, and created otherwise |
| Workspace.ReplaceProperties | soap/index.js:363-377 | a non-empty new set leaves exactly the new keys, each named after its key, in the model's facet, with its type; an empty one leaves the old set |
| Workspace.RecreatedReplaces | soap/index.js:369-377 | properties recreated one by one, each named after its key, are the replacement set |
| Workspace.ReplaceForgetsOld | soap/index.js:364-366 | with a non-empty new set the outcome does not depend on the old properties |
| Workspace.ReplaceIdempotent | soap/index.js:363-377 | replacing twice with the same set is the same as once |
| Workspace.EmptyPropertiesKeepOld | soap/index.js:386-389 | an updated model whose new definition has no properties keeps its stored properties |
| Workspace.DefNamesExactly | soap/index.js:355-408 | a name is among the written names exactly when some definition carries it |
| Workspace.PersistedNames | soap/index.js:455-459 | after writing every definition, the workspace holds the old names plus the definitions' names, one record each |
| Workspace.UniqueDefinitionStored | soap/index.js:393-407 | a definition whose name is unique in the list ends up stored, with the unique id exactly when it is an update, and with exactly its renamed properties when it has any |
| Workspace.RerunUpdates | soap/index.js:393-407 | writing the same definitions again once their names exist adds no record, and a definition of a unique name is then stored as an update: with the unique id, and with exactly its renamed properties when it has any |
| Workspace.PersistedConfigNames | soap/index.js:461-465 | after writing every config, the config store holds the old names plus the configs' names |
| Workspace.PreparedConfig | soap/index.js:411-421 | the config submitted takes the generator's datasource exactly when its own is undefined, carries the unique id exactly when its name exists, and is otherwise the config as built |
| Workspace.UniqueConfigStored | soap/index.js:410-440 | a config whose name is unique in the list ends up stored as `createModelConfig` prepares it: with the generator's datasource when it had none, and with the unique id exactly when its name exists |
| Workspace.RerunUpdatesConfigs | soap/index.js:410-440 | writing the same configs again once their names exist adds no record, and a config of a unique name is then stored as an update carrying the unique id |
| Workspace.DefinitionsAndConfigsAgree | soap/index.js:414-420 | a definition and a config of one name both carry the unique id when the name exists, and neither gains one otherwise |
| Workspace.NullDataSourceStays | soap/index.js:411-413 | a config built with a `null` datasource keeps it; only an undefined one takes the generator's |
| Generator.RecreateProperties | soap/index.js:369-377 | the properties created are the new keys, each named after its key and put in the model's facet |
| Generator.BuildContainers | soap/index.js:296-325 | the first loop yields one container definition, config and name per API |
| Generator.AppendTypeRecords | soap/index.js:328-352 | the inner loop appends one definition, config and key per WSDL type of object type, in order |
| Generator.BuildRecords | soap/index.js:296-353 | the building loops produce exactly the definitions, configs and names described by `BuiltDefs`, `BuiltConfigs` and `BuiltNames` |
| Generator.SoapGenerator.SnapshotExistingModels | soap/index.js:76-79 | the snapshot of existing models is the list of model names loaded at startup |
| Generator.SoapGenerator.CheckForDatasource | soap/index.js:81-102 | `soapDataSources` is the SOAP subset, `soapDataSourceNames` their names index by index, and an empty list halts |
| Generator.SoapGenerator.AskForDataSource | soap/index.js:115-132 | the configured datasource is selected and its WSDL becomes `url`; an unknown name throws and leaves `url` alone; a falsy value prompts |
| Generator.SoapGenerator.DiscoverServices | soap/index.js:152-168 | the discovered service names are stored; a discovery error ends the step with it |
| Generator.SoapGenerator.AskForService | soap/index.js:180-195 | the configured service is selected and its bindings fetched; an unknown name throws and fetches nothing |
| Generator.SoapGenerator.AskForBinding | soap/index.js:214-229 | the configured binding is selected and its operations fetched; an unknown name throws and fetches nothing |
| Generator.SoapGenerator.AskForOperation | soap/index.js:250-274 | `operations` becomes the selection, and a step that completes leaves operations the validator accepts |
| Generator.SoapGenerator.Generate | soap/index.js:282-353 | `apis` is the generated code, and the records are those `BuildRecords` promises for it and the binding |
| Generator.SoapGenerator.CreateModel | soap/index.js:355-408 | the workspace and the updated definition are those `ApplyDefinition` and `PreparedDef` describe: the id on update, the script path, and replaced properties |
| Generator.SoapGenerator.PersistModels | soap/index.js:455-459 | every definition is written in list order, and each is updated in place as `createModel` leaves it |
| Generator.SoapGenerator.CreateModelConfig | soap/index.js:410-440 | an undefined datasource takes the generator's, an existing name gets the unique id, and the config is stored under its name |
| Generator.SoapGenerator.PersistConfigs | soap/index.js:461-465 | every config is written in list order, and each is updated in place |
| Generator.SoapGenerator.SelectDataSource | soap/index.js:76-132 | `soapDataSources` becomes the SOAP subset with its names; the phase ends as `DataSourceOutcome` says and leaves `selectedDS` and `url` as `DataSourceState` gives them; without SOAP datasources it halts with the selection and `url` untouched; otherwise the configured datasource is selected with its WSDL as `url`, an unknown name stores no selection and throws, a falsy value prompts |
| Generator.SoapGenerator.SelectBinding | soap/index.js:152-229 | the phase ends as `BindingOutcome` says; a discovery error changes nothing; otherwise the service names are stored, an unresolved service leaves the binding and operations untouched, and a resolved one fetches its bindings, whose configured one is selected with its operations or, when unknown, stores no binding and throws |
| Generator.SoapGenerator.SelectFromWsdl | soap/index.js:152-274 | the outcome is `WsdlOutcome` and the five WSDL and operations fields become `WsdlState` of their old values; discovered service names are stored; a discovery error leaves the service and binding fields untouched; a WSDL phase that does not complete leaves the operations untouched; a completed one stores the configured service, its bindings and the configured binding, and a successful operations choice stores exactly the selection |
| Generator.SoapGenerator.SelectConfigured | soap/index.js:76-274 | the outcome is `RunOutcome`: that of the first phase that does not continue; `existingModels`, the SOAP subset and its names are stored; `selectedDS` and `url` become `DataSourceState` of their old values; a datasource phase that does not continue leaves every WSDL and operations field as it was, and a completed one leaves them as `WsdlState` on the selected WSDL gives them; a completed selection has a datasource, the configured binding, and exactly the configured operations selection, which the validator accepts |
| Generator.DataSourceOutcome | soap/index.js:81-125 | the datasource phase halts exactly when there is no SOAP datasource, prompts exactly when the value is falsy, throws the unknown-datasource error exactly when no SOAP datasource has the configured name, and continues exactly when one has |
| Generator.BindingOutcome | soap/index.js:152-223 | a discovery error is thrown; the unknown-service error is thrown exactly when a truthy service value is not a discovered service; the phase continues exactly when the configured service is discovered and the configured binding is one of its bindings |
| Generator.WsdlOutcome | soap/index.js:152-274 | a WSDL phase that does not continue decides the outcome; continuing needs the configured binding and a successful operations choice |
| Generator.RunOutcome | soap/index.js:76-274 | without SOAP datasources the run halts; with a falsy datasource value it prompts; with a name no SOAP datasource carries it throws the unknown-datasource error; a run that continues used a SOAP datasource of the configured name and completed the WSDL phase on its WSDL |
| Generator.DataSourceState | soap/index.js:81-132 | a datasource phase that halts or prompts leaves the selection and `url` as they were; an unknown datasource name clears the selection and keeps `url`; a completed phase selects a SOAP datasource of the configured name and takes its WSDL as `url` |
| Generator.WsdlState | soap/index.js:152-274 | a discovery error changes no field; otherwise the discovered service names are stored; a falsy service value leaves the other fields as they were and an unknown one clears the service; a WSDL phase that does not continue leaves the operations as they were; a completed one stores the configured service, its bindings and the configured binding; a completed run stores exactly the operations selection, which the validator accepts |
| Generator.SoapGenerator.PersistAll | soap/index.js:453-466 | the workspace maps become `ApplyDefinitions` and `ApplyConfigs` of the records in list order, each record is updated in place as `createModel` and `createModelConfig` leave it, and the workspace ends with one definition and one config per old name and per record built |
| Generator.SoapGenerator.GenerateAndPersist | soap/index.js:282-471 | `apis` is the generated code for the selected datasource and operations; the records built from it are written as `ApplyDefinitions` and `ApplyConfigs` describe, each updated in place; the workspace ends with one record per old name and per record built |

## Left out

- Prompts, options, help text, logging, `chalk` and the message catalogue are
  user interface. A step whose configuration value is absent returns
  `AwaitPrompt` instead of prompting.
- Reading and parsing the configuration file is file input. `configFile` is an
  already-parsed `soap` section.
  - Without the `--config-file` option it is `None`, which behaves as an empty
    section.
  - JSON numbers are integers, since they are only tested for truthiness.
- The WSDL loader (`getServices`, `getBindings`, `getOperations`,
  `generateAPICode`) is outside the generator. Its calls are function
  parameters, and `getServices` reports either the `$name`s of the services or
  an error.
- The workspace library (`ModelDefinition.create/upsert`, `getUniqueId`,
  `getScriptPath`, `properties.destroyAll/create`, `loadProject`,
  `saveProject`) is foreign persistence.
  - Create and upsert are both a write to a map keyed by model name, and a
    created model starts without stored properties.
  - The unique id and the script path are function parameters.
  - The unique id is a function of the facet name and the model name only.
    The source hands the whole definition to `ModelDefinition.getUniqueId`
    (soap/index.js:400), and the whole config to the same function
    (soap/index.js:421). An id that depends on other fields is not modelled.
  - Workspace errors are not modelled.
- `generateRemoteMethods` and its `fs.writeFile` are file output, as is the
  `api.modelDefinition` link they use.
- `async.each` over the definitions and over the configs runs its calls
  concurrently. The model performs them sequentially in list order.
  - The result is order-independent only for names that occur once in the
    list (`UniqueDefinitionStored`).
  - For a repeated name, such as the container of several APIs of one
    binding, the model's last write wins. The source makes no such promise.
- A WSDL type map (`models`) is a sequence of key and type pairs in
  enumeration order. Unlike an object's keys, the model's keys need not be
  distinct.
- Datasources carry only their connector, name and WSDL location.
- Workspace.ReplaceProperties: the recreated properties keep every field of
  the new ones except name and facet, which are overwritten. The contract
  names the type field only.
- The unused `NOT_SELECTED` flags are dead code.
- The `servieName` slip of the interactive service branch affects only the
  prompt path.

## Findings

| source | as written | input that shows it | evidently intended | confidence | as-written member | corrected member |
|---|---|---|---|---|---|---|
| soap/index.js:219-223 | an unknown binding throws "Service name provided by configuration file does not exist!", the service step's message | a configuration file whose `binding` names no binding of the selected service | a message naming the binding | not executed | Selection.MessageAsWritten, Selection.BindingMessageNamesService | Selection.Message, Selection.BindingMessageNamesBinding |
