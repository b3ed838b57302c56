/** The config-driven decisions of the selection steps: which datasources are
    SOAP datasources, which candidate a configured name picks, which operations
    a configured `operations` value keeps, and the prompt's validator. */
module Selection {
  import opened Values
  import opened Seqs
  import opened Records

  /** The errors the selection steps raise. */
  datatype GeneratorError =
    | NoSoapDataSource
    | UnknownDataSource
    | UnknownService
    | UnknownBinding
    | BadOperationsConfig
    | NoMatchingOperations
    | ServiceDiscoveryFailed(reason: string)

  /** The outcome of one selection step's configuration branch: a value, an
      error, or no usable configuration value, so that the step prompts. */
  datatype Resolution<+T> = Resolved(value: T) | Failed(error: GeneratorError) | Interactive

  /** The `soap` section in force: a run without a configuration file behaves
      as one whose section is empty. */
  function Configured(configFile: Option<SoapConfig>): SoapConfig {
    if configFile.Some? then configFile.value else EmptySoapConfig
  }

  // ---------------------------------------------------------------- datasources

  predicate IsSoapDataSource(ds: DataSource) {
    ds.connector == "soap" || ds.connector == "loopback-connector-soap"
  }

  function SoapDataSources(dss: seq<DataSource>): seq<DataSource> {
    Filter(IsSoapDataSource, dss)
  }

  /** `names` lists the names of `dss`, index by index. */
  predicate NamesOf(names: seq<string>, dss: seq<DataSource>) {
    |names| == |dss| && forall i :: 0 <= i < |dss| ==> names[i] == dss[i].name
  }

  /** Each datasource occurs among the SOAP datasources as often as in the
      project when its connector is a SOAP connector, and not at all otherwise. */
  lemma SoapDataSourcesExactly(dss: seq<DataSource>, ds: DataSource)
    ensures multiset(SoapDataSources(dss))[ds] == if IsSoapDataSource(ds) then multiset(dss)[ds] else 0
    ensures ds in SoapDataSources(dss) <==> ds in dss && IsSoapDataSource(ds)
  {
    FilterCount(IsSoapDataSource, dss, ds);
  }

  /** The SOAP datasources keep the project's order. */
  lemma SoapDataSourcesInOrder(a: seq<DataSource>, b: seq<DataSource>)
    ensures SoapDataSources(a + b) == SoapDataSources(a) + SoapDataSources(b)
  {
    FilterAppend(IsSoapDataSource, a, b);
  }

  // ----------------------------------------------------------- lookups by name

  function NamedAs(setting: ConfigValue): DataSource -> bool {
    (ds: DataSource) => setting == Str(ds.name)
  }

  /** `find` by strict equality of `data.name` with the configured value. */
  function LookupDataSource(dss: seq<DataSource>, setting: ConfigValue): (r: Option<DataSource>)
    ensures r.Some? ==> r.value in dss && setting == Str(r.value.name)
    ensures r.Some? ==> exists i :: 0 <= i < |dss| && dss[i] == r.value &&
                          forall j :: 0 <= j < i ==> dss[j].name != r.value.name
    ensures r.None? <==> !(setting.Str? && exists ds :: ds in dss && ds.name == setting.s)
  {
    var r := Find(NamedAs(setting), dss);
    assert r.None? ==> forall ds :: ds in dss ==> setting != Str(ds.name);
    r
  }

  function EqualsSetting(setting: ConfigValue): string -> bool {
    (name: string) => setting == Str(name)
  }

  /** `find` by strict equality among service or binding names: it yields the
      configured string itself exactly when it is one of the names. */
  function LookupName(names: seq<string>, setting: ConfigValue): (r: Option<string>)
    ensures r == if setting.Str? && setting.s in names then Some(setting.s) else None
  {
    var r := Find(EqualsSetting(setting), names);
    assert r.None? ==> forall n :: n in names ==> setting != Str(n);
    r
  }

  /** The configuration branch of the datasource step. */
  function ResolveDataSource(setting: ConfigValue, soapDataSources: seq<DataSource>): (r: Resolution<DataSource>)
    ensures r.Interactive? <==> !Truthy(setting)
    ensures r.Resolved? ==> r.value in soapDataSources && setting == Str(r.value.name)
    ensures r.Failed? ==> r.error == UnknownDataSource
    ensures r.Failed? ==> forall ds :: ds in soapDataSources ==> setting != Str(ds.name)
  {
    if !Truthy(setting) then Interactive
    else match LookupDataSource(soapDataSources, setting)
      case None => Failed(UnknownDataSource)
      case Some(ds) => Resolved(ds)
  }

  /** The configuration branch of the service and binding steps. */
  function ResolveName(setting: ConfigValue, names: seq<string>, missing: GeneratorError): (r: Resolution<string>)
    ensures r.Interactive? <==> !Truthy(setting)
    ensures r.Resolved? <==> Truthy(setting) && setting.Str? && setting.s in names
    ensures r.Resolved? ==> r.value == setting.s && r.value in names
    ensures r.Failed? ==> r.error == missing
  {
    if !Truthy(setting) then Interactive
    else match LookupName(names, setting)
      case None => Failed(missing)
      case Some(n) => Resolved(n)
  }

  // ---------------------------------------------------------------- operations

  function Listed(items: seq<ConfigValue>): string -> bool {
    (op: string) => Str(op) in items
  }

  /** The configuration branch of the operations step: `"all"` keeps the
      candidates, an array keeps the candidates it lists, anything else is an
      error, and an empty outcome is an error too. */
  function SelectOperations(setting: ConfigValue, candidates: seq<string>): (r: Resolution<seq<string>>)
    ensures r.Interactive? <==> !Truthy(setting)
    ensures r.Resolved? ==> r.value != [] && forall op :: op in r.value ==> op in candidates
  {
    if !Truthy(setting) then Interactive
    else if setting != Str("all") && !setting.Arr? then Failed(BadOperationsConfig)
    else
      var ops := if setting.Arr? then Filter(Listed(setting.items), candidates) else candidates;
      if |ops| == 0 then Failed(NoMatchingOperations) else Resolved(ops)
  }

  /** `"all"` keeps the candidate list as it is, and fails on an empty one. */
  lemma SelectAll(candidates: seq<string>)
    ensures SelectOperations(Str("all"), candidates)
         == if candidates == [] then Failed(NoMatchingOperations) else Resolved(candidates)
  {
  }

  /** An array keeps, in candidate order and with duplicates, exactly the
      candidates it lists; it fails when it lists none of them. */
  lemma SelectArray(items: seq<ConfigValue>, candidates: seq<string>)
    ensures var r := SelectOperations(Arr(items), candidates);
            && (r.Resolved? <==> exists op :: op in candidates && Str(op) in items)
            && (r.Failed? ==> r.error == NoMatchingOperations)
            && (r.Resolved? ==> forall op :: multiset(r.value)[op] ==
                                   if Str(op) in items then multiset(candidates)[op] else 0)
  {
    var r := SelectOperations(Arr(items), candidates);
    var ops := Filter(Listed(items), candidates);
    forall op ensures multiset(ops)[op] == if Str(op) in items then multiset(candidates)[op] else 0 {
      FilterCount(Listed(items), candidates, op);
    }
    if exists op :: op in candidates && Str(op) in items {
      var op :| op in candidates && Str(op) in items;
      assert op in ops;
    }
  }

  /** The operations an array keeps follow the candidates' order. */
  lemma SelectArrayInOrder(items: seq<ConfigValue>, a: seq<string>, b: seq<string>)
    ensures Filter(Listed(items), a + b) == Filter(Listed(items), a) + Filter(Listed(items), b)
  {
    FilterAppend(Listed(items), a, b);
  }

  /** A truthy value that is neither `"all"` nor an array is rejected. */
  lemma SelectOther(setting: ConfigValue, candidates: seq<string>)
    requires Truthy(setting) && setting != Str("all") && !setting.Arr?
    ensures SelectOperations(setting, candidates) == Failed(BadOperationsConfig)
  {
  }

  /** Selecting again with the same array from the selected operations keeps them all. */
  lemma SelectArrayStable(items: seq<ConfigValue>, candidates: seq<string>)
    requires SelectOperations(Arr(items), candidates).Resolved?
    ensures SelectOperations(Arr(items), SelectOperations(Arr(items), candidates).value)
         == SelectOperations(Arr(items), candidates)
  {
    FilterIdempotent(Listed(items), candidates);
  }

  /** The answer check of the operations prompt. */
  datatype Validation = Accepted | Rejected(message: string)

  function ValidateNoOperation(operations: seq<string>): (r: Validation)
    ensures r == Accepted <==> |operations| > 0
  {
    if |operations| == 0 then Rejected("Please select at least one operation.") else Accepted
  }

  /** The configuration branch never settles on a list the prompt would refuse. */
  lemma SelectionPassesValidator(setting: ConfigValue, candidates: seq<string>)
    requires SelectOperations(setting, candidates).Resolved?
    ensures ValidateNoOperation(SelectOperations(setting, candidates).value) == Accepted
  {
  }

  // ------------------------------------------------------------ error messages

  /** The messages as the source words them: the binding step reuses the
      service step's message. */
  function MessageAsWritten(e: GeneratorError): (r: string)
    ensures e != UnknownBinding ==> r == Message(e)
    ensures e == UnknownBinding ==> r == Message(UnknownService)
  {
    match e
    case UnknownBinding => NotFound("Service")
    case _ => Message(e)
  }

  lemma BindingMessageNamesService()
    ensures MessageAsWritten(UnknownBinding) == MessageAsWritten(UnknownService)
  {
  }

  function NotFound(subject: string): string {
    subject + " name provided by configuration file does not exist!"
  }

  // The fixed texts of the errors the configuration branches throw.
  const NoSoapDataSourceText :=
    "Error: Found no SOAP WebServices data sources for SOAP discovery. "
    + "Create SOAP Web Service datasource first and try this command again."
  const UnknownDataSourceText := "No datasource found with the name provided by the configuraiton file!"
  const BadOperationsText :=
    "Operation config must be either an array of available operations or all, to indicate all operations."
  const NoMatchingOperationsText := "No operations found that match values given in the configuration file."

  /** The messages with the binding step's own wording. */
  function Message(e: GeneratorError): (r: string)
    ensures e.ServiceDiscoveryFailed? ==> r == e.reason
    ensures e == UnknownService ==> r == NotFound("Service")
    ensures e == UnknownBinding ==> r == NotFound("Binding")
  {
    match e
    case NoSoapDataSource => NoSoapDataSourceText
    case UnknownDataSource => UnknownDataSourceText
    case UnknownService => NotFound("Service")
    case UnknownBinding => NotFound("Binding")
    case BadOperationsConfig => BadOperationsText
    case NoMatchingOperations => NoMatchingOperationsText
    case ServiceDiscoveryFailed(reason) => reason
  }

  /** A failed binding lookup no longer reads as a failed service lookup. */
  lemma BindingMessageNamesBinding()
    ensures Message(UnknownBinding) != Message(UnknownService)
  {
    assert Message(UnknownBinding)[0] == "Binding"[0];
    assert Message(UnknownService)[0] == "Service"[0];
  }
}
