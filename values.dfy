/** Values the generator reads: optional values and the parsed configuration file. */
module Values {

  datatype Option<+T> = None | Some(value: T)

  /** A value read from the parsed JSON configuration file. `Undefined` stands
      for a key that is absent. Numbers are only ever tested for truthiness,
      so integers stand for them. */
  datatype ConfigValue =
    | Undefined
    | Null
    | Bool(b: bool)
    | Num(n: int)
    | Str(s: string)
    | Arr(items: seq<ConfigValue>)
    | Obj

  /** JavaScript truthiness of a configuration value. */
  predicate Truthy(v: ConfigValue) {
    match v
    case Undefined => false
    case Null => false
    case Bool(b) => b
    case Num(n) => n != 0
    case Str(s) => s != ""
    case Arr(_) => true
    case Obj => true
  }

  /** The falsy configuration values are exactly `undefined`, `null`,
      `false`, `0` and the empty string: arrays and objects, even empty ones,
      are truthy. */
  lemma FalsyValues(v: ConfigValue)
    ensures !Truthy(v) <==> v == Undefined || v == Null || v == Bool(false) || v == Num(0) || v == Str("")
    ensures Truthy(Arr([])) && Truthy(Obj)
  {
  }

  /** The `soap` section of the configuration file (`{}` when it has none). */
  datatype SoapConfig = SoapConfig(
    datasource: ConfigValue,
    service: ConfigValue,
    binding: ConfigValue,
    operations: ConfigValue)

  /** The section a configuration file without a `soap` key yields. */
  const EmptySoapConfig := SoapConfig(Undefined, Undefined, Undefined, Undefined)
}
