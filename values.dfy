/** The host runtime's dynamic values as the shim receives them, and the typed
    getters of its map values (`getStringValue`, `getIntValue`, ...). */
module HostValues {
  import opened Wrappers
  import opened JavaLang

  /** A value stored in an options map. Floats and decimals are kept as the text
      their `toString` gives; arrays are arrays of strings. */
  datatype Value =
    | VNil
    | VBool(b: bool)
    | VInt(i: Long)
    | VFloat(floatText: string)
    | VDecimal(decimalText: string)
    | VStr(s: string)
    | VArr(strings: seq<string>)
    | VMap(fields: map<string, Value>)

  /** A sparse options map: a key is present only when the caller gave it. */
  type Config = map<string, Value>

  /** The name of the value's runtime type, as `TypeUtils.getType(v).toString()` prints it. */
  function TypeName(v: Value): string {
    match v
    case VNil => "()"
    case VBool(_) => "boolean"
    case VInt(_) => "int"
    case VFloat(_) => "float"
    case VDecimal(_) => "decimal"
    case VStr(_) => "string"
    case VArr(_) => "string[]"
    case VMap(_) => "map"
  }

  /** `toString()` of a scalar value. */
  function ToText(v: Value): string
    requires v.VStr? || v.VInt? || v.VFloat? || v.VDecimal?
  {
    match v
    case VStr(s) => s
    case VInt(i) => DecimalText(i)
    case VFloat(t) => t
    case VDecimal(t) => t
  }

  /** What a typed getter throws when the key holds no value or one of another type. */
  function Mismatch(m: Config, k: string): Exception {
    if k in m && !m[k].VNil? then ClassCast(k) else NullPointer(k)
  }

  function GetString(m: Config, k: string): Result<string, Exception> {
    if k in m && m[k].VStr? then Success(m[k].s) else Failure(Mismatch(m, k))
  }

  function GetInt(m: Config, k: string): Result<Long, Exception> {
    if k in m && m[k].VInt? then Success(m[k].i) else Failure(Mismatch(m, k))
  }

  function GetBoolean(m: Config, k: string): Result<bool, Exception> {
    if k in m && m[k].VBool? then Success(m[k].b) else Failure(Mismatch(m, k))
  }

  /** `getArrayValue(k).getStringArray()`. */
  function GetStringArray(m: Config, k: string): Result<seq<string>, Exception> {
    if k in m && m[k].VArr? then Success(m[k].strings) else Failure(Mismatch(m, k))
  }

  /** `getMapValue(k)` cast to a map and then used. */
  function GetMap(m: Config, k: string): Result<Config, Exception> {
    if k in m && m[k].VMap? then Success(m[k].fields) else Failure(Mismatch(m, k))
  }

  /** `getObjectValue(k)`: an absent key reads as nil (Java null). */
  function GetObject(m: Config, k: string): Value {
    if k in m then m[k] else VNil
  }

  // "Absent or of the right type": the condition under which a guarded getter succeeds.

  predicate StringOrAbsent(m: Config, k: string) {
    k in m ==> m[k].VStr?
  }

  predicate IntOrAbsent(m: Config, k: string) {
    k in m ==> m[k].VInt?
  }

  /** Absent, or an integer that `Math.toIntExact` accepts. */
  predicate Int32OrAbsent(m: Config, k: string) {
    k in m ==> m[k].VInt? && InIntRange(m[k].i)
  }

  predicate BoolOrAbsent(m: Config, k: string) {
    k in m ==> m[k].VBool?
  }

  predicate StringsOrAbsent(m: Config, k: string) {
    k in m ==> m[k].VArr?
  }
}
