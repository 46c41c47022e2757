/** The language-native tree the compiler produces: PHP arrays used as JSON objects and lists. */
module Wire {
  import opened Wrappers

  /** A request or response tree. Objects are string-keyed maps; the key order of a PHP array is
      not modelled. Floating-point numbers are not modelled. */
  datatype Json =
    | JNull
    | JBool(b: bool)
    | JInt(i: int)
    | JStr(s: string)
    | JList(items: seq<Json>)
    | JObj(fields: map<string, Json>)

  /** A one-entry object `[key => value]`. */
  function Obj1(key: string, value: Json): Json {
    JObj(map[key := value])
  }

  /** Reading `$array[key]`: a missing key (or a non-array) reads as null. */
  function Get(j: Json, key: string): Json {
    if j.JObj? && key in j.fields then j.fields[key] else JNull
  }

  /** A PHP string property that may be null. */
  function StrOrNull(s: Option<string>): Json {
    match s
    case None => JNull
    case Some(v) => JStr(v)
  }
}
