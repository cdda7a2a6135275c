/**
 * The dynamically typed values that flow through the registry: the values of
 * the JSON configuration dictionary and the cells of a SQLite result row.
 */
module PyValues {

  /** A Python value, restricted to the kinds the application stores. */
  datatype Value =
    | PyNone
    | PyBool(b: bool)
    | PyInt(i: int)
    | PyFloat(r: real)
    | PyStr(s: string)
    | PyDict(entries: map<string, Value>)
}
