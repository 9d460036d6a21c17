/** Values shared by the model of the BigBlueButton meeting bridge. */
module Values {

  /** An answer that may be absent (`undefined`, a failed parse). */
  datatype Option<+T> = None | Some(value: T)

  /**
   * A JSON-like value as the bridge handles it: user-record attributes,
   * decoded user-data entries and the parameters handed to the remote API.
   * Arrays and objects are never looked into, so they are kept as their text.
   */
  datatype Value =
    | Null
    | Bool(b: bool)
    | Num(n: real)
    | Str(s: string)
    | Structured(json: string)

  /** JavaScript truthiness of a value. */
  predicate Truthy(v: Value)
  {
    match v
    case Null => false
    case Bool(b) => b
    case Num(n) => n != 0.0
    case Str(s) => s != ""
    case Structured(_) => true
  }

  /** JavaScript truthiness of a string that may be `undefined`. */
  predicate TruthyText(t: Option<string>)
  {
    t.Some? && t.value != ""
  }

  /** The own properties of a parsed JSON object, in `Object.keys` order. */
  type Props = seq<(string, Value)>
}
