/** Structured values exchanged with a test runner: test inputs, expected outputs and actual outputs. */
module Values {

  /** A parsed JSON value, as the runner receives and emits it. */
  datatype Value =
    | Null
    | Boolean(b: bool)
    | Number(n: real)
    | Text(s: string)
    | List(items: seq<Value>)
    | Object(fields: map<string, Value>)

  /**
   * The deep comparison of two values. It is done by a third-party library
   * in its default (loose) mode, so the model makes no assumption about it:
   * every operation that compares values takes it as a parameter.
   */
  type Equality = (Value, Value) -> bool
}
