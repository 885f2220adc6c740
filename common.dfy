/** Values shared by every part of the model: optional values, results, the
    exceptions raised by code outside the model, and the JSON documents held
    by the record store and the cache. */
module Common {

  datatype Option<+T> = None | Some(value: T)

  datatype Result<+T, +E> = Ok(value: T) | Err(error: E)

  /** An exception raised by code the model does not look into (the formula
      evaluator, ast.literal_eval, a dict lookup). Only ZeroDivisionError is
      told apart, because the build-time self-test swallows it. */
  datatype Fault = ZeroDivision | OtherFault

  /** A decoded JSON document. Numbers are kept as integers: no record field
      of the model is numeric. */
  datatype Json =
    | JNull
    | JBool(b: bool)
    | JNum(n: int)
    | JStr(s: string)
    | JArr(items: seq<Json>)
    | JObj(fields: map<string, Json>)
}
