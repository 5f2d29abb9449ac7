/**
 * The structured payloads that the views hand to the JSON encoder. The text
 * encoding itself is not modelled: each constructor stands for the JSON value
 * whose serialisation the caller receives.
 */
module Responses {

  datatype Response =
    | Null                                    // `null`: the missing-value marker
    | Str(text: string)                       // a JSON string
    | Int(count: nat)                         // a JSON number (only counts occur)
    | Obj(fields: map<string, string>)        // a JSON object of string fields
    | Err(kind: string, data: string)         // `{"error": {"kind": kind, "data": data}}`

  /** The `kind` that `get_result` reports for a missing key. */
  const NotFoundKind: string := "NotFound"
}
