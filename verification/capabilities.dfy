/** The values exchanged with the language models and the failures they
    can raise. The models, the prompt chains and the JSON parser are opaque
    to the pipeline and appear in the model as function parameters. */
module Capabilities {
  import opened Wrappers

  /** A decoded JSON value; objects keep their keys in order. */
  datatype Json =
    | JNull
    | JBool(b: bool)
    | JNum(n: real)
    | JStr(s: string)
    | JArr(items: seq<Json>)
    | JObj(fields: seq<(string, Json)>)

  /** An exception that escapes a pipeline stage. */
  datatype Fault =
    | ModelFault(detail: string)   // raised inside a model call or an agent
    | MissingField(field: string)  // a state field read before it was written

  /** A prompt template piped into a language model: the template's input
      value in, the model's raw text out, or an exception. */
  type Chain = Json -> Result<string, Fault>

  /** `json.loads`: the decoded value, or None when it raises. */
  type Parser = string -> Option<Json>

  /** An agent invoked on a value, returning a value or raising. */
  type Agent = Json -> Result<Json, Fault>
}
