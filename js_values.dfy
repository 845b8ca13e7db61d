/** The dynamically typed values the service handles: the JSON request
    body that express.json() leaves in req.body, the issues zod reports,
    and the error objects that the error middleware probes field by field. */
module JsValues {
  import opened Wrappers

  /** A parsed JSON value. Numbers are exact reals: the rounding of doubles
      and the Infinity an overflowing literal parses to are not modelled. */
  datatype Json =
    | JNull
    | JBool(b: bool)
    | JNum(n: real)
    | JStr(s: string)
    | JArr(elems: seq<Json>)
    | JObj(fields: map<string, Json>)

  /** The fields of a JSON object body. */
  type Payload = map<string, Json>

  /** zod's label for the runtime type of a value. */
  function TypeLabel(v: Json): string
  {
    match v
    case JNull => "null"
    case JBool(_) => "boolean"
    case JNum(_) => "number"
    case JStr(_) => "string"
    case JArr(_) => "array"
    case JObj(_) => "object"
  }

  /** The label zod gives a payload field: "undefined" when it is absent. */
  function ReceivedLabel(m: Payload, key: string): string
  {
    if key in m then TypeLabel(m[key]) else "undefined"
  }

  /** How a template literal renders a string that may be undefined. */
  function Show(s: Option<string>): string
  {
    match s
    case Some(v) => v
    case None => "undefined"
  }

  /** One entry of a ZodError's `errors` list. `expected` and `received`
      are set by zod for invalid_type issues only. */
  datatype Issue = Issue(
    path: seq<string>,
    code: string,
    expected: Option<string>,
    received: Option<string>,
    message: Option<string>)

  /** A thrown JavaScript error, as seen through the probes the error
      middleware applies to it: error.type, error.name, error.code,
      error.errors, the keys of error.keyValue (in order),
      error.statusCode and error.message. An absent property is None. */
  datatype ErrorObject = ErrorObject(
    errorType: Option<string>,
    name: Option<string>,
    code: Option<int>,
    errors: Option<seq<Issue>>,
    keyValue: Option<seq<string>>,
    statusCode: Option<int>,
    message: Option<string>)

  /** An error object with none of the probed properties. */
  const Bare := ErrorObject(None, None, None, None, None, None, None)

  /** error.errors[0], when there is one. */
  function FirstIssue(e: ErrorObject): Option<Issue>
  {
    if e.errors.Some? && |e.errors.value| > 0 then Some(e.errors.value[0]) else None
  }

  /** The error express.json() passes to next() when the request body is
      not valid JSON: a SyntaxError tagged by body-parser. */
  function BodyParseError(detail: string): (r: ErrorObject)
    // the type tag the error middleware checks first, whatever the detail
    ensures r.errorType == Some("entity.parse.failed")
    ensures r.name == Some("SyntaxError") && r.statusCode == Some(400) && r.message == Some(detail)
  {
    Bare.(errorType := Some("entity.parse.failed"), name := Some("SyntaxError"),
          statusCode := Some(400), message := Some(detail))
  }
}
