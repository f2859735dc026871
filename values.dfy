/** Values as the Node.js handlers see them: JSON request and response bodies,
    JavaScript truthiness, thrown errors and HTTP responses. */
module Values {

  datatype Option<+T> = None | Some(value: T)

  datatype Result<+R, +E> = Success(value: R) | Failure(error: E)

  /** A JSON value. Numbers are JavaScript numbers, kept as reals (NaN and the
      infinities are not representable in JSON and are not modelled). */
  datatype Json =
    | JNull
    | JBool(b: bool)
    | JNum(n: real)
    | JStr(s: string)
    | JArr(items: seq<Json>)
    | JObj(fields: map<string, Json>)

  /** A parsed request body. A key that is not present reads as `undefined`. */
  type Body = map<string, Json>

  /** Reading `body.key`: None stands for `undefined`. */
  function Prop(body: Body, key: string): (v: Option<Json>)
    ensures v.Some? <==> key in body
    ensures v.Some? ==> v.value == body[key]
  {
    if key in body then Some(body[key]) else None
  }

  /** JavaScript truthiness of a property read (`undefined` is None). */
  predicate Truthy(v: Option<Json>)
  {
    match v
    case None => false
    case Some(JNull) => false
    case Some(JBool(b)) => b
    case Some(JNum(n)) => n != 0.0
    case Some(JStr(s)) => s != ""
    case Some(JArr(_)) => true
    case Some(JObj(_)) => true
  }

  /** `process.env.X || fallback`: an unset or empty variable gives the fallback. */
  function EnvOr(env: Option<string>, fallback: string): (r: string)
    ensures env.Some? && env.value != "" ==> r == env.value
    ensures env.None? || env.value == "" ==> r == fallback
  {
    if env.Some? && env.value != "" then env.value else fallback
  }

  /** A JavaScript `Error` as far as the handlers look at it: the driver's
      error code, when there is one, and the message. */
  datatype JsError = JsError(code: Option<string>, message: string)

  /** What a handler sends back: a status code and a JSON body. */
  datatype Response = Response(status: int, body: Json)

  /** The `{ message: text }` body every error response uses. */
  function MessageBody(text: string): Json
  {
    JObj(map["message" := JStr(text)])
  }
}
