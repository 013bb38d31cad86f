/** Message shapes shared by the Jules client and its tool bridge: JSON values,
    outgoing requests, what the transport hands back, and the three failure kinds. */
module Messages {

  datatype Option<+T> = None | Some(value: T) {
    function GetOr(default: T): T {
      match this
      case Some(v) => v
      case None => default
    }
  }

  /** HTTP verbs the client uses. */
  datatype Verb = GET | POST | DELETE

  /** Parsed JSON. The client never inspects it, so it is carried as a value and handed back unchanged. */
  datatype Json =
    | JNull
    | JBool(b: bool)
    | JNumber(n: int)
    | JString(s: string)
    | JArray(items: seq<Json>)
    | JObject(fields: map<string, Json>)

  /** One outgoing HTTP request: verb, absolute URL, headers and an optional JSON object body. */
  datatype Request = Request(verb: Verb, url: string, headers: map<string, string>, body: Option<map<string, Json>>)

  /** What the transport reports for a completed response when its text is decoded as JSON. */
  datatype Decoded = Parsed(value: Json) | NotJson(reason: string)

  /** The transport's answer to one request: a response, or a failure to complete
      (connection refused, timeout, ...). */
  datatype Exchange =
    | Completed(status: int, text: string, decoded: Decoded)
    | Failed(cause: string)

  /** The failure kinds a tool caller can observe. */
  datatype Failure =
    | ConfigurationError(message: string)
    | BackendError(status: int, text: string)
    | TransportError(cause: string)

  datatype Result<+T> = Ok(value: T) | Err(failure: Failure)

  /** The result of one client operation. */
  type Outcome = Result<Json>
}
