/** The values the gateway client works with. HTTP, JSON decoding and file reads
    are not modelled as effects: a reply from the server, its decoded body and the
    contents of local files are plain inputs of the operations. */
module Types {

  datatype Option<+T> = None | Some(value: T) {
    function GetOr(default: T): T {
      match this
      case Some(v) => v
      case None => default
    }
  }

  newtype byte = b: int | 0 <= b < 256
  type Bytes = seq<byte>

  /** A decoded JSON document, as Python's json module presents it
      (floating-point numbers are not modelled). */
  datatype Value =
    | Null
    | Bool(b: bool)
    | Int(i: int)
    | Str(s: string)
    | List(items: seq<Value>)
    | Object(fields: map<string, Value>)

  /** The outcome of decoding a response body: `resp.json()` and
      `json.loads(resp.content)` either give a value or raise. */
  datatype Body = Decoded(value: Value) | Undecodable

  /** A response as the HTTP library hands it over: the status code, the raw
      content and what decoding that content as JSON gives. */
  datatype Response = Response(status: int, content: Bytes, json: Body)

  /** What one HTTP call yields: a response, or an exception from the transport. */
  datatype Reply = Replied(response: Response) | TransportFailure

  datatype Verb = GET | POST | PUT | DELETE

  /** A request the client issues; the payload is the JSON body, if any. */
  datatype Request = Request(verb: Verb, url: string, payload: Option<Value>)

  /** The exceptions an operation can end with. `ApiError` is
      SignalCliRestApiError; its message is whatever object was passed to it
      (usually a string), and `chained` records that it was raised from a cause.
      The others are the foreign exceptions that can arise inside the client. */
  datatype Exc =
    | ApiError(message: Value, chained: bool)
    | KeyError
    | TypeError
    | DecodeError
    | ConnectionError
    | FileError

  datatype Result<+T> = Ok(value: T) | Err(error: Exc)

  /** What an operation does: the requests it issues, in order, and how it ends. */
  datatype Call<+T> = Call(sent: seq<Request>, outcome: Result<T>)

  /** What `api_info` returns: the advertised versions and the build number. */
  datatype Info = Info(versions: Value, build: Value)

  datatype Credentials = Credentials(user: string, password: string)

  /** The client's configuration, fixed at construction. Credentials and the TLS
      flag are only forwarded to the transport. */
  datatype Client = Client(baseUrl: string, number: string, auth: Option<Credentials>, verifySsl: bool)
}
