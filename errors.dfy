/** The response and error rule every wrapped operation of the client follows:
    a status outside the operation's success set becomes SignalCliRestApiError
    carrying the server's "error" field or a fixed "Unknown error while ..."
    text, and every exception caught by the operation that is not already a
    SignalCliRestApiError is replaced by one carrying a "Couldn't ..." text. */
module Errors {
  import opened Types
  import opened Lookup

  /** The operations that follow the rule, named after their messages. */
  datatype Operation =
    | CreatingGroup
    | ListingGroups
    | Receiving
    | UpdatingProfile
    | Sending
    | ListingAttachments
    | GettingAttachment
    | DeletingAttachment

  function SuccessCodes(op: Operation): set<int> {
    match op
    case CreatingGroup => {200, 201}
    case UpdatingProfile => {204}
    case DeletingAttachment => {204}
    case Sending => {201}
    case ListingGroups => {200}
    case Receiving => {200}
    case ListingAttachments => {200}
    case GettingAttachment => {200}
  }

  function UnknownMessage(op: Operation): string {
    match op
    case CreatingGroup => "Unknown error while creating Signal Messenger group"
    case ListingGroups => "Unknown error while listing Signal Messenger groups"
    case Receiving => "Unknown error while receiving Signal Messenger data"
    case UpdatingProfile => "Unknown error while updating profile"
    case Sending => "Unknown error while sending signal message"
    case ListingAttachments => "Unknown error while listing attachments"
    case GettingAttachment => "Unknown error while getting attachment"
    case DeletingAttachment => "Unknown error while deleting attachment"
  }

  function CouldntMessage(op: Operation): string {
    match op
    case CreatingGroup => "Couldn't create Signal Messenger group: "
    case ListingGroups => "Couldn't list Signal Messenger groups: "
    case Receiving => "Couldn't receive Signal Messenger data: "
    case UpdatingProfile => "Couldn't update profile: "
    case Sending => "Couldn't send signal message"
    case ListingAttachments => "Couldn't list attachments: "
    case GettingAttachment => "Couldn't get attachment: "
    case DeletingAttachment => "Couldn't delete attachment: "
  }

  /** The message a failed response carries when its body is a JSON object. */
  function ServerMessage(op: Operation, fields: map<string, Value>): Value {
    if "error" in fields then fields["error"] else Str(UnknownMessage(op))
  }

  /** The error an operation ends with when its own catch-all replaces an exception. */
  function Couldnt(op: Operation): Exc {
    ApiError(Str(CouldntMessage(op)), true)
  }

  /** The status check inside an operation's try block: accept a success
      status, otherwise decode the body and raise with its "error" field, or
      with the fixed text when the body has none. Exceptions from decoding or
      from looking into a body that is not an object come out raw here. */
  function CheckStatus(op: Operation, status: int, body: Body): (r: Result<()>)
    ensures r.Ok? <==> status in SuccessCodes(op)
    ensures r.Err? && body.Undecodable? ==> r.error == DecodeError
    ensures r.Err? && body.Decoded? && body.value.Object? ==>
              r.error == ApiError(ServerMessage(op, body.value.fields), false)
    ensures r.Err? && body.Decoded? && !body.value.Object? ==>
              r.error == (if Contains(body.value, "error") == Ok(false)
                          then ApiError(Str(UnknownMessage(op)), false)
                          else TypeError)
  {
    if status in SuccessCodes(op) then Ok(())
    else
      match body
      case Undecodable => Err(DecodeError)
      case Decoded(json) =>
        match Contains(json, "error")
        case Err(e) => Err(e)
        case Ok(false) => Err(ApiError(Str(UnknownMessage(op)), false))
        case Ok(true) =>
          match Subscript(json, "error")
          case Ok(message) => Err(ApiError(message, false))
          case Err(e) => Err(e)
  }

  /** The operation's catch-all: a SignalCliRestApiError passes through
      unchanged, any other exception is replaced by the "Couldn't ..." error. */
  function Rewrap<T(==)>(op: Operation, r: Result<T>): (w: Result<T>)
    ensures r.Ok? ==> w == r
    ensures r.Err? && r.error.ApiError? ==> w == r
    ensures r.Err? && !r.error.ApiError? ==> w == Err(Couldnt(op))
    ensures w.Err? ==> w.error.ApiError?
  {
    match r
    case Err(e) => if e.ApiError? then r else Err(Couldnt(op))
    case Ok(_) => r
  }

  /** The rule as the caller sees it, for an operation whose request went out
      and got `reply`: it only ever raises SignalCliRestApiError; a transport
      failure gives the "Couldn't ..." error; a status outside the success set
      always fails, with the server's "error" field or the "Unknown error ..."
      text when the body is an object, and with the "Couldn't ..." error when
      the body does not decode. A decoded body that is not an object gives the
      "Unknown error ..." text when `"error" in body` is false, and otherwise
      the "Couldn't ..." error (the membership test or the lookup raises).
      After a success status the only way to fail is an exception in handling
      the body, which the catch-all turns into the "Couldn't ..." error. */
  predicate ObeysErrorRule<T>(op: Operation, reply: Reply, outcome: Result<T>) {
    && (outcome.Err? ==> outcome.error.ApiError?)
    && (reply.TransportFailure? ==> outcome.Err? && outcome.error == Couldnt(op))
    && (reply.Replied? && reply.response.status in SuccessCodes(op) && outcome.Err? ==>
          outcome.error == Couldnt(op))
    && (reply.Replied? && reply.response.status !in SuccessCodes(op) ==>
          && outcome.Err?
          && (reply.response.json.Undecodable? ==> outcome.error == Couldnt(op))
          && (reply.response.json.Decoded? && reply.response.json.value.Object? ==>
                outcome.error == ApiError(ServerMessage(op, reply.response.json.value.fields), false))
          && (reply.response.json.Decoded? && !reply.response.json.value.Object? ==>
                outcome.error == (if Contains(reply.response.json.value, "error") == Ok(false)
                                  then ApiError(Str(UnknownMessage(op)), false)
                                  else Couldnt(op))))
  }
}
