/** The operations of the SignalCliRestApi client other than sending a message.
    Each takes the server's reply as an input and returns the requests it
    issues together with its outcome. */
module SignalCliRestApi {
  import opened Types
  import opened Lookup
  import opened Errors

  const VersionError: string := "Couldn't determine REST API version"

  /** The capability query both `api_info` and `mode` issue. */
  function AboutRequest(c: Client): Request {
    Request(GET, c.baseUrl + "/v1/about", None)
  }

  /** The fields `api_info` reads from a decoded "about" body: "versions" is
      required, "build" defaults to 1. Exceptions come out raw. */
  function AboutFields(data: Value): Result<Info> {
    match Subscript(data, "versions")
    case Err(e) => Err(e)
    case Ok(versions) =>
      match OrOnKeyError(Subscript(data, "build"), Int(1))
      case Err(e) => Err(e)
      case Ok(build) => Ok(Info(versions, build))
  }

  /** `api_info`: a 404 means a server too old to answer, taken as version
      "v1", build 1, whatever the body; otherwise the body's "versions" and
      its "build" or 1. Any failure on the way is reported as the single
      version error, raised from its cause. */
  function ApiInfo(c: Client, reply: Reply): (call: Call<Info>)
    ensures call.sent == [AboutRequest(c)]
    ensures reply.Replied? && reply.response.status == 404 ==>
              call.outcome == Ok(Info(List([Str("v1")]), Int(1)))
    ensures reply.Replied? && reply.response.status != 404 ==>
              (call.outcome.Ok? <==> Field(reply.response.json, "versions").Some?)
    ensures reply.Replied? && reply.response.status != 404 && call.outcome.Ok? ==>
              call.outcome.value == Info(Field(reply.response.json, "versions").value,
                                         Field(reply.response.json, "build").GetOr(Int(1)))
    ensures reply.TransportFailure? ==> call.outcome.Err?
    ensures call.outcome.Err? ==> call.outcome.error == ApiError(Str(VersionError), true)
  {
    var sent := [AboutRequest(c)];
    match reply
    case TransportFailure => Call(sent, Err(ApiError(Str(VersionError), true)))
    case Replied(resp) =>
      if resp.status == 404 then Call(sent, Ok(Info(List([Str("v1")]), Int(1))))
      else
        var fields := match resp.json
                      case Undecodable => Err(DecodeError)
                      case Decoded(data) => AboutFields(data);
        match fields
        case Err(_) => Call(sent, Err(ApiError(Str(VersionError), true)))
        case Ok(info) => Call(sent, Ok(info))
  }

  /** `api_info` as written: the 404 fallback is the two-element list
      ["v1", 1], so a caller unpacking it into (versions, build) binds
      versions to the string "v1". Every other reply is handled as in ApiInfo. */
  function ApiInfoAsWritten(c: Client, reply: Reply): (call: Call<Info>)
    ensures reply.Replied? && reply.response.status == 404 ==>
              call.sent == [AboutRequest(c)] && call.outcome == Ok(Info(Str("v1"), Int(1)))
    ensures !(reply.Replied? && reply.response.status == 404) ==> call == ApiInfo(c, reply)
  {
    if reply.Replied? && reply.response.status == 404
    then Call([AboutRequest(c)], Ok(Info(Str("v1"), Int(1))))
    else ApiInfo(c, reply)
  }

  /** The 404 fallback as written differs from the intended list ["v1"]: a
      membership test for "v" succeeds on it (substring of "v1") and fails on
      the list. The test send_message makes, for "v2", agrees on both. */
  lemma LegacyFallbackBindsString(c: Client, resp: Response)
    requires resp.status == 404
    ensures var written := ApiInfoAsWritten(c, Replied(resp)).outcome.value.versions;
            var intended := ApiInfo(c, Replied(resp)).outcome.value.versions;
            && written != intended
            && Contains(written, "v") == Ok(true)
            && Contains(intended, "v") == Ok(false)
            && HasV2(written) == HasV2(intended) == Ok(false)
  {
    assert OccursAt("v", "v1", 0) by { assert "v1"[0..1] == "v"; }
    assert !IsSubstring("v2", "v1") by {
      forall i | 0 <= i <= |"v1"| - |"v2"| ensures !OccursAt("v2", "v1", i) {
        assert "v1"[0..2][1] != "v2"[1];
      }
    }
    assert Str("v") != Str("v1") by { assert |"v"| != |"v1"|; }
    assert Str("v2") != Str("v1") by { assert "v2"[1] != "v1"[1]; }
  }

  /** `mode`: the body's "mode" field, or "unknown" when the body is an object
      without one. There is no status check and no catch-all: transport,
      decoding and lookup exceptions reach the caller as they are. */
  function Mode(c: Client, reply: Reply): (call: Call<Value>)
    ensures call.sent == [AboutRequest(c)]
    ensures reply.Replied? && reply.response.json.Decoded? && reply.response.json.value.Object? ==>
              call.outcome == Ok(Field(reply.response.json, "mode").GetOr(Str("unknown")))
    ensures call.outcome.Ok? <==> reply.Replied? && reply.response.json.Decoded? && reply.response.json.value.Object?
    ensures call.outcome.Err? ==> !call.outcome.error.ApiError?
  {
    var sent := [AboutRequest(c)];
    match reply
    case TransportFailure => Call(sent, Err(ConnectionError))
    case Replied(resp) =>
      match resp.json
      case Undecodable => Call(sent, Err(DecodeError))
      case Decoded(data) => Call(sent, OrOnKeyError(Subscript(data, "mode"), Str("unknown")))
  }

  /** The status check of an operation whose request got `reply`. */
  function Checked(op: Operation, reply: Reply): Result<()> {
    match reply
    case TransportFailure => Err(ConnectionError)
    case Replied(resp) => CheckStatus(op, resp.status, resp.json)
  }

  /** `create_group`: POST the name and members; on 200 or 201 the result is
      the body's "id". */
  function CreateGroup(c: Client, name: string, members: seq<string>, reply: Reply): (call: Call<Value>)
    ensures call.sent == [Request(POST, c.baseUrl + "/v1/groups/" + c.number,
                                  Some(Object(map["members" := List(Strs(members)), "name" := Str(name)])))]
    ensures ObeysErrorRule(CreatingGroup, reply, call.outcome)
    ensures call.outcome.Ok? <==>
              reply.Replied? && reply.response.status in {200, 201} && Field(reply.response.json, "id").Some?
    ensures call.outcome.Ok? ==> call.outcome.value == Field(reply.response.json, "id").value
  {
    var url := c.baseUrl + "/v1/groups/" + c.number;
    var data := map["members" := List(Strs(members)), "name" := Str(name)];
    var inner :=
      match Checked(CreatingGroup, reply)
      case Err(e) => Err(e)
      case Ok(_) =>
        match reply.response.json
        case Undecodable => Err(DecodeError)
        case Decoded(json) => Subscript(json, "id");
    Call([Request(POST, url, Some(Object(data)))], Rewrap(CreatingGroup, inner))
  }

  /** The shape shared by `list_groups` and `receive`: GET, decode the body
      before looking at the status, return the decoded body on 200. */
  function GetJson(op: Operation, url: string, reply: Reply): (call: Call<Value>)
    requires op == ListingGroups || op == Receiving
    ensures call.sent == [Request(GET, url, None)]
    ensures ObeysErrorRule(op, reply, call.outcome)
    ensures call.outcome.Ok? <==>
              reply.Replied? && reply.response.status == 200 && reply.response.json.Decoded?
    ensures call.outcome.Ok? ==> call.outcome.value == reply.response.json.value
  {
    var inner :=
      match reply
      case TransportFailure => Err(ConnectionError)
      case Replied(resp) =>
        match resp.json
        case Undecodable => Err(DecodeError)
        case Decoded(json) =>
          match CheckStatus(op, resp.status, resp.json)
          case Err(e) => Err(e)
          case Ok(_) => Ok(json);
    Call([Request(GET, url, None)], Rewrap(op, inner))
  }

  /** `list_groups`: the decoded group list on 200. */
  function ListGroups(c: Client, reply: Reply): (call: Call<Value>)
    ensures call.sent == [Request(GET, c.baseUrl + "/v1/groups/" + c.number, None)]
    ensures ObeysErrorRule(ListingGroups, reply, call.outcome)
    ensures call.outcome.Ok? <==>
              reply.Replied? && reply.response.status == 200 && reply.response.json.Decoded?
    ensures call.outcome.Ok? ==> call.outcome.value == reply.response.json.value
  {
    GetJson(ListingGroups, c.baseUrl + "/v1/groups/" + c.number, reply)
  }

  /** `receive`: the decoded messages on 200. */
  function Receive(c: Client, reply: Reply): (call: Call<Value>)
    ensures call.sent == [Request(GET, c.baseUrl + "/v1/receive/" + c.number, None)]
    ensures ObeysErrorRule(Receiving, reply, call.outcome)
    ensures call.outcome.Ok? <==>
              reply.Replied? && reply.response.status == 200 && reply.response.json.Decoded?
    ensures call.outcome.Ok? ==> call.outcome.value == reply.response.json.value
  {
    GetJson(Receiving, c.baseUrl + "/v1/receive/" + c.number, reply)
  }

  /** `update_profile`: PUT the name and, when a picture file is named, its
      base64 encoding; the file is read before anything is sent. Success is 204. */
  function UpdateProfile(c: Client, name: string, filename: Option<string>, files: map<string, Bytes>,
                         b64: Bytes -> string, reply: Reply): (call: Call<()>)
    ensures filename.Some? && filename.value !in files ==>
              call.sent == [] && call.outcome == Err(Couldnt(UpdatingProfile))
    ensures filename.None? ==>
              call.sent == [Request(PUT, c.baseUrl + "/v1/profiles/" + c.number, Some(Object(map["name" := Str(name)])))]
    ensures filename.Some? && filename.value in files ==>
              call.sent == [Request(PUT, c.baseUrl + "/v1/profiles/" + c.number,
                                    Some(Object(map["name" := Str(name), "base64_avatar" := Str(b64(files[filename.value]))])))]
    ensures filename.None? || filename.value in files ==> ObeysErrorRule(UpdatingProfile, reply, call.outcome)
    ensures call.outcome.Ok? <==>
              (filename.None? || filename.value in files) && reply.Replied? && reply.response.status == 204
  {
    var url := c.baseUrl + "/v1/profiles/" + c.number;
    var data := map["name" := Str(name)];
    if filename.Some? && filename.value !in files then
      Call([], Rewrap(UpdatingProfile, Err(FileError)))
    else
      var data := if filename.Some? then data["base64_avatar" := Str(b64(files[filename.value]))] else data;
      Call([Request(PUT, url, Some(Object(data)))], Rewrap(UpdatingProfile, Checked(UpdatingProfile, reply)))
  }

  /** `list_attachments`: on 200 the decoded body. */
  function ListAttachments(c: Client, reply: Reply): (call: Call<Value>)
    ensures call.sent == [Request(GET, c.baseUrl + "/v1/attachments", None)]
    ensures ObeysErrorRule(ListingAttachments, reply, call.outcome)
    ensures call.outcome.Ok? <==>
              reply.Replied? && reply.response.status == 200 && reply.response.json.Decoded?
    ensures call.outcome.Ok? ==> call.outcome.value == reply.response.json.value
  {
    var inner :=
      match Checked(ListingAttachments, reply)
      case Err(e) => Err(e)
      case Ok(_) =>
        match reply.response.json
        case Undecodable => Err(DecodeError)
        case Decoded(json) => Ok(json);
    Call([Request(GET, c.baseUrl + "/v1/attachments", None)], Rewrap(ListingAttachments, inner))
  }

  /** `get_attachment`: on 200 the raw content, which is never decoded. */
  function GetAttachment(c: Client, id: string, reply: Reply): (call: Call<Bytes>)
    ensures call.sent == [Request(GET, c.baseUrl + "/v1/attachments/" + id, None)]
    ensures ObeysErrorRule(GettingAttachment, reply, call.outcome)
    ensures call.outcome.Ok? <==> reply.Replied? && reply.response.status == 200
    ensures call.outcome.Ok? ==> call.outcome.value == reply.response.content
  {
    var inner :=
      match Checked(GettingAttachment, reply)
      case Err(e) => Err(e)
      case Ok(_) => Ok(reply.response.content);
    Call([Request(GET, c.baseUrl + "/v1/attachments/" + id, None)], Rewrap(GettingAttachment, inner))
  }

  /** `delete_attachment`: DELETE, success is 204 and returns nothing. */
  function DeleteAttachment(c: Client, id: string, reply: Reply): (call: Call<()>)
    ensures call.sent == [Request(DELETE, c.baseUrl + "/v1/attachments/" + id, None)]
    ensures ObeysErrorRule(DeletingAttachment, reply, call.outcome)
    ensures call.outcome.Ok? <==> reply.Replied? && reply.response.status == 204
  {
    Call([Request(DELETE, c.baseUrl + "/v1/attachments/" + id, None)],
         Rewrap(DeletingAttachment, Checked(DeletingAttachment, reply)))
  }
}
