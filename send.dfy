/** `send_message`: query the server's capabilities, refuse several files
    against a server without "v2", pick the v2 or the legacy v1 endpoint and
    build the matching payload, then POST it. */
module Send {
  import opened Types
  import opened Lookup
  import opened Errors
  import opened SignalCliRestApi

  const NotCapableMessage: string :=
    "This signal-cli-rest-api version is not capable of sending multiple attachments. Please upgrade your signal-cli-rest-api docker container!"

  /** The file names given, `[]` standing for None. */
  function Names(filenames: Option<seq<string>>): seq<string> {
    if filenames.None? then [] else filenames.value
  }

  /** The raw-byte attachments given, `[]` standing for None. */
  function Blobs(attachments: Option<seq<Bytes>>): seq<Bytes> {
    if attachments.None? then [] else attachments.value
  }

  predicate Multiple(filenames: Option<seq<string>>) {
    filenames.Some? && |filenames.value| > 1
  }

  predicate SingleFile(filenames: Option<seq<string>>) {
    filenames.Some? && |filenames.value| == 1
  }

  /** Every named file can be opened. */
  predicate Readable(names: seq<string>, files: map<string, Bytes>) {
    forall i :: 0 <= i < |names| ==> names[i] in files
  }

  /** The comprehension `[bytes_to_base64(a) for a in blobs]`. */
  function EncodeAll(b64: Bytes -> string, blobs: seq<Bytes>): (r: seq<string>)
    ensures |r| == |blobs|
    ensures forall i :: 0 <= i < |blobs| ==> r[i] == b64(blobs[i])
  {
    if blobs == [] then [] else [b64(blobs[0])] + EncodeAll(b64, blobs[1..])
  }

  /** The v2 attachment list: the encodings of the raw-byte attachments in
      their order, then those of the named files in theirs; opening a missing
      file fails the whole list. */
  function V2Attachments(b64: Bytes -> string, attachments: Option<seq<Bytes>>,
                         filenames: Option<seq<string>>, files: map<string, Bytes>): (r: Result<seq<string>>)
    ensures r.Ok? <==> Readable(Names(filenames), files)
    ensures r.Err? ==> r.error == FileError
    ensures r.Ok? ==> |r.value| == |Blobs(attachments)| + |Names(filenames)|
    ensures r.Ok? ==> forall i :: 0 <= i < |Blobs(attachments)| ==> r.value[i] == b64(Blobs(attachments)[i])
    ensures r.Ok? ==> forall j :: 0 <= j < |Names(filenames)| ==>
              r.value[|Blobs(attachments)| + j] == b64(files[Names(filenames)[j]])
  {
    var names := Names(filenames);
    if Readable(names, files) then
      var contents := seq(|names|, i requires 0 <= i < |names| && names[i] in files => files[names[i]]);
      Ok(EncodeAll(b64, Blobs(attachments)) + EncodeAll(b64, contents))
    else Err(FileError)
  }

  function SendUrl(c: Client, v2: bool): string {
    c.baseUrl + (if v2 then "/v2/send" else "/v1/send")
  }

  /** The fields every send payload starts with. */
  function BasePayload(c: Client, message: string, recipients: seq<string>): map<string, Value> {
    map["message" := Str(message), "number" := Str(c.number)]["recipients" := List(Strs(recipients))]
  }

  /** The JSON object a request carries, `map[]` when it carries none. */
  function PayloadOf(req: Request): map<string, Value> {
    if req.payload.Some? && req.payload.value.Object? then req.payload.value.fields else map[]
  }

  /** The request `send_message` plans once it knows the advertised versions,
      or the exception that stops it before the POST. The capability tests
      stand outside the method's try block, so a versions value that is not a
      container raises a raw TypeError; a file that cannot be opened is inside
      it and gives the "Couldn't send" error. */
  function PlanSend(c: Client, versions: Value, message: string, recipients: seq<string>,
                    filenames: Option<seq<string>>, attachments: Option<seq<Bytes>>,
                    files: map<string, Bytes>, b64: Bytes -> string): (r: Result<Request>)
    // several files against a server without "v2": refused up front
    ensures Multiple(filenames) && HasV2(versions) == Ok(false) ==>
              r == Err(ApiError(Str(NotCapableMessage), false))
    ensures HasV2(versions).Err? ==> r == Err(TypeError)
    // endpoint and the fields every payload holds
    ensures r.Ok? ==> && HasV2(versions).Ok?
                      && r.value.verb == POST
                      && r.value.url == SendUrl(c, HasV2(versions).value)
                      && r.value.payload.Some? && r.value.payload.value.Object?
                      && "message" in PayloadOf(r.value) && PayloadOf(r.value)["message"] == Str(message)
                      && "number" in PayloadOf(r.value) && PayloadOf(r.value)["number"] == Str(c.number)
                      && "recipients" in PayloadOf(r.value)
                      && PayloadOf(r.value)["recipients"] == List(Strs(recipients))
                      && "attachments_as_bytes" !in PayloadOf(r.value)
    // v2: one ordered list of every attachment, present even when empty
    ensures HasV2(versions) == Ok(true) ==>
              && (r.Ok? <==> Readable(Names(filenames), files))
              && (r.Err? ==> r.error == Couldnt(Sending))
              && (r.Ok? ==> && PayloadOf(r.value).Keys == BasePayload(c, message, recipients).Keys + {"base64_attachments"}
                            && PayloadOf(r.value)["base64_attachments"]
                                 == List(Strs(V2Attachments(b64, attachments, filenames, files).value)))
    // v1: at most the single named file, as a scalar; raw bytes are dropped
    ensures HasV2(versions) == Ok(false) && !Multiple(filenames) ==>
              && (r.Ok? <==> (SingleFile(filenames) ==> filenames.value[0] in files))
              && (r.Err? ==> r.error == Couldnt(Sending))
              && (r.Ok? ==> && "base64_attachments" !in PayloadOf(r.value)
                            && ("base64_attachment" in PayloadOf(r.value) <==> SingleFile(filenames))
                            && PayloadOf(r.value).Keys <= BasePayload(c, message, recipients).Keys + {"base64_attachment"}
                            && (SingleFile(filenames) ==>
                                  PayloadOf(r.value)["base64_attachment"] == Str(b64(files[filenames.value[0]]))))
  {
    var v2 := HasV2(versions);
    if Multiple(filenames) && v2 == Ok(false) then Err(ApiError(Str(NotCapableMessage), false))
    else if v2.Err? then Err(v2.error)
    else
      var url := SendUrl(c, v2.value);
      var data := BasePayload(c, message, recipients);
      if v2.value then
        match V2Attachments(b64, attachments, filenames, files)
        case Err(e) => Rewrap(Sending, Err(e))
        case Ok(encoded) => Ok(Request(POST, url, Some(Object(data["base64_attachments" := List(Strs(encoded))]))))
      else if SingleFile(filenames) then
        var name := filenames.value[0];
        if name in files then Ok(Request(POST, url, Some(Object(data["base64_attachment" := Str(b64(files[name]))]))))
        else Rewrap(Sending, Err(FileError))
      else Ok(Request(POST, url, Some(Object(data))))
  }

  /** Against a server without "v2" the raw-byte attachments make no difference
      to what is sent: the legacy path drops them. */
  lemma LegacyPlanIgnoresBytes(c: Client, versions: Value, message: string, recipients: seq<string>,
                               filenames: Option<seq<string>>, files: map<string, Bytes>, b64: Bytes -> string,
                               a1: Option<seq<Bytes>>, a2: Option<seq<Bytes>>)
    requires HasV2(versions) == Ok(false)
    ensures PlanSend(c, versions, message, recipients, filenames, a1, files, b64)
         == PlanSend(c, versions, message, recipients, filenames, a2, files, b64)
  {
  }

  /** The 404 fallback as written (the string "v1") and as intended (the list
      ["v1"]) lead to the same plan, so the send path is not affected by it. */
  lemma LegacyFallbackPlansAlike(c: Client, resp: Response, message: string, recipients: seq<string>,
                                 filenames: Option<seq<string>>, attachments: Option<seq<Bytes>>,
                                 files: map<string, Bytes>, b64: Bytes -> string)
    requires resp.status == 404
    ensures var written := ApiInfoAsWritten(c, Replied(resp)).outcome.value.versions;
            var intended := ApiInfo(c, Replied(resp)).outcome.value.versions;
            PlanSend(c, written, message, recipients, filenames, attachments, files, b64)
              == PlanSend(c, intended, message, recipients, filenames, attachments, files, b64)
  {
    LegacyFallbackBindsString(c, resp);
  }

  /** The v2 attachment list as the client builds it: the encodings of the
      raw-byte attachments, then one file at a time opened, encoded and
      appended to the list. */
  method CollectV2Attachments(b64: Bytes -> string, attachments: Option<seq<Bytes>>,
                              filenames: Option<seq<string>>, files: map<string, Bytes>)
    returns (r: Result<seq<string>>)
    ensures r == V2Attachments(b64, attachments, filenames, files)
  {
    var blobs := Blobs(attachments);
    var encoded := EncodeAll(b64, blobs);
    if filenames.Some? {
      var names := filenames.value;
      for i := 0 to |names|
        invariant |encoded| == |blobs| + i
        invariant forall k :: 0 <= k < |blobs| ==> encoded[k] == b64(blobs[k])
        invariant forall j :: 0 <= j < i ==> names[j] in files && encoded[|blobs| + j] == b64(files[names[j]])
      {
        if names[i] !in files {
          assert !Readable(Names(filenames), files);
          return Err(FileError);
        }
        encoded := encoded + [b64(files[names[i]])];
      }
    }
    ghost var spec := V2Attachments(b64, attachments, filenames, files);
    assert spec.Ok? && |spec.value| == |encoded|;
    forall k | |blobs| <= k < |encoded| ensures encoded[k] == spec.value[k] {
      var j := k - |blobs|;
      assert encoded[|blobs| + j] == spec.value[|blobs| + j];
    }
    assert encoded == spec.value;
    r := Ok(encoded);
  }

  /** The planned request as the client builds it: the payload dictionary is built
      field by field and, for v2, the file encodings are appended to the list
      one file at a time. */
  method BuildSendRequest(c: Client, versions: Value, message: string, recipients: seq<string>,
                          filenames: Option<seq<string>>, attachments: Option<seq<Bytes>>,
                          files: map<string, Bytes>, b64: Bytes -> string) returns (r: Result<Request>)
    ensures r == PlanSend(c, versions, message, recipients, filenames, attachments, files, b64)
  {
    var v2 := HasV2(versions);
    if filenames.Some? && |filenames.value| > 1 {
      if v2.Err? {
        return Err(v2.error);
      }
      if !v2.value {
        return Err(ApiError(Str(NotCapableMessage), false));
      }
    }
    if v2.Err? {
      return Err(v2.error);
    }
    var url := c.baseUrl + "/v2/send";
    if !v2.value {
      url := c.baseUrl + "/v1/send";
    }
    var data := map["message" := Str(message), "number" := Str(c.number)];
    data := data["recipients" := List(Strs(recipients))];
    if v2.value {
      var encoded := CollectV2Attachments(b64, attachments, filenames, files);
      if encoded.Err? {
        return Rewrap(Sending, Err(encoded.error));
      }
      data := data["base64_attachments" := List(Strs(encoded.value))];
    } else if filenames.Some? && |filenames.value| == 1 {
      var name := filenames.value[0];
      if name !in files {
        return Rewrap(Sending, Err(FileError));
      }
      data := data["base64_attachment" := Str(b64(files[name]))];
    }
    r := Ok(Request(POST, url, Some(Object(data))));
  }

  /** `send_message`: the capability query always goes out first (nothing is
      cached) and its result is unpacked as written, so a 404 gives versions
      the string "v1" (LegacyFallbackPlansAlike shows this plans what the
      list ["v1"] would); its failure ends the call; a refused or failed plan ends it
      before the POST; otherwise the planned request is POSTed and its reply
      judged by the shared rule with 201 as the only success. */
  method SendMessage(c: Client, message: string, recipients: seq<string>,
                     filenames: Option<seq<string>>, attachments: Option<seq<Bytes>>,
                     files: map<string, Bytes>, b64: Bytes -> string,
                     about: Reply, reply: Reply) returns (call: Call<()>)
    ensures |call.sent| >= 1 && call.sent[0] == AboutRequest(c)
    ensures var info := ApiInfoAsWritten(c, about).outcome;
            info.Err? ==> call.sent == [AboutRequest(c)] && call.outcome == Err(info.error)
    ensures var info := ApiInfoAsWritten(c, about).outcome;
            info.Ok? ==>
              var plan := PlanSend(c, info.value.versions, message, recipients, filenames, attachments, files, b64);
              && (plan.Err? ==> call.sent == [AboutRequest(c)] && call.outcome == Err(plan.error))
              && (plan.Ok? ==> call.sent == [AboutRequest(c), plan.value] && ObeysErrorRule(Sending, reply, call.outcome))
    ensures call.outcome.Ok? <==>
              && ApiInfoAsWritten(c, about).outcome.Ok?
              && PlanSend(c, ApiInfoAsWritten(c, about).outcome.value.versions, message, recipients,
                          filenames, attachments, files, b64).Ok?
              && reply.Replied? && reply.response.status == 201
  {
    var info := ApiInfoAsWritten(c, about);
    if info.outcome.Err? {
      return Call(info.sent, Err(info.outcome.error));
    }
    var plan := BuildSendRequest(c, info.outcome.value.versions, message, recipients,
                                 filenames, attachments, files, b64);
    if plan.Err? {
      return Call(info.sent, Err(plan.error));
    }
    var posted := match reply
                  case TransportFailure => Err(ConnectionError)
                  case Replied(resp) => CheckStatus(Sending, resp.status, resp.json);
    call := Call(info.sent + [plan.value], Rewrap(Sending, posted));
  }
}
