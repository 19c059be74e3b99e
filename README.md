# pysignalclirestapi client core in Dafny

A model of the decision logic of `SignalCliRestApi`, the Python client for the
signal-cli REST gateway (`pysignalclirestapi/api.py`). The client itself is HTTP
plumbing; what it decides, and what this project states and proves, is:

- **Capability interpretation** (`api_info`, `mode`): how an "about" reply becomes a
  (versions, build) pair or a mode string, with the fixed legacy fallback on 404 and
  the defaults for missing fields.
- **Send planning** (`send_message`): refusing several files against a server that
  does not advertise "v2"; choosing `/v2/send` or `/v1/send`; building the payload.
  The v2 payload holds one ordered list of every attachment: raw-byte attachments
  first, then the named files. The legacy v1 payload holds at most one file, as a
  scalar field. It silently drops raw-byte attachments, and the model keeps that.
- **The response and error rule** shared by every other operation. A status outside
  the operation's success set fails with the body's `"error"` field, or with a fixed
  "Unknown error while ..." text. The operation's catch-all passes a
  SignalCliRestApiError through unchanged. It replaces any other exception with a
  "Couldn't ..." error raised from that cause. After a success status the only
  failure is an exception while handling the body, and it ends as that
  "Couldn't ..." error.

Effects become inputs:

- The server's reply is a `Reply`: a `Response` (status, raw content, the decoded
  JSON body or `Undecodable`) or a `TransportFailure`.
- Local files are a map from name to bytes. A missing name is a file that cannot
  be opened.
- Base64 encoding (`helpers.bytes_to_base64`) is a function parameter `b64`.
  `helpers` is not part of this model, so nothing is claimed about the encoding.

Every operation returns a `Call`: the requests it issued, in order, and its outcome
(a value, or the exception it ends with).

Modules:

- `Types` (types.dfy): the data model.
- `Lookup` (lookup.dfy): Python's `in` and `[]` on decoded JSON. On an object they
  test and read keys. On a list, `in` tests elements; on a string it tests
  substrings. Anything else raises TypeError.
- `Errors` (errors.dfy): success sets, messages, the status check and the catch-all.
- `SignalCliRestApi` (client.dfy): every operation except sending.
- `Send` (send.dfy): the send path. `PlanSend` is the specification of the plan.
  `CollectV2Attachments` and `BuildSendRequest` are the imperative code as the
  client runs it: the payload dictionary is built field by field, and the file
  encodings are appended in a loop. Both are proved equal to their specifications.

Behaviour of the code that the model keeps:

- `mode` has no try block, so transport, decoding and lookup exceptions escape
  it unchanged (pysignalclirestapi/api.py:87-96).
- `send_message` makes its two `"v2" in api_versions` tests before its try block
  (pysignalclirestapi/api.py:222-230). A server whose "versions" field is not a
  container (an integer, say) makes it raise a raw TypeError.
- `send_message` calls `api_info` outside its try block
  (pysignalclirestapi/api.py:221), so a failing `api_info` ends the send with the
  version-detection error unchanged.
- A failed reply whose JSON body is a list or a string is judged by Python's `in`:
  without an "error" element or substring it gives the "Unknown error while ..."
  text; with one, `body["error"]` raises TypeError and the catch-all turns that
  into the "Couldn't ..." error.

## Model

| member | source | states |
|---|---|---|
| `Errors.CheckStatus` | pysignalclirestapi/api.py:284-288 | success exactly on a status in the operation's success set; otherwise the error is the body's "error" value, or the operation's "Unknown error while ..." text when an object body has none; an undecodable body gives the decoding exception; a list or string body gives the "Unknown error while ..." text when `"error" in body` is false and a raw TypeError when it is true; any other body a raw TypeError |
| `Errors.Rewrap` | pysignalclirestapi/api.py:339-342 | a SignalCliRestApiError passes through unchanged, any other exception becomes the operation's "Couldn't ..." error raised from a cause, success is untouched; afterwards only SignalCliRestApiError can come out |
| `SignalCliRestApi.ApiInfo` | pysignalclirestapi/api.py:60-77 | issues GET /v1/about; on 404 returns versions ["v1"] and build 1 whatever the body; otherwise succeeds exactly when the body is an object with "versions", returning that value and "build" or 1; every failure, transport included, is "Couldn't determine REST API version" raised from its cause |
| `SignalCliRestApi.ApiInfoAsWritten` | pysignalclirestapi/api.py:63-64 | as written, on 404 it issues only GET /v1/about and a caller unpacking the result gets versions bound to the string "v1" and build 1; on every other reply it agrees with ApiInfo |
| `SignalCliRestApi.LegacyFallbackBindsString` | pysignalclirestapi/api.py:63-64 | on 404 the as-written versions differ from the intended list: `"v" in versions` holds for the string and not for the list, while the "v2" test send_message makes is false for both |
| `SignalCliRestApi.Mode` | pysignalclirestapi/api.py:87-96 | for any status, an object body gives its "mode" or "unknown"; it succeeds exactly on an object body; its failures are never SignalCliRestApiError (nothing is wrapped) |
| `SignalCliRestApi.CreateGroup` | pysignalclirestapi/api.py:107-126 | POSTs members and name to /v1/groups/{number}; obeys the error rule with success set {200, 201}; succeeds exactly on such a status with an "id" in an object body, returning that id; on such a status without one (or with a body that is not an object or does not decode) fails with "Couldn't create Signal Messenger group: " |
| `SignalCliRestApi.GetJson` | pysignalclirestapi/api.py:136-150 | the shape list_groups and receive (api.py:160-174) share: one GET to the given URL; the body is decoded before the status is looked at; obeys the error rule with success set {200}, so an undecodable body on 200 fails with the operation's "Couldn't ..." error; succeeds exactly on 200 with a decodable body, returning it |
| `SignalCliRestApi.ListGroups` | pysignalclirestapi/api.py:136-150 | GETs /v1/groups/{number}; obeys the error rule with success set {200}; succeeds exactly on 200 with a decodable body, returning it; on 200 with a body that does not decode fails with "Couldn't list Signal Messenger groups: " |
| `SignalCliRestApi.Receive` | pysignalclirestapi/api.py:160-174 | GETs /v1/receive/{number}; obeys the error rule with success set {200}; succeeds exactly on 200 with a decodable body, returning it; on 200 with a body that does not decode fails with "Couldn't receive Signal Messenger data: " |
| `SignalCliRestApi.UpdateProfile` | pysignalclirestapi/api.py:186-207 | an unreadable picture file ends the call with "Couldn't update profile: " before any request; otherwise PUTs the name, plus "base64_avatar" holding the file's encoding exactly when a file is named; obeys the error rule with success set {204}; succeeds exactly on 204 |
| `SignalCliRestApi.ListAttachments` | pysignalclirestapi/api.py:281-294 | GETs /v1/attachments; obeys the error rule with success set {200}; succeeds exactly on 200 with a decodable body, returning it; on 200 with a body that does not decode fails with "Couldn't list attachments: " |
| `SignalCliRestApi.GetAttachment` | pysignalclirestapi/api.py:305-319 | GETs /v1/attachments/{id}; obeys the error rule with success set {200}; succeeds exactly on 200, returning the raw content undecoded |
| `SignalCliRestApi.DeleteAttachment` | pysignalclirestapi/api.py:330-342 | DELETEs /v1/attachments/{id}; obeys the error rule with success set {204}; succeeds exactly on 204 |
| `Send.EncodeAll` | pysignalclirestapi/api.py:244-246 | the encodings keep the count and the order of the raw-byte attachments |
| `Send.V2Attachments` | pysignalclirestapi/api.py:240-252 | succeeds exactly when every named file can be opened; then holds one entry per raw-byte attachment and per file, the raw-byte encodings first in input order and then the file encodings in filename order |
| `Send.CollectV2Attachments` | pysignalclirestapi/api.py:240-251 | the loop that appends one file encoding at a time computes V2Attachments |
| `Send.PlanSend` | pysignalclirestapi/api.py:221-257 | several files without "v2" is refused with the "not capable of sending multiple attachments" error; the endpoint is /v2/send exactly when "v2" is advertised, else /v1/send; the payload always carries message, number and recipients and never attachments_as_bytes; v2 adds base64_attachments, present even when empty and equal to V2Attachments, and fails with "Couldn't send signal message" exactly when a file cannot be opened; v1 adds base64_attachment exactly when one file is named, holding its encoding, and never base64_attachments |
| `Send.LegacyFallbackPlansAlike` | pysignalclirestapi/api.py:63-64 | on 404 the as-written versions (the string "v1") and the intended list ["v1"] give the same send plan, for every message, recipients, files and attachments |
| `Send.LegacyPlanIgnoresBytes` | pysignalclirestapi/api.py:253-257 | without "v2" the plan does not depend on the raw-byte attachments |
| `Send.BuildSendRequest` | pysignalclirestapi/api.py:221-257 | the step-by-step construction of URL and payload computes PlanSend |
| `Send.SendMessage` | pysignalclirestapi/api.py:221-270 | the capability query always goes first and its result is unpacked as written (ApiInfoAsWritten); its failure ends the call with that error and nothing more sent; a refused or failed plan ends it with no POST; otherwise exactly the planned request is POSTed and the reply obeys the error rule with success set {201}; success exactly when capabilities are read, the plan succeeds and the reply is 201 |

## Left out

- HTTP transport (`requests.get/post/put/delete`), basic-auth credentials and the
  `verify_ssl` flag: foreign network calls. A reply is an input. Credentials and
  the flag are carried in `Client` and not interpreted.
- The authentication classes (pysignalclirestapi/api.py:18-33): they only forward a
  library object.
- The constructor's type assertion on `auth` (pysignalclirestapi/api.py:45-48).
  `Client` is a plain value.
- JSON decoding: the decoded body (or `Undecodable`) is an input next to the raw
  content. JSON floating-point numbers are not modelled.
- File I/O: contents are an input map, and a missing name stands for any failure
  to open or read.
- `bytes_to_base64`: a parameter with no properties assumed. `helpers` is not part
  of this model.
- `raise_from`: only the fact that a cause exists is recorded (`chained`).
- Exception classes other than SignalCliRestApiError appear as a few kinds
  (KeyError, TypeError, DecodeError, ConnectionError, FileError). The exact-class
  test `exc.__class__ ==` is read as the `ApiError?` test. Every
  SignalCliRestApiError the client raises is of exactly that class.
- Python accepts any objects for message, recipients and members. The model takes
  strings and lists of strings.
- `Mode` does not say which raw exception escapes for each bad reply.

## Findings

| source | as written | input that shows it | evidently intended | confidence | as-written member | corrected member |
|---|---|---|---|---|---|---|
| pysignalclirestapi/api.py:63-64 | on 404 `api_info` returns the two-element list `["v1", 1]`, so `versions, build = api_info()` binds versions to the string `"v1"` | any reply with status 404: then `"v" in versions` is true and `len(versions)` is 2 | versions the list `["v1"]` and build 1, as the docstring's tuple and the non-404 path give | high; not executed | `SignalCliRestApi.LegacyFallbackBindsString` | `SignalCliRestApi.ApiInfo` |

`SignalCliRestApi.ApiInfoAsWritten` models the code as written, and
`Send.SendMessage` unpacks it as `send_message` does. `Send.LegacyFallbackPlansAlike`
proves that the discrepancy does not change `send_message`: on 404 the send plan
from the string "v1" equals the plan from the corrected list ["v1"], because the
substring test for "v2" on "v1" is false, like the list test.
