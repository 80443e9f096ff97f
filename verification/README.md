# godocage in Dafny

A model of the Go client `godocage` for the DocAge electronic-signature
service. The client offers ten operations, and each one sends an
authenticated HTTP request to `https://api.docage.com/`:

- create a contact, a transaction or a transaction member;
- upload a document;
- launch a transaction;
- get a transaction's status;
- send reminders;
- abort a transaction;
- download documents or proofs.

The model covers:

- **Response classification.** A response succeeds exactly when its status
  is 200 or 201, and then the body is returned verbatim. Any other status
  goes through `respErrorMaker`.
- **Error normalisation.** `respErrorMaker` builds `HTTP <code> <reason>`.
  For 429 it stops there. Otherwise it decodes the body as
  `{"error": …, "errors": [{"error": …}, …]}`, glues the top-level error
  directly to the nested errors joined with `", "`, and appends
  `, Message(s): <text>` when that text is not empty.
- **Request shape.** The GET/POST verb, the Basic credentials, the URL of
  each operation and the Content-Type rule: the header is sent only when the
  content type is non-empty.
- **`omitempty` encoding** of `Contact`, `TransactionMember` and
  `Transaction`. A field at its Go zero value (`""`, `false`, `0`, empty
  slice) is not written.
- **The integration scenario** of `godocage_test.go`.

Four facts about the code that a reader of the error text or the records
might not expect:

- The top-level error and the first nested error are glued with no
  separator, so `{"error":"A","errors":[{"error":"B"},{"error":"C"}]}` gives
  the text `AB, C`.
- Every nested error but the last is followed by ", ", even an empty one,
  and nothing is added after the last, even when it is empty. So
  `{"errors":[{"error":"B"},{"error":""}]}` on a 400 gives
  `HTTP 400 Bad Request, Message(s): B, ` with a trailing separator.
- `Contact` has 18 fields.
- `Transaction` has five e-mail subject/body pairs: invitation, reminder,
  signature, completion and refusal.

Modules, in dependency order:

| file | module | contents |
|---|---|---|
| wrappers.dfy | Wrappers | `Option`, `Result`, `Outcome` |
| text.dfy | Text | joining with `", "`, its inverse `Split`, decimal rendering of integers (`strconv.Itoa`) and its inverse |
| error_messages.dfy | ErrorMessages | `respErrorMaker` and the partners that read a message back |
| json.dfy | Json | JSON values and objects, `omitempty` omission, decoding lookups with Go's zero defaults |
| records.dfy | Records | the three records, their key lists, encoders and decoders |
| transport.dfy | Transport | requests, responses, `getResponse` / `postResponse` |
| operations.dfy | Operations | endpoints and URLs with their parser, the ten public operations |
| scenario.dfy | Scenario | the payloads of the test program |

Everything outside the program is a parameter of type `Env`:

- `roundTrip: Request -> Response` stands for the network.
- `decode: string -> Decoded` stands for Go's JSON decoder on an error body.
- `statusText: int -> string` stands for `http.StatusText`.

A file to upload is a `FileRead`: either its bytes or the read error.

## Model

| member | source | states |
|---|---|---|
| Text.JoinSnoc | godocage.go:97-102 | Joining parts plus one more equals the separator-terminated join of the earlier parts followed by the last part, which is how the loop builds the text |
| Text.JoinLast | godocage.go:97-102 | With two or more nested errors, the joined text ends with ", " and then the last error: no separator is added after the last error (the text still ends with ", " when that error is empty) |
| Text.JoinEmptyIff | godocage.go:97-104 | The joined nested errors are empty exactly when there are none, or there is a single empty one |
| Text.JoinCommaCount | godocage.go:97-102 | The join adds exactly one comma between each pair of neighbouring errors: commas in the result = commas in the parts + (count - 1) |
| Text.SplitJoin | godocage.go:97-102 | Splitting the joined text at ", " recovers the nested errors when there is at least one and none contains a comma, so the join loses no error |
| Text.IntToDecimal | godocage.go:78 | `strconv.Itoa`: digits only, with a leading '-' for negatives, no space and no leading zero (only 0 itself starts with '0'), and it parses back to the same integer under a parser that accepts only that canonical form |
| ErrorMessages.StatusLine | godocage.go:78 | "HTTP <code> <reason>" with the code in canonical decimal (no leading zero): the code and the reason phrase can both be read back from the line |
| ErrorMessages.ConcatErrors | godocage.go:95-103 | The source's loop (a separator after every nested error except the last) yields the top-level error followed directly by the nested errors joined with ", " |
| ErrorMessages.ErrorsText | godocage.go:95-103 | The provider text starts with the top-level error, and it is empty iff the top-level error is empty and there is no nested error or one empty one |
| ErrorMessages.Message | godocage.go:104-108 | The final message, the bare status line or status line + ", Message(s): " + text, yields its provider text back |
| ErrorMessages.MessageTextSound | godocage.go:104-108 | Only messages built that way are read back: a message that yields a provider text is the message of that text |
| ErrorMessages.RespError | godocage.go:77-110 | Never a read error. Every status message starts with the status line. 429 gives the bare status line. The error is the decoder's own failure exactly when the status is not 429 and the body does not decode, and that failure is passed through unchanged |
| ErrorMessages.RateLimitIgnoresBody | godocage.go:79-82 | For 429 the error is "HTTP 429 <reason>" for every body and every decoder |
| ErrorMessages.DecodedBodyMessage | godocage.go:95-108 | For a decoded body the message is the status line alone when the text is empty and status + ", Message(s): " + error + joined errors otherwise, and the text reads back from it |
| ErrorMessages.BareStatusIff | godocage.go:104-108 | A decoded body gives the bare status line exactly when its top-level error is empty and it has no nested error or one empty one |
| ErrorMessages.ExampleMessage | godocage.go:77-110 | A 400 with {"error":"A","errors":[{"error":"B"},{"error":"C"}]} gives "HTTP 400 Bad Request, Message(s): AB, C" |
| Json.OmitEmpty | godocage.go:25-75 | The omitempty encoding never grows an object and never writes an empty value |
| Json.OmitEmptyMembers | godocage.go:25-75 | A member is written iff it is among the fields and its value is not the zero value |
| Json.OmitRuns | godocage.go:25-75 | Omission keeps order: fields set, fields unset, fields set, fields unset encode as the two set runs in order |
| Json.LookupOmitEmpty | godocage.go:25-75 | With distinct keys, the encoded object yields nothing under the key of a zero field and the field's value under every other key |
| Json.KeyEmittedIff | godocage.go:25-75 | With distinct keys, a field's key is written iff its value is not the zero value |
| Records.EncodeContact | godocage.go:25-44 | The contact is written with distinct keys, all contact keys, and never an empty value |
| Records.ContactEmitsNonEmpty | godocage.go:25-44 | Each of the 18 contact keys is written iff the field is not "" |
| Records.ContactRoundTrip | godocage.go:25-44 | Decoding a contact's encoding into a zero contact gives the contact back |
| Records.EncodeMember | godocage.go:46-55 | The member is written with distinct keys, all member keys, and never a zero value |
| Records.MemberEmitsNonZero | godocage.go:46-55 | Each member key is written iff the field is non-empty, true or non-zero, field by field |
| Records.MemberRoundTrip | godocage.go:46-55 | Decoding a member's encoding gives the member back |
| Records.NotificationsAlwaysOnAtService | godocage.go:49-52 | A notification toggle set to false is never sent, so a reader that defaults absent toggles to true (as the comments document) sees all four on for every member |
| Records.EncodeTransaction | godocage.go:57-75 | The transaction is written with distinct keys, all transaction keys, and never a zero value (an empty member list included) |
| Records.TransactionEmitsNonZero | godocage.go:57-75 | Each of the 17 transaction keys is written iff the field is not its zero value (the member list iff it is non-empty) |
| Records.ZeroTransactionEncodesEmpty | godocage.go:57-75 | A zero transaction encodes as the empty object |
| Records.MembersRoundTrip | godocage.go:74 | The member list decodes back element by element |
| Records.TransactionRoundTrip | godocage.go:57-75 | Decoding a transaction's encoding gives the transaction back, nested members included |
| Transport.IsSuccess | godocage.go:127 | Only 200 and 201 are successes: every success is a 2xx status, but 202 Accepted and 204 No Content are not successes |
| Transport.GetRequest | godocage.go:112-118 | A GET of the URL with Basic credentials, no Content-Type and no body |
| Transport.PostRequest | godocage.go:137-146 | A POST of the payload with Basic credentials. Content-Type is present iff the content type is non-empty, with that value, and no other header is set |
| Transport.Classify | godocage.go:127-133 | Success iff the status is 200 or 201, with the body verbatim. Otherwise the error is respErrorMaker's for that status and body |
| Transport.Fetch | godocage.go:112-135 | getResponse sends the GET and succeeds iff the answer is 200 or 201, returning its body, otherwise respErrorMaker's error |
| Transport.Submit | godocage.go:137-166 | postResponse sends the POST and succeeds iff the answer is 200 or 201, returning its body, otherwise respErrorMaker's error |
| Transport.SameRuleForGetAndPost | godocage.go:127-131 | GET and POST apply the same success rule: the same response gives the same result |
| Operations.Path | godocage.go:169-280 | The path of each endpoint below the base URL; the endpoint, transaction id included, can be read back from the path |
| Operations.Url | godocage.go:169-280 | The URL text handed to `url.Parse`, the base URL followed by the path; the endpoint can be read back from it |
| Operations.UrlRoundTrip | godocage.go:169-280 | For the URL text before `url.Parse`: the endpoint can be parsed back from each operation's URL text, and a text parses to an endpoint only if it is that endpoint's URL text |
| Operations.UrlInjective | godocage.go:169-280 | For the URL text before `url.Parse`: distinct operations or transaction ids never build the same text |
| Operations.EndpointUrl | godocage.go:168-287 | The URL of each endpoint is the base URL followed by its path and, for per-transaction endpoints, the transaction id |
| Operations.MultipartContentType | godocage.go:215 | The multipart content type is never empty, so the upload always sends a Content-Type header, and it ends with the writer's boundary |
| Operations.RequestFor | godocage.go:137-287 | The request of each call: its URL and credentials; GET exactly for the five queries; Content-Type exactly on the four POSTs with a body (application/json, or multipart with the writer's boundary); no body exactly for the queries and launch; and the omitempty encoding of the record |
| Operations.Perform | godocage.go:112-166 | Every call succeeds iff its response is 200 or 201, returning the body, otherwise respErrorMaker's error |
| Operations.CreateContact | godocage.go:168-180 | POST to Contacts with the contact's omitempty JSON; success iff 200/201, returning the response body as the new id, otherwise respErrorMaker's error for the response |
| Operations.CreateTransaction | godocage.go:182-194 | POST to Transactions with the transaction's omitempty JSON; success iff 200/201, returning the response body as the new id, otherwise respErrorMaker's error for the response |
| Operations.AddTransactionMember | godocage.go:219-231 | POST to TransactionMembers with the member's omitempty JSON; success iff 200/201, returning the response body as the new id, otherwise respErrorMaker's error for the response |
| Operations.AddTransactionDocument | godocage.go:196-217 | POST to TransactionFiles of a multipart form with TransactionId, FileName and the Document file; success iff 200/201, otherwise respErrorMaker's error; a read failure of the file is returned as the error (corrected, see Findings) |
| Operations.AddTransactionDocumentAsWritten | godocage.go:196-217 | As the source is written: a read failure gives no error, and otherwise the result is the corrected upload's |
| Operations.UnreadableDocumentReportedAsUploaded | godocage.go:206-210 | A file whose read fails with "unexpected EOF" is reported as uploaded by the code as written, and as the read error by the corrected upload |
| Operations.LaunchTransaction | godocage.go:233-240 | POST to Transactions/LaunchTransaction/<id> with no body and no header; success iff 200/201, otherwise respErrorMaker's error |
| Operations.GetTransactionStatus | godocage.go:242-249 | GET of Transactions/Status/<id>; success iff 200/201, returning the response body, otherwise respErrorMaker's error for the response |
| Operations.SendTransactionReminders | godocage.go:251-258 | GET of SendReminders/<id>; success iff 200/201, returning the response body, otherwise respErrorMaker's error for the response |
| Operations.AbortTransaction | godocage.go:260-267 | GET of Abort/<id>; success iff 200/201, returning the response body, otherwise respErrorMaker's error for the response |
| Operations.GetAllTransactionDocuments | godocage.go:269-277 | GET of Transactions/DownloadDocument/<id>; success iff 200/201, returning the body undecoded, otherwise respErrorMaker's error for the response |
| Operations.GetTransactionProof | godocage.go:279-287 | GET of Transactions/DownloadProofFile/<id>; success iff 200/201, returning the body undecoded, otherwise respErrorMaker's error for the response |
| Scenario.ScenarioContactKeys | godocage_test.go:18-23 | The test contact is written as exactly Email, FirstName, LastName, Country, in that order |
| Scenario.ScenarioTransactionKeys | godocage_test.go:30-33 | The test transaction is written as exactly Name, IsTest |
| Scenario.ScenarioMemberKeys | godocage_test.go:46-51 | The test member, given non-empty ids, is written as exactly TransactionId, ContactId, SignMode |

## Left out

- HTTP execution, `httputil.DumpRequest`, logging and printing: the network is the `roundTrip` parameter and the dump has no effect on results.
- Basic-auth header encoding (base64 of `email:key`): a request carries the credentials themselves.
- `url.Parse` failures and URL escaping. The transaction id comes from the caller. When it holds a bad escape such as `%zz` or a control byte, `url.Parse` fails, and the source returns that error without sending anything. The model sends the request anyway. The model's URL is the text handed to `url.Parse`. The URL actually sent is `u.String()`, which re-escapes the path, so the ids `a b` and `a%20b` are sent as the same URL. `UrlRoundTrip` and `UrlInjective` hold for the text, not for the escaped URL.
- The reason-phrase table of `http.StatusText`: it is the `statusText` parameter.
- JSON text syntax and the decoder's internals: an encoding is a list of members in declaration order, and the error-body decoder is the `decode` parameter. For example, an empty body is a `DecodeFailed` (EOF) if that is what the decoder reports.
- The key matching of Go's JSON decoder, which is case-insensitive and lets a later duplicate win: the round trips read with a first-exact-match reader (`Json.Lookup`), which agrees with Go's on the distinct, exactly spelled keys the encoders write.
- `json.Encoder.Encode` failures: the records hold only strings, booleans, integers and lists of those, which always encode.
- The multipart byte format and the random boundary: the body is the list of form fields plus the file part. The boundary is a parameter of the upload.
- The ignored `CreateFormFile` and `WriteField` errors, and `writer.Close` errors: these writers target an in-memory buffer.
- The nil dereference in `defer resp.Body.Close()` when the transport fails: the model's `roundTrip` always returns a response.
- `ioutil.ReadAll` errors on a successful response body: the body is a string already read.
- Base64 decoding of downloaded documents and proofs: the source leaves it as a TODO and returns the body as is.
- Go's `int` width: integers are unbounded. Nothing in the model wraps.
- The HTTP client's `DisableCompression` transport setting for POSTs. With it, Go's transport does not add `Accept-Encoding: gzip` to a POST, while a GET gets that header and its gzip body is decompressed transparently. The headers on the wire differ, but the body text handed to the caller is the same, and the model's `Request` carries no headers besides the credentials.
- Byte strings: Go strings and `[]byte` bodies are bytes, while Dafny's `string` is a sequence of Unicode characters. The `string(body)` conversions at godocage.go:133 and 164 are modelled as a response body that is already text.
- Records.ContactRoundTrip: holds for fields that are valid UTF-8 text only, because `json.Encoder` writes invalid UTF-8 in a Go string as U+FFFD and a Dafny `string` cannot hold such bytes.
- Records.MemberRoundTrip: the same restriction to valid UTF-8 string fields.
- Records.TransactionRoundTrip: the same restriction to valid UTF-8 string fields.

## Findings

| source | as written | input that shows it | evidently intended | confidence | as-written member | corrected member |
|---|---|---|---|---|---|---|
| godocage.go:206-210 | When copying the document into the form fails, the error is logged and the function returns with its named result `err` still nil | A document reader whose `Read` fails ("unexpected EOF") | Return the copy error, so the caller knows nothing was uploaded | not executed | Operations.AddTransactionDocumentAsWritten, Operations.UnreadableDocumentReportedAsUploaded | Operations.AddTransactionDocument |
