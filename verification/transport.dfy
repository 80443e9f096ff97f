/** One authenticated HTTP round trip (`getResponse` and `postResponse` in
    godocage.go): how the request is shaped and how the response is
    classified. The round trip itself, the error-body decoder and the
    reason-phrase table are supplied from outside in an `Env`. */
module Transport {
  import opened Wrappers
  import opened Json
  import opened ErrorMessages

  /** Account email and API key, sent as HTTP Basic credentials on every request. */
  datatype Credentials = Credentials(email: string, key: string)

  datatype Method = Get | Post

  /** A request body: none, a JSON object, or a multipart form given by its
      text fields and one file part (its byte-level layout is not modelled). */
  datatype Payload =
    | NoBody
    | JsonBody(object: seq<Entry>)
    | MultipartBody(fields: seq<(string, string)>, fileField: string, fileName: string, content: seq<bv8>)

  datatype Request = Request(
    verb: Method,
    url: string,
    headers: map<string, string>,
    auth: Credentials,
    body: Payload)

  datatype Response = Response(status: int, body: string)

  /** The world outside the client: the HTTP exchange, the JSON decoder applied
      to an error body, and the reason phrase of each status code. */
  datatype Env = Env(
    roundTrip: Request -> Response,
    decode: string -> Decoded,
    statusText: int -> string)

  const StatusOK: int := 200
  const StatusCreated: int := 201

  const ContentTypeHeader: string := "Content-Type"

  /** Only 200 OK and 201 Created are successes: they are 2xx statuses, but
      202 Accepted and 204 No Content are not. */
  predicate IsSuccess(status: int)
    ensures IsSuccess(status) ==> 200 <= status < 300
    ensures status == 202 || status == 204 ==> !IsSuccess(status)
  {
    status == StatusOK || status == StatusCreated
  }

  /** A GET with Basic credentials and no other header. */
  function GetRequest(creds: Credentials, url: string): (r: Request)
    ensures r.verb == Get && r.url == url && r.auth == creds
    ensures ContentTypeHeader !in r.headers && r.body == NoBody
  {
    Request(Get, url, map[], creds, NoBody)
  }

  /** A POST with Basic credentials; the content type becomes a header only
      when it is not empty. */
  function PostRequest(creds: Credentials, url: string, contentType: string, payload: Payload): (r: Request)
    ensures r.verb == Post && r.url == url && r.auth == creds && r.body == payload
    ensures ContentTypeHeader in r.headers <==> contentType != ""
    ensures ContentTypeHeader in r.headers ==> r.headers[ContentTypeHeader] == contentType
    ensures r.headers.Keys <= {ContentTypeHeader}
  {
    var headers := if contentType != "" then map[ContentTypeHeader := contentType] else map[];
    Request(Post, url, headers, creds, payload)
  }

  /** Success is exactly 200 or 201 and yields the body verbatim; any other
      status yields the normalised error. */
  function Classify(env: Env, resp: Response): (r: Result<string, ClientError>)
    ensures r.Success? <==> IsSuccess(resp.status)
    ensures r.Success? ==> r.value == resp.body
    ensures r.Failure? ==> r.error == RespError(resp.status, env.statusText, resp.body, env.decode)
  {
    if !IsSuccess(resp.status) then Failure(RespError(resp.status, env.statusText, resp.body, env.decode))
    else Success(resp.body)
  }

  /** `getResponse`: GET `url` and classify the answer. */
  function Fetch(env: Env, creds: Credentials, url: string): (r: Result<string, ClientError>)
    ensures var resp := env.roundTrip(GetRequest(creds, url));
            && (r.Success? <==> resp.status == 200 || resp.status == 201)
            && (r.Success? ==> r.value == resp.body)
            && (r.Failure? ==> r.error == RespError(resp.status, env.statusText, resp.body, env.decode))
  {
    Classify(env, env.roundTrip(GetRequest(creds, url)))
  }

  /** `postResponse`: POST `payload` to `url` and classify the answer. */
  function Submit(env: Env, creds: Credentials, url: string, contentType: string, payload: Payload)
    : (r: Result<string, ClientError>)
    ensures var resp := env.roundTrip(PostRequest(creds, url, contentType, payload));
            && (r.Success? <==> resp.status == 200 || resp.status == 201)
            && (r.Success? ==> r.value == resp.body)
            && (r.Failure? ==> r.error == RespError(resp.status, env.statusText, resp.body, env.decode))
  {
    Classify(env, env.roundTrip(PostRequest(creds, url, contentType, payload)))
  }

  /** GET and POST apply one rule: given the same response they return the same result. */
  lemma SameRuleForGetAndPost(env: Env, creds: Credentials, getUrl: string, postUrl: string,
                              contentType: string, payload: Payload)
    requires env.roundTrip(GetRequest(creds, getUrl))
          == env.roundTrip(PostRequest(creds, postUrl, contentType, payload))
    ensures Fetch(env, creds, getUrl) == Submit(env, creds, postUrl, contentType, payload)
  {
  }
}
