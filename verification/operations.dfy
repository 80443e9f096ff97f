/** The remote operations of the client (the exported `API` methods in
    godocage.go): the URL of each, the request it sends, and the shape of
    its result. */
module Operations {
  import opened Wrappers
  import opened Json
  import opened Records
  import opened ErrorMessages
  import opened Transport

  const BaseUrl: string := "https://api.docage.com/"

  /** The service endpoints; the parameterised ones embed a transaction id in the path. */
  datatype Endpoint =
    | Contacts
    | Transactions
    | TransactionFiles
    | TransactionMembers
    | LaunchTransactionAt(txid: string)
    | StatusOf(txid: string)
    | RemindersOf(txid: string)
    | AbortOf(txid: string)
    | DocumentsOf(txid: string)
    | ProofOf(txid: string)

  const LaunchPrefix: string := "Transactions/LaunchTransaction/"
  const StatusPrefix: string := "Transactions/Status/"
  const RemindersPrefix: string := "SendReminders/"
  const AbortPrefix: string := "Abort/"
  const DocumentsPrefix: string := "Transactions/DownloadDocument/"
  const ProofPrefix: string := "Transactions/DownloadProofFile/"

  predicate HasPrefix(s: string, prefix: string)
  {
    |prefix| <= |s| && s[..|prefix|] == prefix
  }

  /** Partner of `Path`: the endpoint a path addresses, if any. */
  function ParsePath(p: string): Option<Endpoint>
  {
    if p == "Contacts" then Some(Contacts)
    else if p == "Transactions" then Some(Transactions)
    else if p == "TransactionFiles" then Some(TransactionFiles)
    else if p == "TransactionMembers" then Some(TransactionMembers)
    else if HasPrefix(p, LaunchPrefix) then Some(LaunchTransactionAt(p[|LaunchPrefix|..]))
    else if HasPrefix(p, StatusPrefix) then Some(StatusOf(p[|StatusPrefix|..]))
    else if HasPrefix(p, RemindersPrefix) then Some(RemindersOf(p[|RemindersPrefix|..]))
    else if HasPrefix(p, AbortPrefix) then Some(AbortOf(p[|AbortPrefix|..]))
    else if HasPrefix(p, DocumentsPrefix) then Some(DocumentsOf(p[|DocumentsPrefix|..]))
    else if HasPrefix(p, ProofPrefix) then Some(ProofOf(p[|ProofPrefix|..]))
    else None
  }

  /** Partner of `Url`. */
  function ParseUrl(url: string): Option<Endpoint>
  {
    if HasPrefix(url, BaseUrl) then ParsePath(url[|BaseUrl|..]) else None
  }

  lemma PrefixOfConcat(prefix: string, id: string)
    ensures HasPrefix(prefix + id, prefix) && (prefix + id)[|prefix|..] == id
  {
    assert (prefix + id)[..|prefix|] == prefix;
  }

  /** A path that starts with a long prefix cannot start with a prefix that
      differs from it at some position both cover. */
  lemma NotOtherPrefix(prefix: string, other: string, id: string, k: nat)
    requires k < |prefix| && k < |other| && prefix[k] != other[k]
    ensures !HasPrefix(prefix + id, other)
  {
    assert (prefix + id)[k] == prefix[k];
  }

  /** The path of an endpoint below the base address. Fixed paths are the
      resource names; the others are a fixed prefix followed by the transaction
      id. The endpoint can be read back from its path. */
  function Path(e: Endpoint): (p: string)
    ensures ParsePath(p) == Some(e)
  {
    match e
    case Contacts => "Contacts"
    case Transactions => "Transactions"
    case TransactionFiles => "TransactionFiles"
    case TransactionMembers => "TransactionMembers"
    case LaunchTransactionAt(id) =>
      PrefixOfConcat(LaunchPrefix, id);
      LaunchPrefix + id
    case StatusOf(id) =>
      PrefixOfConcat(StatusPrefix, id);
      NotOtherPrefix(StatusPrefix, LaunchPrefix, id, 13);
      StatusPrefix + id
    case RemindersOf(id) =>
      PrefixOfConcat(RemindersPrefix, id);
      NotOtherPrefix(RemindersPrefix, LaunchPrefix, id, 0);
      NotOtherPrefix(RemindersPrefix, StatusPrefix, id, 0);
      RemindersPrefix + id
    case AbortOf(id) =>
      PrefixOfConcat(AbortPrefix, id);
      NotOtherPrefix(AbortPrefix, LaunchPrefix, id, 0);
      NotOtherPrefix(AbortPrefix, StatusPrefix, id, 0);
      NotOtherPrefix(AbortPrefix, RemindersPrefix, id, 0);
      AbortPrefix + id
    case DocumentsOf(id) =>
      PrefixOfConcat(DocumentsPrefix, id);
      NotOtherPrefix(DocumentsPrefix, LaunchPrefix, id, 13);
      NotOtherPrefix(DocumentsPrefix, StatusPrefix, id, 13);
      NotOtherPrefix(DocumentsPrefix, RemindersPrefix, id, 0);
      NotOtherPrefix(DocumentsPrefix, AbortPrefix, id, 0);
      DocumentsPrefix + id
    case ProofOf(id) =>
      PrefixOfConcat(ProofPrefix, id);
      NotOtherPrefix(ProofPrefix, LaunchPrefix, id, 13);
      NotOtherPrefix(ProofPrefix, StatusPrefix, id, 13);
      NotOtherPrefix(ProofPrefix, RemindersPrefix, id, 0);
      NotOtherPrefix(ProofPrefix, AbortPrefix, id, 0);
      NotOtherPrefix(ProofPrefix, DocumentsPrefix, id, 21);
      ProofPrefix + id
  }

  /** The URL text handed to `url.Parse`: the base address followed by the
      endpoint's path, unescaped. The endpoint can be read back from it. */
  function Url(e: Endpoint): (u: string)
    ensures ParseUrl(u) == Some(e)
  {
    PrefixOfConcat(BaseUrl, Path(e));
    BaseUrl + Path(e)
  }

  lemma SplitAtPrefix(p: string, prefix: string)
    requires HasPrefix(p, prefix)
    ensures p == prefix + p[|prefix|..]
  {
    assert p == p[..|prefix|] + p[|prefix|..];
  }

  /** A path that parses is the path of the endpoint it parses to. */
  lemma ParsePathSound(p: string)
    requires ParsePath(p).Some?
    ensures Path(ParsePath(p).value) == p
  {
    if p == "Contacts" || p == "Transactions" || p == "TransactionFiles" || p == "TransactionMembers" {
    } else if HasPrefix(p, LaunchPrefix) {
      SplitAtPrefix(p, LaunchPrefix);
    } else if HasPrefix(p, StatusPrefix) {
      SplitAtPrefix(p, StatusPrefix);
    } else if HasPrefix(p, RemindersPrefix) {
      SplitAtPrefix(p, RemindersPrefix);
    } else if HasPrefix(p, AbortPrefix) {
      SplitAtPrefix(p, AbortPrefix);
    } else if HasPrefix(p, DocumentsPrefix) {
      SplitAtPrefix(p, DocumentsPrefix);
    } else {
      SplitAtPrefix(p, ProofPrefix);
    }
  }

  /** Every endpoint's URL names that endpoint, and a URL that parses was
      built from the endpoint it parses to. */
  lemma UrlRoundTrip(e: Endpoint, url: string)
    ensures ParseUrl(Url(e)) == Some(e)
    ensures ParseUrl(url) == Some(e) ==> Url(e) == url
  {
    if ParseUrl(url) == Some(e) {
      SplitAtPrefix(url, BaseUrl);
      ParsePathSound(url[|BaseUrl|..]);
    }
  }

  /** Two endpoints share a URL only if they are the same endpoint. */
  lemma UrlInjective(e1: Endpoint, e2: Endpoint)
    ensures Url(e1) == Url(e2) ==> e1 == e2
  {
    UrlRoundTrip(e1, Url(e1));
    UrlRoundTrip(e2, Url(e2));
  }

  /** The full URL of every endpoint: the base address, the fixed segment,
      then the transaction id where there is one. */
  lemma EndpointUrl(e: Endpoint)
    ensures match e
      case Contacts => Url(e) == BaseUrl + "Contacts"
      case Transactions => Url(e) == BaseUrl + "Transactions"
      case TransactionFiles => Url(e) == BaseUrl + "TransactionFiles"
      case TransactionMembers => Url(e) == BaseUrl + "TransactionMembers"
      case LaunchTransactionAt(id) => Url(e) == BaseUrl + "Transactions/LaunchTransaction/" + id
      case StatusOf(id) => Url(e) == BaseUrl + "Transactions/Status/" + id
      case RemindersOf(id) => Url(e) == BaseUrl + "SendReminders/" + id
      case AbortOf(id) => Url(e) == BaseUrl + "Abort/" + id
      case DocumentsOf(id) => Url(e) == BaseUrl + "Transactions/DownloadDocument/" + id
      case ProofOf(id) => Url(e) == BaseUrl + "Transactions/DownloadProofFile/" + id
  {
    match e
    case LaunchTransactionAt(id) => assert BaseUrl + (LaunchPrefix + id) == BaseUrl + LaunchPrefix + id;
    case StatusOf(id) => assert BaseUrl + (StatusPrefix + id) == BaseUrl + StatusPrefix + id;
    case RemindersOf(id) => assert BaseUrl + (RemindersPrefix + id) == BaseUrl + RemindersPrefix + id;
    case AbortOf(id) => assert BaseUrl + (AbortPrefix + id) == BaseUrl + AbortPrefix + id;
    case DocumentsOf(id) => assert BaseUrl + (DocumentsPrefix + id) == BaseUrl + DocumentsPrefix + id;
    case ProofOf(id) => assert BaseUrl + (ProofPrefix + id) == BaseUrl + ProofPrefix + id;
    case _ =>
  }

  const JsonContentType: string := "application/json"

  /** The content type a multipart writer announces for its boundary. */
  function MultipartContentType(boundary: string): (ct: string)
    ensures ct != ""
    ensures |boundary| <= |ct| && ct[|ct| - |boundary|..] == boundary
  {
    "multipart/form-data; boundary=" + boundary
  }

  /** Reading the caller's document: its bytes, or the reader's failure. */
  datatype FileRead = ReadOk(content: seq<bv8>) | ReadFailed(cause: string)

  /** One call of the client with its input. */
  datatype Call =
    | NewContact(contact: Contact)
    | NewTransaction(transaction: Transaction)
    | UploadDocument(txid: string, fileName: string, content: seq<bv8>, boundary: string)
    | NewMember(member: TransactionMember)
    | Launch(txid: string)
    | Status(txid: string)
    | Reminders(txid: string)
    | Abort(txid: string)
    | Documents(txid: string)
    | Proof(txid: string)

  /** The calls that are plain GETs. */
  predicate IsQuery(call: Call)
  {
    call.Status? || call.Reminders? || call.Abort? || call.Documents? || call.Proof?
  }

  function EndpointOf(call: Call): Endpoint
  {
    match call
    case NewContact(_) => Contacts
    case NewTransaction(_) => Transactions
    case UploadDocument(_, _, _, _) => TransactionFiles
    case NewMember(_) => TransactionMembers
    case Launch(id) => LaunchTransactionAt(id)
    case Status(id) => StatusOf(id)
    case Reminders(id) => RemindersOf(id)
    case Abort(id) => AbortOf(id)
    case Documents(id) => DocumentsOf(id)
    case Proof(id) => ProofOf(id)
  }

  /** The content type a POST announces; launching passes none. */
  function ContentTypeOf(call: Call): string
  {
    match call
    case UploadDocument(_, _, _, boundary) => MultipartContentType(boundary)
    case NewContact(_) => JsonContentType
    case NewTransaction(_) => JsonContentType
    case NewMember(_) => JsonContentType
    case _ => ""
  }

  function PayloadOf(call: Call): Payload
  {
    match call
    case NewContact(c) => JsonBody(EncodeContact(c))
    case NewTransaction(t) => JsonBody(EncodeTransaction(t))
    case NewMember(m) => JsonBody(EncodeMember(m))
    case UploadDocument(txid, fileName, content, _) =>
      MultipartBody([("TransactionId", txid), ("FileName", fileName)], "Document", fileName, content)
    case _ => NoBody
  }

  /** The request a call sends. */
  function RequestFor(creds: Credentials, call: Call): (r: Request)
    ensures r.url == BaseUrl + Path(EndpointOf(call)) && r.auth == creds
    ensures r.verb == Get <==> IsQuery(call)
    ensures ContentTypeHeader in r.headers <==> !IsQuery(call) && !call.Launch?
    ensures (call.NewContact? || call.NewTransaction? || call.NewMember?) ==>
      r.headers[ContentTypeHeader] == "application/json"
    ensures call.UploadDocument? ==>
      r.headers[ContentTypeHeader] == "multipart/form-data; boundary=" + call.boundary
    ensures (call.Launch? || IsQuery(call)) <==> r.body == NoBody
    ensures call.NewContact? ==> r.body == JsonBody(EncodeContact(call.contact))
    ensures call.NewTransaction? ==> r.body == JsonBody(EncodeTransaction(call.transaction))
    ensures call.NewMember? ==> r.body == JsonBody(EncodeMember(call.member))
  {
    if IsQuery(call) then GetRequest(creds, Url(EndpointOf(call)))
    else PostRequest(creds, Url(EndpointOf(call)), ContentTypeOf(call), PayloadOf(call))
  }

  lemma QueryRequest(creds: Credentials, call: Call)
    requires IsQuery(call)
    ensures RequestFor(creds, call) == GetRequest(creds, Url(EndpointOf(call)))
  {
  }

  /** Sends a call's request and classifies the response with the shared rule. */
  function Perform(env: Env, creds: Credentials, call: Call): (r: Result<string, ClientError>)
    ensures var resp := env.roundTrip(RequestFor(creds, call));
            && (r.Success? <==> resp.status == 200 || resp.status == 201)
            && (r.Success? ==> r.value == resp.body)
            && (r.Failure? ==> r.error == RespError(resp.status, env.statusText, resp.body, env.decode))
  {
    if IsQuery(call) then Fetch(env, creds, Url(EndpointOf(call)))
    else Submit(env, creds, Url(EndpointOf(call)), ContentTypeOf(call), PayloadOf(call))
  }

  /** Creates a contact; the service answers with its identifier. */
  function CreateContact(env: Env, creds: Credentials, c: Contact): (r: Result<string, ClientError>)
    ensures var req := RequestFor(creds, NewContact(c)); var resp := env.roundTrip(req);
            && req.url == BaseUrl + "Contacts"
            && req.verb == Post && req.body == JsonBody(EncodeContact(c))
            && (r.Success? <==> IsSuccess(resp.status))
            && (r.Success? ==> r.value == resp.body)
            && (r.Failure? ==> r.error == RespError(resp.status, env.statusText, resp.body, env.decode))
  {
    EndpointUrl(Contacts);
    Perform(env, creds, NewContact(c))
  }

  /** Creates a transaction; the service answers with its identifier. */
  function CreateTransaction(env: Env, creds: Credentials, t: Transaction): (r: Result<string, ClientError>)
    ensures var req := RequestFor(creds, NewTransaction(t)); var resp := env.roundTrip(req);
            && req.url == BaseUrl + "Transactions"
            && req.verb == Post && req.body == JsonBody(EncodeTransaction(t))
            && (r.Success? <==> IsSuccess(resp.status))
            && (r.Success? ==> r.value == resp.body)
            && (r.Failure? ==> r.error == RespError(resp.status, env.statusText, resp.body, env.decode))
  {
    EndpointUrl(Transactions);
    Perform(env, creds, NewTransaction(t))
  }

  /** Adds a member to a transaction; the service answers with its identifier. */
  function AddTransactionMember(env: Env, creds: Credentials, m: TransactionMember)
    : (r: Result<string, ClientError>)
    ensures var req := RequestFor(creds, NewMember(m)); var resp := env.roundTrip(req);
            && req.url == BaseUrl + "TransactionMembers"
            && req.verb == Post && req.body == JsonBody(EncodeMember(m))
            && (r.Success? <==> IsSuccess(resp.status))
            && (r.Success? ==> r.value == resp.body)
            && (r.Failure? ==> r.error == RespError(resp.status, env.statusText, resp.body, env.decode))
  {
    EndpointUrl(TransactionMembers);
    Perform(env, creds, NewMember(m))
  }

  /** Uploads a document to a transaction as a multipart form with the
      transaction id, the file name and the file. A failure to read the
      document is reported and nothing is sent. */
  function AddTransactionDocument(env: Env, creds: Credentials, txid: string, fileName: string,
                                  file: FileRead, boundary: string): (o: Outcome<ClientError>)
    ensures file.ReadFailed? ==> o == Fail(ReadError(file.cause))
    ensures file.ReadOk? ==>
      var req := RequestFor(creds, UploadDocument(txid, fileName, file.content, boundary));
      var resp := env.roundTrip(req);
      && req.url == BaseUrl + "TransactionFiles"
      && req.body == MultipartBody([("TransactionId", txid), ("FileName", fileName)],
                                   "Document", fileName, file.content)
      && (o.Pass? <==> IsSuccess(resp.status))
      && (o.Fail? ==> o.error == RespError(resp.status, env.statusText, resp.body, env.decode))
  {
    EndpointUrl(TransactionFiles);
    match file
    case ReadFailed(cause) => Fail(ReadError(cause))
    case ReadOk(content) => Perform(env, creds, UploadDocument(txid, fileName, content, boundary)).ToOutcome()
  }

  /** The upload as the source writes it: when reading the document fails the
      failure is only logged and the call returns no error. */
  function AddTransactionDocumentAsWritten(env: Env, creds: Credentials, txid: string, fileName: string,
                                           file: FileRead, boundary: string): (o: Outcome<ClientError>)
    ensures file.ReadFailed? ==> o.Pass?
    ensures file.ReadOk? ==> o == AddTransactionDocument(env, creds, txid, fileName, file, boundary)
  {
    match file
    case ReadFailed(_) => Pass
    case ReadOk(content) => Perform(env, creds, UploadDocument(txid, fileName, content, boundary)).ToOutcome()
  }

  /** A document that cannot be read is reported as uploaded by the source,
      although no request was made; the corrected upload reports the failure. */
  lemma UnreadableDocumentReportedAsUploaded(env: Env, creds: Credentials, txid: string, fileName: string,
                                             boundary: string)
    ensures var file := ReadFailed("unexpected EOF");
            && AddTransactionDocumentAsWritten(env, creds, txid, fileName, file, boundary) == Pass
            && AddTransactionDocument(env, creds, txid, fileName, file, boundary)
               == Fail(ReadError("unexpected EOF"))
  {
  }

  /** Launches a transaction: a POST with no body and no Content-Type. */
  function LaunchTransaction(env: Env, creds: Credentials, txid: string): (o: Outcome<ClientError>)
    ensures var req := RequestFor(creds, Launch(txid)); var resp := env.roundTrip(req);
            && req.url == BaseUrl + "Transactions/LaunchTransaction/" + txid
            && req.verb == Post && req.body == NoBody && req.headers == map[]
            && (o.Pass? <==> IsSuccess(resp.status))
            && (o.Fail? ==> o.error == RespError(resp.status, env.statusText, resp.body, env.decode))
  {
    EndpointUrl(LaunchTransactionAt(txid));
    Perform(env, creds, Launch(txid)).ToOutcome()
  }

  /** The transaction's status string. */
  function GetTransactionStatus(env: Env, creds: Credentials, txid: string): (r: Result<string, ClientError>)
    ensures var req := RequestFor(creds, Status(txid)); var resp := env.roundTrip(req);
            && req == GetRequest(creds, BaseUrl + "Transactions/Status/" + txid)
            && (r.Success? <==> IsSuccess(resp.status))
            && (r.Success? ==> r.value == resp.body)
            && (r.Failure? ==> r.error == RespError(resp.status, env.statusText, resp.body, env.decode))
  {
    assert RequestFor(creds, Status(txid)) == GetRequest(creds, BaseUrl + "Transactions/Status/" + txid) by {
      QueryRequest(creds, Status(txid));
      EndpointUrl(StatusOf(txid));
    }
    Perform(env, creds, Status(txid))
  }

  /** Asks the service to remind the transaction's members. */
  function SendTransactionReminders(env: Env, creds: Credentials, txid: string)
    : (r: Result<string, ClientError>)
    ensures var req := RequestFor(creds, Reminders(txid)); var resp := env.roundTrip(req);
            && req == GetRequest(creds, BaseUrl + "SendReminders/" + txid)
            && (r.Success? <==> IsSuccess(resp.status))
            && (r.Success? ==> r.value == resp.body)
            && (r.Failure? ==> r.error == RespError(resp.status, env.statusText, resp.body, env.decode))
  {
    assert RequestFor(creds, Reminders(txid)) == GetRequest(creds, BaseUrl + "SendReminders/" + txid) by {
      QueryRequest(creds, Reminders(txid));
      EndpointUrl(RemindersOf(txid));
    }
    Perform(env, creds, Reminders(txid))
  }

  /** Aborts the transaction. */
  function AbortTransaction(env: Env, creds: Credentials, txid: string): (r: Result<string, ClientError>)
    ensures var req := RequestFor(creds, Abort(txid)); var resp := env.roundTrip(req);
            && req == GetRequest(creds, BaseUrl + "Abort/" + txid)
            && (r.Success? <==> IsSuccess(resp.status))
            && (r.Success? ==> r.value == resp.body)
            && (r.Failure? ==> r.error == RespError(resp.status, env.statusText, resp.body, env.decode))
  {
    assert RequestFor(creds, Abort(txid)) == GetRequest(creds, BaseUrl + "Abort/" + txid) by {
      QueryRequest(creds, Abort(txid));
      EndpointUrl(AbortOf(txid));
    }
    Perform(env, creds, Abort(txid))
  }

  /** The transaction's documents, as the service's text, not decoded. */
  function GetAllTransactionDocuments(env: Env, creds: Credentials, txid: string)
    : (r: Result<string, ClientError>)
    ensures var req := RequestFor(creds, Documents(txid)); var resp := env.roundTrip(req);
            && req == GetRequest(creds, BaseUrl + "Transactions/DownloadDocument/" + txid)
            && (r.Success? <==> IsSuccess(resp.status))
            && (r.Success? ==> r.value == resp.body)
            && (r.Failure? ==> r.error == RespError(resp.status, env.statusText, resp.body, env.decode))
  {
    assert RequestFor(creds, Documents(txid)) == GetRequest(creds, BaseUrl + "Transactions/DownloadDocument/" + txid) by {
      QueryRequest(creds, Documents(txid));
      EndpointUrl(DocumentsOf(txid));
    }
    Perform(env, creds, Documents(txid))
  }

  /** The transaction's proof file, as the service's text, not decoded. */
  function GetTransactionProof(env: Env, creds: Credentials, txid: string)
    : (r: Result<string, ClientError>)
    ensures var req := RequestFor(creds, Proof(txid)); var resp := env.roundTrip(req);
            && req == GetRequest(creds, BaseUrl + "Transactions/DownloadProofFile/" + txid)
            && (r.Success? <==> IsSuccess(resp.status))
            && (r.Success? ==> r.value == resp.body)
            && (r.Failure? ==> r.error == RespError(resp.status, env.statusText, resp.body, env.decode))
  {
    assert RequestFor(creds, Proof(txid)) == GetRequest(creds, BaseUrl + "Transactions/DownloadProofFile/" + txid) by {
      QueryRequest(creds, Proof(txid));
      EndpointUrl(ProofOf(txid));
    }
    Perform(env, creds, Proof(txid))
  }
}
