/** Normalisation of a failed response into the error a caller sees
    (`respErrorMaker` in godocage.go). */
module ErrorMessages {
  import opened Wrappers
  import opened Text

  /** An error body after JSON decoding: the top-level "error" string and the
      "error" string of each element of "errors", in order. Absent fields
      decode to "" and to the empty list, as Go's zero values. */
  datatype ErrorBody = ErrorBody(error: string, errors: seq<string>)

  /** What the JSON decoder makes of a response body. */
  datatype Decoded = Decoded(body: ErrorBody) | DecodeFailed(cause: string)

  /** The errors a call can return: a normalised status message, the decoder's
      own failure, or a failure reading the caller's document. */
  datatype ClientError =
    | StatusError(message: string)
    | DecodeError(cause: string)
    | ReadError(cause: string)

  /** HTTP 429 Too Many Requests: the body is not read for this status. */
  const TooManyRequests: int := 429

  /** Text placed between the status line and the provider messages. */
  const MessagesMarker: string := ", Message(s): "

  /** "HTTP <code> <reason phrase>"; the code and the phrase can be read back. */
  function StatusLine(code: int, reason: string): (line: string)
    ensures ParseStatusLine(line) == Some((code, reason))
  {
    var d := IntToDecimal(code);
    var line := "HTTP " + d + " " + reason;
    assert line[..5] == "HTTP ";
    assert line[5..] == d + " " + reason;
    IndexOfPrefix(d, reason);
    assert (d + " " + reason)[..|d|] == d;
    assert (d + " " + reason)[|d| + 1..] == reason;
    line
  }

  /** Position of the first `c` in `s`, or |s| when there is none. */
  function IndexOf(s: string, c: char): (k: nat)
    ensures k <= |s|
    ensures c !in s[..k]
    ensures k < |s| ==> s[k] == c
  {
    if |s| == 0 then 0 else if s[0] == c then 0 else 1 + IndexOf(s[1..], c)
  }

  /** Partner of `StatusLine`: the code and reason phrase read back from a status line. */
  function ParseStatusLine(line: string): Option<(int, string)>
  {
    if |line| >= 5 && line[..5] == "HTTP " then
      var rest := line[5..];
      var k := IndexOf(rest, ' ');
      if k < |rest| then
        match ParseDecimal(rest[..k])
        case Some(code) => Some((code, rest[k + 1..]))
        case None => None
      else None
    else None
  }

  lemma IndexOfPrefix(d: string, r: string)
    requires ' ' !in d
    ensures IndexOf(d + " " + r, ' ') == |d|
  {
    var s := d + " " + r;
    assert s[|d|] == ' ';
    forall j | 0 <= j < |d|
      ensures s[j] != ' '
    {
      assert s[j] == d[j];
    }
  }

  /** The provider text: the top-level error followed directly (no separator)
      by the nested errors joined with ", ". */
  function ErrorsText(b: ErrorBody): (t: string)
    ensures |b.error| <= |t| && t[..|b.error|] == b.error
    ensures t == "" <==>
      (b.error == "" && (|b.errors| == 0 || (|b.errors| == 1 && b.errors[0] == "")))
  {
    JoinEmptyIff(b.errors);
    b.error + Join(b.errors)
  }

  /** The concatenation loop of the source: each nested error is appended
      followed by ", " unless it is the last one. */
  method ConcatErrors(b: ErrorBody) returns (text: string)
    ensures text == b.error + Join(b.errors)
  {
    text := b.error;
    var i := 0;
    while i < |b.errors|
      invariant 0 <= i <= |b.errors|
      invariant i < |b.errors| ==> text == b.error + JoinTerminated(b.errors[..i])
      invariant i == |b.errors| ==> text == b.error + Join(b.errors)
    {
      var v := b.errors[i];
      TerminatedSnoc(b.errors[..i], v);
      assert b.errors[..i + 1] == b.errors[..i] + [v];
      if i == |b.errors| - 1 {
        JoinSnoc(b.errors[..i], v);
        assert b.errors[..i + 1] == b.errors;
        text := text + v;
      } else {
        text := text + v + Separator;
      }
      i := i + 1;
    }
  }

  /** The final message: the bare status line when there is no provider text.
      The provider text can be read back from it. */
  function Message(status: string, text: string): (msg: string)
    ensures MessageText(status, msg) == Some(text)
  {
    if text == "" then status
    else
      var head := status + MessagesMarker;
      var msg := head + text;
      assert msg[..|head|] == head;
      assert msg[|head|..] == text;
      msg
  }

  /** Partner of `Message`: the provider text read back from a message with a known status line. */
  function MessageText(status: string, msg: string): Option<string>
  {
    var head := status + MessagesMarker;
    if msg == status then Some("")
    else if |msg| > |head| && msg[..|head|] == head then Some(msg[|head|..])
    else None
  }

  /** Only messages built by `Message` are read back: a message that yields
      a provider text is the message of that text. */
  lemma MessageTextSound(status: string, text: string, msg: string)
    requires MessageText(status, msg) == Some(text)
    ensures Message(status, text) == msg
  {
    var head := status + MessagesMarker;
    if msg != status {
      assert msg == msg[..|head|] + msg[|head|..];
      assert head + text == status + MessagesMarker + text;
    }
  }

  /** The error for a response whose status is not a success. 429 yields the
      bare status line without looking at the body; a body the decoder rejects
      yields the decoder's failure; otherwise the provider text is appended. */
  function RespError(code: int, statusText: int -> string, body: string,
                     decode: string -> Decoded): (e: ClientError)
    ensures !e.ReadError?
    ensures e.StatusError? ==> |StatusLine(code, statusText(code))| <= |e.message|
    ensures e.StatusError? ==>
      e.message[..|StatusLine(code, statusText(code))|] == StatusLine(code, statusText(code))
    ensures code == TooManyRequests ==> e == StatusError(StatusLine(code, statusText(code)))
    ensures e.DecodeError? <==> (code != TooManyRequests && decode(body).DecodeFailed?)
    ensures e.DecodeError? ==> e.cause == decode(body).cause
  {
    var status := StatusLine(code, statusText(code));
    if code == TooManyRequests then StatusError(status)
    else
      match decode(body)
      case DecodeFailed(cause) => DecodeError(cause)
      case Decoded(b) => StatusError(Message(status, ErrorsText(b)))
  }

  /** For 429 the error is "HTTP 429 <reason>" whatever the body and whatever
      the decoder would make of it. */
  lemma RateLimitIgnoresBody(statusText: int -> string, body1: string, body2: string,
                             decode1: string -> Decoded, decode2: string -> Decoded)
    ensures RespError(TooManyRequests, statusText, body1, decode1)
         == RespError(TooManyRequests, statusText, body2, decode2)
    ensures RespError(TooManyRequests, statusText, body1, decode1)
         == StatusError("HTTP 429 " + statusText(429))
  {
    assert IntToDecimal(429) == "429";
  }

  /** A decodable body with provider text gives the status line, the marker and
      the text; one without gives the bare status line; and the text can be read
      back from the message. */
  lemma DecodedBodyMessage(code: int, statusText: int -> string, body: string,
                           decode: string -> Decoded)
    requires code != TooManyRequests && decode(body).Decoded?
    ensures var status := StatusLine(code, statusText(code));
            var b := decode(body).body;
            && (ErrorsText(b) == "" ==> RespError(code, statusText, body, decode) == StatusError(status))
            && (ErrorsText(b) != "" ==>
                  RespError(code, statusText, body, decode)
                  == StatusError(status + ", Message(s): " + b.error + Join(b.errors)))
            && MessageText(status, RespError(code, statusText, body, decode).message)
               == Some(ErrorsText(b))
  {
    var status := StatusLine(code, statusText(code));
    var b := decode(body).body;
    var text := ErrorsText(b);
    assert RespError(code, statusText, body, decode) == StatusError(Message(status, text));
    if text != "" {
      assert status + ", Message(s): " + b.error + Join(b.errors) == status + MessagesMarker + text;
    }
  }

  /** The bare status line is returned for a decodable body exactly when there
      is no top-level error and at most one, empty, nested error. */
  lemma BareStatusIff(code: int, statusText: int -> string, body: string,
                      decode: string -> Decoded)
    requires code != TooManyRequests && decode(body).Decoded?
    ensures var b := decode(body).body;
            RespError(code, statusText, body, decode) == StatusError(StatusLine(code, statusText(code)))
            <==> (b.error == "" && (|b.errors| == 0 || (|b.errors| == 1 && b.errors[0] == "")))
  {
    var b := decode(body).body;
    var status := StatusLine(code, statusText(code));
    if ErrorsText(b) != "" {
      assert |Message(status, ErrorsText(b))| > |status|;
    }
  }

  lemma ExampleStatusLine()
    ensures StatusLine(400, "Bad Request") == "HTTP 400 Bad Request"
  {
    assert NatToDecimal(4) == "4";
    assert NatToDecimal(40) == "40";
    assert NatToDecimal(400) == "400";
    assert IntToDecimal(400) == "400";
  }

  lemma ExampleErrorsText()
    ensures ErrorsText(ErrorBody("A", ["B", "C"])) == "AB, C"
  {
    assert Join(["C"]) == "C";
    assert Join(["B", "C"]) == "B, C";
  }

  lemma ExampleJoined()
    ensures Message("HTTP 400 Bad Request", "AB, C") == "HTTP 400 Bad Request, Message(s): AB, C"
  {
  }

  /** A worked example: {"error":"A","errors":[{"error":"B"},{"error":"C"}]}
      on a 400 gives "HTTP 400 Bad Request, Message(s): AB, C". */
  lemma ExampleMessage(statusText: int -> string, body: string, decode: string -> Decoded)
    requires statusText(400) == "Bad Request"
    requires decode(body) == Decoded(ErrorBody("A", ["B", "C"]))
    ensures RespError(400, statusText, body, decode)
         == StatusError("HTTP 400 Bad Request, Message(s): AB, C")
  {
    var b := ErrorBody("A", ["B", "C"]);
    assert RespError(400, statusText, body, decode)
        == StatusError(Message(StatusLine(400, "Bad Request"), ErrorsText(b)));
    ExampleStatusLine();
    ExampleErrorsText();
    ExampleJoined();
  }
}
