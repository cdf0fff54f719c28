/** The categorised errors of a response (internal/transport/middleware.go, ParseResponse)
    and the classification that reads them back from their text
    (internal/transport/client.go, isNonRetryableError). */
module Responses {
  import opened Prelude
  import opened Text

  /** The decoded body of a 200 response. */
  datatype Reply = Reply(plan: string, withinQuota: bool)

  /** The decoded body of a 402 response. */
  datatype QuotaBody = QuotaBody(message: string, retryAfter: Option<int>)

  /** A response with what its body decodes to; the text of a decode error is free. */
  datatype Response = Response(status: int, reply: Result<Reply, string>, quota: Option<QuotaBody>)

  /** An error's text, and whether it wraps ErrPayloadTooLarge. */
  datatype SendError = SendError(message: string, wrapsTooLarge: bool)

  function Failure(message: string): Result<Reply, SendError> {
    Err(SendError(message, false))
  }

  function QuotaMessage(q: QuotaBody): string {
    match q.retryAfter
    case Some(n) => q.message + " (retry after " + FormatInt(n) + "s)"
    case None => q.message
  }

  function ParseResponse(r: Response): Result<Reply, SendError> {
    if r.status == 200 then
      match r.reply
      case Ok(v) => Ok(v)
      case Err(text) => Failure(TRANSPORT + "failed to decode 200 response: " + text)
    else if r.status == 401 || r.status == 403 then
      Failure(TRANSPORT + AUTHENTICATION_FAILED + (" (HTTP " + FormatInt(r.status) + ")"))
    else if r.status == 402 then
      match r.quota
      case Some(q) => Failure(TRANSPORT + QUOTA_EXCEEDED + (": " + QuotaMessage(q)))
      case None => Failure(TRANSPORT + QUOTA_EXCEEDED + " (HTTP 402)")
    else if r.status == 404 then
      Failure(TRANSPORT + PROTOCOL_MISMATCH
              + " (HTTP 404) \U{2014} check X-Kubeadapt-Protocol header and backend URL")
    else if r.status == 410 then
      Failure(TRANSPORT + AGENT_DEPRECATED + " (HTTP 410)")
    else if r.status == 411 then
      Failure(TRANSPORT + LENGTH_REQUIRED
              + " (HTTP 411) \U{2014} agent misconfigured, Content-Length missing")
    else if r.status == 413 then
      Failure(TRANSPORT + PAYLOAD_TOO_LARGE
              + " (HTTP 413) \U{2014} snapshot exceeds server compressed-body cap")
    else if r.status == 415 then
      Failure(TRANSPORT + UNSUPPORTED_ENCODING
              + " (HTTP 415) \U{2014} server requires Content-Encoding: zstd")
    else if r.status == 429 then
      Failure(RATE_LIMITED + ("429" + ")"))
    else if r.status >= 500 then
      Failure(SERVER_ERROR + (FormatInt(r.status) + ")"))
    else
      Failure(UNEXPECTED_STATUS + (FormatInt(r.status) + ")"))
  }

  const AUTHENTICATION_FAILED := "authentication failed"
  const QUOTA_EXCEEDED := "quota exceeded"
  const AGENT_DEPRECATED := "agent deprecated"
  const PROTOCOL_MISMATCH := "protocol mismatch"
  const UNSUPPORTED_ENCODING := "unsupported encoding"
  const LENGTH_REQUIRED := "length required"
  const PAYLOAD_TOO_LARGE := "payload too large"

  const TRANSPORT := "transport: "
  const RATE_LIMITED := TRANSPORT + "rate limited (HTTP "
  const SERVER_ERROR := TRANSPORT + "server error (HTTP "
  const UNEXPECTED_STATUS := TRANSPORT + ("unexpected " + "status (HTTP ")

  predicate IsNonRetryable(e: SendError) {
    e.wrapsTooLarge || NamesFinalCause(e.message)
  }

  predicate NamesFinalCause(msg: string) {
    || Contains(msg, AUTHENTICATION_FAILED)
    || Contains(msg, QUOTA_EXCEEDED)
    || Contains(msg, AGENT_DEPRECATED)
    || Contains(msg, PROTOCOL_MISMATCH)
    || Contains(msg, UNSUPPORTED_ENCODING)
    || Contains(msg, LENGTH_REQUIRED)
    || Contains(msg, PAYLOAD_TOO_LARGE)
  }

  /** Each phrase contains a letter that no retryable message does. */
  predicate LacksMarkers(s: string) {
    'f' !in s && 'q' !in s && 'g' !in s && 'h' !in s && 'y' !in s
  }

  lemma NoMarkersNoCause(msg: string)
    requires LacksMarkers(msg)
    ensures !NamesFinalCause(msg)
  {
    LacksChar(msg, AUTHENTICATION_FAILED, 15);
    LacksChar(msg, QUOTA_EXCEEDED, 0);
    LacksChar(msg, AGENT_DEPRECATED, 1);
    LacksChar(msg, PROTOCOL_MISMATCH, 16);
    LacksChar(msg, UNSUPPORTED_ENCODING, 19);
    LacksChar(msg, LENGTH_REQUIRED, 3);
    LacksChar(msg, PAYLOAD_TOO_LARGE, 2);
  }

  /** Whatever number is printed, a message built from a marker-free text stays retryable. */
  lemma NumberedMessage(prefix: string, number: string)
    requires LacksMarkers(prefix)
    requires forall c :: c in number ==> c == '-' || '0' <= c <= '9'
    ensures !NamesFinalCause(prefix + (number + ")"))
  {
    NoMarkersNoCause(prefix + (number + ")"));
  }

  lemma PrefixesLackMarkers()
    ensures LacksMarkers(RATE_LIMITED) && LacksMarkers(SERVER_ERROR) && LacksMarkers(UNEXPECTED_STATUS)
  {
    assert LacksMarkers(TRANSPORT);
    assert LacksMarkers("rate limited (HTTP ");
    assert LacksMarkers("server error (HTTP ");
    UnexpectedLacks();
  }

  lemma UnexpectedLacks()
    ensures LacksMarkers("unexpected " + "status (HTTP ")
  {
    assert LacksMarkers("unexpected ");
    assert LacksMarkers("status (HTTP ");
  }

  /** The statuses whose repetition is pointless. */
  predicate IsFinalStatus(status: int) {
    status in {401, 402, 403, 404, 410, 411, 413, 415}
  }

  /** For every status but 200, every retry-after and every server-supplied text, the
      classification read from the error's text is the classification of the status. */
  lemma ClassificationFollowsStatus(r: Response)
    requires r.status != 200
    ensures ParseResponse(r).Err?
    ensures IsNonRetryable(ParseResponse(r).error) <==> IsFinalStatus(r.status)
  {
    FormatIntDigits(r.status);
    PrefixesLackMarkers();
    NumberedMessage(RATE_LIMITED, "429");
    NumberedMessage(SERVER_ERROR, FormatInt(r.status));
    NumberedMessage(UNEXPECTED_STATUS, FormatInt(r.status));
    if IsFinalStatus(r.status) {
      FinalStatusNamed(r);
    }
  }

  lemma FinalStatusNamed(r: Response)
    requires IsFinalStatus(r.status)
    ensures ParseResponse(r).Err? && NamesFinalCause(ParseResponse(r).error.message)
    ensures Contains(ParseResponse(r).error.message,
                     if r.status == 402 then "quota exceeded"
                     else if r.status == 404 then "protocol mismatch"
                     else if r.status == 410 then "agent deprecated"
                     else if r.status == 411 then "length required"
                     else if r.status == 413 then "payload too large"
                     else if r.status == 415 then "unsupported encoding"
                     else "authentication failed")
  {
    match r.status {
      case 402 =>
        match r.quota {
          case Some(q) => ContainsMiddle(TRANSPORT, QUOTA_EXCEEDED, ": " + QuotaMessage(q));
          case None => ContainsMiddle(TRANSPORT, QUOTA_EXCEEDED, " (HTTP 402)");
        }
      case 404 =>
        ContainsMiddle(TRANSPORT, PROTOCOL_MISMATCH,
                       " (HTTP 404) \U{2014} check X-Kubeadapt-Protocol header and backend URL");
      case 410 => ContainsMiddle(TRANSPORT, AGENT_DEPRECATED, " (HTTP 410)");
      case 411 =>
        ContainsMiddle(TRANSPORT, LENGTH_REQUIRED,
                       " (HTTP 411) \U{2014} agent misconfigured, Content-Length missing");
      case 413 =>
        ContainsMiddle(TRANSPORT, PAYLOAD_TOO_LARGE,
                       " (HTTP 413) \U{2014} snapshot exceeds server compressed-body cap");
      case 415 =>
        ContainsMiddle(TRANSPORT, UNSUPPORTED_ENCODING,
                       " (HTTP 415) \U{2014} server requires Content-Encoding: zstd");
      case _ =>
        ContainsMiddle(TRANSPORT, AUTHENTICATION_FAILED, " (HTTP " + FormatInt(r.status) + ")");
    }
  }

  /** Only a decoded 200 is a success, and it is returned as decoded. */
  lemma OnlyDecoded200(r: Response)
    ensures ParseResponse(r).Ok? <==> r.status == 200 && r.reply.Ok?
    ensures ParseResponse(r).Ok? ==> ParseResponse(r).value == r.reply.value
  {
  }

  lemma PartsContained(a: string, b: string, c: string, d: string, e: string)
    ensures Contains(a + (b + c + d + e), b) && Contains(a + (b + c + d + e), d)
  {
    ContainsMiddle(a, b, c + d + e);
    ContainsMiddle(a + b + c, d, e);
    assert a + b + (c + d + e) == a + (b + c + d + e);
    assert a + b + c + d + e == a + (b + c + d + e);
  }

  lemma QuotaText(r: Response, head: string)
    requires r.status == 402 && r.quota.Some? && head == TRANSPORT + QUOTA_EXCEEDED + ": "
    ensures ParseResponse(r).Err? && ParseResponse(r).error.message == head + QuotaMessage(r.quota.value)
  {
    Assoc(TRANSPORT + QUOTA_EXCEEDED, ": ", QuotaMessage(r.quota.value));
    Assoc(TRANSPORT, QUOTA_EXCEEDED, ": ");
  }

  /** The error of a 402 carries the server's message and its retry-after in seconds. */
  lemma QuotaTold(r: Response)
    requires r.status == 402 && r.quota.Some?
    ensures ParseResponse(r).Err? && Contains(ParseResponse(r).error.message, r.quota.value.message)
    ensures r.quota.value.retryAfter.Some? ==>
              Contains(ParseResponse(r).error.message, FormatInt(r.quota.value.retryAfter.value))
  {
    var q, head := r.quota.value, TRANSPORT + QUOTA_EXCEEDED + ": ";
    QuotaText(r, head);
    match q.retryAfter {
      case None =>
        ContainsMiddle(head, q.message, "");
        assert head + q.message + "" == head + q.message;
      case Some(n) => PartsContained(head, q.message, " (retry after ", FormatInt(n), "s)");
    }
  }

  /** A phrase that ends the retries occurs in the text. */
  ghost predicate SaysFinal(msg: string) {
    exists i, j :: 0 <= i <= j <= |msg| && msg[i..j] in {
      "authentication failed", "quota exceeded", "agent deprecated", "protocol mismatch",
      "unsupported encoding", "length required", "payload too large"}
  }

  lemma ContainsIff(s: string, sub: string)
    ensures Contains(s, sub) <==> exists i, j :: 0 <= i <= j <= |s| && s[i..j] == sub
  {
    if Contains(s, sub) {
      var i :| 0 <= i <= |s| - |sub| && OccursAt(s, sub, i);
      assert s[i..i + |sub|] == sub;
    }
    if i, j :| 0 <= i <= j <= |s| && s[i..j] == sub {
      assert OccursAt(s, sub, i);
    }
  }

  lemma NamesFinalIff(msg: string)
    ensures NamesFinalCause(msg) <==> SaysFinal(msg)
  {
    ContainsIff(msg, "authentication failed");
    ContainsIff(msg, "quota exceeded");
    ContainsIff(msg, "agent deprecated");
    ContainsIff(msg, "protocol mismatch");
    ContainsIff(msg, "unsupported encoding");
    ContainsIff(msg, "length required");
    ContainsIff(msg, "payload too large");
  }
}
