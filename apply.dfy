/**
 * The apply-preset endpoint: a preset document is encoded, posted to the device's sync settings
 * page, and the outcome of the post is turned into the endpoint's reply. The device's firmware is
 * known to answer with a malformed chunked body, which the HTTP client reports as an error even though
 * the settings were stored; that one error is taken as success.
 */
module Apply {
  import opened Wrappers
  import opened Text
  import opened Json
  import opened FormUrlEncoded
  import opened Encoder
  import opened EncoderProperties

  /** The client error that the endpoint takes as a successful post. */
  const CHUNK_ERROR: string := "Invalid character in chunk size"

  const FAILED: string := "Failed to apply preset"
  const APPLIED: string := "Preset applied successfully"
  const LIKELY_APPLIED: string := "Preset likely applied successfully (ignored parsing error)"

  /** What the device does with the post: it answers with a status and a body, or the exchange breaks off. */
  datatype DeviceAnswer = Answered(status: nat, data: string) | Broken(message: string)

  datatype HttpResponse = HttpResponse(status: nat, data: string)

  /** The HTTP client's verdict: the post went through, or it was rejected with an error. */
  datatype PostOutcome = Posted | Rejected(message: string, response: Option<HttpResponse>)

  /** The request the endpoint sends. */
  datatype Request = Request(url: string, contentType: string, body: string)

  /** The endpoint's JSON reply: `{success: true, message}` with status 200, or `{error, message}`. */
  datatype Reply = Succeeded(message: string) | Failed(status: nat, error: string, message: string)

  /** How the inner catch handles a rejected post: it replies, or rethrows to the outer catch. */
  datatype Handling = Answer(reply: Reply) | Rethrow

  /** What one call of the endpoint does: the request it sends, if any, and its reply. */
  datatype Exchange = Exchange(request: Option<Request>, reply: Reply)

  /** The client's `validateStatus`: only a 2xx status is a successful post (redirects are not followed). */
  predicate Accepted(status: nat) {
    200 <= status < 300
  }

  function ReplyStatus(r: Reply): nat {
    match r
    case Succeeded(_) => 200
    case Failed(status, _, _) => status
  }

  /** A number in decimal, as JavaScript prints a non-negative integer. */
  function DecimalText(n: nat): (t: string)
    ensures |t| >= 1 && forall k :: 0 <= k < |t| ==> IsDigit(t[k])
  {
    var d := ['0' + (n % 10) as char];
    if n < 10 then d else DecimalText(n / 10) + d
  }

  /** The message the client gives a response whose status `validateStatus` refuses. */
  function StatusMessage(status: nat): string {
    "Request failed with status code " + DecimalText(status)
  }

  /** The client's outcome for what the device did. */
  function Post(answer: DeviceAnswer): PostOutcome {
    match answer
    case Answered(status, data) =>
      if Accepted(status) then Posted else Rejected(StatusMessage(status), Some(HttpResponse(status, data)))
    case Broken(message) => Rejected(message, None)
  }

  /** The inner catch: the chunk-size error first, then an error response, else rethrow. */
  function ClassifyPostError(message: string, response: Option<HttpResponse>): (h: Handling)
    ensures h == Answer(Succeeded(LIKELY_APPLIED)) <==> Includes(message, CHUNK_ERROR)
    ensures h.Rethrow? <==> !Includes(message, CHUNK_ERROR) && response.None?
    ensures !Includes(message, CHUNK_ERROR) && response.Some? ==>
      h == Answer(Failed(response.value.status, FAILED, response.value.data))
  {
    if Includes(message, CHUNK_ERROR) then Answer(Succeeded(LIKELY_APPLIED))
    else if response.Some? then Answer(Failed(response.value.status, FAILED, response.value.data))
    else Rethrow
  }

  /** The endpoint, once the preset document has been read: encode, post, reply. */
  function ApplyPreset(ip: string, preset: Document, answer: DeviceAnswer): Exchange {
    match FormBody(preset)
    case Err(e) => Exchange(None, Failed(500, FAILED, Message(e)))
    case Ok(body) =>
      var request := Request("http://" + ip + "/settings/sync", "application/x-www-form-urlencoded", body);
      match Post(answer)
      case Posted => Exchange(Some(request), Succeeded(APPLIED))
      case Rejected(message, response) =>
        match ClassifyPostError(message, response)
        case Answer(reply) => Exchange(Some(request), reply)
        case Rethrow => Exchange(Some(request), Failed(500, FAILED, message))
  }

  /** Text without a capital `I` cannot hold the chunk-size error. */
  lemma NoChunkError(s: string)
    requires forall k :: 0 <= k < |s| ==> s[k] != 'I'
    ensures !Includes(s, CHUNK_ERROR)
  {
    forall k
      ensures !StartsAt(s, k, CHUNK_ERROR)
    {
      if 0 <= k && k + |CHUNK_ERROR| <= |s| {
        assert s[k..k + |CHUNK_ERROR|][0] == s[k];
      }
    }
  }

  /** A refused status is never mistaken for the chunk-size error. */
  lemma StatusMessageIsNotChunkError(status: nat)
    ensures !Includes(StatusMessage(status), CHUNK_ERROR)
  {
    var prefix := "Request failed with status code ";
    var digits := DecimalText(status);
    assert forall k :: 0 <= k < |prefix| ==> prefix[k] != 'I';
    assert StatusMessage(status) == prefix + digits;
    NoChunkError(StatusMessage(status));
  }

  /** A request is sent exactly when the preset encodes, and it carries the encoded form. */
  lemma RequestCarriesForm(ip: string, preset: Document, answer: DeviceAnswer)
    ensures var x := ApplyPreset(ip, preset, answer);
      && (x.request.Some? <==> FormBody(preset).Ok?)
      && (x.request.Some? ==>
        x.request.value == Request("http://" + ip + "/settings/sync", "application/x-www-form-urlencoded",
          FormBody(preset).value))
      && (x.request.None? ==> x.reply == Failed(500, FAILED, Message(FormBody(preset).error)))
  {
  }

  /**
   * The device receives the form the encoder built: the request body parses back into the encoder's
   * pairs, in order.
   */
  lemma RequestParsesBack(ip: string, preset: Document, answer: DeviceAnswer)
    requires ApplyPreset(ip, preset, answer).request.Some?
    ensures FormPairs(preset).Ok?
    ensures var body := ApplyPreset(ip, preset, answer).request.value.body;
      IsAscii(body) && Parse(AsciiBytes(body)) == Utf8Pairs(FormPairs(preset).value)
  {
    RequestCarriesForm(ip, preset, answer);
    BodyParsesBack(preset);
  }

  /**
   * The endpoint reports success exactly when the preset encodes and the device either accepts the
   * post or the exchange breaks off with the chunk-size error; the first is `Preset applied
   * successfully`, the second the message that says the parsing error was ignored.
   */
  lemma SucceedsExactly(ip: string, preset: Document, answer: DeviceAnswer)
    ensures ApplyPreset(ip, preset, answer).reply.Succeeded? <==>
      FormBody(preset).Ok? &&
      ((answer.Answered? && Accepted(answer.status)) || (answer.Broken? && Includes(answer.message, CHUNK_ERROR)))
    ensures FormBody(preset).Ok? && answer.Answered? && Accepted(answer.status) ==>
      ApplyPreset(ip, preset, answer).reply == Succeeded(APPLIED)
    ensures FormBody(preset).Ok? && answer.Broken? && Includes(answer.message, CHUNK_ERROR) ==>
      ApplyPreset(ip, preset, answer).reply == Succeeded(LIKELY_APPLIED)
  {
    if answer.Answered? {
      StatusMessageIsNotChunkError(answer.status);
    }
  }

  /**
   * A failure reply never carries a 2xx status: it is 500, or the status of a device answer the client
   * refused, passed through with the device's body. Once the preset encodes, a refused answer keeps its
   * status and body, and any other broken exchange reaches the outer catch as 500 with its message.
   */
  lemma FailureStatus(ip: string, preset: Document, answer: DeviceAnswer)
    ensures var r := ApplyPreset(ip, preset, answer).reply;
      r.Failed? ==>
        && !Accepted(r.status)
        && r.error == FAILED
        && (r.status == 500 || (answer.Answered? && r.status == answer.status && r.message == answer.data))
    ensures FormBody(preset).Ok? && answer.Answered? && !Accepted(answer.status) ==>
      ApplyPreset(ip, preset, answer).reply == Failed(answer.status, FAILED, answer.data)
    ensures FormBody(preset).Ok? && answer.Broken? && !Includes(answer.message, CHUNK_ERROR) ==>
      ApplyPreset(ip, preset, answer).reply == Failed(500, FAILED, answer.message)
  {
    if answer.Answered? {
      StatusMessageIsNotChunkError(answer.status);
    }
  }

  /** Every reply is 200 on success and a non-2xx status on failure. */
  lemma ReplyStatusMatches(ip: string, preset: Document, answer: DeviceAnswer)
    ensures var r := ApplyPreset(ip, preset, answer).reply;
      Accepted(ReplyStatus(r)) <==> r.Succeeded?
  {
    FailureStatus(ip, preset, answer);
  }
}
