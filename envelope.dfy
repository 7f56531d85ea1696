/**
  The A2A message envelope the router's client builds and unwraps: the
  request that carries `{user, prompt}` as one text part, the response
  whose first part's text is the answer, and the text form of the UUIDs
  that identify them.
 */
module A2AEnvelope {
  import opened Wrappers
  import Hex
  import JsonText

  /** A UUID, as its 128-bit integer value. */
  type Uuid = n: nat | n < 0x1_0000_0000_0000_0000_0000_0000_0000_0000

  lemma Pow16ThirtyTwo()
    ensures Hex.Pow16(32) == 0x1_0000_0000_0000_0000_0000_0000_0000_0000
  {
    assert Hex.Pow16(8) == 0x1_0000_0000;
    assert Hex.Pow16(16) == Hex.Pow16(8) * Hex.Pow16(8) by { Pow16Add(8, 8); }
    Pow16Add(16, 16);
  }

  lemma {:induction false} Pow16Add(a: nat, b: nat)
    ensures Hex.Pow16(a + b) == Hex.Pow16(a) * Hex.Pow16(b)
  {
    if a > 0 {
      Pow16Add(a - 1, b);
    }
  }

  /** `uuid.hex`: the value as 32 lowercase hexadecimal digits. */
  function UuidHex(u: Uuid): (s: string)
    ensures |s| == 32
  {
    Pow16ThirtyTwo();
    Hex.Digits(u, 32)
  }

  /** `str(uuid)`: the same digits grouped 8-4-4-4-12 by hyphens. */
  function UuidString(u: Uuid): string {
    var h := UuidHex(u);
    h[..8] + "-" + h[8..12] + "-" + h[12..16] + "-" + h[16..20] + "-" + h[20..]
  }

  /** The hyphenated form is 36 characters long with the hyphens in place, and holds the 32 digits. */
  lemma UuidStringShape(u: Uuid)
    ensures var s := UuidString(u);
      && |s| == 36
      && s[8] == '-' && s[13] == '-' && s[18] == '-' && s[23] == '-'
      && s[..8] + s[9..13] + s[14..18] + s[19..23] + s[24..] == UuidHex(u)
  {
    var h := UuidHex(u);
    var s := UuidString(u);
    assert s[..8] == h[..8];
    assert s[9..13] == h[8..12];
    assert s[14..18] == h[12..16];
    assert s[19..23] == h[16..20];
    assert s[24..] == h[20..];
    assert h[..8] + h[8..12] + h[12..16] + h[16..20] + h[20..] == h;
  }

  /** Distinct UUIDs have distinct texts, in both forms. */
  lemma UuidTextInjective(u1: Uuid, u2: Uuid)
    requires u1 != u2
    ensures UuidHex(u1) != UuidHex(u2)
    ensures UuidString(u1) != UuidString(u2)
  {
    Pow16ThirtyTwo();
    Hex.DigitsInjective(u1, u2, 32);
    UuidStringShape(u1);
    UuidStringShape(u2);
  }

  // ---------------------------------------------------------------------
  // Envelope types
  // ---------------------------------------------------------------------

  datatype Role = User | Agent

  /** A message part; only text parts carry a `text` field. */
  datatype Part = TextPart(text: string) | FilePart(uri: string) | DataPart(data: string)

  datatype Message = Message(role: Role, parts: seq<Part>, messageId: string)

  /** A JSON-RPC `message/send` request: its id and `params.message`. */
  datatype SendMessageRequest = SendMessageRequest(id: string, message: Message)

  /** A task result carries artifacts and status, but no top-level `parts`. */
  datatype Task = Task(taskId: string, contextId: string)

  datatype SendResult = MessageResult(message: Message) | TaskResult(task: Task)

  datatype SendMessageResponse =
    | SuccessResponse(id: string, result: SendResult)
    | ErrorResponse(errorId: Option<string>, code: int, errorMessage: string)

  /** What the router gets back: a string, or Python's None when the first part has no text. */
  datatype Reply = Text(text: string) | NoText

  /** How unwrapping `result.parts[0].text` fails on a response of another shape. */
  datatype ExtractError =
    | NoResult        // an error response: `.get("result")` is None
    | NoParts         // a task result: `.get("parts")` is None
    | EmptyParts      // `parts[0]` of an empty list

  /**
    The request `execute_a2a_agent` sends: a user message whose only part is
    the JSON text of `{user, prompt}`, with `uuid4().hex` as its message id
    and `str(uuid4())` as the request id.
   */
  function BuildRequest(user: string, prompt: string, messageUuid: Uuid, requestUuid: Uuid): (r: SendMessageRequest)
    ensures r.message.role == User && |r.message.parts| == 1 && r.message.parts[0].TextPart?
    ensures r.message.messageId == UuidHex(messageUuid) && |r.message.messageId| == 32
    ensures r.id == UuidString(requestUuid) && |r.id| == 36
  {
    SendMessageRequest(
      UuidString(requestUuid),
      Message(User, [TextPart(JsonText.EncodeInput(user, prompt))], UuidHex(messageUuid)))
  }

  /** The text of a response, `result.parts[0].text`. */
  function ExtractText(response: SendMessageResponse): (r: Result<Reply, ExtractError>)
    ensures r == Err(NoResult) <==> response.ErrorResponse?
    ensures r == Err(NoParts) <==> response.SuccessResponse? && response.result.TaskResult?
    ensures r.Ok? <==>
      response.SuccessResponse? && response.result.MessageResult? && |response.result.message.parts| > 0
    ensures r.Ok? ==>
      var first := response.result.message.parts[0];
      r.value == if first.TextPart? then Text(first.text) else NoText
  {
    match response
    case ErrorResponse(_, _, _) => Err(NoResult)
    case SuccessResponse(_, TaskResult(_)) => Err(NoParts)
    case SuccessResponse(_, MessageResult(m)) =>
      if |m.parts| == 0 then Err(EmptyParts)
      else match m.parts[0]
        case TextPart(t) => Ok(Text(t))
        case _ => Ok(NoText)
  }

  // ---------------------------------------------------------------------
  // The specialist's side, as the partner of the two functions above
  // ---------------------------------------------------------------------

  /** The texts of the text parts, in order. */
  function TextParts(parts: seq<Part>): seq<string>
  {
    if parts == [] then []
    else (if parts[0].TextPart? then [parts[0].text] else []) + TextParts(parts[1..])
  }

  function Join(texts: seq<string>, delimiter: string): string {
    if texts == [] then "" else if |texts| == 1 then texts[0]
    else texts[0] + delimiter + Join(texts[1..], delimiter)
  }

  /** What a specialist reads as the user input of a message: its text parts joined by newlines. */
  function UserInput(m: Message): string {
    Join(TextParts(m.parts), "\n")
  }

  /** The reply message a specialist enqueues for a text answer. */
  function AgentTextMessage(text: string, messageId: string): Message {
    Message(Agent, [TextPart(text)], messageId)
  }

  /** A built request is a user message that the specialist decodes back to exactly `{user, prompt}`. */
  lemma RequestRoundTrip(user: string, prompt: string, messageUuid: Uuid, requestUuid: Uuid)
    ensures var r := BuildRequest(user, prompt, messageUuid, requestUuid);
      && r.message.role == User
      && |r.message.parts| == 1
      && JsonText.DecodeInput(UserInput(r.message)) == Some(JsonText.AgentInput(user, prompt))
  {
    var r := BuildRequest(user, prompt, messageUuid, requestUuid);
    assert TextParts(r.message.parts) == [JsonText.EncodeInput(user, prompt)];
    JsonText.InputRoundTrip(user, prompt);
  }

  /** An answer the specialist sends as a text message reaches the router unchanged. */
  lemma ReplyRoundTrip(id: string, text: string, messageId: string)
    ensures ExtractText(SuccessResponse(id, MessageResult(AgentTextMessage(text, messageId)))) == Ok(Text(text))
  {
  }
}
