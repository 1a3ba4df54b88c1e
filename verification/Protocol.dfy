/** Messages, stream deltas, events and provider errors shared by every component. */
module Protocol {

  datatype Option<+T> = None | Some(value: T)

  /** Field names: the ones the agent loop itself writes or reads, and all the others
      (`OtherKey` never spells one of the named ones). */
  datatype Key = ToolNameKey | PathKey | CommandKey | ErrorKey | RawKey | ParseErrorKey | OtherKey(name: string)

  /** JSON as the tool layer sees it: an immutable tree. */
  datatype Json =
    | JNull
    | JBool(flag: bool)
    | JNumber(literal: string)
    | JString(text: string)
    | JArray(items: seq<Json>)
    | JObject(fields: map<Key, Json>)

  datatype ParseResult = Parsed(value: Json) | ParseFailed(message: string)

  datatype ToolCall = ToolCall(id: string, name: string, arguments: Json)

  datatype ContentBlock =
    | Text(text: string)
    | Image(mediaType: string, data: string)
    | Thinking(thinking: string, signature: Option<string>)
    | RedactedThinking(redacted: string)
    | ToolCallBlock(call: ToolCall)

  datatype StopReason = Stop | ToolUse | Error | Aborted

  datatype AssistantMessage = AssistantMessage(
    content: seq<ContentBlock>,
    stopReason: StopReason,
    errorMessage: Option<string>,
    provider: string,
    model: string,
    reasoningDetails: Option<seq<Json>>)

  datatype ToolResult = ToolResult(content: seq<ContentBlock>, details: Json)

  datatype ToolResultMessage = ToolResultMessage(
    toolCallId: string,
    toolName: string,
    content: seq<ContentBlock>,
    details: Json,
    isError: bool)

  datatype Message =
    | User(content: seq<ContentBlock>)
    | Assistant(assistant: AssistantMessage)
    | ToolResultMsg(result: ToolResultMessage)
    | Custom(customType: string, payload: Json)

  datatype StreamDelta =
    | TextStart
    | TextDelta(text: string)
    | TextEnd
    | ThinkingStart
    | ThinkingDelta(thinking: string)
    | ThinkingEnd
    | ToolCallStart(call: ToolCall)
    | ToolCallDelta(id: string, argumentsDelta: string)
    | ToolCallEnd(id: string)

  datatype CompactionPhase = PrePrompt | MidTurn | ReactiveOverflow

  datatype AgentEvent =
    | AgentStart
    | AgentEnd(messages: seq<Message>)
    | TurnStart
    | TurnEnd(assistant: AssistantMessage, toolResults: seq<ToolResultMessage>)
    | MessageStart(message: Message)
    | MessageDelta(delta: StreamDelta)
    | MessageEnd(message: Message)
    | ToolExecStart(callId: string, toolName: string, args: Json)
    | ToolExecUpdate(callId: string, partial: ToolResult)
    | ToolExecEnd(callId: string, result: ToolResult, isError: bool)
    | TranscriptReplace(messages: seq<Message>)
    | SystemMessage(text: string)
    | CompactionStart(phase: CompactionPhase)
    | CompactionEnd(phase: CompactionPhase, summary: string, tokensBefore: nat, tokensAfter: nat)

  datatype ProviderError =
    | Http(status: nat, body: string)
    | Auth(detail: string)
    | RateLimited(retryAfterMs: Option<nat>)
    | ContextOverflow(detail: string)
    | RequestBuild(detail: string)
    | Transport(detail: string)
    | EmptyAssistantResponse
    | ResponseTruncated
    | InvalidStreamJson(detail: string)
    | MalformedStreamEvent(detail: string)
    | ToolCallMalformed(detail: string)
    | ModelOutputMalformed(detail: string)
    | NativeReasoningUnsupported(detail: string)
    | UnsupportedStreamFeature(detail: string)
    | ReplayFidelity(providerHint: string, detail: string)
    | FeatureUnsupported(detail: string)
    | ModelLoadResources(body: string, suggestedNumCtx: nat)

  lemma Regroup<T>(a: seq<T>, b: seq<T>, c: seq<T>)
    ensures a + (b + c) == a + b + c
  {
  }

  /** The channel every component reports to: what has been sent so far, in order. */
  class EventLog {
    var trace: seq<AgentEvent>

    constructor ()
      ensures trace == []
    {
      trace := [];
    }

    method Send(event: AgentEvent)
      modifies this
      ensures trace == old(trace) + [event]
    {
      trace := trace + [event];
    }
  }

  /** The Unicode White_Space code points, which `trim` removes. */
  predicate IsWhitespace(c: char) {
    || '\t' <= c <= '\r'
    || c == ' ' || c == '\U{85}' || c == '\U{A0}' || c == '\U{1680}'
    || '\U{2000}' <= c <= '\U{200A}'
    || c == '\U{2028}' || c == '\U{2029}' || c == '\U{202F}' || c == '\U{205F}' || c == '\U{3000}'
  }

  /** `text.trim().is_empty()`. */
  predicate Blank(text: string) {
    forall i :: 0 <= i < |text| ==> IsWhitespace(text[i])
  }

  /** A message that a failed or cancelled request left behind; it is never replayed. */
  predicate Failed(assistant: AssistantMessage) {
    assistant.stopReason == Error || assistant.stopReason == Aborted
  }

  function ExtractToolCalls(content: seq<ContentBlock>): (calls: seq<ToolCall>) {
    if content == [] then []
    else (if content[0].ToolCallBlock? then [content[0].call] else []) + ExtractToolCalls(content[1..])
  }

  function Ids(calls: seq<ToolCall>): (ids: seq<string>)
    ensures |ids| == |calls|
  {
    seq(|calls|, i requires 0 <= i < |calls| => calls[i].id)
  }

  function AsMessages(results: seq<ToolResultMessage>): (messages: seq<Message>)
    ensures |messages| == |results|
  {
    seq(|results|, i requires 0 <= i < |results| => ToolResultMsg(results[i]))
  }
}
