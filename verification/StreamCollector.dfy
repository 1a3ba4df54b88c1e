/** Streaming one assistant message: the message builder and the loop around it. */
module StreamCollector {
  import opened Protocol

  datatype ProviderEvent =
    | Start
    | TextDelta(text: string)
    | ThinkingDelta(thinking: string)
    | ToolCallStart(call: ToolCall)
    | ToolCallDelta(id: string, argumentsDelta: string)
    | ToolCallEnd(id: string)
    | Done(message: AssistantMessage)

  /** What one poll of the stream brings: the run was cancelled, or the stream has an item. */
  datatype Poll = Cancelled | Item(event: ProviderEvent) | Failure(error: ProviderError)

  /** What the loop cannot see into: whose message it is, the JSON parser, error texts. */
  datatype Config = Config(
    provider: string,
    model: string,
    parse: string -> ParseResult,
    describe: ProviderError -> string)

  datatype Kind = TextKind | ThinkingKind

  datatype ToolCallBuilder = ToolCallBuilder(id: string, name: string, value: Option<Json>, buffer: string)

  datatype Part = TextPart(text: string) | ThinkingPart(thinking: string) | ToolPart(tool: ToolCallBuilder)

  datatype Collected = Collected(assistant: AssistantMessage, error: Option<ProviderError>)

  // ----- Building blocks -----

  function NewTool(call: ToolCall): ToolCallBuilder {
    ToolCallBuilder(call.id, call.name, Some(call.arguments), "")
  }

  function FinalizeArguments(cfg: Config, tool: ToolCallBuilder): ToolCallBuilder {
    if tool.buffer == "" then tool
    else
      match cfg.parse(tool.buffer)
      case Parsed(value) => tool.(value := Some(value))
      case ParseFailed(message) =>
        tool.(value := Some(JObject(map[RawKey := JString(tool.buffer), ParseErrorKey := JString(message)])))
  }

  function IntoToolCall(cfg: Config, tool: ToolCallBuilder): ToolCall {
    var final := FinalizeArguments(cfg, tool);
    ToolCall(final.id, final.name, if final.value.Some? then final.value.value else JNull)
  }

  function IntoBlock(cfg: Config, part: Part): ContentBlock {
    match part
    case TextPart(text) => Text(text)
    case ThinkingPart(thinking) => Thinking(thinking, None)
    case ToolPart(tool) => ToolCallBlock(IntoToolCall(cfg, tool))
  }

  predicate BlankBlock(block: ContentBlock) {
    (block.Text? && Blank(block.text)) || (block.Thinking? && Blank(block.thinking))
  }

  function VisibleBlocks(cfg: Config, parts: seq<Part>): seq<ContentBlock> {
    if parts == [] then []
    else
      var block := IntoBlock(cfg, parts[0]);
      (if BlankBlock(block) then [] else [block]) + VisibleBlocks(cfg, parts[1..])
  }

  function FinishMessage(cfg: Config, parts: seq<Part>, stopReason: StopReason, error: Option<string>)
    : AssistantMessage
  {
    var content := VisibleBlocks(cfg, parts);
    AssistantMessage(
      if error.Some? && content == [] then [Text(error.value)] else content,
      stopReason, error, cfg.provider, cfg.model, None)
  }

  function Placeholder(cfg: Config): AssistantMessage {
    AssistantMessage([], Stop, None, cfg.provider, cfg.model, None)
  }

  /** The first tool call with this id: later calls that reuse the id are out of reach. */
  function FindTool(parts: seq<Part>, id: string): (at: Option<nat>)
    ensures at.Some? ==> at.value < |parts| && parts[at.value].ToolPart? && parts[at.value].tool.id == id
    ensures forall i :: 0 <= i < (if at.Some? then at.value else |parts|)
                    ==> !(parts[i].ToolPart? && parts[i].tool.id == id)
  {
    if parts == [] then None
    else if parts[0].ToolPart? && parts[0].tool.id == id then Some(0)
    else
      match FindTool(parts[1..], id)
      case None => None
      case Some(i) => Some(i + 1)
  }

  function AppendArguments(parts: seq<Part>, id: string, delta: string): (r: seq<Part>)
    ensures |r| == |parts|
  {
    match FindTool(parts, id)
    case None => parts
    case Some(i) => parts[i := ToolPart(parts[i].tool.(buffer := parts[i].tool.buffer + delta))]
  }

  function FinishTool(cfg: Config, parts: seq<Part>, id: string): (r: seq<Part>)
    ensures |r| == |parts|
  {
    match FindTool(parts, id)
    case None => parts
    case Some(i) => parts[i := ToolPart(FinalizeArguments(cfg, parts[i].tool))]
  }

  function PushText(parts: seq<Part>, text: string): seq<Part> {
    if parts != [] && parts[|parts| - 1].TextPart?
    then parts[|parts| - 1 := TextPart(parts[|parts| - 1].text + text)]
    else parts + [TextPart(text)]
  }

  function PushThinking(parts: seq<Part>, thinking: string): seq<Part> {
    if parts != [] && parts[|parts| - 1].ThinkingPart?
    then parts[|parts| - 1 := ThinkingPart(parts[|parts| - 1].thinking + thinking)]
    else parts + [ThinkingPart(thinking)]
  }

  // ----- What a stream of provider events amounts to -----

  /** The block a UI has open: decided by the content alone. */
  function OpenKind(parts: seq<Part>): Option<Kind> {
    if parts == [] then None
    else
      match parts[|parts| - 1]
      case TextPart(_) => Some(TextKind)
      case ThinkingPart(_) => Some(ThinkingKind)
      case ToolPart(_) => None
  }

  function CloseDelta(open: Option<Kind>): seq<StreamDelta> {
    match open
    case None => []
    case Some(TextKind) => [TextEnd]
    case Some(ThinkingKind) => [ThinkingEnd]
  }

  function OpenDelta(kind: Kind): StreamDelta {
    if kind == TextKind then TextStart else ThinkingStart
  }

  function SwitchDeltas(open: Option<Kind>, next: Kind): seq<StreamDelta> {
    if open == Some(next) then [] else CloseDelta(open) + [OpenDelta(next)]
  }

  function EventParts(cfg: Config, parts: seq<Part>, event: ProviderEvent): seq<Part> {
    match event
    case Start => parts
    case TextDelta(text) => PushText(parts, text)
    case ThinkingDelta(thinking) => PushThinking(parts, thinking)
    case ToolCallStart(call) => parts + [ToolPart(NewTool(call))]
    case ToolCallDelta(id, delta) => AppendArguments(parts, id, delta)
    case ToolCallEnd(id) => FinishTool(cfg, parts, id)
    case Done(_) => parts
  }

  function EventDeltas(open: Option<Kind>, event: ProviderEvent): seq<StreamDelta> {
    match event
    case Start => []
    case TextDelta(text) => SwitchDeltas(open, TextKind) + [StreamDelta.TextDelta(text)]
    case ThinkingDelta(thinking) => SwitchDeltas(open, ThinkingKind) + [StreamDelta.ThinkingDelta(thinking)]
    case ToolCallStart(call) => CloseDelta(open) + [StreamDelta.ToolCallStart(call)]
    case ToolCallDelta(id, delta) => [StreamDelta.ToolCallDelta(id, delta)]
    case ToolCallEnd(id) => [StreamDelta.ToolCallEnd(id)]
    case Done(_) => []
  }

  datatype Live = Live(parts: seq<Part>, deltas: seq<StreamDelta>)

  function Apply(cfg: Config, live: Live, event: ProviderEvent): Live {
    Live(EventParts(cfg, live.parts, event), live.deltas + EventDeltas(OpenKind(live.parts), event))
  }

  /** The builder and the deltas sent after these events. */
  function LiveAfter(cfg: Config, events: seq<ProviderEvent>): Live
    decreases |events|
  {
    if events == [] then Live([], [])
    else Apply(cfg, LiveAfter(cfg, events[..|events| - 1]), events[|events| - 1])
  }

  /** The events that arrive before the stream ends, one way or another. */
  function Streamed(polls: seq<Poll>): (events: seq<ProviderEvent>)
    ensures |events| <= |polls|
    ensures forall i :: 0 <= i < |events| ==> polls[i] == Item(events[i]) && !events[i].Done?
    ensures |events| < |polls| ==> !polls[|events|].Item? || polls[|events|].event.Done?
  {
    if polls == [] || !polls[0].Item? || polls[0].event.Done? then []
    else [polls[0].event] + Streamed(polls[1..])
  }

  const STREAM_CUT := MalformedStreamEvent("Stream ended unexpectedly")

  /** How a stream that stops after `at` polls ends. A `Done` message replaces what was built. */
  function Ending(cfg: Config, parts: seq<Part>, polls: seq<Poll>, at: nat): Collected
    requires at <= |polls|
    requires at < |polls| && polls[at].Item? ==> polls[at].event.Done?
  {
    if at == |polls| then
      Collected(FinishMessage(cfg, parts, Error, Some(cfg.describe(STREAM_CUT))), Some(STREAM_CUT))
    else
      match polls[at]
      case Cancelled => Collected(FinishMessage(cfg, parts, Aborted, Some("Run aborted")), None)
      case Item(event) => Collected(event.message, None)
      case Failure(error) =>
        Collected(FinishMessage(cfg, parts, Error, Some(cfg.describe(error))), Some(error))
  }

  function Outcome(cfg: Config, polls: seq<Poll>): Collected {
    var events := Streamed(polls);
    Ending(cfg, LiveAfter(cfg, events).parts, polls, |events|)
  }

  /** The deltas of the whole stream, with the last open block closed. */
  function OutcomeDeltas(cfg: Config, polls: seq<Poll>): seq<StreamDelta> {
    var live := LiveAfter(cfg, Streamed(polls));
    live.deltas + CloseDelta(OpenKind(live.parts))
  }

  function DeltaEvents(deltas: seq<StreamDelta>): (events: seq<AgentEvent>)
    ensures |events| == |deltas|
  {
    seq(|deltas|, i requires 0 <= i < |deltas| => MessageDelta(deltas[i]))
  }

  function StreamTrace(cfg: Config, polls: seq<Poll>): seq<AgentEvent> {
    [MessageStart(Assistant(Placeholder(cfg)))]
    + DeltaEvents(OutcomeDeltas(cfg, polls))
    + [MessageEnd(Assistant(Outcome(cfg, polls).assistant))]
  }

  // ----- The code -----

  class AssistantMessageBuilder {
    var content: seq<Part>
    const cfg: Config

    constructor (cfg: Config)
      ensures content == [] && this.cfg == cfg
    {
      this.cfg := cfg;
      content := [];
    }

    method AddText(text: string)
      modifies this
      ensures content == PushText(old(content), text)
    {
      if content != [] && content[|content| - 1].TextPart? {
        content := content[|content| - 1 := TextPart(content[|content| - 1].text + text)];
      } else {
        content := content + [TextPart(text)];
      }
    }

    method AddThinking(thinking: string)
      modifies this
      ensures content == PushThinking(old(content), thinking)
    {
      if content != [] && content[|content| - 1].ThinkingPart? {
        content := content[|content| - 1 := ThinkingPart(content[|content| - 1].thinking + thinking)];
      } else {
        content := content + [ThinkingPart(thinking)];
      }
    }

    method StartToolCall(call: ToolCall)
      modifies this
      ensures content == old(content) + [ToolPart(NewTool(call))]
    {
      content := content + [ToolPart(NewTool(call))];
    }

    method AppendToolCallDelta(id: string, delta: string)
      modifies this
      ensures content == AppendArguments(old(content), id, delta)
    {
      var at := FindTool(content, id);
      if at.Some? {
        var tool := content[at.value].tool;
        content := content[at.value := ToolPart(tool.(buffer := tool.buffer + delta))];
      }
    }

    method FinishToolCall(id: string)
      modifies this
      ensures content == FinishTool(cfg, old(content), id)
    {
      var at := FindTool(content, id);
      if at.Some? {
        content := content[at.value := ToolPart(FinalizeArguments(cfg, content[at.value].tool))];
      }
    }
  }

  method FinishActiveDelta(log: EventLog, active: Option<Kind>) returns (next: Option<Kind>)
    modifies log
    ensures next == None && log.trace == old(log.trace) + DeltaEvents(CloseDelta(active))
  {
    match active {
      case Some(TextKind) => log.Send(MessageDelta(TextEnd));
      case Some(ThinkingKind) => log.Send(MessageDelta(ThinkingEnd));
      case None =>
    }
    next := None;
  }

  method StartDeltaIfNeeded(log: EventLog, active: Option<Kind>, kind: Kind) returns (next: Option<Kind>)
    modifies log
    ensures next == Some(kind) && log.trace == old(log.trace) + DeltaEvents(SwitchDeltas(active, kind))
  {
    if active == Some(kind) {
      return active;
    }
    next := FinishActiveDelta(log, active);
    log.Send(MessageDelta(OpenDelta(kind)));
    next := Some(kind);
  }

  lemma DeltaEventsConcat(xs: seq<StreamDelta>, ys: seq<StreamDelta>)
    ensures DeltaEvents(xs + ys) == DeltaEvents(xs) + DeltaEvents(ys)
  {
  }

  lemma SwitchThenSend(trace: seq<AgentEvent>, deltas: seq<StreamDelta>, delta: StreamDelta)
    ensures trace + DeltaEvents(deltas + [delta]) == trace + DeltaEvents(deltas) + [MessageDelta(delta)]
  {
    DeltaEventsConcat(deltas, [delta]);
    assert DeltaEvents([delta]) == [MessageDelta(delta)];
    Regroup(trace, DeltaEvents(deltas), [MessageDelta(delta)]);
  }

  method HandleEvent(builder: AssistantMessageBuilder, active: Option<Kind>, event: ProviderEvent, log: EventLog)
    returns (next: Option<Kind>)
    requires active == OpenKind(builder.content)
    modifies builder, log
    ensures builder.content == EventParts(builder.cfg, old(builder.content), event)
    ensures next == OpenKind(builder.content)
    ensures log.trace == old(log.trace) + DeltaEvents(EventDeltas(active, event))
  {
    next := active;
    match event {
      case Start =>
      case TextDelta(text) =>
        SwitchThenSend(old(log.trace), SwitchDeltas(active, TextKind), StreamDelta.TextDelta(text));
        next := StartDeltaIfNeeded(log, active, TextKind);
        builder.AddText(text);
        log.Send(MessageDelta(StreamDelta.TextDelta(text)));
      case ThinkingDelta(thinking) =>
        SwitchThenSend(old(log.trace), SwitchDeltas(active, ThinkingKind), StreamDelta.ThinkingDelta(thinking));
        next := StartDeltaIfNeeded(log, active, ThinkingKind);
        builder.AddThinking(thinking);
        log.Send(MessageDelta(StreamDelta.ThinkingDelta(thinking)));
      case ToolCallStart(call) =>
        SwitchThenSend(old(log.trace), CloseDelta(active), StreamDelta.ToolCallStart(call));
        next := FinishActiveDelta(log, active);
        builder.StartToolCall(call);
        log.Send(MessageDelta(StreamDelta.ToolCallStart(call)));
      case ToolCallDelta(id, delta) =>
        builder.AppendToolCallDelta(id, delta);
        log.Send(MessageDelta(StreamDelta.ToolCallDelta(id, delta)));
      case ToolCallEnd(id) =>
        builder.FinishToolCall(id);
        log.Send(MessageDelta(StreamDelta.ToolCallEnd(id)));
      case Done(_) =>
    }
  }

  lemma {:induction false} LiveSnoc(cfg: Config, events: seq<ProviderEvent>, i: nat)
    requires i < |events|
    ensures LiveAfter(cfg, events[..i + 1]) == Apply(cfg, LiveAfter(cfg, events[..i]), events[i])
  {
    assert events[..i + 1][..i] == events[..i];
  }

  lemma TraceSnoc(cfg: Config, events: seq<ProviderEvent>, i: nat, base: seq<AgentEvent>)
    requires i < |events|
    ensures var live, event := LiveAfter(cfg, events[..i]), events[i];
            base + DeltaEvents(live.deltas) + DeltaEvents(EventDeltas(OpenKind(live.parts), event))
              == base + DeltaEvents(LiveAfter(cfg, events[..i + 1]).deltas)
  {
    var live := LiveAfter(cfg, events[..i]);
    LiveSnoc(cfg, events, i);
    DeltaEventsConcat(live.deltas, EventDeltas(OpenKind(live.parts), events[i]));
  }

  /** The streaming loop. Its variable `active` always names the block the builder ends
      with, which is what makes the deltas it sends the ones of `LiveAfter`. */
  method HandleEvents(builder: AssistantMessageBuilder, polls: seq<Poll>, log: EventLog)
    returns (active: Option<Kind>, i: nat)
    requires builder.content == []
    modifies builder, log
    ensures i == |Streamed(polls)|
    ensures builder.content == LiveAfter(builder.cfg, Streamed(polls)).parts
    ensures active == OpenKind(builder.content)
    ensures log.trace == old(log.trace) + DeltaEvents(LiveAfter(builder.cfg, Streamed(polls)).deltas)
  {
    active, i := None, 0;
    ghost var streamed, base := Streamed(polls), log.trace;
    while i < |polls| && polls[i].Item? && !polls[i].event.Done?
      invariant 0 <= i <= |streamed|
      invariant builder.content == LiveAfter(builder.cfg, streamed[..i]).parts
      invariant active == OpenKind(builder.content)
      invariant log.trace == base + DeltaEvents(LiveAfter(builder.cfg, streamed[..i]).deltas)
    {
      LiveSnoc(builder.cfg, streamed, i);
      TraceSnoc(builder.cfg, streamed, i, base);
      active := HandleEvent(builder, active, polls[i].event, log);
      i := i + 1;
    }
    assert streamed[..i] == streamed;
  }

  /** One assistant message: stream, close the open block, and report how it ended. */
  method CollectStream(cfg: Config, polls: seq<Poll>, log: EventLog) returns (collected: Collected)
    modifies log
    ensures collected == Outcome(cfg, polls)
    ensures log.trace == old(log.trace) + StreamTrace(cfg, polls)
  {
    var builder := new AssistantMessageBuilder(cfg);
    log.Send(MessageStart(Assistant(Placeholder(cfg))));
    var active, i := HandleEvents(builder, polls, log);
    ghost var open := active;
    active := FinishActiveDelta(log, active);
    DeltaEventsConcat(LiveAfter(cfg, Streamed(polls)).deltas, CloseDelta(open));
    if i == |polls| {
      collected := Collected(
        FinishMessage(cfg, builder.content, Error, Some(cfg.describe(STREAM_CUT))), Some(STREAM_CUT));
    } else {
      match polls[i] {
        case Cancelled =>
          collected := Collected(FinishMessage(cfg, builder.content, Aborted, Some("Run aborted")), None);
        case Item(event) =>
          collected := Collected(event.message, None);
        case Failure(error) =>
          collected := Collected(
            FinishMessage(cfg, builder.content, Error, Some(cfg.describe(error))), Some(error));
      }
    }
    log.Send(MessageEnd(Assistant(collected.assistant)));
    var opening, deltas := [MessageStart(Assistant(Placeholder(cfg)))], DeltaEvents(OutcomeDeltas(cfg, polls));
    Regroup(
      old(log.trace) + opening,
      DeltaEvents(LiveAfter(cfg, Streamed(polls)).deltas), DeltaEvents(CloseDelta(open)));
    Regroup(old(log.trace), opening, deltas);
    Regroup(old(log.trace), opening + deltas, [MessageEnd(Assistant(collected.assistant))]);
  }
}
