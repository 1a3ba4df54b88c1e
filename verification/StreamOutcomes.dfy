/** How each stream ends: its error, stop reason and content, from the polls alone. */
module StreamOutcomes {
  import opened Protocol
  import opened StreamCollector

  // ----- The ending -----

  /** An item that does not end the stream. */
  predicate Ordinary(poll: Poll) {
    poll.Item? && !poll.event.Done?
  }

  /** The error a stream ends with: that of its first failure, unless a cancellation or a
      finished message comes first; a stream that just ends was cut. */
  function StreamError(polls: seq<Poll>): Option<ProviderError> {
    if polls == [] then Some(MalformedStreamEvent("Stream ended unexpectedly"))
    else
      match polls[0]
      case Failure(error) => Some(error)
      case Cancelled => None
      case Item(event) => if event.Done? then None else StreamError(polls[1..])
  }

  lemma {:induction false} StreamErrorIsAtEnd(polls: seq<Poll>)
    ensures var n := |Streamed(polls)|;
            StreamError(polls) ==
              if n == |polls| then Some(MalformedStreamEvent("Stream ended unexpectedly"))
              else if polls[n].Failure? then Some(polls[n].error)
              else None
  {
    if polls != [] && Ordinary(polls[0]) {
      StreamErrorIsAtEnd(polls[1..]);
    }
  }

  /** The collected error is exactly the stream's. */
  lemma CollectedErrorIsTheStreams(cfg: Config, polls: seq<Poll>)
    ensures Outcome(cfg, polls).error == StreamError(polls)
  {
    StreamErrorIsAtEnd(polls);
  }

  lemma {:induction false} StreamedIsPrefix(polls: seq<Poll>, n: nat)
    requires n <= |polls| && forall i :: 0 <= i < n ==> Ordinary(polls[i])
    requires n < |polls| ==> !Ordinary(polls[n])
    ensures |Streamed(polls)| == n
  {
    if n > 0 {
      StreamedIsPrefix(polls[1..], n - 1);
    }
  }

  /** One clause per ending: the first poll that is no ordinary item, the `n`th, says how the
      message ends; a finished message replaces what was built. */
  lemma MessageEndsAsItsStream(cfg: Config, polls: seq<Poll>, n: nat)
    requires n <= |polls| && forall i :: 0 <= i < n ==> Ordinary(polls[i])
    requires n < |polls| ==> !Ordinary(polls[n])
    ensures var assistant := Outcome(cfg, polls).assistant;
            if n == |polls| then
              && assistant.stopReason == Error
              && assistant.errorMessage == Some(cfg.describe(MalformedStreamEvent("Stream ended unexpectedly")))
            else
              match polls[n]
              case Cancelled => assistant.stopReason == Aborted && assistant.errorMessage == Some("Run aborted")
              case Failure(error) =>
                assistant.stopReason == Error && assistant.errorMessage == Some(cfg.describe(error))
              case Item(event) => event.Done? && assistant == event.message
  {
    StreamedIsPrefix(polls, n);
  }

  // ----- The content -----

  /** What a part contributes to the message: nothing if it is blank. */
  function Shown(cfg: Config, part: Part): seq<ContentBlock> {
    match part
    case TextPart(text) => if Blank(text) then [] else [Text(text)]
    case ThinkingPart(thinking) => if Blank(thinking) then [] else [Thinking(thinking, None)]
    case ToolPart(tool) => [ToolCallBlock(IntoToolCall(cfg, tool))]
  }

  function AllShown(cfg: Config, parts: seq<Part>): seq<ContentBlock> {
    if parts == [] then [] else Shown(cfg, parts[0]) + AllShown(cfg, parts[1..])
  }

  lemma {:induction false} VisibleIsShown(cfg: Config, parts: seq<Part>)
    ensures VisibleBlocks(cfg, parts) == AllShown(cfg, parts)
  {
    if parts != [] {
      VisibleIsShown(cfg, parts[1..]);
    }
  }

  /** A message that was not finished by its stream shows every part that is not blank, in
      order, or its error text if there is none; and it names its provider and model. */
  lemma UnfinishedMessageShowsParts(cfg: Config, polls: seq<Poll>, n: nat)
    requires n <= |polls| && forall i :: 0 <= i < n ==> Ordinary(polls[i])
    requires n < |polls| ==> !polls[n].Item?
    ensures var assistant := Outcome(cfg, polls).assistant;
            var shown := AllShown(cfg, LiveAfter(cfg, Streamed(polls)).parts);
            && assistant.errorMessage.Some?
            && assistant.content == (if shown == [] then [Text(assistant.errorMessage.value)] else shown)
            && assistant.provider == cfg.provider && assistant.model == cfg.model
            && assistant.reasoningDetails == None
  {
    StreamedIsPrefix(polls, n);
    VisibleIsShown(cfg, LiveAfter(cfg, Streamed(polls)).parts);
  }

  /** A stream is announced by an empty message of its provider and model, and closed by the
      message it ends with. */
  lemma StreamIsFramed(cfg: Config, polls: seq<Poll>)
    ensures var trace := StreamTrace(cfg, polls);
            && |trace| >= 2
            && trace[0] == MessageStart(Assistant(AssistantMessage([], Stop, None, cfg.provider, cfg.model, None)))
            && trace[|trace| - 1] == MessageEnd(Assistant(Outcome(cfg, polls).assistant))
            && forall i :: 1 <= i < |trace| - 1 ==> trace[i].MessageDelta?
  {
  }

  // ----- Nothing streamed is lost -----

  function TextOf(events: seq<ProviderEvent>): string {
    if events == [] then ""
    else
      var last := events[|events| - 1];
      TextOf(events[..|events| - 1]) + if last.TextDelta? then last.text else ""
  }

  function ThinkingOf(events: seq<ProviderEvent>): string {
    if events == [] then ""
    else
      var last := events[|events| - 1];
      ThinkingOf(events[..|events| - 1]) + if last.ThinkingDelta? then last.thinking else ""
  }

  function TextIn(parts: seq<Part>): string {
    if parts == [] then ""
    else
      var last := parts[|parts| - 1];
      TextIn(parts[..|parts| - 1]) + if last.TextPart? then last.text else ""
  }

  function ThinkingIn(parts: seq<Part>): string {
    if parts == [] then ""
    else
      var last := parts[|parts| - 1];
      ThinkingIn(parts[..|parts| - 1]) + if last.ThinkingPart? then last.thinking else ""
  }

  lemma PartsSnoc(parts: seq<Part>, part: Part)
    ensures TextIn(parts + [part]) == TextIn(parts) + if part.TextPart? then part.text else ""
    ensures ThinkingIn(parts + [part]) == ThinkingIn(parts) + if part.ThinkingPart? then part.thinking else ""
  {
    assert (parts + [part])[..|parts|] == parts;
  }

  lemma PushAdds(parts: seq<Part>, text: string)
    ensures TextIn(PushText(parts, text)) == TextIn(parts) + text
    ensures ThinkingIn(PushText(parts, text)) == ThinkingIn(parts)
    ensures ThinkingIn(PushThinking(parts, text)) == ThinkingIn(parts) + text
    ensures TextIn(PushThinking(parts, text)) == TextIn(parts)
  {
    PartsSnoc(parts, TextPart(text));
    PartsSnoc(parts, ThinkingPart(text));
    if parts != [] {
      var init, last := parts[..|parts| - 1], parts[|parts| - 1];
      if last.TextPart? {
        assert PushText(parts, text) == init + [TextPart(last.text + text)];
        PartsSnoc(init, TextPart(last.text + text));
        Regroup(TextIn(init), last.text, text);
      }
      if last.ThinkingPart? {
        assert PushThinking(parts, text) == init + [ThinkingPart(last.thinking + text)];
        PartsSnoc(init, ThinkingPart(last.thinking + text));
        Regroup(ThinkingIn(init), last.thinking, text);
      }
    }
  }

  /** Replacing a tool call by a tool call leaves text and thinking alone. */
  lemma {:induction false} ToolUpdateKeepsText(parts: seq<Part>, i: nat, tool: ToolCallBuilder)
    requires i < |parts| && parts[i].ToolPart?
    ensures TextIn(parts[i := ToolPart(tool)]) == TextIn(parts)
    ensures ThinkingIn(parts[i := ToolPart(tool)]) == ThinkingIn(parts)
  {
    var n := |parts| - 1;
    var next := parts[i := ToolPart(tool)];
    if i == n {
      assert next[..n] == parts[..n];
    } else {
      ToolUpdateKeepsText(parts[..n], i, tool);
      assert next[..n] == parts[..n][i := ToolPart(tool)];
    }
  }

  lemma EventAdds(cfg: Config, parts: seq<Part>, event: ProviderEvent)
    ensures TextIn(EventParts(cfg, parts, event)) == TextIn(parts) + if event.TextDelta? then event.text else ""
    ensures ThinkingIn(EventParts(cfg, parts, event))
         == ThinkingIn(parts) + if event.ThinkingDelta? then event.thinking else ""
  {
    match event {
      case TextDelta(text) => PushAdds(parts, text);
      case ThinkingDelta(thinking) => PushAdds(parts, thinking);
      case ToolCallStart(call) => PartsSnoc(parts, ToolPart(NewTool(call)));
      case ToolCallDelta(id, delta) =>
        if FindTool(parts, id).Some? {
          var i := FindTool(parts, id).value;
          ToolUpdateKeepsText(parts, i, parts[i].tool.(buffer := parts[i].tool.buffer + delta));
        }
      case ToolCallEnd(id) =>
        if FindTool(parts, id).Some? {
          var i := FindTool(parts, id).value;
          ToolUpdateKeepsText(parts, i, FinalizeArguments(cfg, parts[i].tool));
        }
      case Start =>
      case Done(_) =>
    }
  }

  /** The builder holds exactly the text and the thinking streamed so far, in order. */
  lemma {:induction false} BuilderHoldsWhatWasStreamed(cfg: Config, events: seq<ProviderEvent>)
    ensures TextIn(LiveAfter(cfg, events).parts) == TextOf(events)
    ensures ThinkingIn(LiveAfter(cfg, events).parts) == ThinkingOf(events)
    decreases |events|
  {
    if events != [] {
      var n := |events| - 1;
      BuilderHoldsWhatWasStreamed(cfg, events[..n]);
      EventAdds(cfg, LiveAfter(cfg, events[..n]).parts, events[n]);
    }
  }
}
