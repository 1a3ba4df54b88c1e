/** What holds of every stream: the brackets nest, the deltas rebuild the message, and a
    tool call's arguments depend on its own deltas alone. */
module StreamProofs {
  import opened Protocol
  import opened StreamCollector

  // ----- Text and thinking brackets -----

  /** One delta against the open block; `None` marks a delta out of place. */
  function BracketStep(open: Option<Kind>, delta: StreamDelta): Option<Option<Kind>> {
    match delta
    case TextStart => if open.None? then Some(Some(TextKind)) else None
    case TextDelta(_) => if open == Some(TextKind) then Some(open) else None
    case TextEnd => if open == Some(TextKind) then Some(None) else None
    case ThinkingStart => if open.None? then Some(Some(ThinkingKind)) else None
    case ThinkingDelta(_) => if open == Some(ThinkingKind) then Some(open) else None
    case ThinkingEnd => if open == Some(ThinkingKind) then Some(None) else None
    case ToolCallStart(_) => if open.None? then Some(None) else None
    case ToolCallDelta(_, _) => Some(open)
    case ToolCallEnd(_) => Some(open)
  }

  function Brackets(open: Option<Kind>, deltas: seq<StreamDelta>): Option<Option<Kind>>
    decreases |deltas|
  {
    if deltas == [] then Some(open)
    else
      match BracketStep(open, deltas[0])
      case None => None
      case Some(next) => Brackets(next, deltas[1..])
  }

  lemma {:induction false} BracketsConcat(open: Option<Kind>, xs: seq<StreamDelta>, ys: seq<StreamDelta>)
    ensures Brackets(open, xs + ys)
         == match Brackets(open, xs) case None => None case Some(next) => Brackets(next, ys)
    decreases |xs|
  {
    if xs == [] {
      assert xs + ys == ys;
    } else {
      assert (xs + ys)[0] == xs[0] && (xs + ys)[1..] == xs[1..] + ys;
      if BracketStep(open, xs[0]).Some? {
        BracketsConcat(BracketStep(open, xs[0]).value, xs[1..], ys);
      }
    }
  }

  lemma CloseBrackets(open: Option<Kind>)
    ensures Brackets(open, CloseDelta(open)) == Some(None)
  {
    if open.Some? {
      assert CloseDelta(open)[1..] == [];
    }
  }

  lemma SwitchBrackets(open: Option<Kind>, kind: Kind)
    ensures Brackets(open, SwitchDeltas(open, kind)) == Some(Some(kind))
  {
    if open != Some(kind) {
      CloseBrackets(open);
      BracketsConcat(open, CloseDelta(open), [OpenDelta(kind)]);
      assert [OpenDelta(kind)][1..] == [];
    }
  }

  lemma EventBrackets(cfg: Config, parts: seq<Part>, event: ProviderEvent)
    ensures Brackets(OpenKind(parts), EventDeltas(OpenKind(parts), event))
         == Some(OpenKind(EventParts(cfg, parts, event)))
  {
    var open := OpenKind(parts);
    CloseBrackets(open);
    SwitchBrackets(open, TextKind);
    SwitchBrackets(open, ThinkingKind);
    match event {
      case TextDelta(text) =>
        BracketsConcat(open, SwitchDeltas(open, TextKind), [StreamDelta.TextDelta(text)]);
        assert [StreamDelta.TextDelta(text)][1..] == [];
      case ThinkingDelta(thinking) =>
        BracketsConcat(open, SwitchDeltas(open, ThinkingKind), [StreamDelta.ThinkingDelta(thinking)]);
        assert [StreamDelta.ThinkingDelta(thinking)][1..] == [];
      case ToolCallStart(call) =>
        BracketsConcat(open, CloseDelta(open), [StreamDelta.ToolCallStart(call)]);
        assert [StreamDelta.ToolCallStart(call)][1..] == [];
      case ToolCallDelta(id, delta) =>
        assert [StreamDelta.ToolCallDelta(id, delta)][1..] == [];
      case ToolCallEnd(id) =>
        assert [StreamDelta.ToolCallEnd(id)][1..] == [];
      case Start =>
      case Done(_) =>
    }
  }

  /** At every point of a stream the open bracket is the kind of the builder's last block. */
  lemma {:induction false} LiveBrackets(cfg: Config, events: seq<ProviderEvent>)
    ensures var live := LiveAfter(cfg, events);
            Brackets(None, live.deltas) == Some(OpenKind(live.parts))
    decreases |events|
  {
    if events != [] {
      var before := LiveAfter(cfg, events[..|events| - 1]);
      LiveBrackets(cfg, events[..|events| - 1]);
      EventBrackets(cfg, before.parts, events[|events| - 1]);
      BracketsConcat(None, before.deltas, EventDeltas(OpenKind(before.parts), events[|events| - 1]));
    }
  }

  /** However the stream ends, its brackets never nest and are all closed before MessageEnd. */
  lemma StreamBracketsClosed(cfg: Config, polls: seq<Poll>)
    ensures Brackets(None, OutcomeDeltas(cfg, polls)) == Some(None)
  {
    var live := LiveAfter(cfg, Streamed(polls));
    LiveBrackets(cfg, Streamed(polls));
    CloseBrackets(OpenKind(live.parts));
    BracketsConcat(None, live.deltas, CloseDelta(OpenKind(live.parts)));
  }

  // ----- Replaying the deltas -----

  /** How a listener rebuilds the message: it opens a block at a start delta and appends to
      the last block, without ever asking what kind the previous block was. */
  function ReplayStep(cfg: Config, parts: seq<Part>, delta: StreamDelta): seq<Part> {
    var last := |parts| - 1;
    match delta
    case TextStart => parts + [TextPart("")]
    case TextDelta(text) =>
      if parts != [] && parts[last].TextPart? then parts[last := TextPart(parts[last].text + text)] else parts
    case TextEnd => parts
    case ThinkingStart => parts + [ThinkingPart("")]
    case ThinkingDelta(text) =>
      if parts != [] && parts[last].ThinkingPart?
      then parts[last := ThinkingPart(parts[last].thinking + text)] else parts
    case ThinkingEnd => parts
    case ToolCallStart(call) => parts + [ToolPart(NewTool(call))]
    case ToolCallDelta(id, delta) => AppendArguments(parts, id, delta)
    case ToolCallEnd(id) => FinishTool(cfg, parts, id)
  }

  function Replayed(cfg: Config, deltas: seq<StreamDelta>): seq<Part>
    decreases |deltas|
  {
    if deltas == [] then []
    else ReplayStep(cfg, Replayed(cfg, deltas[..|deltas| - 1]), deltas[|deltas| - 1])
  }

  lemma {:induction false} ReplaySnoc(cfg: Config, deltas: seq<StreamDelta>, delta: StreamDelta)
    ensures Replayed(cfg, deltas + [delta]) == ReplayStep(cfg, Replayed(cfg, deltas), delta)
  {
    assert (deltas + [delta])[..|deltas|] == deltas;
  }

  lemma ReplayClose(cfg: Config, deltas: seq<StreamDelta>, open: Option<Kind>)
    ensures Replayed(cfg, deltas + CloseDelta(open)) == Replayed(cfg, deltas)
  {
    if open.Some? {
      ReplaySnoc(cfg, deltas, CloseDelta(open)[0]);
    } else {
      assert deltas + CloseDelta(open) == deltas;
    }
  }

  lemma ReplaySwitch(cfg: Config, deltas: seq<StreamDelta>, kind: Kind)
    ensures var parts := Replayed(cfg, deltas);
            var next := Replayed(cfg, deltas + SwitchDeltas(OpenKind(parts), kind));
            next == if OpenKind(parts) == Some(kind) then parts
                    else parts + [if kind == TextKind then TextPart("") else ThinkingPart("")]
  {
    var open := OpenKind(Replayed(cfg, deltas));
    if open == Some(kind) {
      assert deltas + SwitchDeltas(open, kind) == deltas;
    } else {
      ReplayClose(cfg, deltas, open);
      ReplaySnoc(cfg, deltas + CloseDelta(open), OpenDelta(kind));
      assert deltas + SwitchDeltas(open, kind) == deltas + CloseDelta(open) + [OpenDelta(kind)];
    }
  }

  lemma ReplayText(cfg: Config, deltas: seq<StreamDelta>, text: string)
    ensures var parts := Replayed(cfg, deltas);
            var switched := deltas + SwitchDeltas(OpenKind(parts), TextKind);
            Replayed(cfg, switched + [StreamDelta.TextDelta(text)]) == PushText(parts, text)
  {
    ReplaySwitch(cfg, deltas, TextKind);
    ReplaySnoc(cfg, deltas + SwitchDeltas(OpenKind(Replayed(cfg, deltas)), TextKind), StreamDelta.TextDelta(text));
    assert "" + text == text;
  }

  lemma ReplayThinking(cfg: Config, deltas: seq<StreamDelta>, text: string)
    ensures var parts := Replayed(cfg, deltas);
            var switched := deltas + SwitchDeltas(OpenKind(parts), ThinkingKind);
            Replayed(cfg, switched + [StreamDelta.ThinkingDelta(text)]) == PushThinking(parts, text)
  {
    ReplaySwitch(cfg, deltas, ThinkingKind);
    var parts := Replayed(cfg, deltas);
    var switched := deltas + SwitchDeltas(OpenKind(parts), ThinkingKind);
    ReplaySnoc(cfg, switched, StreamDelta.ThinkingDelta(text));
    assert Replayed(cfg, switched + [StreamDelta.ThinkingDelta(text)])
        == ReplayStep(cfg, Replayed(cfg, switched), StreamDelta.ThinkingDelta(text));
    assert "" + text == text;
  }

  lemma ReplayEvent(cfg: Config, deltas: seq<StreamDelta>, event: ProviderEvent)
    ensures var parts := Replayed(cfg, deltas);
            Replayed(cfg, deltas + EventDeltas(OpenKind(parts), event)) == EventParts(cfg, parts, event)
  {
    var open := OpenKind(Replayed(cfg, deltas));
    match event {
      case TextDelta(text) =>
        ReplayText(cfg, deltas, text);
        Regroup(deltas, SwitchDeltas(open, TextKind), [StreamDelta.TextDelta(text)]);
      case ThinkingDelta(thinking) =>
        ReplayThinking(cfg, deltas, thinking);
        Regroup(deltas, SwitchDeltas(open, ThinkingKind), [StreamDelta.ThinkingDelta(thinking)]);
      case ToolCallStart(call) =>
        ReplayClose(cfg, deltas, open);
        ReplaySnoc(cfg, deltas + CloseDelta(open), StreamDelta.ToolCallStart(call));
        Regroup(deltas, CloseDelta(open), [StreamDelta.ToolCallStart(call)]);
      case ToolCallDelta(id, delta) => ReplaySnoc(cfg, deltas, StreamDelta.ToolCallDelta(id, delta));
      case ToolCallEnd(id) => ReplaySnoc(cfg, deltas, StreamDelta.ToolCallEnd(id));
      case Start => assert deltas + [] == deltas;
      case Done(_) => assert deltas + [] == deltas;
    }
  }

  /** Replaying the deltas sent so far rebuilds the builder's content exactly. */
  lemma {:induction false} ReplayRebuilds(cfg: Config, events: seq<ProviderEvent>)
    ensures Replayed(cfg, LiveAfter(cfg, events).deltas) == LiveAfter(cfg, events).parts
    decreases |events|
  {
    if events != [] {
      ReplayRebuilds(cfg, events[..|events| - 1]);
      ReplayEvent(cfg, LiveAfter(cfg, events[..|events| - 1]).deltas, events[|events| - 1]);
    }
  }

  /** A listener that replays every delta ends with the very message the stream ends with
      (unless the provider replaced it by its own `Done` message). */
  lemma ReplayGivesMessage(cfg: Config, polls: seq<Poll>)
    ensures Outcome(cfg, polls)
         == Ending(cfg, Replayed(cfg, OutcomeDeltas(cfg, polls)), polls, |Streamed(polls)|)
  {
    var live := LiveAfter(cfg, Streamed(polls));
    ReplayRebuilds(cfg, Streamed(polls));
    ReplayClose(cfg, live.deltas, OpenKind(live.parts));
  }

  // ----- Tool-call arguments -----

  function ToolsOf(parts: seq<Part>): seq<ToolCallBuilder> {
    if parts == [] then []
    else (if parts[0].ToolPart? then [parts[0].tool] else []) + ToolsOf(parts[1..])
  }

  lemma {:induction false} ToolsOfConcat(xs: seq<Part>, ys: seq<Part>)
    ensures ToolsOf(xs + ys) == ToolsOf(xs) + ToolsOf(ys)
  {
    if xs == [] {
      assert xs + ys == ys;
    } else {
      var all, first := xs + ys, if xs[0].ToolPart? then [xs[0].tool] else [];
      assert all[0] == xs[0] && all[1..] == xs[1..] + ys;
      assert ToolsOf(all) == first + ToolsOf(xs[1..] + ys);
      assert ToolsOf(xs) == first + ToolsOf(xs[1..]);
      ToolsOfConcat(xs[1..], ys);
      Regroup(first, ToolsOf(xs[1..]), ToolsOf(ys));
    }
  }

  /** `k` is the first tool call with its id. */
  predicate First(tools: seq<ToolCallBuilder>, k: nat)
    requires k < |tools|
  {
    forall j :: 0 <= j < k ==> tools[j].id != tools[k].id
  }

  /** `next` is `tools` with `update` applied to the first call named `id`, if there is one. */
  ghost predicate UpdatedFirst(
    tools: seq<ToolCallBuilder>, next: seq<ToolCallBuilder>, id: string,
    update: ToolCallBuilder -> ToolCallBuilder)
  {
    && |next| == |tools|
    && forall k :: 0 <= k < |tools| ==>
         next[k] == if tools[k].id == id && First(tools, k) then update(tools[k]) else tools[k]
  }

  lemma {:induction false} UpdateFirstTool(parts: seq<Part>, id: string, update: ToolCallBuilder -> ToolCallBuilder)
    ensures var next := match FindTool(parts, id)
                        case None => parts
                        case Some(i) => parts[i := ToolPart(update(parts[i].tool))];
            UpdatedFirst(ToolsOf(parts), ToolsOf(next), id, update)
  {
    if parts != [] {
      var tools, rest := ToolsOf(parts), ToolsOf(parts[1..]);
      if parts[0].ToolPart? && parts[0].tool.id == id {
        var next := parts[0 := ToolPart(update(parts[0].tool))];
        assert next[1..] == parts[1..];
        assert tools == [parts[0].tool] + rest && ToolsOf(next) == [update(parts[0].tool)] + rest;
        assert tools[0].id == id;
        forall k | 0 < k < |tools| && tools[k].id == id ensures !First(tools, k) {
          assert tools[0].id == tools[k].id;
        }
      } else {
        UpdateFirstTool(parts[1..], id, update);
        var at := FindTool(parts, id);
        var next := match at case None => parts case Some(i) => parts[i := ToolPart(update(parts[i].tool))];
        assert next[0] == parts[0];
        assert next[1..] == match at case None => parts[1..]
                            case Some(i) => parts[1..][i - 1 := ToolPart(update(parts[i].tool))];
        if parts[0].ToolPart? {
          UpdatedFirstCons(parts[0].tool, rest, ToolsOf(next[1..]), id, update);
        } else {
          assert tools == rest && ToolsOf(next) == ToolsOf(next[1..]);
        }
      }
    }
  }

  lemma UpdatedFirstCons(
    tool: ToolCallBuilder, tools: seq<ToolCallBuilder>, next: seq<ToolCallBuilder>, id: string,
    update: ToolCallBuilder -> ToolCallBuilder)
    requires UpdatedFirst(tools, next, id, update) && tool.id != id
    ensures UpdatedFirst([tool] + tools, [tool] + next, id, update)
  {
    var all := [tool] + tools;
    forall k | 0 < k < |all| && all[k].id == id
      ensures First(all, k) == First(tools, k - 1)
    {
      assert forall j :: 0 <= j < k - 1 ==> tools[j] == all[j + 1];
      assert forall j :: 0 < j < k ==> all[j] == tools[j - 1];
    }
  }

  /** The tool calls that have started, in order. */
  function Starts(events: seq<ProviderEvent>): seq<ToolCall>
    decreases |events|
  {
    if events == [] then []
    else
      var last := events[|events| - 1];
      Starts(events[..|events| - 1]) + if last.ToolCallStart? then [last.call] else []
  }

  predicate Started(calls: seq<ToolCall>, id: string) {
    exists k :: 0 <= k < |calls| && calls[k].id == id
  }

  /** The argument text sent for `id` since it started, whatever came in between. */
  function OwnDeltas(events: seq<ProviderEvent>, id: string): string
    decreases |events|
  {
    if events == [] then ""
    else
      var before, last := events[..|events| - 1], events[|events| - 1];
      if last.ToolCallDelta? && last.id == id && Started(Starts(before), id)
      then OwnDeltas(before, id) + last.argumentsDelta
      else OwnDeltas(before, id)
  }

  lemma {:induction false} NoOwnDeltasBeforeStart(events: seq<ProviderEvent>, id: string)
    requires !Started(Starts(events), id)
    ensures OwnDeltas(events, id) == ""
    decreases |events|
  {
    if events != [] {
      var before := Starts(events[..|events| - 1]);
      assert forall k :: 0 <= k < |before| ==> before[k] == Starts(events)[k];
      NoOwnDeltasBeforeStart(events[..|events| - 1], id);
    }
  }

  /** The state of the `k`-th tool builder: only the first call with an id collects text. */
  ghost predicate ToolState(events: seq<ProviderEvent>, tools: seq<ToolCallBuilder>, k: nat)
    requires |tools| == |Starts(events)| && k < |tools|
  {
    var start, tool := Starts(events)[k], tools[k];
    && tool.id == start.id && tool.name == start.name
    && tool.buffer == (if First(tools, k) then OwnDeltas(events, tool.id) else "")
    && (tool.buffer == "" ==> tool.value == Some(start.arguments))
  }

  ghost predicate ToolStates(events: seq<ProviderEvent>, tools: seq<ToolCallBuilder>) {
    && |tools| == |Starts(events)|
    && forall k :: 0 <= k < |tools| ==> ToolState(events, tools, k)
  }

  lemma {:induction false} ToolStatesAfter(cfg: Config, events: seq<ProviderEvent>)
    ensures ToolStates(events, ToolsOf(LiveAfter(cfg, events).parts))
    decreases |events|
  {
    if events != [] {
      var before, event := events[..|events| - 1], events[|events| - 1];
      var parts := LiveAfter(cfg, before).parts;
      var next := EventParts(cfg, parts, event);
      assert LiveAfter(cfg, events).parts == next;
      ToolStatesAfter(cfg, before);
      ToolStatesStep(cfg, before, event, parts, next);
      assert events == before + [event];
    }
  }

  lemma PushKeepsTools(parts: seq<Part>, text: string)
    ensures ToolsOf(PushText(parts, text)) == ToolsOf(parts)
    ensures ToolsOf(PushThinking(parts, text)) == ToolsOf(parts)
  {
    if parts != [] {
      var n := |parts| - 1;
      ToolsOfConcat(parts[..n], [parts[n]]);
      assert parts == parts[..n] + [parts[n]];
      if parts[n].TextPart? {
        ToolsOfConcat(parts[..n], [TextPart(parts[n].text + text)]);
        assert PushText(parts, text) == parts[..n] + [TextPart(parts[n].text + text)];
      }
      if parts[n].ThinkingPart? {
        ToolsOfConcat(parts[..n], [ThinkingPart(parts[n].thinking + text)]);
        assert PushThinking(parts, text) == parts[..n] + [ThinkingPart(parts[n].thinking + text)];
      }
    }
    ToolsOfConcat(parts, [TextPart(text)]);
    ToolsOfConcat(parts, [ThinkingPart(text)]);
  }

  lemma ToolStatesStep(
    cfg: Config, before: seq<ProviderEvent>, event: ProviderEvent, parts: seq<Part>, next: seq<Part>)
    requires ToolStates(before, ToolsOf(parts))
    requires next == EventParts(cfg, parts, event)
    ensures ToolStates(before + [event], ToolsOf(next))
  {
    var events := before + [event];
    assert events[..|events| - 1] == before;
    var tools, tools' := ToolsOf(parts), ToolsOf(next);
    match event {
      case TextDelta(text) => PushKeepsTools(parts, text);
      case ThinkingDelta(thinking) => PushKeepsTools(parts, thinking);
      case ToolCallStart(call) =>
        ToolsOfConcat(parts, [ToolPart(NewTool(call))]);
        var k := |tools|;
        assert tools' == tools + [NewTool(call)];
        if First(tools', k) {
          forall j | 0 <= j < k ensures Starts(before)[j].id != call.id {
            assert ToolState(before, tools, j) && tools'[j] == tools[j] && tools'[k].id == call.id;
          }
          NoOwnDeltasBeforeStart(before, call.id);
        }
        assert ToolState(events, tools', k);
        forall j | 0 <= j < k ensures ToolState(events, tools', j) {
          assert ToolState(before, tools, j) && tools'[j] == tools[j];
          assert First(tools', j) == First(tools, j) by {
            assert forall i :: 0 <= i < k ==> tools'[i] == tools[i];
          }
        }
      case ToolCallDelta(id, delta) => DeltaStep(before, event, parts, next);
      case ToolCallEnd(id) => EndStep(cfg, before, event, parts, next);
      case Start =>
      case Done(_) =>
    }
    if event.Start? || event.Done? || event.TextDelta? || event.ThinkingDelta? {
      forall j | 0 <= j < |tools| ensures ToolState(events, tools', j) {
        assert ToolState(before, tools, j);
      }
    }
  }

  lemma DeltaStep(before: seq<ProviderEvent>, event: ProviderEvent, parts: seq<Part>, next: seq<Part>)
    requires event.ToolCallDelta? && ToolStates(before, ToolsOf(parts))
    requires next == AppendArguments(parts, event.id, event.argumentsDelta)
    ensures ToolStates(before + [event], ToolsOf(next))
  {
    var events := before + [event];
    assert events[..|events| - 1] == before;
    var update := (tool: ToolCallBuilder) => tool.(buffer := tool.buffer + event.argumentsDelta);
    var tools, tools' := ToolsOf(parts), ToolsOf(next);
    UpdateFirstTool(parts, event.id, update);
    forall k | 0 <= k < |tools| ensures ToolState(events, tools', k) {
      assert ToolState(before, tools, k);
      assert Starts(before)[k].id == tools[k].id;
      assert First(tools', k) == First(tools, k) by {
        assert forall j :: 0 <= j < |tools| ==> tools'[j].id == tools[j].id;
      }
    }
  }

  lemma EndStep(
    cfg: Config, before: seq<ProviderEvent>, event: ProviderEvent, parts: seq<Part>, next: seq<Part>)
    requires event.ToolCallEnd? && ToolStates(before, ToolsOf(parts))
    requires next == FinishTool(cfg, parts, event.id)
    ensures ToolStates(before + [event], ToolsOf(next))
  {
    var events := before + [event];
    assert events[..|events| - 1] == before;
    var tools, tools' := ToolsOf(parts), ToolsOf(next);
    UpdateFirstTool(parts, event.id, tool => FinalizeArguments(cfg, tool));
    forall k | 0 <= k < |tools| ensures ToolState(events, tools', k) {
      assert ToolState(before, tools, k);
      assert First(tools', k) == First(tools, k) by {
        assert forall j :: 0 <= j < |tools| ==> tools'[j].id == tools[j].id;
      }
    }
  }

  /** What becomes of a call that started with these arguments and then got this text. */
  function FinalCall(cfg: Config, start: ToolCall, text: string): ToolCall {
    if text == "" then start
    else
      match cfg.parse(text)
      case Parsed(value) => start.(arguments := value)
      case ParseFailed(message) =>
        start.(arguments := JObject(map[RawKey := JString(text), ParseErrorKey := JString(message)]))
  }

  predicate FirstStart(starts: seq<ToolCall>, k: nat)
    requires k < |starts|
  {
    forall j :: 0 <= j < k ==> starts[j].id != starts[k].id
  }

  lemma {:induction false} VisibleBlocksCalls(cfg: Config, parts: seq<Part>)
    ensures var calls, tools := ExtractToolCalls(VisibleBlocks(cfg, parts)), ToolsOf(parts);
            |calls| == |tools| && forall k :: 0 <= k < |tools| ==> calls[k] == IntoToolCall(cfg, tools[k])
  {
    if parts != [] {
      var block, rest := IntoBlock(cfg, parts[0]), VisibleBlocks(cfg, parts[1..]);
      VisibleBlocksCalls(cfg, parts[1..]);
      if BlankBlock(block) {
        assert VisibleBlocks(cfg, parts) == rest;
      } else {
        assert VisibleBlocks(cfg, parts)[0] == block && VisibleBlocks(cfg, parts)[1..] == rest;
      }
    }
  }

  /** The tool calls of a message built from a stream are the ones that started, in order.
      The first call with an id has the arguments its own deltas make, however they were
      interleaved with anything else and whenever, or however often, its end came; a later
      call that reuses the id keeps the arguments it started with. */
  lemma ToolArguments(cfg: Config, events: seq<ProviderEvent>, reason: StopReason, error: Option<string>)
    ensures var calls := ExtractToolCalls(
              FinishMessage(cfg, LiveAfter(cfg, events).parts, reason, error).content);
            var starts := Starts(events);
            && |calls| == |starts|
            && forall k :: 0 <= k < |starts| ==>
                 calls[k] == FinalCall(cfg, starts[k],
                               if FirstStart(starts, k) then OwnDeltas(events, starts[k].id) else "")
  {
    var parts := LiveAfter(cfg, events).parts;
    var tools, starts := ToolsOf(parts), Starts(events);
    ToolStatesAfter(cfg, events);
    VisibleBlocksCalls(cfg, parts);
    var calls := ExtractToolCalls(VisibleBlocks(cfg, parts));
    if error.Some? && VisibleBlocks(cfg, parts) == [] {
      assert ExtractToolCalls([Text(error.value)]) == ExtractToolCalls([Text(error.value)][1..]) == [];
    }
    forall k | 0 <= k < |starts|
      ensures calls[k] == FinalCall(cfg, starts[k],
                            if FirstStart(starts, k) then OwnDeltas(events, starts[k].id) else "")
    {
      FinalToolCall(cfg, events, tools, k);
    }
  }

  lemma FinalToolCall(cfg: Config, events: seq<ProviderEvent>, tools: seq<ToolCallBuilder>, k: nat)
    requires ToolStates(events, tools) && k < |tools|
    ensures var starts := Starts(events);
            IntoToolCall(cfg, tools[k])
              == FinalCall(cfg, starts[k], if FirstStart(starts, k) then OwnDeltas(events, starts[k].id) else "")
  {
    var starts := Starts(events);
    assert ToolState(events, tools, k);
    assert First(tools, k) == FirstStart(starts, k) by {
      assert forall j :: 0 <= j < |tools| ==> ToolState(events, tools, j) && tools[j].id == starts[j].id;
    }
  }
}
