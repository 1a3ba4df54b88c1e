/** What a listener hears of every run: its trace fits one grammar, and the turns in it make
    up exactly what the run generated. */
module AgentRunProofs {
  import opened Protocol
  import opened Pairing
  import opened AgentRun
  import Stream = StreamCollector
  import StreamProofs
  import Tools = ToolBatch

  // ----- The grammar of a run's trace -----

  datatype Place =
    | Open
    | Streaming(block: Option<Stream.Kind>)
    | Answered(assistant: AssistantMessage)
    | Between
    | Ended

  /** Where a listener is in the run, and the messages of the turns it has seen end. */
  datatype Listener = Listener(place: Place, turns: seq<Message>)

  function ResultIds(results: seq<ToolResultMessage>): (ids: seq<string>)
    ensures |ids| == |results|
  {
    seq(|results|, i requires 0 <= i < |results| => results[i].toolCallId)
  }

  /** One event; `None` if it is out of place. A turn starts, streams exactly one assistant
      message inside well-nested brackets, runs its tools, and ends with that message and
      one result for each call it owes. `AgentEnd` carries the turns, and nothing follows. */
  function Hear(l: Listener, event: AgentEvent): Option<Listener> {
    match l.place
    case Open =>
      if event.MessageStart? && event.message.Assistant? then Some(l.(place := Streaming(None))) else None
    case Streaming(block) =>
      if event.MessageDelta? then
        match StreamProofs.BracketStep(block, event.delta)
        case None => None
        case Some(next) => Some(l.(place := Streaming(next)))
      else if event.MessageEnd? && event.message.Assistant? && block.None? then
        Some(l.(place := Answered(event.message.assistant)))
      else None
    case Answered(assistant) =>
      if Tools.IsToolEvent(event) then Some(l)
      else if event.TurnEnd? && event.assistant == assistant
              && ResultIds(event.toolResults) == Owed(Assistant(assistant)) then
        Some(Listener(Between, l.turns + [Assistant(assistant)] + AsMessages(event.toolResults)))
      else None
    case Between =>
      if event.CompactionStart? || event.CompactionEnd? || event.TranscriptReplace? || event.SystemMessage? then Some(l)
      else if event.TurnStart? then Some(l.(place := Open))
      else if event.AgentEnd? && event.messages == l.turns then Some(l.(place := Ended))
      else None
    case Ended => None
  }

  function HearAll(l: Listener, events: seq<AgentEvent>): Option<Listener>
    decreases |events|
  {
    if events == [] then Some(l)
    else
      match Hear(l, events[0])
      case None => None
      case Some(next) => HearAll(next, events[1..])
  }

  lemma {:induction false} HearConcat(l: Listener, xs: seq<AgentEvent>, ys: seq<AgentEvent>)
    ensures HearAll(l, xs + ys) == match HearAll(l, xs) case None => None case Some(next) => HearAll(next, ys)
    decreases |xs|
  {
    if xs == [] {
      assert xs + ys == ys;
    } else {
      assert (xs + ys)[0] == xs[0] && (xs + ys)[1..] == xs[1..] + ys;
      if Hear(l, xs[0]).Some? {
        HearConcat(Hear(l, xs[0]).value, xs[1..], ys);
      }
    }
  }

  lemma HearSnoc(l: Listener, xs: seq<AgentEvent>, event: AgentEvent)
    ensures HearAll(l, xs + [event]) == match HearAll(l, xs) case None => None case Some(next) => Hear(next, event)
  {
    HearConcat(l, xs, [event]);
    assert [event][1..] == [];
  }

  lemma {:induction false} HearDeltas(l: Listener, block: Option<Stream.Kind>, deltas: seq<StreamDelta>)
    requires l.place == Streaming(block)
    ensures HearAll(l, Stream.DeltaEvents(deltas))
         == match StreamProofs.Brackets(block, deltas)
            case None => None
            case Some(next) => Some(l.(place := Streaming(next)))
    decreases |deltas|
  {
    if deltas != [] {
      var events := Stream.DeltaEvents(deltas);
      assert events[1..] == Stream.DeltaEvents(deltas[1..]);
      match StreamProofs.BracketStep(block, deltas[0]) {
        case None =>
        case Some(next) => HearDeltas(l.(place := Streaming(next)), next, deltas[1..]);
      }
    }
  }

  /** A whole streamed message takes the listener from an open turn to its answer. */
  lemma HearStream(cfg: Stream.Config, polls: seq<Stream.Poll>, turns: seq<Message>)
    ensures HearAll(Listener(Open, turns), Stream.StreamTrace(cfg, polls))
         == Some(Listener(Answered(Stream.Outcome(cfg, polls).assistant), turns))
  {
    var opening := MessageStart(Assistant(Stream.Placeholder(cfg)));
    var deltas := Stream.OutcomeDeltas(cfg, polls);
    var closing := MessageEnd(Assistant(Stream.Outcome(cfg, polls).assistant));
    var l := Listener(Open, turns);
    HearSnoc(l, [], opening);
    assert [] + [opening] == [opening];
    StreamProofs.StreamBracketsClosed(cfg, polls);
    HearDeltas(l.(place := Streaming(None)), None, deltas);
    HearConcat(l, [opening], Stream.DeltaEvents(deltas));
    HearSnoc(l, [opening] + Stream.DeltaEvents(deltas), closing);
  }

  lemma {:induction false} HearTools(l: Listener, events: seq<AgentEvent>)
    requires l.place.Answered? && forall e :: e in events ==> Tools.IsToolEvent(e)
    ensures HearAll(l, events) == Some(l)
    decreases |events|
  {
    if events != [] {
      assert events[0] in events;
      HearTools(l, events[1..]);
    }
  }

  lemma {:induction false} HearGate(l: Listener, events: seq<AgentEvent>)
    requires l.place.Between?
    requires forall e :: e in events ==>
      e.CompactionStart? || e.CompactionEnd? || e.TranscriptReplace? || e.SystemMessage?
    ensures HearAll(l, events) == Some(l)
    decreases |events|
  {
    if events != [] {
      assert events[0] in events;
      HearGate(l, events[1..]);
    }
  }

  /** Where the listener must be, by what the run does next. */
  ghost predicate InPlace(s: RunState, l: Listener) {
    if s.finished then
      l == Listener(if s.suppressTailAgentEnd then Ended else Between, s.generated)
    else
      match s.intent
      case ModelTurn => l == Listener(Open, s.generated) && !s.suppressTailAgentEnd
      case ExecuteTools(assistant, calls) =>
        && l.place == Answered(assistant) && s.generated == l.turns + [Assistant(assistant)]
        && !Failed(assistant) && calls == ExtractToolCalls(assistant.content) && !s.suppressTailAgentEnd
      case AppendFollowUps(_) => l == Listener(Between, s.generated) && !s.suppressTailAgentEnd
      case RunCompactionGate => l == Listener(Between, s.generated) && !s.suppressTailAgentEnd
      case Finish => false
  }

  const NEW_LISTENER := Listener(Open, [])

  /** The run has sent the start events, then `body`, which puts the listener in place. */
  ghost predicate Heard(prompts: seq<Message>, s: RunState, body: seq<AgentEvent>) {
    && s.trace == StartEvents(prompts) + body
    && HearAll(NEW_LISTENER, body).Some?
    && InPlace(s, HearAll(NEW_LISTENER, body).value)
  }

  lemma OutcomeErrorMeansFailed(cfg: Stream.Config, polls: seq<Stream.Poll>)
    ensures Stream.Outcome(cfg, polls).error.Some? ==> Failed(Stream.Outcome(cfg, polls).assistant)
  {
  }

  lemma HearPreflight(
    cfg: Config, prompts: seq<Message>, s: RunState, body: seq<AgentEvent>,
    text: string, error: Option<ProviderError>)
    returns (events: seq<AgentEvent>)
    requires Heard(prompts, s, body) && !s.finished && s.intent.ModelTurn?
    ensures Heard(prompts, PreflightFailure(cfg, s, text, error), body + events)
  {
    var a := ErrorAssistant(cfg, text);
    var l := HearAll(NEW_LISTENER, body).value;
    var generated := s.generated + [Assistant(a)];
    events := [MessageStart(Assistant(a)), MessageEnd(Assistant(a)), TurnEnd(a, []), AgentEnd(generated)];
    assert ResultIds([]) == [] && l.turns + [Assistant(a)] + AsMessages([]) == generated;
    assert events == [events[0]] + [events[1]] + [events[2]] + [events[3]];
    HearSnoc(NEW_LISTENER, body, events[0]);
    HearSnoc(NEW_LISTENER, body + [events[0]], events[1]);
    HearSnoc(NEW_LISTENER, body + [events[0]] + [events[1]], events[2]);
    HearSnoc(NEW_LISTENER, body + [events[0]] + [events[1]] + [events[2]], events[3]);
    assert body + [events[0]] + [events[1]] + [events[2]] + [events[3]] == body + events;
    Regroup(StartEvents(prompts), body, events);
  }

  lemma HearAssistant(cfg: Config, prompts: seq<Message>, s: RunState, body: seq<AgentEvent>, input: StepInput)
    returns (events: seq<AgentEvent>)
    requires Heard(prompts, s, body) && !s.finished && s.intent.ModelTurn?
    ensures var collected := Stream.Outcome(cfg.stream, input.polls);
            Heard(
              prompts, AfterAssistant(cfg, Streamed(cfg, s, input.polls), collected, input.followUps), body + events)
  {
    var collected := Stream.Outcome(cfg.stream, input.polls);
    var streamed := Stream.StreamTrace(cfg.stream, input.polls);
    var next := AfterAssistant(cfg, Streamed(cfg, s, input.polls), collected, input.followUps);
    OutcomeErrorMeansFailed(cfg.stream, input.polls);
    HearStream(cfg.stream, input.polls, s.generated);
    HearConcat(NEW_LISTENER, body, streamed);
    Regroup(StartEvents(prompts), body, streamed);
    if next.intent.ExecuteTools? {
      events := streamed;
    } else {
      var end := TurnEnd(collected.assistant, []);
      events := streamed + [end];
      HearSnoc(NEW_LISTENER, body + streamed, end);
      Regroup(body, streamed, [end]);
      Regroup(StartEvents(prompts), body + streamed, [end]);
      assert ResultIds([]) == [] == Owed(Assistant(collected.assistant));
      assert s.generated + [Assistant(collected.assistant)] + AsMessages([]) == next.generated;
    }
  }

  lemma HearBatch(cfg: Config, prompts: seq<Message>, s: RunState, body: seq<AgentEvent>, input: StepInput)
    returns (events: seq<AgentEvent>)
    requires Heard(prompts, s, body) && !s.finished && s.intent.ExecuteTools? && Enabled(cfg, s, input)
    ensures Heard(prompts, AfterTools(cfg, s, s.intent.assistant, s.intent.calls, input), body + events)
  {
    var assistant, calls := s.intent.assistant, s.intent.calls;
    var batch := Tools.BatchTrace(cfg.tools, calls, input.batch);
    var results := Tools.BatchResults(cfg.tools, calls, input.batch);
    var l := HearAll(NEW_LISTENER, body).value;
    var end := TurnEnd(assistant, results);
    Tools.BatchShape(cfg.tools, calls, input.batch);
    HearTools(l, batch);
    HearConcat(NEW_LISTENER, body, batch);
    HearSnoc(NEW_LISTENER, body + batch, end);
    events := batch + [end];
    assert body + batch + [end] == body + events;
    Regroup(StartEvents(prompts), body, batch);
    Regroup(StartEvents(prompts), body + batch, [end]);
    assert ResultIds(results) == Ids(calls);
  }

  lemma HearTurnStart(prompts: seq<Message>, s: RunState, body: seq<AgentEvent>, gate: seq<AgentEvent>, next: RunState)
    returns (events: seq<AgentEvent>)
    requires Heard(prompts, s, body) && !s.finished && (s.intent.AppendFollowUps? || s.intent.RunCompactionGate?)
    requires forall e :: e in gate ==>
      e.CompactionStart? || e.CompactionEnd? || e.TranscriptReplace? || e.SystemMessage?
    requires next == s.(context := next.context, intent := ModelTurn, trace := s.trace + gate + [TurnStart])
    ensures Heard(prompts, next, body + events)
  {
    var l := HearAll(NEW_LISTENER, body).value;
    HearGate(l, gate);
    HearConcat(NEW_LISTENER, body, gate);
    HearSnoc(NEW_LISTENER, body + gate, TurnStart);
    events := gate + [TurnStart];
    assert body + gate + [TurnStart] == body + events;
    Regroup(StartEvents(prompts), body, gate);
    Regroup(StartEvents(prompts), body + gate, [TurnStart]);
  }

  lemma NextIsHeard(cfg: Config, prompts: seq<Message>, s: RunState, body: seq<AgentEvent>, input: StepInput)
    returns (longer: seq<AgentEvent>)
    requires Heard(prompts, s, body) && Enabled(cfg, s, input)
    ensures Heard(prompts, Next(cfg, s, input), longer)
  {
    var events: seq<AgentEvent> := [];
    if s.finished {
      assert body + events == body;
    } else {
      match s.intent {
        case ModelTurn =>
          var failure := FailureText(cfg, input.preflight);
          var prepared := Prepared(cfg, s, input);
          assert Heard(prompts, prepared, body);
          if failure.Some? {
            events := HearPreflight(cfg, prompts, prepared, body, failure.value, PreflightError(input.preflight));
          } else {
            events := HearAssistant(cfg, prompts, prepared, body, input);
          }
        case ExecuteTools(_, _) => events := HearBatch(cfg, prompts, s, body, input);
        case AppendFollowUps(messages) =>
          var next := s.(context := s.context + messages, intent := ModelTurn, trace := s.trace + [TurnStart]);
          assert s.trace + [] + [TurnStart] == next.trace;
          events := HearTurnStart(prompts, s, body, [], next);
        case RunCompactionGate =>
          events := HearTurnStart(prompts, s, body, GateTrace(cfg, input), AfterGate(cfg, s, input));
      }
    }
    longer := body + events;
  }

  lemma {:induction false} RunIsHeard(cfg: Config, prompts: seq<Message>, context: seq<Message>, inputs: seq<StepInput>)
    returns (body: seq<AgentEvent>)
    requires After(cfg, Start(prompts, context), inputs).Some?
    ensures Heard(prompts, After(cfg, Start(prompts, context), inputs).value, body)
    decreases |inputs|
  {
    if inputs == [] {
      body := [];
      assert StartEvents(prompts) + [] == StartEvents(prompts);
    } else {
      var n := |inputs| - 1;
      var before := After(cfg, Start(prompts, context), inputs[..n]).value;
      body := RunIsHeard(cfg, prompts, context, inputs[..n]);
      body := NextIsHeard(cfg, prompts, before, body, inputs[n]);
    }
  }

  /** Every finished run's trace fits the grammar: the start events, then turns, then exactly
      one `AgentEnd`, last, preflight failures included; and the turns' assistants and
      results, concatenated, are exactly the generated messages. */
  lemma FinishedTraceFitsGrammar(cfg: Config, prompts: seq<Message>, context: seq<Message>, inputs: seq<StepInput>)
    returns (body: seq<AgentEvent>)
    requires After(cfg, Start(prompts, context), inputs).Some?
    requires After(cfg, Start(prompts, context), inputs).value.finished
    ensures var end := After(cfg, Start(prompts, context), inputs).value;
            && FullTrace(end) == StartEvents(prompts) + body
            && HearAll(NEW_LISTENER, body) == Some(Listener(Ended, end.generated))
  {
    var end := After(cfg, Start(prompts, context), inputs).value;
    body := RunIsHeard(cfg, prompts, context, inputs);
    if !end.suppressTailAgentEnd {
      HearSnoc(NEW_LISTENER, body, AgentEnd(end.generated));
      Regroup(StartEvents(prompts), body, [AgentEnd(end.generated)]);
      body := body + [AgentEnd(end.generated)];
    }
  }
}
