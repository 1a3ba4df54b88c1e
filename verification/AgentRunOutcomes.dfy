/** When a run goes on, how it ends, and what it asks of the provider. */
module AgentRunOutcomes {
  import opened Protocol
  import opened Sanitizer
  import opened SanitizerResults
  import opened AgentRun
  import Stream = StreamCollector
  import StreamOutcomes
  import Tools = ToolBatch

  // ----- One model turn -----

  function Reply(cfg: Config, input: StepInput): AssistantMessage {
    Stream.Outcome(cfg.stream, input.polls).assistant
  }

  predicate CallsTool(assistant: AssistantMessage) {
    exists i :: 0 <= i < |assistant.content| && assistant.content[i].ToolCallBlock?
  }

  lemma {:induction false} CallsToolIff(content: seq<ContentBlock>)
    ensures (exists i :: 0 <= i < |content| && content[i].ToolCallBlock?) <==> ExtractToolCalls(content) != []
  {
    if content != [] {
      CallsToolIff(content[1..]);
      if i :| 0 <= i < |content[1..]| && content[1..][i].ToolCallBlock? {
        assert content[i + 1].ToolCallBlock?;
      }
      if ExtractToolCalls(content) != [] && !content[0].ToolCallBlock? {
        assert ExtractToolCalls(content) == ExtractToolCalls(content[1..]);
      }
      if content[0].ToolCallBlock? {
        assert ExtractToolCalls(content)[0] == content[0].call;
      }
      if i :| 0 <= i < |content| && content[i].ToolCallBlock? {
        assert i == 0 || content[1..][i - 1].ToolCallBlock?;
      }
    }
  }

  /** The provider's error that ends a model turn, if it ends with one. */
  function TurnError(input: StepInput): Option<ProviderError> {
    match input.preflight
    case ResolverFailed(error) => Some(error)
    case StreamFailed(error) => Some(error)
    case NoProvider => None
    case Ready => StreamOutcomes.StreamError(input.polls)
  }

  predicate BrokenOff(assistant: AssistantMessage) {
    assistant.stopReason == Error || assistant.stopReason == Aborted
  }

  // ----- Where a step leads -----

  /** The step ends the run: a model turn that failed or has nothing left to do, or a tool
      batch in a cancelled run. */
  predicate Stops(cfg: Config, s: RunState, input: StepInput) {
    match s.intent
    case ModelTurn =>
      || !input.preflight.Ready?
      || TurnError(input).Some?
      || BrokenOff(Reply(cfg, input))
      || (!CallsTool(Reply(cfg, input)) && !(cfg.followUpHook && input.followUps != []))
    case ExecuteTools(_, _) => input.cancelled
    case AppendFollowUps(_) => false
    case RunCompactionGate => false
    case Finish => true
  }

  lemma ErrorBreaksOff(cfg: Config, input: StepInput)
    ensures Stream.Outcome(cfg.stream, input.polls).error == StreamOutcomes.StreamError(input.polls)
    ensures StreamOutcomes.StreamError(input.polls).Some? ==> Reply(cfg, input).stopReason == Error
  {
    StreamOutcomes.CollectedErrorIsTheStreams(cfg.stream, input.polls);
  }

  /** A run stops at exactly these steps; otherwise it goes on: with the reply's tool calls, or
      with the follow-ups, and from a batch through the gate to another model turn. */
  lemma StepStopsIff(cfg: Config, s: RunState, input: StepInput)
    requires !s.finished && Enabled(cfg, s, input)
    ensures var next := Next(cfg, s, input);
            && next.stepIndex == s.stepIndex + 1
            && (next.finished <==> Stops(cfg, s, input))
            && (!Stops(cfg, s, input) ==>
                  match s.intent
                  case ModelTurn =>
                    if CallsTool(Reply(cfg, input)) then
                      next.intent == ExecuteTools(Reply(cfg, input), ExtractToolCalls(Reply(cfg, input).content))
                    else next.intent == AppendFollowUps(input.followUps)
                  case ExecuteTools(_, _) => next.intent == RunCompactionGate
                  case AppendFollowUps(_) => next.intent == ModelTurn
                  case RunCompactionGate => next.intent == ModelTurn
                  case Finish => false)
  {
    if s.intent.ModelTurn? {
      ErrorBreaksOff(cfg, input);
      CallsToolIff(Reply(cfg, input).content);
    }
  }

  /** After a batch that is not cancelled, any further step leaves the run at a model turn, in
      which the provider sees the results. */
  lemma BatchLeadsToAnotherTurn(cfg: Config, s: RunState, input: StepInput, later: StepInput)
    requires !s.finished && s.intent.ExecuteTools? && !input.cancelled && Enabled(cfg, s, input)
    ensures var next := Next(cfg, s, input);
            && Enabled(cfg, next, later)
            && !next.finished
            && !Next(cfg, next, later).finished && Next(cfg, next, later).intent.ModelTurn?
  {
    StepStopsIff(cfg, s, input);
    StepStopsIff(cfg, Next(cfg, s, input), later);
  }

  // ----- The last message -----

  /** One of these steps was a tool batch in a cancelled run. */
  predicate BatchCancelled(cfg: Config, s: RunState, inputs: seq<StepInput>)
    requires After(cfg, s, inputs).Some?
    decreases |inputs|
  {
    if inputs == [] then false
    else
      var n := |inputs| - 1;
      var before := After(cfg, s, inputs[..n]).value;
      BatchCancelled(cfg, s, inputs[..n]) || (!before.finished && before.intent.ExecuteTools? && inputs[n].cancelled)
  }

  /** An assistant that broke off or calls no tool. */
  predicate IsAnswer(message: Message) {
    message.Assistant? && (BrokenOff(message.assistant) || !CallsTool(message.assistant))
  }

  ghost predicate EndsWell(s: RunState, cancelledBatch: bool) {
    && (!s.finished ==> !cancelledBatch && !s.intent.Finish?)
    && (!s.finished && s.intent.ExecuteTools? ==> s.intent.calls != [])
    && (s.finished ==>
          && s.generated != []
          && (if cancelledBatch then s.generated[|s.generated| - 1].ToolResultMsg?
              else IsAnswer(s.generated[|s.generated| - 1])))
  }

  lemma TurnEndsWell(cfg: Config, s: RunState, input: StepInput)
    requires !s.finished && s.intent.ModelTurn?
    ensures EndsWell(Next(cfg, s, input), false)
  {
    var generated := Next(cfg, s, input).generated;
    StepStopsIff(cfg, s, input);
    CallsToolIff(Reply(cfg, input).content);
    ErrorBreaksOff(cfg, input);
    if input.preflight.Ready? {
      assert generated[|generated| - 1] == Assistant(Reply(cfg, input));
    } else {
      assert generated[|generated| - 1].Assistant? && generated[|generated| - 1].assistant.stopReason == Error;
    }
  }

  lemma BatchEndsWell(cfg: Config, s: RunState, input: StepInput)
    requires !s.finished && s.intent.ExecuteTools? && s.intent.calls != [] && Enabled(cfg, s, input)
    ensures EndsWell(Next(cfg, s, input), input.cancelled)
  {
    var results := Tools.BatchResults(cfg.tools, s.intent.calls, input.batch);
    Tools.BatchShape(cfg.tools, s.intent.calls, input.batch);
    StepStopsIff(cfg, s, input);
    var generated := Next(cfg, s, input).generated;
    assert generated == s.generated + AsMessages(results);
    assert generated[|generated| - 1] == AsMessages(results)[|results| - 1];
  }

  lemma NextEndsWell(cfg: Config, s: RunState, input: StepInput, cancelledBatch: bool)
    requires EndsWell(s, cancelledBatch) && Enabled(cfg, s, input)
    ensures EndsWell(Next(cfg, s, input),
              cancelledBatch || (!s.finished && s.intent.ExecuteTools? && input.cancelled))
  {
    if !s.finished {
      if s.intent.ModelTurn? {
        TurnEndsWell(cfg, s, input);
      } else if s.intent.ExecuteTools? {
        BatchEndsWell(cfg, s, input);
      }
    }
  }

  lemma {:induction false} RunEndsWell(
    cfg: Config, prompts: seq<Message>, context: seq<Message>, inputs: seq<StepInput>)
    requires After(cfg, Start(prompts, context), inputs).Some?
    ensures EndsWell(After(cfg, Start(prompts, context), inputs).value,
                     BatchCancelled(cfg, Start(prompts, context), inputs))
    decreases |inputs|
  {
    if inputs != [] {
      var n := |inputs| - 1;
      var s := Start(prompts, context);
      LastStep(cfg, s, inputs);
      RunEndsWell(cfg, prompts, context, inputs[..n]);
      NextEndsWell(cfg, After(cfg, s, inputs[..n]).value, inputs[n], BatchCancelled(cfg, s, inputs[..n]));
    }
  }

  /** A finished run ends with an answer, not with tool results the model never saw, exactly
      unless it was cancelled during a tool batch. */
  lemma FinishedRunEndsWithAnswerIff(
    cfg: Config, prompts: seq<Message>, context: seq<Message>, inputs: seq<StepInput>)
    requires After(cfg, Start(prompts, context), inputs).Some?
    requires After(cfg, Start(prompts, context), inputs).value.finished
    ensures var generated := After(cfg, Start(prompts, context), inputs).value.generated;
            && generated != []
            && (IsAnswer(generated[|generated| - 1]) <==> !BatchCancelled(cfg, Start(prompts, context), inputs))
            && (generated[|generated| - 1].ToolResultMsg? <==> BatchCancelled(cfg, Start(prompts, context), inputs))
  {
    RunEndsWell(cfg, prompts, context, inputs);
  }

  // ----- The error a run ends with -----

  /** The error of the last model turn among these steps. */
  function LastTurnError(cfg: Config, s: RunState, inputs: seq<StepInput>): Option<ProviderError>
    requires After(cfg, s, inputs).Some?
    decreases |inputs|
  {
    if inputs == [] then None
    else
      var n := |inputs| - 1;
      var before := After(cfg, s, inputs[..n]).value;
      if !before.finished && before.intent.ModelTurn? then TurnError(inputs[n])
      else LastTurnError(cfg, s, inputs[..n])
  }

  ghost predicate ErrorIs(s: RunState, error: Option<ProviderError>) {
    s.terminalError == error && (error.Some? ==> s.finished)
  }

  lemma TurnLeavesError(cfg: Config, s: RunState, input: StepInput)
    requires !s.finished && s.terminalError.None? && s.intent.ModelTurn?
    ensures ErrorIs(Next(cfg, s, input), TurnError(input))
  {
    ErrorBreaksOff(cfg, input);
  }

  lemma OtherStepsKeepError(cfg: Config, s: RunState, input: StepInput)
    requires s.finished || !s.intent.ModelTurn?
    requires Enabled(cfg, s, input)
    ensures Next(cfg, s, input).terminalError == s.terminalError
    ensures s.finished ==> Next(cfg, s, input).finished
  {
  }

  /** At any point the run's terminal error is exactly the error of its last model turn, be it
      the stream's or that of the preparations; and it has ended the run. */
  lemma {:induction false} TerminalErrorIsTheLastTurns(
    cfg: Config, prompts: seq<Message>, context: seq<Message>, inputs: seq<StepInput>)
    requires After(cfg, Start(prompts, context), inputs).Some?
    ensures ErrorIs(After(cfg, Start(prompts, context), inputs).value,
                    LastTurnError(cfg, Start(prompts, context), inputs))
    decreases |inputs|
  {
    if inputs != [] {
      var n := |inputs| - 1;
      var s := Start(prompts, context);
      LastStep(cfg, s, inputs);
      TerminalErrorIsTheLastTurns(cfg, prompts, context, inputs[..n]);
      var before := After(cfg, s, inputs[..n]).value;
      if !before.finished && before.intent.ModelTurn? {
        TurnLeavesError(cfg, before, inputs[n]);
      } else {
        OtherStepsKeepError(cfg, before, inputs[n]);
      }
    }
  }

  /** A preparation that fails is answered for the provider: an assistant with the error's
      text alone. */
  lemma FailedPreparationIsTheAnswer(cfg: Config, s: RunState, input: StepInput)
    requires !s.finished && s.intent.ModelTurn? && !input.preflight.Ready?
    ensures var next := Next(cfg, s, input);
            var text := match input.preflight
                        case ResolverFailed(error) => cfg.stream.describe(error)
                        case StreamFailed(error) => cfg.stream.describe(error)
                        case _ => cfg.noProviderText;
            next.generated == s.generated + [Assistant(
              AssistantMessage([Text(text)], Error, Some(text), cfg.stream.provider, cfg.stream.model, None))]
  {
  }

  // ----- What a listener is told besides -----

  /** A run announces itself, its first turn, and each prompt in order. */
  lemma {:induction false} StartIsAnnounced(prompts: seq<Message>)
    ensures |StartEvents(prompts)| == 2 + 2 * |prompts|
    ensures StartEvents(prompts)[0] == AgentStart && StartEvents(prompts)[1] == TurnStart
    ensures forall i :: 0 <= i < |prompts| ==>
              && StartEvents(prompts)[2 + 2 * i] == MessageStart(prompts[i])
              && StartEvents(prompts)[3 + 2 * i] == MessageEnd(prompts[i])
  {
    if prompts != [] {
      var n := |prompts| - 1;
      StartIsAnnounced(prompts[..n]);
      assert StartEvents(prompts) == StartEvents(prompts[..n]) + [MessageStart(prompts[n]), MessageEnd(prompts[n])];
    }
  }

  /** The gate's own reports come first; then the new transcript exactly if it compacted, or why
      it would not exactly if it skipped; then the next turn. */
  lemma GateIsReported(cfg: Config, s: RunState, input: StepInput)
    requires !s.finished && s.intent.RunCompactionGate?
    ensures var told := (if cfg.compactionGate then input.gateEvents else [])
              + (if cfg.compactionGate && input.gate.Compacted? then [TranscriptReplace(input.gate.messages)] else [])
              + (if cfg.compactionGate && input.gate.Skipped?
                 then [SystemMessage(cfg.skippedText(input.gate.reason))] else []);
            Next(cfg, s, input).trace == s.trace + told + [TurnStart]
  {
    var own: seq<AgentEvent> := if cfg.compactionGate then input.gateEvents else [];
    assert own + [] == own;
  }

  // ----- What the provider is asked -----

  /** The requests these steps make: at each model turn that reaches the provider, everything
      of the context then and of the policy's messages that is not to be dropped. */
  function RequestsMade(cfg: Config, s: RunState, inputs: seq<StepInput>): seq<seq<Message>>
    requires After(cfg, s, inputs).Some?
    decreases |inputs|
  {
    if inputs == [] then []
    else
      var n := |inputs| - 1;
      var before := After(cfg, s, inputs[..n]).value;
      RequestsMade(cfg, s, inputs[..n])
      + if !before.finished && before.intent.ModelTurn?
           && (inputs[n].preflight.Ready? || inputs[n].preflight.StreamFailed?)
        then [Remaining(before.context + inputs[n].policy, cfg.replay)]
        else []
  }

  lemma TurnRequests(cfg: Config, s: RunState, input: StepInput)
    requires !s.finished && s.intent.ModelTurn?
    ensures Next(cfg, s, input).requests ==
              if input.preflight.Ready? || input.preflight.StreamFailed?
              then s.requests + [Sanitize(s.context + input.policy, cfg.replay)]
              else s.requests
  {
  }

  lemma StepRequests(cfg: Config, s: RunState, input: StepInput)
    requires Enabled(cfg, s, input)
    ensures Next(cfg, s, input).requests == s.requests
              + if !s.finished && s.intent.ModelTurn? && (input.preflight.Ready? || input.preflight.StreamFailed?)
                then [Remaining(s.context + input.policy, cfg.replay)]
                else []
  {
    SanitizesExactly(s.context + input.policy, cfg.replay);
    if !s.finished && s.intent.ModelTurn? {
      TurnRequests(cfg, s, input);
    } else {
      assert Next(cfg, s, input).requests == s.requests;
    }
  }

  lemma {:induction false} RunRequestsExactly(
    cfg: Config, prompts: seq<Message>, context: seq<Message>, inputs: seq<StepInput>)
    requires After(cfg, Start(prompts, context), inputs).Some?
    ensures After(cfg, Start(prompts, context), inputs).value.requests
         == RequestsMade(cfg, Start(prompts, context), inputs)
    decreases |inputs|
  {
    if inputs != [] {
      var n := |inputs| - 1;
      LastStep(cfg, Start(prompts, context), inputs);
      RunRequestsExactly(cfg, prompts, context, inputs[..n]);
      StepRequests(cfg, After(cfg, Start(prompts, context), inputs[..n]).value, inputs[n]);
    }
  }
}
