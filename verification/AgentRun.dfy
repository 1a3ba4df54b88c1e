/** The agent run: a machine that evaluates one intent per step. `Next` says what a step
    does; `AgentRunMachine` is the Read, Eval, Print, Decide code that does it. */
module AgentRun {
  import opened Protocol
  import opened Sanitizer
  import Stream = StreamCollector
  import Tools = ToolBatch

  datatype Preflight = Ready | ResolverFailed(error: ProviderError) | NoProvider | StreamFailed(error: ProviderError)

  datatype GateOutcome = Unchanged | Compacted(messages: seq<Message>) | Skipped(reason: string) | GateFailed

  /** What a compaction gate itself reports while it works. */
  type GateEvent = e: AgentEvent | e.CompactionStart? || e.CompactionEnd? witness CompactionStart(MidTurn)

  datatype Config = Config(
    stream: Stream.Config,
    tools: Tools.Config,
    replay: Replay,
    steeringHook: bool,
    followUpHook: bool,
    compactionGate: bool,
    noProviderText: string,
    skippedText: string -> string)

  /** Everything outside the loop that one step may meet; a step uses what its intent needs. */
  datatype StepInput = StepInput(
    policy: seq<Message>,
    preflight: Preflight,
    polls: seq<Stream.Poll>,
    batch: Tools.BatchRun,
    steering: seq<Message>,
    gateEvents: seq<GateEvent>,
    gate: GateOutcome,
    followUps: seq<Message>,
    cancelled: bool)

  datatype Intent =
    | ModelTurn
    | ExecuteTools(assistant: AssistantMessage, calls: seq<ToolCall>)
    | AppendFollowUps(messages: seq<Message>)
    | RunCompactionGate
    | Finish

  /** The run, with what it has sent to the listener and to the provider so far. */
  datatype RunState = RunState(
    context: seq<Message>,
    generated: seq<Message>,
    terminalError: Option<ProviderError>,
    finished: bool,
    suppressTailAgentEnd: bool,
    stepIndex: nat,
    intent: Intent,
    requests: seq<seq<Message>>,
    trace: seq<AgentEvent>)

  datatype RunResult = RunResult(
    generatedMessages: seq<Message>, finalContext: seq<Message>, terminalError: Option<ProviderError>)

  // ----- What a run does -----

  function PromptEvents(prompts: seq<Message>): seq<AgentEvent> {
    if prompts == [] then []
    else PromptEvents(prompts[..|prompts| - 1])
         + [MessageStart(prompts[|prompts| - 1]), MessageEnd(prompts[|prompts| - 1])]
  }

  function StartEvents(prompts: seq<Message>): seq<AgentEvent> {
    [AgentStart, TurnStart] + PromptEvents(prompts)
  }

  function Start(prompts: seq<Message>, context: seq<Message>): RunState {
    RunState(context + prompts, [], None, false, false, 0, ModelTurn, [], StartEvents(prompts))
  }

  function ErrorAssistant(cfg: Config, text: string): AssistantMessage {
    AssistantMessage([Text(text)], Error, Some(text), cfg.stream.provider, cfg.stream.model, None)
  }

  /** Why the provider never got to stream, if it did not. */
  function FailureText(cfg: Config, preflight: Preflight): Option<string> {
    match preflight
    case Ready => None
    case NoProvider => Some(cfg.noProviderText)
    case ResolverFailed(error) => Some(cfg.stream.describe(error))
    case StreamFailed(error) => Some(cfg.stream.describe(error))
  }

  function PreflightError(preflight: Preflight): Option<ProviderError> {
    match preflight
    case Ready => None
    case NoProvider => None
    case ResolverFailed(error) => Some(error)
    case StreamFailed(error) => Some(error)
  }

  /** The provider is handed the sanitized context unless the request never got that far. */
  predicate ReachesProvider(preflight: Preflight) {
    preflight.Ready? || preflight.StreamFailed?
  }

  function PreflightFailure(cfg: Config, s: RunState, text: string, error: Option<ProviderError>): RunState {
    var assistant := ErrorAssistant(cfg, text);
    var generated := s.generated + [Assistant(assistant)];
    s.(context := s.context + [Assistant(assistant)],
       generated := generated,
       terminalError := if error.Some? then error else s.terminalError,
       finished := true,
       suppressTailAgentEnd := true,
       intent := Finish,
       trace := s.trace + [MessageStart(Assistant(assistant)), MessageEnd(Assistant(assistant)),
                           TurnEnd(assistant, []), AgentEnd(generated)])
  }

  /** After the assistant message: execute its calls, continue with follow-ups, or finish. */
  function AfterAssistant(cfg: Config, s: RunState, collected: Stream.Collected, followUps: seq<Message>): RunState {
    var assistant, calls := collected.assistant, ExtractToolCalls(collected.assistant.content);
    var ended := s.trace + [TurnEnd(assistant, [])];
    if collected.error.Some? then
      s.(trace := ended, terminalError := collected.error, finished := true, intent := Finish)
    else if Failed(assistant) then s.(trace := ended, finished := true, intent := Finish)
    else if calls != [] then s.(intent := ExecuteTools(assistant, calls))
    else if cfg.followUpHook && followUps != [] then s.(trace := ended, intent := AppendFollowUps(followUps))
    else s.(trace := ended, finished := true, intent := Finish)
  }

  /** The context as the before-model policy leaves it, and the request made from it. */
  function Prepared(cfg: Config, s: RunState, input: StepInput): RunState {
    var context := s.context + input.policy;
    s.(context := context,
       requests :=
         if ReachesProvider(input.preflight) then s.requests + [Sanitize(context, cfg.replay)] else s.requests)
  }

  function Streamed(cfg: Config, s: RunState, polls: seq<Stream.Poll>): RunState {
    var message := Assistant(Stream.Outcome(cfg.stream, polls).assistant);
    s.(context := s.context + [message],
       generated := s.generated + [message],
       trace := s.trace + Stream.StreamTrace(cfg.stream, polls))
  }

  function AfterTools(cfg: Config, s: RunState, assistant: AssistantMessage, calls: seq<ToolCall>, input: StepInput)
    : RunState
    requires Tools.BatchCompletes(cfg.tools, calls, input.batch)
  {
    var results := Tools.BatchResults(cfg.tools, calls, input.batch);
    s.(context := s.context + AsMessages(results) + (if cfg.steeringHook then input.steering else []),
       generated := s.generated + AsMessages(results),
       finished := input.cancelled,
       intent := if input.cancelled then Finish else RunCompactionGate,
       trace := s.trace + Tools.BatchTrace(cfg.tools, calls, input.batch) + [TurnEnd(assistant, results)])
  }

  function GateTrace(cfg: Config, input: StepInput): seq<AgentEvent> {
    if !cfg.compactionGate then []
    else
      input.gateEvents +
      match input.gate
      case Unchanged => []
      case Compacted(messages) => [TranscriptReplace(messages)]
      case Skipped(reason) => [SystemMessage(cfg.skippedText(reason))]
      case GateFailed => []
  }

  function AfterGate(cfg: Config, s: RunState, input: StepInput): RunState {
    s.(context := if cfg.compactionGate && input.gate.Compacted? then input.gate.messages else s.context,
       intent := ModelTurn,
       trace := s.trace + GateTrace(cfg, input) + [TurnStart])
  }

  /** A tool batch must be one that completes: the step returns only when it has. */
  predicate Enabled(cfg: Config, s: RunState, input: StepInput) {
    !s.finished && s.intent.ExecuteTools? ==> Tools.BatchCompletes(cfg.tools, s.intent.calls, input.batch)
  }

  /** One step of a run. */
  function Next(cfg: Config, s: RunState, input: StepInput): RunState
    requires Enabled(cfg, s, input)
  {
    if s.finished then s
    else
      var next :=
        match s.intent
        case ModelTurn =>
          var prepared := Prepared(cfg, s, input);
          var failure := FailureText(cfg, input.preflight);
          if failure.Some? then PreflightFailure(cfg, prepared, failure.value, PreflightError(input.preflight))
          else
            AfterAssistant(
              cfg, Streamed(cfg, prepared, input.polls), Stream.Outcome(cfg.stream, input.polls), input.followUps)
        case ExecuteTools(assistant, calls) => AfterTools(cfg, s, assistant, calls, input)
        case AppendFollowUps(messages) =>
          s.(context := s.context + messages, intent := ModelTurn, trace := s.trace + [TurnStart])
        case RunCompactionGate => AfterGate(cfg, s, input)
        case Finish => s.(finished := true);
      next.(stepIndex := s.stepIndex + 1)
  }

  /** The run after these steps; `None` if one of them could not have returned. */
  function After(cfg: Config, s: RunState, inputs: seq<StepInput>): Option<RunState>
    decreases |inputs|
  {
    if inputs == [] then Some(s)
    else
      match After(cfg, s, inputs[..|inputs| - 1])
      case None => None
      case Some(before) =>
        var input := inputs[|inputs| - 1];
        if Enabled(cfg, before, input) then Some(Next(cfg, before, input)) else None
  }

  /** The trace with the tail `AgentEnd`, which a preflight failure has already sent. */
  function FullTrace(s: RunState): seq<AgentEvent> {
    if s.suppressTailAgentEnd then s.trace else s.trace + [AgentEnd(s.generated)]
  }

  // ----- The code -----

  datatype Observation =
    | AssistantCollected(collected: Stream.Collected)
    | ToolResults(assistant: AssistantMessage, results: seq<ToolResultMessage>)
    | FollowUpsAppended
    | CompactionGateChecked
    | PreflightFailed
    | FinishedAlready

  datatype Decision = Continue(intent: Intent) | FinishRun | FinishWithError(error: ProviderError)

  /** The next intent, from what was just observed. */
  function Decide(cfg: Config, finished: bool, observation: Observation, followUps: seq<Message>, cancelled: bool)
    : Decision
  {
    if finished then FinishRun
    else
      match observation
      case AssistantCollected(collected) =>
        if collected.error.Some? then FinishWithError(collected.error.value)
        else if Failed(collected.assistant) then FinishRun
        else
          var calls := ExtractToolCalls(collected.assistant.content);
          if calls != [] then Continue(ExecuteTools(collected.assistant, calls))
          else if cfg.followUpHook && followUps != [] then Continue(AppendFollowUps(followUps))
          else FinishRun
      case ToolResults(_, _) => if cancelled then FinishRun else Continue(RunCompactionGate)
      case FollowUpsAppended => Continue(ModelTurn)
      case CompactionGateChecked => Continue(ModelTurn)
      case PreflightFailed => FinishRun
      case FinishedAlready => FinishRun
  }

  function Decided(s: RunState, decision: Decision): RunState {
    var next :=
      match decision
      case Continue(intent) => s.(intent := intent)
      case FinishRun => s.(finished := true, intent := Finish)
      case FinishWithError(error) => s.(terminalError := Some(error), finished := true, intent := Finish);
    next.(stepIndex := s.stepIndex + 1)
  }

  datatype Evaluation = Evaluation(state: RunState, observation: Observation)

  /** Eval: do the work of one intent. Streaming and tool events are sent while it runs. */
  function Evaluate(cfg: Config, s: RunState, current: Intent, input: StepInput): Evaluation
    requires current.ExecuteTools? ==> Tools.BatchCompletes(cfg.tools, current.calls, input.batch)
  {
    match current
    case ModelTurn =>
      var prepared, failure := Prepared(cfg, s, input), FailureText(cfg, input.preflight);
      if failure.Some? then
        Evaluation(
          PreflightFailure(cfg, prepared, failure.value, PreflightError(input.preflight)).(intent := s.intent),
          PreflightFailed)
      else
        Evaluation(prepared.(trace := prepared.trace + Stream.StreamTrace(cfg.stream, input.polls)),
                   AssistantCollected(Stream.Outcome(cfg.stream, input.polls)))
    case ExecuteTools(assistant, calls) =>
      Evaluation(s.(trace := s.trace + Tools.BatchTrace(cfg.tools, calls, input.batch)),
                 ToolResults(assistant, Tools.BatchResults(cfg.tools, calls, input.batch)))
    case AppendFollowUps(messages) => Evaluation(s.(context := s.context + messages), FollowUpsAppended)
    case RunCompactionGate => Evaluation(AfterGate(cfg, s, input).(intent := s.intent), CompactionGateChecked)
    case Finish => Evaluation(s, FinishedAlready)
  }

  /** Print: commit what was observed, and mark the turn's boundary. */
  function Printed(cfg: Config, s: RunState, observation: Observation, steering: seq<Message>): RunState {
    match observation
    case AssistantCollected(collected) =>
      var message := Assistant(collected.assistant);
      var ends := collected.error.Some? || Failed(collected.assistant)
                  || ExtractToolCalls(collected.assistant.content) == [];
      s.(context := s.context + [message],
         generated := s.generated + [message],
         trace := if ends then s.trace + [TurnEnd(collected.assistant, [])] else s.trace)
    case ToolResults(assistant, results) =>
      s.(context := s.context + AsMessages(results) + (if cfg.steeringHook then steering else []),
         generated := s.generated + AsMessages(results),
         trace := s.trace + [TurnEnd(assistant, results)])
    case FollowUpsAppended => s.(trace := s.trace + [TurnStart])
    case CompactionGateChecked => s
    case PreflightFailed => s
    case FinishedAlready => s
  }

  lemma AssistantPhases(cfg: Config, s: RunState, collected: Stream.Collected, input: StepInput)
    requires !s.finished
    ensures var message := Assistant(collected.assistant);
            var printed := Printed(cfg, s, AssistantCollected(collected), input.steering);
            Decided(printed, Decide(cfg, false, AssistantCollected(collected), input.followUps, input.cancelled))
              == AfterAssistant(cfg, s.(context := s.context + [message], generated := s.generated + [message]),
                                collected, input.followUps).(stepIndex := s.stepIndex + 1)
  {
  }

  lemma AfterAssistantSetsIntent(
    cfg: Config, s: RunState, collected: Stream.Collected, followUps: seq<Message>, intent: Intent)
    ensures AfterAssistant(cfg, s.(intent := intent), collected, followUps)
         == AfterAssistant(cfg, s, collected, followUps)
  {
  }

  lemma ModelTurnPhases(cfg: Config, s: RunState, input: StepInput)
    requires !s.finished && s.intent.ModelTurn? && FailureText(cfg, input.preflight).None?
    ensures var evaluated := Evaluate(cfg, s.(intent := Finish), s.intent, input);
            var printed := Printed(cfg, evaluated.state, evaluated.observation, input.steering);
            Decided(printed, Decide(cfg, printed.finished, evaluated.observation, input.followUps, input.cancelled))
              == Next(cfg, s, input)
  {
    var evaluated := Evaluate(cfg, s.(intent := Finish), s.intent, input);
    var collected := Stream.Outcome(cfg.stream, input.polls);
    AssistantPhases(cfg, evaluated.state, collected, input);
    var streamed := Streamed(cfg, Prepared(cfg, s, input), input.polls);
    AfterAssistantSetsIntent(cfg, streamed, collected, input.followUps, Finish);
  }

  /** Evaluating, printing and deciding make exactly one step of `Next`. */
  lemma PhasesMakeOneStep(cfg: Config, s: RunState, input: StepInput)
    requires !s.finished && Enabled(cfg, s, input)
    ensures var evaluated := Evaluate(cfg, s.(intent := Finish), s.intent, input);
            var printed := Printed(cfg, evaluated.state, evaluated.observation, input.steering);
            Decided(printed, Decide(cfg, printed.finished, evaluated.observation, input.followUps, input.cancelled))
              == Next(cfg, s, input)
  {
    if s.intent.ModelTurn? && FailureText(cfg, input.preflight).None? {
      ModelTurnPhases(cfg, s, input);
    }
  }

  lemma SliceAppend(trace: seq<AgentEvent>, start: nat, events: seq<AgentEvent>)
    requires start <= |trace|
    ensures (trace + events)[start..] == trace[start..] + events
    ensures (trace + events)[..start] == trace[..start]
  {
  }

  class AgentRunMachine {
    const cfg: Config
    const log: EventLog
    /** Where this run's events begin in the log. */
    ghost const start: nat
    var context: seq<Message>
    var generated: seq<Message>
    var terminalError: Option<ProviderError>
    var finished: bool
    var suppressTailAgentEnd: bool
    var stepIndex: nat
    var intent: Intent
    /** The messages of every request handed to the provider. */
    ghost var requests: seq<seq<Message>>

    ghost predicate Valid()
      reads this, log
    {
      start <= |log.trace|
    }

    ghost function State(): RunState
      requires Valid()
      reads this, log
    {
      RunState(context, generated, terminalError, finished, suppressTailAgentEnd, stepIndex, intent, requests,
               log.trace[start..])
    }

    /** Start a run: append the prompts and announce them. */
    constructor (cfg: Config, prompts: seq<Message>, context: seq<Message>, log: EventLog)
      modifies log
      ensures Valid() && this.cfg == cfg && this.log == log
      ensures State() == Start(prompts, context)
      ensures log.trace == old(log.trace) + StartEvents(prompts)
    {
      this.cfg, this.log, this.start := cfg, log, |log.trace|;
      this.context := context + prompts;
      this.generated, this.terminalError, this.finished, this.suppressTailAgentEnd := [], None, false, false;
      this.stepIndex, this.intent, this.requests := 0, ModelTurn, [];
      new;
      log.Send(AgentStart);
      log.Send(TurnStart);
      for i := 0 to |prompts|
        invariant log.trace == old(log.trace) + StartEvents(prompts[..i])
        modifies log
      {
        log.Send(MessageStart(prompts[i]));
        log.Send(MessageEnd(prompts[i]));
        assert prompts[..i + 1][..i] == prompts[..i];
      }
      assert prompts[..|prompts|] == prompts;
      assert log.trace[start..] == StartEvents(prompts);
    }

    method AppendAssistant(assistant: AssistantMessage)
      modifies this`context, this`generated
      ensures context == old(context) + [Assistant(assistant)]
      ensures generated == old(generated) + [Assistant(assistant)]
    {
      context := context + [Assistant(assistant)];
      generated := generated + [Assistant(assistant)];
    }

    method AppendToolResults(results: seq<ToolResultMessage>)
      modifies this`context, this`generated
      ensures context == old(context) + AsMessages(results)
      ensures generated == old(generated) + AsMessages(results)
    {
      for i := 0 to |results|
        invariant context == old(context) + AsMessages(results[..i])
        invariant generated == old(generated) + AsMessages(results[..i])
      {
        context := context + [ToolResultMsg(results[i])];
        generated := generated + [ToolResultMsg(results[i])];
        assert AsMessages(results[..i + 1]) == AsMessages(results[..i]) + [ToolResultMsg(results[i])];
      }
      assert results[..|results|] == results;
    }

    /** The "never reached the provider" sequence, which sends the run's `AgentEnd` itself. */
    method FinishWithAssistant(assistant: AssistantMessage)
      requires Valid()
      modifies this, log
      ensures Valid() && log.trace[..start] == old(log.trace)[..start]
      ensures State() == old(State()).(
                context := old(context) + [Assistant(assistant)],
                generated := old(generated) + [Assistant(assistant)],
                suppressTailAgentEnd := true,
                trace := old(State()).trace
                  + [MessageStart(Assistant(assistant)), MessageEnd(Assistant(assistant)),
                     TurnEnd(assistant, []), AgentEnd(old(generated) + [Assistant(assistant)])])
    {
      log.Send(MessageStart(Assistant(assistant)));
      log.Send(MessageEnd(Assistant(assistant)));
      AppendAssistant(assistant);
      log.Send(TurnEnd(assistant, []));
      log.Send(AgentEnd(generated));
      suppressTailAgentEnd := true;
    }

    method FailPreflight(text: string, error: Option<ProviderError>)
      requires Valid()
      modifies this, log
      ensures Valid() && log.trace[..start] == old(log.trace)[..start]
      ensures State() == PreflightFailure(cfg, old(State()), text, error).(intent := old(intent))
    {
      FinishWithAssistant(ErrorAssistant(cfg, text));
      if error.Some? {
        terminalError := error;
      }
      finished := true;
    }

    method EvalModelTurn(input: StepInput) returns (observation: Observation)
      requires Valid() && !finished
      modifies this, log
      ensures Valid() && log.trace[..start] == old(log.trace)[..start]
      ensures Evaluation(State(), observation) == Evaluate(cfg, old(State()), ModelTurn, input)
    {
      context := context + input.policy;
      if ReachesProvider(input.preflight) {
        var sanitized, borrowed := SanitizeContextForRequest(context, cfg.replay);
        requests := requests + [sanitized];
      }
      match input.preflight {
        case ResolverFailed(error) =>
          FailPreflight(cfg.stream.describe(error), Some(error));
          return PreflightFailed;
        case NoProvider =>
          FailPreflight(cfg.noProviderText, None);
          return PreflightFailed;
        case StreamFailed(error) =>
          FailPreflight(cfg.stream.describe(error), Some(error));
          return PreflightFailed;
        case Ready =>
          ghost var before := log.trace;
          var collected := Stream.CollectStream(cfg.stream, input.polls, log);
          SliceAppend(before, start, Stream.StreamTrace(cfg.stream, input.polls));
          return AssistantCollected(collected);
      }
    }

    method RunGate(input: StepInput)
      requires Valid()
      modifies this, log
      ensures Valid() && log.trace[..start] == old(log.trace)[..start]
      ensures State() == AfterGate(cfg, old(State()), input).(intent := old(intent))
    {
      if cfg.compactionGate {
        Tools.SendAll(input.gateEvents, log);
        match input.gate {
          case Compacted(messages) =>
            context := messages;
            log.Send(TranscriptReplace(context));
          case Skipped(reason) => log.Send(SystemMessage(cfg.skippedText(reason)));
          case Unchanged =>
          case GateFailed =>
        }
      }
      log.Send(TurnStart);
    }

    method EvalStep(current: Intent, input: StepInput) returns (observation: Observation)
      requires Valid() && !finished && Enabled(cfg, State().(intent := current), input)
      modifies this, log
      ensures Valid() && log.trace[..start] == old(log.trace)[..start]
      ensures Evaluation(State(), observation) == Evaluate(cfg, old(State()), current, input)
    {
      match current {
        case ModelTurn => observation := EvalModelTurn(input);
        case ExecuteTools(assistant, calls) =>
          var results := Tools.ExecuteToolCalls(cfg.tools, calls, input.batch, log);
          observation := ToolResults(assistant, results);
        case AppendFollowUps(messages) =>
          context := context + messages;
          observation := FollowUpsAppended;
        case RunCompactionGate =>
          RunGate(input);
          observation := CompactionGateChecked;
        case Finish => observation := FinishedAlready;
      }
    }

    /** Commit what was observed and send the turn-boundary events. */
    method PrintStep(observation: Observation, input: StepInput)
      requires Valid()
      modifies this, log
      ensures Valid() && log.trace[..start] == old(log.trace)[..start]
      ensures State() == Printed(cfg, old(State()), observation, input.steering)
    {
      match observation {
        case AssistantCollected(collected) =>
          AppendAssistant(collected.assistant);
          if collected.error.Some? || Failed(collected.assistant)
             || ExtractToolCalls(collected.assistant.content) == []
          {
            log.Send(TurnEnd(collected.assistant, []));
          }
        case ToolResults(assistant, results) =>
          AppendToolResults(results);
          if cfg.steeringHook {
            context := context + input.steering;
          }
          log.Send(TurnEnd(assistant, results));
        case FollowUpsAppended => log.Send(TurnStart);
        case CompactionGateChecked =>
        case PreflightFailed =>
        case FinishedAlready =>
      }
    }

    /** One iteration: read the intent, evaluate it, print, decide the next one. */
    method NextStep(input: StepInput) returns (done: bool)
      requires Valid() && Enabled(cfg, State(), input)
      modifies this, log
      ensures Valid() && log.trace[..start] == old(log.trace)[..start]
      ensures State() == Next(cfg, old(State()), input)
      ensures done == finished
    {
      if finished {
        return true;
      }
      PhasesMakeOneStep(cfg, State(), input);
      var current := intent;
      intent := Finish;
      var observation := EvalStep(current, input);
      PrintStep(observation, input);
      ApplyDecision(Decide(cfg, finished, observation, input.followUps, input.cancelled));
      done := finished;
    }

    method ApplyDecision(decision: Decision)
      requires Valid()
      modifies this
      ensures Valid() && State() == Decided(old(State()), decision)
    {
      match decision {
        case Continue(next) => intent := next;
        case FinishRun => finished, intent := true, Finish;
        case FinishWithError(error) => terminalError, finished, intent := Some(error), true, Finish;
      }
      stepIndex := stepIndex + 1;
    }

    /** End the run: the tail `AgentEnd`, and the result. */
    method Conclude() returns (result: RunResult)
      requires Valid()
      modifies log
      ensures Valid() && log.trace[..start] == old(log.trace)[..start]
      ensures log.trace[start..] == FullTrace(old(State()))
      ensures result == RunResult(generated, context, terminalError)
    {
      if !suppressTailAgentEnd {
        log.Send(AgentEnd(generated));
      }
      result := RunResult(generated, context, terminalError);
    }
  }

  method TakeSteps(machine: AgentRunMachine, inputs: seq<StepInput>)
    requires machine.Valid() && After(machine.cfg, machine.State(), inputs).Some?
    modifies machine, machine.log
    ensures machine.Valid() && machine.log.trace[..machine.start] == old(machine.log.trace)[..machine.start]
    ensures After(machine.cfg, old(machine.State()), inputs) == Some(machine.State())
  {
    ghost var s := machine.State();
    for i := 0 to |inputs|
      invariant machine.Valid() && machine.log.trace[..machine.start] == old(machine.log.trace)[..machine.start]
      invariant After(machine.cfg, s, inputs[..i]) == Some(machine.State())
    {
      ReachableStep(machine.cfg, s, inputs, i);
      var done := machine.NextStep(inputs[i]);
    }
    assert inputs[..|inputs|] == inputs;
  }

  /** Drive a run through the given steps, then conclude it. */
  method RunSteps(cfg: Config, prompts: seq<Message>, context: seq<Message>, inputs: seq<StepInput>, log: EventLog)
    returns (result: RunResult)
    requires After(cfg, Start(prompts, context), inputs).Some?
    modifies log
    ensures var end := After(cfg, Start(prompts, context), inputs).value;
            && log.trace == old(log.trace) + FullTrace(end)
            && result == RunResult(end.generated, end.context, end.terminalError)
  {
    var machine := new AgentRunMachine(cfg, prompts, context, log);
    TakeSteps(machine, inputs);
    result := machine.Conclude();
    assert log.trace == log.trace[..machine.start] + log.trace[machine.start..];
  }

  lemma LastStep(cfg: Config, s: RunState, inputs: seq<StepInput>)
    requires After(cfg, s, inputs).Some? && inputs != []
    ensures var n := |inputs| - 1;
            && After(cfg, s, inputs[..n]).Some?
            && Enabled(cfg, After(cfg, s, inputs[..n]).value, inputs[n])
            && After(cfg, s, inputs) == Some(Next(cfg, After(cfg, s, inputs[..n]).value, inputs[n]))
  {
  }

  lemma ReachableStep(cfg: Config, s: RunState, inputs: seq<StepInput>, i: nat)
    requires After(cfg, s, inputs).Some? && i < |inputs| && After(cfg, s, inputs[..i]).Some?
    ensures Enabled(cfg, After(cfg, s, inputs[..i]).value, inputs[i])
    ensures After(cfg, s, inputs[..i + 1]) == Some(Next(cfg, After(cfg, s, inputs[..i]).value, inputs[i]))
  {
    PrefixReachable(cfg, s, inputs, i + 1);
    var prefix := inputs[..i + 1];
    assert prefix[..|prefix| - 1] == inputs[..i] && prefix[|prefix| - 1] == inputs[i];
  }

  lemma {:induction false} PrefixReachable(cfg: Config, s: RunState, inputs: seq<StepInput>, k: nat)
    requires After(cfg, s, inputs).Some? && k <= |inputs|
    ensures After(cfg, s, inputs[..k]).Some?
    decreases |inputs|
  {
    if k < |inputs| {
      PrefixReachable(cfg, s, inputs[..|inputs| - 1], k);
      assert inputs[..|inputs| - 1][..k] == inputs[..k];
    } else {
      assert inputs[..k] == inputs;
    }
  }
}
