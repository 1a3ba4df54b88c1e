/** One batch of tool calls: each call's own steps, and every way a parallel batch can
    interleave them. */
module ToolBatch {
  import opened Protocol

  /** What the loop cannot see into: which tools exist, the text for one that does not,
      what the schemas reject, whether hooks are installed. */
  datatype Config = Config(
    known: string -> bool,
    notFound: string -> string,
    invalid: ToolCall -> Option<string>,
    beforeHook: bool,
    afterHook: bool)

  datatype Execution = Executed(result: ToolResult) | ExecutionError(message: string)

  datatype Override = Override(content: Option<seq<ContentBlock>>, details: Option<Json>, isError: Option<bool>)

  // ----- One call, on its own -----

  /** Everything outside the loop that one call meets: the hooks' answers, the partial
      results the tool sends, and what it returns. */
  datatype ToolEnv = ToolEnv(
    block: Option<string>,
    updates: seq<ToolResult>,
    execution: Execution,
    override: Option<Override>)

  datatype ToolOutcome = ToolOutcome(result: ToolResult, isError: bool)

  function ErrorResult(message: string): ToolResult {
    ToolResult([Text(message)], JObject(map[ErrorKey := JString(message)]))
  }

  function Argument(call: ToolCall, name: Key): Option<Json> {
    if call.arguments.JObject? && name in call.arguments.fields then Some(call.arguments.fields[name]) else None
  }

  function OrInsert(fields: map<Key, Json>, name: Key, value: Option<Json>): map<Key, Json> {
    if value.None? || name in fields then fields else fields[name := value.value]
  }

  function AttachDetails(call: ToolCall, details: Json): Json {
    var fields := if details.JObject? then details.fields else map[];
    var named := OrInsert(fields, ToolNameKey, Some(JString(call.name)));
    var pathed := OrInsert(named, PathKey, Argument(call, PathKey));
    JObject(OrInsert(pathed, CommandKey, Argument(call, CommandKey)))
  }

  function ApplyOverride(outcome: ToolOutcome, override: Option<Override>): ToolOutcome {
    if override.None? then outcome
    else
      var o := override.value;
      ToolOutcome(
        ToolResult(
          if o.content.Some? then o.content.value else outcome.result.content,
          if o.details.Some? then o.details.value else outcome.result.details),
        if o.isError.Some? then o.isError.value else outcome.isError)
  }

  function ExecutionOutcome(execution: Execution): ToolOutcome {
    match execution
    case Executed(result) => ToolOutcome(result, false)
    case ExecutionError(message) => ToolOutcome(ErrorResult(message), true)
  }

  function FinalOutcome(call: ToolCall, execution: Execution, override: Option<Override>): ToolOutcome {
    var outcome := ApplyOverride(ExecutionOutcome(execution), override);
    outcome.(result := outcome.result.(details := AttachDetails(call, outcome.result.details)))
  }

  /** Why a call is answered without running any tool, if it is. */
  function Refusal(cfg: Config, call: ToolCall, block: Option<string>): Option<string> {
    if !cfg.known(call.name) then Some(cfg.notFound(call.name))
    else if cfg.invalid(call).Some? then cfg.invalid(call)
    else if cfg.beforeHook then block
    else None
  }

  function SingleOutcome(cfg: Config, call: ToolCall, env: ToolEnv): ToolOutcome {
    match Refusal(cfg, call, env.block)
    case Some(message) => ToolOutcome(ErrorResult(message), true)
    case None => FinalOutcome(call, env.execution, if cfg.afterHook then env.override else None)
  }

  function StartEvent(call: ToolCall): AgentEvent {
    ToolExecStart(call.id, call.name, call.arguments)
  }

  function UpdateEvents(call: ToolCall, updates: seq<ToolResult>): (events: seq<AgentEvent>)
    ensures |events| == |updates|
  {
    seq(|updates|, i requires 0 <= i < |updates| => ToolExecUpdate(call.id, updates[i]))
  }

  function EndEvent(call: ToolCall, outcome: ToolOutcome): AgentEvent {
    ToolExecEnd(call.id, outcome.result, outcome.isError)
  }

  function SingleTrace(cfg: Config, call: ToolCall, env: ToolEnv): seq<AgentEvent> {
    [StartEvent(call)]
    + (if Refusal(cfg, call, env.block).None? then UpdateEvents(call, env.updates) else [])
    + [EndEvent(call, SingleOutcome(cfg, call, env))]
  }

  function ResultMessage(call: ToolCall, outcome: ToolOutcome): ToolResultMessage {
    ToolResultMessage(call.id, call.name, outcome.result.content, outcome.result.details, outcome.isError)
  }

  function SingleResult(cfg: Config, call: ToolCall, env: ToolEnv): ToolResultMessage {
    ResultMessage(call, SingleOutcome(cfg, call, env))
  }

  method ExecuteSingleTool(cfg: Config, call: ToolCall, env: ToolEnv, log: EventLog)
    returns (message: ToolResultMessage, executions: nat)
    modifies log
    ensures log.trace == old(log.trace) + SingleTrace(cfg, call, env)
    ensures message == SingleResult(cfg, call, env)
    ensures executions == if Refusal(cfg, call, env.block).None? then 1 else 0
  {
    executions := 0;
    log.Send(StartEvent(call));
    if !cfg.known(call.name) {
      var result := ErrorResult(cfg.notFound(call.name));
      log.Send(ToolExecEnd(call.id, result, true));
      return ResultMessage(call, ToolOutcome(result, true)), executions;
    }
    if cfg.invalid(call).Some? {
      var result := ErrorResult(cfg.invalid(call).value);
      log.Send(ToolExecEnd(call.id, result, true));
      return ResultMessage(call, ToolOutcome(result, true)), executions;
    }
    if cfg.beforeHook && env.block.Some? {
      var result := ErrorResult(env.block.value);
      log.Send(ToolExecEnd(call.id, result, true));
      return ResultMessage(call, ToolOutcome(result, true)), executions;
    }
    executions := executions + 1;
    ghost var started := log.trace;
    for i := 0 to |env.updates|
      invariant log.trace == started + UpdateEvents(call, env.updates[..i])
    {
      log.Send(ToolExecUpdate(call.id, env.updates[i]));
      assert UpdateEvents(call, env.updates[..i + 1])
          == UpdateEvents(call, env.updates[..i]) + [ToolExecUpdate(call.id, env.updates[i])];
    }
    assert env.updates[..|env.updates|] == env.updates;
    var outcome := ExecutionOutcome(env.execution);
    if cfg.afterHook {
      outcome := ApplyOverride(outcome, env.override);
    }
    outcome := outcome.(result := outcome.result.(details := AttachDetails(call, outcome.result.details)));
    log.Send(EndEvent(call, outcome));
    message := ResultMessage(call, outcome);
  }

  function SequentialTrace(cfg: Config, calls: seq<ToolCall>, envs: seq<ToolEnv>): seq<AgentEvent>
    requires |envs| == |calls|
  {
    if calls == [] then []
    else
      var n := |calls| - 1;
      SequentialTrace(cfg, calls[..n], envs[..n]) + SingleTrace(cfg, calls[n], envs[n])
  }

  lemma {:induction false} SequentialTraceSnoc(cfg: Config, calls: seq<ToolCall>, envs: seq<ToolEnv>, i: nat)
    requires |envs| == |calls| && i < |calls|
    ensures SequentialTrace(cfg, calls[..i + 1], envs[..i + 1])
         == SequentialTrace(cfg, calls[..i], envs[..i]) + SingleTrace(cfg, calls[i], envs[i])
  {
    assert calls[..i + 1][..i] == calls[..i] && envs[..i + 1][..i] == envs[..i];
  }

  function SingleResults(cfg: Config, calls: seq<ToolCall>, envs: seq<ToolEnv>): (results: seq<ToolResultMessage>)
    requires |envs| == |calls|
    ensures |results| == |calls|
    ensures forall i :: 0 <= i < |calls| ==> results[i].toolCallId == calls[i].id
  {
    seq(|calls|, i requires 0 <= i < |calls| => SingleResult(cfg, calls[i], envs[i]))
  }

  /** Sequential mode: one call after the other. */
  method ExecuteSequential(cfg: Config, calls: seq<ToolCall>, envs: seq<ToolEnv>, log: EventLog)
    returns (results: seq<ToolResultMessage>)
    requires |envs| == |calls|
    modifies log
    ensures log.trace == old(log.trace) + SequentialTrace(cfg, calls, envs)
    ensures results == SingleResults(cfg, calls, envs)
  {
    results := [];
    ghost var base := log.trace;
    for i := 0 to |calls|
      invariant log.trace == base + SequentialTrace(cfg, calls[..i], envs[..i])
      invariant results == SingleResults(cfg, calls, envs)[..i]
    {
      var message, executions := ExecuteSingleTool(cfg, calls[i], envs[i], log);
      results := results + [message];
      SequentialTraceSnoc(cfg, calls, envs, i);
      Regroup(base, SequentialTrace(cfg, calls[..i], envs[..i]), SingleTrace(cfg, calls[i], envs[i]));
    }
    assert calls[..|calls|] == calls && envs[..|envs|] == envs;
  }

  // ----- Every interleaving -----

  const UPDATE_CHANNEL_CAPACITY: nat := 16

  /** Where one call's task is suspended. */
  datatype Phase =
    | Idle
    | Hooking
    | Running
    | AfterHook
    | Ending(outcome: ToolOutcome)
    | Done(outcome: ToolOutcome)

  /** A task with the update channel between the tool and the forwarder it spawned. */
  datatype Task = Task(
    call: ToolCall,
    phase: Phase,
    blocked: Option<string>,
    sent: seq<ToolResult>,
    queue: seq<ToolResult>,
    closed: bool,
    execution: Option<Execution>,
    override: Option<Override>,
    executions: nat)

  /** One step of one task, of its tool, or of its forwarder. */
  datatype Action =
    | SendStart(task: nat)
    | HookAllows(task: nat)
    | HookBlocks(task: nat, reason: string)
    | ToolUpdates(task: nat, partial: ToolResult)
    | Forward(task: nat)
    | ToolReturns(task: nat, execution: Execution)
    | SendersClose(task: nat)
    | JoinForwarder(task: nat)
    | HookOverrides(task: nat, override: Option<Override>)
    | SendEnd(task: nat)

  datatype TaggedEvent = TaggedEvent(task: nat, event: AgentEvent)

  datatype Batch = Batch(tasks: seq<Task>, trace: seq<TaggedEvent>)

  datatype TaskStep = TaskStep(next: Task, events: seq<AgentEvent>)

  function NewTask(call: ToolCall): Task {
    Task(call, Idle, None, [], [], false, None, None, 0)
  }

  function AfterStart(cfg: Config, call: ToolCall): Phase {
    if !cfg.known(call.name) then Ending(ToolOutcome(ErrorResult(cfg.notFound(call.name)), true))
    else if cfg.invalid(call).Some? then Ending(ToolOutcome(ErrorResult(cfg.invalid(call).value), true))
    else Hooking
  }

  /** The steps before the tool runs. */
  function HookStep(cfg: Config, task: Task, action: Action): Option<TaskStep> {
    match action
    case SendStart(_) =>
      if !task.phase.Idle? then None
      else Some(TaskStep(task.(phase := AfterStart(cfg, task.call)), [StartEvent(task.call)]))
    case HookAllows(_) =>
      if !task.phase.Hooking? then None
      else Some(TaskStep(task.(phase := Running, executions := task.executions + 1), []))
    case HookBlocks(_, reason) =>
      if !task.phase.Hooking? || !cfg.beforeHook then None
      else Some(TaskStep(
        task.(phase := Ending(ToolOutcome(ErrorResult(reason), true)), blocked := Some(reason)), []))
    case _ => None
  }

  /** The steps of the running tool and of the forwarder. */
  function ToolStep(task: Task, action: Action): Option<TaskStep> {
    if !task.phase.Running? then None
    else
      match action
      case ToolUpdates(_, partial) =>
        if task.closed || |task.queue| >= UPDATE_CHANNEL_CAPACITY then None
        else Some(TaskStep(task.(sent := task.sent + [partial], queue := task.queue + [partial]), []))
      case Forward(_) =>
        if task.queue == [] then None
        else Some(TaskStep(task.(queue := task.queue[1..]), [ToolExecUpdate(task.call.id, task.queue[0])]))
      case ToolReturns(_, execution) =>
        if task.execution.Some? then None else Some(TaskStep(task.(execution := Some(execution)), []))
      case SendersClose(_) => Some(TaskStep(task.(closed := true), []))
      case _ => None
  }

  /** The steps after the tool returned. */
  function FinishStep(cfg: Config, task: Task, action: Action): Option<TaskStep> {
    match action
    case JoinForwarder(_) =>
      if !task.phase.Running? || task.execution.None? || !task.closed || task.queue != [] then None
      else Some(TaskStep(task.(phase := AfterHook), []))
    case HookOverrides(_, override) =>
      if !task.phase.AfterHook? || task.execution.None? || (override.Some? && !cfg.afterHook) then None
      else Some(TaskStep(
        task.(phase := Ending(FinalOutcome(task.call, task.execution.value, override)), override := override), []))
    case SendEnd(_) =>
      if !task.phase.Ending? then None
      else Some(TaskStep(task.(phase := Done(task.phase.outcome)), [EndEvent(task.call, task.phase.outcome)]))
    case _ => None
  }

  /** What one action does to its task; `None` when the task is not there yet. */
  function StepTask(cfg: Config, task: Task, action: Action): Option<TaskStep> {
    if action.SendStart? || action.HookAllows? || action.HookBlocks? then HookStep(cfg, task, action)
    else if action.JoinForwarder? || action.HookOverrides? || action.SendEnd? then FinishStep(cfg, task, action)
    else ToolStep(task, action)
  }

  function Tag(task: nat, events: seq<AgentEvent>): seq<TaggedEvent> {
    seq(|events|, i requires 0 <= i < |events| => TaggedEvent(task, events[i]))
  }

  function Step(cfg: Config, batch: Batch, action: Action): Option<Batch> {
    if action.task >= |batch.tasks| then None
    else
      match StepTask(cfg, batch.tasks[action.task], action)
      case None => None
      case Some(step) =>
        Some(Batch(batch.tasks[action.task := step.next], batch.trace + Tag(action.task, step.events)))
  }

  function Begin(calls: seq<ToolCall>): Batch {
    Batch(seq(|calls|, i requires 0 <= i < |calls| => NewTask(calls[i])), [])
  }

  /** The batch after a schedule; `None` if the schedule asks for an impossible step. */
  function Run(cfg: Config, calls: seq<ToolCall>, schedule: seq<Action>): Option<Batch>
    decreases |schedule|
  {
    if schedule == [] then Some(Begin(calls))
    else
      match Run(cfg, calls, schedule[..|schedule| - 1])
      case None => None
      case Some(batch) => Step(cfg, batch, schedule[|schedule| - 1])
  }

  predicate Completes(cfg: Config, calls: seq<ToolCall>, schedule: seq<Action>) {
    var end := Run(cfg, calls, schedule);
    end.Some? && forall i :: 0 <= i < |end.value.tasks| ==> end.value.tasks[i].phase.Done?
  }

  /** The events of one task, in the order they were sent. */
  function Project(trace: seq<TaggedEvent>, task: nat): seq<AgentEvent> {
    if trace == [] then []
    else
      var last := trace[|trace| - 1];
      Project(trace[..|trace| - 1], task) + if last.task == task then [last.event] else []
  }

  function Untagged(trace: seq<TaggedEvent>): (events: seq<AgentEvent>)
    ensures |events| == |trace|
  {
    seq(|trace|, i requires 0 <= i < |trace| => trace[i].event)
  }

  /** What a task has met so far, as the environment of a call on its own. */
  function EnvOf(task: Task): ToolEnv {
    ToolEnv(task.blocked, task.sent,
            if task.execution.Some? then task.execution.value else ExecutionError(""), task.override)
  }

  /** What a task must have sent by the time it is where it is: its start, the updates
      already forwarded, and at the very end its result. */
  function SentBy(task: Task): seq<AgentEvent>
    requires |task.queue| <= |task.sent|
  {
    (if task.phase.Idle? then [] else [StartEvent(task.call)])
    + UpdateEvents(task.call, task.sent[..|task.sent| - |task.queue|])
    + (if task.phase.Done? then [EndEvent(task.call, task.phase.outcome)] else [])
  }

  ghost predicate Accepted(cfg: Config, call: ToolCall) {
    cfg.known(call.name) && cfg.invalid(call).None?
  }

  /** The channel holds the latest updates, in order. */
  ghost predicate ChannelInvariant(task: Task) {
    && |task.queue| <= UPDATE_CHANNEL_CAPACITY
    && |task.queue| <= |task.sent|
    && task.queue == task.sent[|task.sent| - |task.queue|..]
  }

  ghost predicate PhaseInvariant(cfg: Config, task: Task) {
    && (task.override.Some? ==> cfg.afterHook)
    && (task.blocked.Some? ==> cfg.beforeHook)
    && match task.phase
       case Idle => task == NewTask(task.call)
       case Hooking => task == NewTask(task.call).(phase := Hooking) && Accepted(cfg, task.call)
       case Running =>
         Accepted(cfg, task.call) && task.blocked.None? && task.executions == 1 && task.override.None?
       case AfterHook =>
         && Accepted(cfg, task.call) && task.blocked.None? && task.executions == 1 && task.override.None?
         && task.queue == [] && task.execution.Some?
       case Ending(outcome) => Settled(cfg, task, outcome)
       case Done(outcome) => Settled(cfg, task, outcome)
  }

  ghost predicate TaskInvariant(cfg: Config, task: Task) {
    ChannelInvariant(task) && PhaseInvariant(cfg, task)
  }

  /** A settled task met exactly what `SingleOutcome` says, and ran its tool once or never. */
  ghost predicate Settled(cfg: Config, task: Task, outcome: ToolOutcome) {
    var refused := Refusal(cfg, task.call, task.blocked).Some?;
    && task.queue == []
    && outcome == SingleOutcome(cfg, task.call, EnvOf(task))
    && task.executions == (if refused then 0 else 1)
    && (refused ==> task.sent == [])
  }

  lemma StartKeepsInvariant(cfg: Config, task: Task)
    requires TaskInvariant(cfg, task) && task.phase.Idle?
    ensures TaskInvariant(cfg, task.(phase := AfterStart(cfg, task.call)))
  {
  }

  lemma AllowKeepsInvariant(cfg: Config, task: Task)
    requires TaskInvariant(cfg, task) && task.phase.Hooking?
    ensures TaskInvariant(cfg, task.(phase := Running, executions := task.executions + 1))
  {
  }

  lemma BlockKeepsInvariant(cfg: Config, task: Task, reason: string)
    requires TaskInvariant(cfg, task) && task.phase.Hooking? && cfg.beforeHook
    ensures TaskInvariant(cfg,
      task.(phase := Ending(ToolOutcome(ErrorResult(reason), true)), blocked := Some(reason)))
  {
  }

  lemma HookStepKeepsInvariant(cfg: Config, task: Task, action: Action)
    requires TaskInvariant(cfg, task) && HookStep(cfg, task, action).Some?
    ensures TaskInvariant(cfg, HookStep(cfg, task, action).value.next)
  {
    var next := HookStep(cfg, task, action).value.next;
    if action.SendStart? {
      StartKeepsInvariant(cfg, task);
      assert next == task.(phase := AfterStart(cfg, task.call));
    } else if action.HookAllows? {
      AllowKeepsInvariant(cfg, task);
      assert next == task.(phase := Running, executions := task.executions + 1);
    } else {
      BlockKeepsInvariant(cfg, task, action.reason);
      var refused := Ending(ToolOutcome(ErrorResult(action.reason), true));
      assert next == task.(phase := refused, blocked := Some(action.reason));
    }
  }

  lemma HookStepSends(cfg: Config, task: Task, action: Action)
    requires TaskInvariant(cfg, task) && HookStep(cfg, task, action).Some?
    ensures StepSends(task, HookStep(cfg, task, action).value)
  {
    NothingForwarded(task);
    NothingForwarded(HookStep(cfg, task, action).value.next);
  }

  lemma NothingForwarded(task: Task)
    requires task.sent == [] && task.queue == [] && !task.phase.Done?
    ensures SentBy(task) == if task.phase.Idle? then [] else [StartEvent(task.call)]
  {
    assert UpdateEvents(task.call, task.sent[..0]) == [];
  }

  lemma ToolStepKeepsInvariant(cfg: Config, task: Task, action: Action)
    requires TaskInvariant(cfg, task) && ToolStep(task, action).Some?
    ensures TaskInvariant(cfg, ToolStep(task, action).value.next)
    ensures StepSends(task, ToolStep(task, action).value)
  {
    var next, forwarded := ToolStep(task, action).value.next, |task.sent| - |task.queue|;
    if action.Forward? {
      assert task.sent[..forwarded + 1] == task.sent[..forwarded] + [task.queue[0]];
      assert UpdateEvents(task.call, task.sent[..forwarded + 1])
          == UpdateEvents(task.call, task.sent[..forwarded]) + [ToolExecUpdate(task.call.id, task.queue[0])];
    } else {
      assert next.sent[..forwarded] == task.sent[..forwarded];
      if action.ToolUpdates? {
        assert next.sent[forwarded..] == task.sent[forwarded..] + [action.partial];
      }
    }
  }

  lemma FinishStepKeepsInvariant(cfg: Config, task: Task, action: Action)
    requires TaskInvariant(cfg, task) && FinishStep(cfg, task, action).Some?
    ensures TaskInvariant(cfg, FinishStep(cfg, task, action).value.next)
  {
  }

  lemma FinishStepSends(cfg: Config, task: Task, action: Action)
    requires TaskInvariant(cfg, task) && FinishStep(cfg, task, action).Some?
    ensures StepSends(task, FinishStep(cfg, task, action).value)
  {
  }

  /** A step sends exactly what its new place adds. */
  ghost predicate StepSends(task: Task, step: TaskStep) {
    && step.next.call == task.call
    && ChannelInvariant(task) && ChannelInvariant(step.next)
    && SentBy(step.next) == SentBy(task) + step.events
  }

  lemma TaskStepKeepsInvariant(cfg: Config, task: Task, action: Action)
    requires TaskInvariant(cfg, task) && StepTask(cfg, task, action).Some?
    ensures TaskInvariant(cfg, StepTask(cfg, task, action).value.next)
    ensures StepSends(task, StepTask(cfg, task, action).value)
  {
    if HookStep(cfg, task, action).Some? {
      HookStepKeepsInvariant(cfg, task, action);
      HookStepSends(cfg, task, action);
    } else if FinishStep(cfg, task, action).Some? {
      FinishStepKeepsInvariant(cfg, task, action);
      FinishStepSends(cfg, task, action);
    } else {
      ToolStepKeepsInvariant(cfg, task, action);
    }
  }

  lemma {:induction false} ProjectTagged(trace: seq<TaggedEvent>, task: nat, events: seq<AgentEvent>, other: nat)
    ensures Project(trace + Tag(task, events), other)
         == Project(trace, other) + if other == task then events else []
    decreases |events|
  {
    if events == [] {
      assert trace + Tag(task, events) == trace;
    } else {
      var n := |events| - 1;
      var whole, shorter := trace + Tag(task, events), trace + Tag(task, events[..n]);
      var last := if other == task then [events[n]] else [];
      assert whole[..|whole| - 1] == shorter && whole[|whole| - 1] == TaggedEvent(task, events[n]);
      assert Project(whole, other) == Project(shorter, other) + last;
      ProjectTagged(trace, task, events[..n], other);
      Regroup(Project(trace, other), if other == task then events[..n] else [], last);
      assert events == events[..n] + [events[n]];
    }
  }

  ghost predicate BatchInvariant(cfg: Config, calls: seq<ToolCall>, batch: Batch) {
    && |batch.tasks| == |calls|
    && (forall i :: 0 <= i < |calls| ==>
          && batch.tasks[i].call == calls[i]
          && TaskInvariant(cfg, batch.tasks[i])
          && Project(batch.trace, i) == SentBy(batch.tasks[i]))
    && (forall k :: 0 <= k < |batch.trace| ==> ToolEventOf(batch.trace[k], calls))
  }

  predicate IsToolEvent(event: AgentEvent) {
    event.ToolExecStart? || event.ToolExecUpdate? || event.ToolExecEnd?
  }

  /** An event carries the id of the call its task runs. */
  predicate ToolEventOf(tagged: TaggedEvent, calls: seq<ToolCall>) {
    && IsToolEvent(tagged.event)
    && tagged.task < |calls| && tagged.event.callId == calls[tagged.task].id
  }

  lemma StepSendsToolEvents(cfg: Config, task: Task, action: Action)
    requires StepTask(cfg, task, action).Some?
    ensures forall e :: e in StepTask(cfg, task, action).value.events ==> IsToolEvent(e) && e.callId == task.call.id
  {
  }

  lemma StepKeepsBatch(cfg: Config, calls: seq<ToolCall>, batch: Batch, action: Action)
    requires BatchInvariant(cfg, calls, batch) && Step(cfg, batch, action).Some?
    ensures BatchInvariant(cfg, calls, Step(cfg, batch, action).value)
  {
    var next := Step(cfg, batch, action).value;
    StepKeepsTrace(cfg, calls, batch, action);
    forall i | 0 <= i < |calls|
      ensures && next.tasks[i].call == calls[i]
              && TaskInvariant(cfg, next.tasks[i])
              && Project(next.trace, i) == SentBy(next.tasks[i])
    {
      StepKeepsTask(cfg, calls, batch, action, i);
    }
  }

  lemma StepKeepsTask(cfg: Config, calls: seq<ToolCall>, batch: Batch, action: Action, i: nat)
    requires BatchInvariant(cfg, calls, batch) && Step(cfg, batch, action).Some? && i < |calls|
    ensures var next := Step(cfg, batch, action).value;
            && next.tasks[i].call == calls[i]
            && TaskInvariant(cfg, next.tasks[i])
            && Project(next.trace, i) == SentBy(next.tasks[i])
  {
    var step := StepTask(cfg, batch.tasks[action.task], action).value;
    ProjectTagged(batch.trace, action.task, step.events, i);
    if i == action.task {
      TaskStepKeepsInvariant(cfg, batch.tasks[i], action);
      assert Step(cfg, batch, action).value.tasks[i] == step.next;
    } else {
      assert Step(cfg, batch, action).value.tasks[i] == batch.tasks[i];
    }
  }

  lemma StepKeepsTrace(cfg: Config, calls: seq<ToolCall>, batch: Batch, action: Action)
    requires BatchInvariant(cfg, calls, batch) && Step(cfg, batch, action).Some?
    ensures var next := Step(cfg, batch, action).value;
            forall k :: 0 <= k < |next.trace| ==> ToolEventOf(next.trace[k], calls)
  {
    var next := Step(cfg, batch, action).value;
    var step := StepTask(cfg, batch.tasks[action.task], action).value;
    StepSendsToolEvents(cfg, batch.tasks[action.task], action);
    forall k | 0 <= k < |next.trace|
      ensures ToolEventOf(next.trace[k], calls)
    {
      if k < |batch.trace| {
        assert next.trace[k] == batch.trace[k];
      } else {
        assert next.trace[k].event in step.events && next.trace[k].task == action.task;
      }
    }
  }

  /** In every interleaving, each task has sent exactly what it should have by now. */
  lemma {:induction false} EveryInterleaving(cfg: Config, calls: seq<ToolCall>, schedule: seq<Action>)
    requires Run(cfg, calls, schedule).Some?
    ensures BatchInvariant(cfg, calls, Run(cfg, calls, schedule).value)
    decreases |schedule|
  {
    if schedule == [] {
      forall i | 0 <= i < |calls| ensures TaskInvariant(cfg, NewTask(calls[i])) && SentBy(NewTask(calls[i])) == [] {
      }
    } else {
      var n := |schedule| - 1;
      EveryInterleaving(cfg, calls, schedule[..n]);
      StepKeepsBatch(cfg, calls, Run(cfg, calls, schedule[..n]).value, schedule[n]);
    }
  }

  /** At any moment of any interleaving a task has run its tool at most once, and never if
      the tool is unknown, its arguments are invalid, or a hook blocked the call. */
  lemma ExecutedAtMostOnce(cfg: Config, calls: seq<ToolCall>, schedule: seq<Action>, i: nat)
    requires Run(cfg, calls, schedule).Some? && i < |calls|
    ensures var batch := Run(cfg, calls, schedule).value;
            && |batch.tasks| == |calls|
            && batch.tasks[i].executions <= 1
            && (!Accepted(cfg, calls[i]) || batch.tasks[i].blocked.Some? ==> batch.tasks[i].executions == 0)
  {
    EveryInterleaving(cfg, calls, schedule);
    assert TaskInvariant(cfg, Run(cfg, calls, schedule).value.tasks[i]);
  }

  /** What each call of a parallel batch met. */
  function BatchEnvs(cfg: Config, calls: seq<ToolCall>, schedule: seq<Action>): (envs: seq<ToolEnv>)
    requires Run(cfg, calls, schedule).Some?
    ensures |envs| == |calls|
  {
    EveryInterleaving(cfg, calls, schedule);
    var tasks := Run(cfg, calls, schedule).value.tasks;
    seq(|tasks|, i requires 0 <= i < |tasks| => EnvOf(tasks[i]))
  }

  lemma DoneTaskIsSingle(cfg: Config, task: Task)
    requires TaskInvariant(cfg, task) && task.phase.Done?
    ensures SentBy(task) == SingleTrace(cfg, task.call, EnvOf(task))
    ensures ResultMessage(task.call, task.phase.outcome) == SingleResult(cfg, task.call, EnvOf(task))
    ensures task.executions == if Refusal(cfg, task.call, task.blocked).None? then 1 else 0
  {
    assert task.sent[..|task.sent|] == task.sent;
    if Refusal(cfg, task.call, task.blocked).Some? {
      assert UpdateEvents(task.call, task.sent) == [];
    }
  }

  /** A completed parallel batch is, call by call, what the calls would have been one at a
      time: the same events in the same order, the same results, the tool run once or never. */
  lemma ParallelIsSequentialPerCall(cfg: Config, calls: seq<ToolCall>, schedule: seq<Action>)
    requires Completes(cfg, calls, schedule)
    ensures var batch, envs := Run(cfg, calls, schedule).value, BatchEnvs(cfg, calls, schedule);
            && |batch.tasks| == |calls|
            && forall i :: 0 <= i < |calls| ==>
                 && Project(batch.trace, i) == SingleTrace(cfg, calls[i], envs[i])
                 && batch.tasks[i].call == calls[i]
                 && ResultMessage(calls[i], batch.tasks[i].phase.outcome) == SingleResult(cfg, calls[i], envs[i])
                 && batch.tasks[i].executions == if Refusal(cfg, calls[i], envs[i].block).None? then 1 else 0
  {
    var batch, envs := Run(cfg, calls, schedule).value, BatchEnvs(cfg, calls, schedule);
    EveryInterleaving(cfg, calls, schedule);
    forall i | 0 <= i < |calls|
      ensures && Project(batch.trace, i) == SingleTrace(cfg, calls[i], envs[i])
              && batch.tasks[i].call == calls[i]
              && ResultMessage(calls[i], batch.tasks[i].phase.outcome) == SingleResult(cfg, calls[i], envs[i])
              && batch.tasks[i].executions == if Refusal(cfg, calls[i], envs[i].block).None? then 1 else 0
    {
      DoneTaskIsSingle(cfg, batch.tasks[i]);
    }
  }

  /** The events with one call id. */
  function WithId(events: seq<AgentEvent>, id: string): seq<AgentEvent> {
    if events == [] then []
    else
      var last := events[|events| - 1];
      WithId(events[..|events| - 1], id) + if IsToolEvent(last) && last.callId == id then [last] else []
  }

  lemma {:induction false} WithIdIsProjection(calls: seq<ToolCall>, trace: seq<TaggedEvent>, i: nat)
    requires forall k :: 0 <= k < |trace| ==> ToolEventOf(trace[k], calls)
    requires i < |calls| && forall j :: 0 <= j < |calls| && j != i ==> calls[j].id != calls[i].id
    ensures WithId(Untagged(trace), calls[i].id) == Project(trace, i)
  {
    if trace != [] {
      WithIdIsProjection(calls, trace[..|trace| - 1], i);
      assert Untagged(trace)[..|trace| - 1] == Untagged(trace[..|trace| - 1]);
    }
  }

  /** A listener that filters by call id sees, for a call whose id is not reused, Start,
      its updates in send order, then one End, whatever the other calls were doing. */
  lemma ListenerSeesEachCallInOrder(cfg: Config, calls: seq<ToolCall>, schedule: seq<Action>, i: nat)
    requires Completes(cfg, calls, schedule)
    requires i < |calls| && forall j :: 0 <= j < |calls| && j != i ==> calls[j].id != calls[i].id
    ensures var envs := BatchEnvs(cfg, calls, schedule);
            && i < |envs|
            && WithId(Untagged(Run(cfg, calls, schedule).value.trace), calls[i].id)
               == SingleTrace(cfg, calls[i], envs[i])
  {
    EveryInterleaving(cfg, calls, schedule);
    ParallelIsSequentialPerCall(cfg, calls, schedule);
    WithIdIsProjection(calls, Run(cfg, calls, schedule).value.trace, i);
  }

  // ----- The batch as the run machine uses it -----

  /** How a batch went: in sequential mode each call's environment, in parallel mode the
      schedule that completed it. */
  datatype BatchRun = Sequential(envs: seq<ToolEnv>) | Parallel(schedule: seq<Action>)

  predicate BatchCompletes(cfg: Config, calls: seq<ToolCall>, run: BatchRun) {
    match run
    case Sequential(envs) => |envs| == |calls|
    case Parallel(schedule) => Completes(cfg, calls, schedule)
  }

  function BatchResults(cfg: Config, calls: seq<ToolCall>, run: BatchRun): seq<ToolResultMessage>
    requires BatchCompletes(cfg, calls, run)
  {
    match run
    case Sequential(envs) => SingleResults(cfg, calls, envs)
    case Parallel(schedule) =>
      var tasks := Run(cfg, calls, schedule).value.tasks;
      seq(|tasks|, i requires 0 <= i < |tasks| => ResultMessage(tasks[i].call, tasks[i].phase.outcome))
  }

  function BatchTrace(cfg: Config, calls: seq<ToolCall>, run: BatchRun): seq<AgentEvent>
    requires BatchCompletes(cfg, calls, run)
  {
    match run
    case Sequential(envs) => SequentialTrace(cfg, calls, envs)
    case Parallel(schedule) => Untagged(Run(cfg, calls, schedule).value.trace)
  }

  lemma {:induction false} SequentialTraceIsToolEvents(cfg: Config, calls: seq<ToolCall>, envs: seq<ToolEnv>)
    requires |envs| == |calls|
    ensures forall e :: e in SequentialTrace(cfg, calls, envs) ==> IsToolEvent(e)
  {
    if calls != [] {
      var n := |calls| - 1;
      SequentialTraceIsToolEvents(cfg, calls[..n], envs[..n]);
    }
  }

  /** In either mode the results line up with the calls, index by index, and the batch
      sends nothing but tool events. */
  lemma BatchShape(cfg: Config, calls: seq<ToolCall>, run: BatchRun)
    requires BatchCompletes(cfg, calls, run)
    ensures |BatchResults(cfg, calls, run)| == |calls|
    ensures forall i :: 0 <= i < |calls| ==> BatchResults(cfg, calls, run)[i].toolCallId == calls[i].id
    ensures forall e :: e in BatchTrace(cfg, calls, run) ==> IsToolEvent(e)
  {
    match run {
      case Sequential(envs) => SequentialTraceIsToolEvents(cfg, calls, envs);
      case Parallel(schedule) => EveryInterleaving(cfg, calls, schedule);
    }
  }

  method SendAll(events: seq<AgentEvent>, log: EventLog)
    modifies log
    ensures log.trace == old(log.trace) + events
  {
    for e := 0 to |events|
      invariant log.trace == old(log.trace) + events[..e]
    {
      log.Send(events[e]);
      assert events[..e + 1] == events[..e] + [events[e]];
    }
    assert events[..|events|] == events;
  }

  lemma UntaggedSnoc(trace: seq<TaggedEvent>, task: nat, events: seq<AgentEvent>)
    ensures Untagged(trace + Tag(task, events)) == Untagged(trace) + events
  {
  }

  lemma RunStep(cfg: Config, calls: seq<ToolCall>, schedule: seq<Action>, k: nat)
    requires Run(cfg, calls, schedule).Some? && k < |schedule| && Run(cfg, calls, schedule[..k]).Some?
    ensures Step(cfg, Run(cfg, calls, schedule[..k]).value, schedule[k]).Some?
    ensures Run(cfg, calls, schedule[..k + 1]) == Step(cfg, Run(cfg, calls, schedule[..k]).value, schedule[k])
  {
    PrefixRuns(cfg, calls, schedule, k + 1);
    assert schedule[..k + 1][..k] == schedule[..k];
  }

  method PollTasks(cfg: Config, calls: seq<ToolCall>, schedule: seq<Action>, log: EventLog)
    returns (tasks: seq<Task>)
    requires Run(cfg, calls, schedule).Some?
    modifies log
    ensures tasks == Run(cfg, calls, schedule).value.tasks
    ensures log.trace == old(log.trace) + Untagged(Run(cfg, calls, schedule).value.trace)
  {
    tasks := seq(|calls|, i requires 0 <= i < |calls| => NewTask(calls[i]));
    ghost var trace: seq<TaggedEvent> := [];
    for k := 0 to |schedule|
      invariant Run(cfg, calls, schedule[..k]) == Some(Batch(tasks, trace))
      invariant log.trace == old(log.trace) + Untagged(trace)
    {
      RunStep(cfg, calls, schedule, k);
      var action := schedule[k];
      ghost var next := Step(cfg, Batch(tasks, trace), action).value;
      var step := StepTask(cfg, tasks[action.task], action).value;
      UntaggedSnoc(trace, action.task, step.events);
      Regroup(old(log.trace), Untagged(trace), step.events);
      tasks := tasks[action.task := step.next];
      trace := trace + Tag(action.task, step.events);
      assert Batch(tasks, trace) == next;
      SendAll(step.events, log);
    }
    assert schedule[..|schedule|] == schedule;
  }

  /** Parallel mode: all tasks are polled in whatever order the schedule says, and the
      results are joined in call order. */
  method ExecuteParallel(cfg: Config, calls: seq<ToolCall>, schedule: seq<Action>, log: EventLog)
    returns (results: seq<ToolResultMessage>)
    requires Completes(cfg, calls, schedule)
    modifies log
    ensures log.trace == old(log.trace) + BatchTrace(cfg, calls, Parallel(schedule))
    ensures results == BatchResults(cfg, calls, Parallel(schedule))
    ensures results == SingleResults(cfg, calls, BatchEnvs(cfg, calls, schedule))
  {
    var tasks := PollTasks(cfg, calls, schedule, log);
    ParallelIsSequentialPerCall(cfg, calls, schedule);
    results := [];
    for i := 0 to |tasks|
      invariant |results| == i
      invariant forall j :: 0 <= j < i ==> results[j] == ResultMessage(tasks[j].call, tasks[j].phase.outcome)
    {
      results := results + [ResultMessage(tasks[i].call, tasks[i].phase.outcome)];
    }
  }

  lemma {:induction false} PrefixRuns(cfg: Config, calls: seq<ToolCall>, schedule: seq<Action>, k: nat)
    requires Run(cfg, calls, schedule).Some? && k <= |schedule|
    ensures Run(cfg, calls, schedule[..k]).Some?
    decreases |schedule|
  {
    if k < |schedule| {
      PrefixRuns(cfg, calls, schedule[..|schedule| - 1], k);
      assert schedule[..|schedule| - 1][..k] == schedule[..k];
    } else {
      assert schedule[..k] == schedule;
    }
  }

  method ExecuteToolCalls(cfg: Config, calls: seq<ToolCall>, run: BatchRun, log: EventLog)
    returns (results: seq<ToolResultMessage>)
    requires BatchCompletes(cfg, calls, run)
    modifies log
    ensures log.trace == old(log.trace) + BatchTrace(cfg, calls, run)
    ensures results == BatchResults(cfg, calls, run)
  {
    match run {
      case Sequential(envs) => results := ExecuteSequential(cfg, calls, envs, log);
      case Parallel(schedule) => results := ExecuteParallel(cfg, calls, schedule, log);
    }
  }
}
