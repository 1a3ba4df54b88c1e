/** What each tool call of a batch is answered with, and what its listener hears. */
module ToolOutcomes {
  import opened Protocol
  import opened ToolBatch

  // ----- Which calls run -----

  /** The text of the first check that turns the call down: the tool is unknown, its arguments
      are invalid, or the hook blocks it. */
  predicate TurnedDownWith(cfg: Config, call: ToolCall, env: ToolEnv, text: string) {
    if !cfg.known(call.name) then text == cfg.notFound(call.name)
    else if cfg.invalid(call).Some? then text == cfg.invalid(call).value
    else cfg.beforeHook && env.block == Some(text)
  }

  predicate Runs(cfg: Config, call: ToolCall, env: ToolEnv) {
    cfg.known(call.name) && cfg.invalid(call).None? && !(cfg.beforeHook && env.block.Some?)
  }

  lemma RunsUnlessTurnedDown(cfg: Config, call: ToolCall, env: ToolEnv)
    ensures Runs(cfg, call, env) <==> !exists text :: TurnedDownWith(cfg, call, env, text)
    ensures Runs(cfg, call, env) <==> Refusal(cfg, call, env.block).None?
  {
    if !Runs(cfg, call, env) {
      assert TurnedDownWith(cfg, call, env, Refusal(cfg, call, env.block).value);
    }
  }

  // ----- What a call is answered with -----

  /** What the after-hook says, if there is one. */
  function Overriding(cfg: Config, env: ToolEnv): Override {
    if cfg.afterHook && env.override.Some? then env.override.value else Override(None, None, None)
  }

  /** The details before the invocation is added to them: the hook's, the tool's, or the error's. */
  function OwnDetails(cfg: Config, env: ToolEnv): Json {
    match Overriding(cfg, env).details
    case Some(details) => details
    case None =>
      match env.execution
      case Executed(result) => result.details
      case ExecutionError(message) => JObject(map[ErrorKey := JString(message)])
  }

  /** `full` keeps every field of `own` (which counts as empty if it is no object), and gains
      the tool's name and the call's path and command only where they are absent. */
  ghost predicate FillsIn(own: Json, call: ToolCall, full: Json) {
    && full.JObject?
    && (forall key :: key in full.fields <==>
          || (own.JObject? && key in own.fields)
          || key == ToolNameKey
          || ((key == PathKey || key == CommandKey) && call.arguments.JObject? && key in call.arguments.fields))
    && (forall key :: key in full.fields ==>
          full.fields[key] ==
            if own.JObject? && key in own.fields then own.fields[key]
            else if key == ToolNameKey then JString(call.name)
            else call.arguments.fields[key])
  }

  /** The whole answer to one call. */
  ghost predicate Answers(cfg: Config, call: ToolCall, env: ToolEnv, message: ToolResultMessage) {
    && message.toolCallId == call.id && message.toolName == call.name
    && (Runs(cfg, call, env) ==>
          && message.isError ==
               (match Overriding(cfg, env).isError
                case Some(flag) => flag
                case None => env.execution.ExecutionError?)
          && message.content ==
               (match Overriding(cfg, env).content
                case Some(content) => content
                case None =>
                  match env.execution
                  case Executed(result) => result.content
                  case ExecutionError(text) => [Text(text)])
          && FillsIn(OwnDetails(cfg, env), call, message.details))
    && (!Runs(cfg, call, env) ==>
          && message.isError
          && message.content != [] && message.content[0].Text?
          && TurnedDownWith(cfg, call, env, message.content[0].text)
          && message.content == [Text(message.content[0].text)]
          && message.details == JObject(map[ErrorKey := JString(message.content[0].text)]))
  }

  lemma AttachFillsIn(call: ToolCall, own: Json)
    ensures FillsIn(own, call, AttachDetails(call, own))
  {
  }

  /** A call on its own is answered so. */
  lemma SingleCallIsAnswered(cfg: Config, call: ToolCall, env: ToolEnv)
    ensures Answers(cfg, call, env, SingleResult(cfg, call, env))
  {
    RunsUnlessTurnedDown(cfg, call, env);
    AttachFillsIn(call, OwnDetails(cfg, env));
  }

  // ----- What a listener hears -----

  /** Start with the arguments, the updates if the tool runs, and an end that says what the
      result message says. */
  lemma ListenerHearsTheAnswer(cfg: Config, call: ToolCall, env: ToolEnv)
    ensures var message, trace := SingleResult(cfg, call, env), SingleTrace(cfg, call, env);
            var updates := if Runs(cfg, call, env) then env.updates else [];
            && |trace| == |updates| + 2
            && trace[0] == ToolExecStart(call.id, call.name, call.arguments)
            && (forall i :: 0 <= i < |updates| ==> trace[i + 1] == ToolExecUpdate(call.id, updates[i]))
            && trace[|updates| + 1]
               == ToolExecEnd(call.id, ToolResult(message.content, message.details), message.isError)
  {
    RunsUnlessTurnedDown(cfg, call, env);
  }

  // ----- Whole batches -----

  /** What each call of a batch met, in either mode. */
  function EnvsOf(cfg: Config, calls: seq<ToolCall>, run: BatchRun): (envs: seq<ToolEnv>)
    requires BatchCompletes(cfg, calls, run)
    ensures |envs| == |calls|
  {
    match run
    case Sequential(envs) => envs
    case Parallel(schedule) => BatchEnvs(cfg, calls, schedule)
  }

  /** What the hooks and the tool of task `i` did in a schedule. */
  datatype Encounter = Encounter(
    blocked: Option<string>, sent: seq<ToolResult>, execution: Option<Execution>, override: Option<Override>)

  function Met(schedule: seq<Action>, i: nat): Encounter {
    if schedule == [] then Encounter(None, [], None, None)
    else
      var before, action := Met(schedule[..|schedule| - 1], i), schedule[|schedule| - 1];
      if action.task != i then before
      else
        match action
        case HookBlocks(_, reason) => before.(blocked := Some(reason))
        case ToolUpdates(_, partial) => before.(sent := before.sent + [partial])
        case ToolReturns(_, execution) => before.(execution := Some(execution))
        case HookOverrides(_, override) => before.(override := override)
        case _ => before
  }

  /** The same as the environment of a call on its own; a tool that was not run returned nothing. */
  function AsEnv(met: Encounter): ToolEnv {
    ToolEnv(
      met.blocked, met.sent, if met.execution.Some? then met.execution.value else ExecutionError(""), met.override)
  }

  lemma StepMeets(cfg: Config, task: Task, action: Action)
    requires StepTask(cfg, task, action).Some?
    ensures var next := StepTask(cfg, task, action).value.next;
            && next.blocked == (if action.HookBlocks? then Some(action.reason) else task.blocked)
            && next.sent == (if action.ToolUpdates? then task.sent + [action.partial] else task.sent)
            && next.execution == (if action.ToolReturns? then Some(action.execution) else task.execution)
            && next.override == (if action.HookOverrides? then action.override else task.override)
  {
  }

  /** Each call meets exactly what its own hooks and tool did in the schedule. */
  lemma {:induction false} EachCallMeetsItsOwn(cfg: Config, calls: seq<ToolCall>, schedule: seq<Action>, i: nat)
    requires Run(cfg, calls, schedule).Some? && i < |calls|
    ensures |Run(cfg, calls, schedule).value.tasks| == |calls|
    ensures var task := Run(cfg, calls, schedule).value.tasks[i];
            Met(schedule, i) == Encounter(task.blocked, task.sent, task.execution, task.override)
    decreases |schedule|
  {
    if schedule != [] {
      var n := |schedule| - 1;
      EachCallMeetsItsOwn(cfg, calls, schedule[..n], i);
      StepMeets(cfg, Run(cfg, calls, schedule[..n]).value.tasks[schedule[n].task], schedule[n]);
    }
  }

  /** At most 16 partial results of a tool are ever waiting for its forwarder. */
  lemma ChannelIsBounded(cfg: Config, calls: seq<ToolCall>, schedule: seq<Action>, i: nat)
    requires Run(cfg, calls, schedule).Some? && i < |calls|
    ensures |Run(cfg, calls, schedule).value.tasks| == |calls|
    ensures |Run(cfg, calls, schedule).value.tasks[i].queue| <= 16
  {
    EveryInterleaving(cfg, calls, schedule);
  }

  /** In both modes, under every schedule, each call is answered in its place. */
  lemma EveryCallIsAnswered(cfg: Config, calls: seq<ToolCall>, run: BatchRun, i: nat)
    requires BatchCompletes(cfg, calls, run) && i < |calls|
    ensures |BatchResults(cfg, calls, run)| == |calls|
    ensures Answers(cfg, calls[i], EnvsOf(cfg, calls, run)[i], BatchResults(cfg, calls, run)[i])
    ensures run.Parallel? ==> EnvsOf(cfg, calls, run)[i] == AsEnv(Met(run.schedule, i))
  {
    BatchShape(cfg, calls, run);
    SingleCallIsAnswered(cfg, calls[i], EnvsOf(cfg, calls, run)[i]);
    if run.Parallel? {
      ParallelIsSequentialPerCall(cfg, calls, run.schedule);
      EachCallMeetsItsOwn(cfg, calls, run.schedule, i);
    }
  }
}
