/** The interactive controller: one run at a time, an armed retry between runs, a queue of
    prompts, a per-turn compaction budget and the session log. `Step` says what each event
    does; `InteractiveController` is the code that does it. */
module Controller {
  import opened Protocol
  import opened RetryPolicy
  import opened CompactionGate
  import AgentRunRequests

  datatype ModelId = ModelId(provider: string, name: string)

  /** What the session log holds: a prompt, the output of one run, or the breadcrumb that an
      abandoned retry leaves. */
  datatype LogItem =
    | UserPrompt(text: string)
    | RunOutput(run: nat, messages: seq<Message>)
    | Breadcrumb(run: nat, model: ModelId, error: ProviderError)

  /** A prompt accepted while a run was active; `id` counts acceptances. */
  datatype QueuedPrompt = QueuedPrompt(id: nat, interrupt: bool, text: string)

  /** `serial` numbers the runs, `model` is the one the run was started with. */
  datatype CurrentRun = CurrentRun(
    cancelled: bool, alreadyCompacted: bool, attempt: nat, serial: nat, model: ModelId)

  datatype PendingRetry =
    | Idle
    | Armed(attempt: nat, alreadyCompacted: bool, error: ProviderError, model: ModelId, serial: nat)

  datatype Status = Serving | Stopped | Crashed

  /** A run: the model it was started with, and for which prompt (they count from 1). */
  datatype RunStart = RunStart(model: ModelId, turn: nat)

  /** What has happened so far, for stating properties; no branch looks at it. */
  datatype History = History(
    turnMax: nat,             // the budget this turn started with
    automatic: nat,           // automatic compactions this turn
    reactive: nat,            // of which reactive
    turnRuns: nat,            // runs started for this prompt
    drained: seq<QueuedPrompt>,   // prompts started from the queue, in order
    prompts: seq<string>,     // every prompt logged
    starts: seq<RunStart>,    // every run started
    outcomes: seq<LogItem>,   // every outcome persisted
    panics: nat,              // runs that panicked
    lost: nat,                // prompts of this log that nothing will answer
    strays: nat)              // outcomes of this log that answer no prompt

  datatype State = State(
    run: Option<CurrentRun>,
    retry: PendingRetry,
    queue: seq<QueuedPrompt>,
    quitting: bool,
    exitAfterRun: bool,
    runs: nat,
    accepted: nat,
    budget: nat,
    maxPerTurn: nat,
    model: ModelId,
    log: seq<LogItem>,
    status: Status,
    hist: History)

  // ----- Events -----

  /** Compacting before a prompt: nothing to do, done, or the summarizer failed (fatal). */
  datatype PrePrompt = NotCompacted | CompactedFirst | SummaryFailed

  datatype Reactive = Reduced | NotReduced | RecoveryFailed

  /** How the agent task ended. */
  datatype RunEnd = Finished(output: seq<Message>, error: Option<ProviderError>) | Panicked

  datatype Outcome = Applied | UserError | Fatal

  datatype UiAction =
    | SubmitPrompt(text: string)
    | QueuePrompt(text: string)
    | AbortAndQueuePrompt(text: string)
    | Abort
    | Quit
    | ChangeSettings(outcome: Outcome, model: ModelId, maxPerTurn: nat)
    | CompactNow(failed: bool)
    | MoveSession(outcome: Outcome, log: seq<LogItem>, model: ModelId)
    | ListSessions(failed: bool)
    | Query

  datatype Event =
    | Ui(action: UiAction, pre: PrePrompt)
    | UiClosed
    | RunEnded(end: RunEnd, reactive: Reactive, pre: PrePrompt)
    | DeadlineFires
    | GateConsulted(compacted: bool)

  // ----- What each operation does -----

  function AbortPendingRetry(s: State): State {
    if s.retry.Idle? then s
    else
      var item := Breadcrumb(s.retry.serial, s.retry.model, s.retry.error);
      s.(retry := Idle, log := s.log + [item], hist := s.hist.(outcomes := s.hist.outcomes + [item]))
  }

  function SpawnRun(s: State, alreadyCompacted: bool, attempt: nat): State {
    s.(run := Some(CurrentRun(false, alreadyCompacted, attempt, s.runs, s.model)),
       runs := s.runs + 1,
       hist := s.hist.(
         starts := s.hist.starts + [RunStart(s.model, |s.hist.prompts|)], turnRuns := s.hist.turnRuns + 1))
  }

  /** Open a turn: the budget is reset, the prompt is logged. */
  function OpenTurn(s: State, text: string): State {
    s.(budget := s.maxPerTurn,
       log := s.log + [UserPrompt(text)],
       hist := s.hist.(
         turnMax := s.maxPerTurn, automatic := 0, reactive := 0, turnRuns := 0, prompts := s.hist.prompts + [text]))
  }

  function SpendBudget(s: State): State {
    s.(budget := SaturatingSub(s.budget, 1), hist := s.hist.(automatic := s.hist.automatic + 1))
  }

  function StartPromptRun(s: State, text: string, pre: PrePrompt): State {
    var turn := OpenTurn(AbortPendingRetry(s), text);
    match pre
    case NotCompacted => SpawnRun(turn, false, 0)
    case CompactedFirst => SpawnRun(SpendBudget(turn), false, 0)
    case SummaryFailed => turn.(status := Crashed)
  }

  function DrainQueue(s: State, pre: PrePrompt): State {
    if s.queue == [] then s
    else
      StartPromptRun(
        s.(queue := s.queue[1..], hist := s.hist.(drained := s.hist.drained + [s.queue[0]])), s.queue[0].text, pre)
  }

  function FinishRun(s: State, serial: nat, output: seq<Message>): State {
    var item := RunOutput(serial, output);
    s.(log := s.log + [item], hist := s.hist.(outcomes := s.hist.outcomes + [item]))
  }

  function AfterCompaction(s: State, run: CurrentRun): State {
    var spent := SpendBudget(s);
    SpawnRun(spent.(hist := spent.hist.(reactive := spent.hist.reactive + 1)), true, run.attempt)
  }

  /** Settle the run that just ended: persist it, retry it, or compact and continue. */
  function SettleRun(maxRetries: nat, s: State, run: CurrentRun, end: RunEnd, reactive: Reactive): State {
    match end
    case Panicked => s.(hist := s.hist.(lost := s.hist.lost + 1, panics := s.hist.panics + 1))
    case Finished(output, None) => FinishRun(s, run.serial, output)
    case Finished(output, Some(error)) =>
      match Decide(maxRetries, error, run.attempt, run.alreadyCompacted, s.budget)
      case Compact => if reactive.Reduced? then AfterCompaction(s, run) else FinishRun(s, run.serial, output)
      case Retry(attempt) =>
        if s.queue != [] then FinishRun(s, run.serial, output)
        else s.(retry := Armed(attempt, run.alreadyCompacted, error, s.model, run.serial))
      case GiveUp(_) => FinishRun(s, run.serial, output)
  }

  function OnRunEnded(maxRetries: nat, s: State, end: RunEnd, reactive: Reactive, pre: PrePrompt): State
    requires s.run.Some?
  {
    AfterSettling(SettleRun(maxRetries, s.(run := None), s.run.value, end, reactive), pre)
  }

  /** With nothing in flight the next queued prompt starts; a one-shot controller quits. */
  function AfterSettling(s: State, pre: PrePrompt): State {
    var drained := if s.run.None? && s.retry.Idle? then DrainQueue(s, pre) else s;
    if drained.exitAfterRun && drained.run.None? && drained.retry.Idle? && drained.queue == []
    then drained.(quitting := true) else drained
  }

  function CancelRun(s: State): State {
    if s.run.Some? then s.(run := Some(s.run.value.(cancelled := true))) else s
  }

  function Accept(s: State, interrupt: bool, text: string): State {
    var prompt := QueuedPrompt(s.accepted, interrupt, text);
    s.(queue := if interrupt then [prompt] + s.queue else s.queue + [prompt], accepted := s.accepted + 1)
  }

  function Gaps(log: seq<LogItem>): nat {
    if |log| < 2 then 0
    else
      var n := |log| - 1;
      Gaps(log[..n]) + if log[n].UserPrompt? && log[n - 1].UserPrompt? then 1 else 0
  }

  /** The last prompt has no outcome yet. */
  predicate Open(log: seq<LogItem>) {
    log != [] && log[|log| - 1].UserPrompt?
  }

  function Strays(log: seq<LogItem>): nat {
    if log == [] then 0
    else
      var n := |log| - 1;
      Strays(log[..n]) + if !log[n].UserPrompt? && !Open(log[..n]) then 1 else 0
  }

  /** Prompts without an outcome of their own. */
  function Unanswered(log: seq<LogItem>): nat {
    Gaps(log) + if Open(log) then 1 else 0
  }

  /** What a log owes once it is moved to: a breadcrumb that lands in it answers its last
      prompt if that is open, and no prompt of its own otherwise. */
  function LostIn(log: seq<LogItem>, armed: bool): nat {
    Unanswered(log) - if armed && Open(log) then 1 else 0
  }

  function StraysIn(log: seq<LogItem>, armed: bool): nat {
    Strays(log) + if armed && !Open(log) then 1 else 0
  }

  /** The session is replaced first; the breadcrumb of an armed retry lands in the new one. */
  function Move(s: State, log: seq<LogItem>, model: ModelId): State {
    var moved := AbortPendingRetry(s.(log := log, model := model));
    moved.(hist := moved.hist.(lost := LostIn(log, s.retry.Armed?), strays := StraysIn(log, s.retry.Armed?)))
  }


  function HandleAction(s: State, action: UiAction, pre: PrePrompt): State {
    match action
    case SubmitPrompt(text) => if s.run.Some? then s else StartPromptRun(s, text, pre)
    case QueuePrompt(text) => if s.run.Some? then Accept(s, false, text) else StartPromptRun(s, text, pre)
    case AbortAndQueuePrompt(text) =>
      if s.run.Some? then CancelRun(Accept(s, true, text)) else StartPromptRun(s, text, pre)
    case Abort => if s.run.Some? then CancelRun(s) else AbortPendingRetry(s)
    case Quit => AbortPendingRetry(CancelRun(s.(quitting := true)))
    case ChangeSettings(outcome, model, maxPerTurn) =>
      // On a fatal error the arguments say how far the change had come.
      if s.run.Some? || outcome.UserError? then s
      else if outcome.Fatal? then s.(model := model, maxPerTurn := maxPerTurn, status := Crashed)
      else AbortPendingRetry(s.(model := model, maxPerTurn := maxPerTurn))
    case CompactNow(failed) =>
      if s.run.Some? then s else if failed then s.(status := Crashed) else AbortPendingRetry(s)
    case MoveSession(outcome, log, model) =>
      if s.run.Some? || outcome.UserError? then s
      else if outcome.Fatal? then s.(status := Crashed)
      else Move(s, log, model)
    case ListSessions(failed) => if failed then s.(status := Crashed) else s
    case Query => s
  }

  function OnUiClosed(s: State): State {
    if s.run.Some? then CancelRun(s.(quitting := true))
    else if s.retry.Armed? then AbortPendingRetry(s).(quitting := true)
    else s.(status := Stopped)
  }

  function OnDeadline(s: State): State
    requires s.retry.Armed?
  {
    SpawnRun(s.(retry := Idle), s.retry.alreadyCompacted, s.retry.attempt)
  }

  /** The end of a loop iteration: stop once quitting with nothing left in flight. */
  function LoopTail(s: State): State {
    if s.status.Serving? && s.quitting && s.run.None? && s.retry.Idle? then s.(status := Stopped) else s
  }

  /** Every run output in the log is what a finished run generates. */
  predicate WellFormedLog(log: seq<LogItem>) {
    forall i :: 0 <= i < |log| && log[i].RunOutput? ==> AgentRunRequests.AgentOutput(log[i].messages)
  }

  /** Which events can happen: a run ends only if there is one, a deadline fires only if a
      retry is armed and nothing runs, and the gate compacts only with budget left. */
  predicate Enabled(s: State, event: Event) {
    && s.status.Serving?
    && match event
       case Ui(action, _) => action.MoveSession? ==> WellFormedLog(action.log)
       case UiClosed => true
       case RunEnded(end, _, _) =>
         s.run.Some? && (end.Finished? ==> AgentRunRequests.AgentOutput(end.output))
       case DeadlineFires => s.run.None? && s.retry.Armed?
       case GateConsulted(compacted) => s.run.Some? && (compacted ==> s.budget > 0)
  }

  function Handle(maxRetries: nat, s: State, event: Event): State
    requires Enabled(s, event)
  {
    match event
    case Ui(action, pre) => HandleAction(s, action, pre)
    case UiClosed => OnUiClosed(s)
    case RunEnded(end, reactive, pre) => OnRunEnded(maxRetries, s, end, reactive, pre)
    case DeadlineFires => OnDeadline(s)
    case GateConsulted(compacted) => if compacted then SpendBudget(s) else s
  }

  function Step(maxRetries: nat, s: State, event: Event): State
    requires Enabled(s, event)
  {
    LoopTail(Handle(maxRetries, s, event))
  }

  function Initial(exitAfterRun: bool, maxPerTurn: nat, model: ModelId, log: seq<LogItem>): State {
    State(None, Idle, [], false, exitAfterRun, 0, 0, maxPerTurn, maxPerTurn, model, log, Serving,
          History(maxPerTurn, 0, 0, 0, [], [], [], [], 0, Unanswered(log), Strays(log)))
  }

  /** The controller after these events; `None` if one of them could not have happened. */
  function After(maxRetries: nat, s: State, events: seq<Event>): Option<State>
    decreases |events|
  {
    if events == [] then Some(s)
    else
      match After(maxRetries, s, events[..|events| - 1])
      case None => None
      case Some(before) =>
        if Enabled(before, events[|events| - 1]) then Some(Step(maxRetries, before, events[|events| - 1])) else None
  }

  // ----- The code -----

  class InteractiveController {
    const maxRetries: nat
    const budget: Budget
    var run: Option<CurrentRun>
    var retry: PendingRetry
    var queue: seq<QueuedPrompt>
    var quitting: bool
    var exitAfterRun: bool
    var runs: nat
    var accepted: nat
    var maxPerTurn: nat
    var model: ModelId
    var log: seq<LogItem>
    var status: Status
    ghost var hist: History

    ghost function Now(): State
      reads this, budget
    {
      State(run, retry, queue, quitting, exitAfterRun, runs, accepted, budget.remaining, maxPerTurn, model, log,
            status, hist)
    }

    constructor (maxRetries: nat, exitAfterRun: bool, maxPerTurn: nat, model: ModelId, log: seq<LogItem>)
      ensures this.maxRetries == maxRetries && fresh(budget)
      ensures Now() == Initial(exitAfterRun, maxPerTurn, model, log)
    {
      this.maxRetries := maxRetries;
      budget := new Budget(maxPerTurn);
      run, retry, queue, quitting := None, Idle, [], false;
      runs, accepted := 0, 0;
      this.exitAfterRun, this.maxPerTurn, this.model, this.log := exitAfterRun, maxPerTurn, model, log;
      status := Serving;
      hist := History(maxPerTurn, 0, 0, 0, [], [], [], [], 0, Unanswered(log), Strays(log));
    }

    /** Finalize an armed retry as a failed turn: log its breadcrumb and forget it. */
    method CancelRetry()
      modifies this
      ensures Now() == AbortPendingRetry(old(Now()))
    {
      match retry {
        case Idle =>
        case Armed(_, _, error, failedModel, serial) =>
          retry := Idle;
          log := log + [Breadcrumb(serial, failedModel, error)];
          hist := hist.(outcomes := hist.outcomes + [Breadcrumb(serial, failedModel, error)]);
      }
    }

    method Spawn(alreadyCompacted: bool, attempt: nat)
      modifies this
      ensures Now() == SpawnRun(old(Now()), alreadyCompacted, attempt)
    {
      run := Some(CurrentRun(false, alreadyCompacted, attempt, runs, model));
      runs := runs + 1;
      hist := hist.(starts := hist.starts + [RunStart(model, |hist.prompts|)], turnRuns := hist.turnRuns + 1);
    }

    method Spend()
      modifies this, budget
      ensures Now() == SpendBudget(old(Now()))
    {
      budget.Spend();
      hist := hist.(automatic := hist.automatic + 1);
    }

    method StartPrompt(text: string, pre: PrePrompt)
      modifies this, budget
      ensures Now() == StartPromptRun(old(Now()), text, pre)
    {
      if retry.Armed? {
        CancelRetry();
      }
      budget.remaining := maxPerTurn;
      log := log + [UserPrompt(text)];
      hist := hist.(
        turnMax := maxPerTurn, automatic := 0, reactive := 0, turnRuns := 0, prompts := hist.prompts + [text]);
      if pre.SummaryFailed? {
        status := Crashed;
        return;
      }
      if pre.CompactedFirst? {
        Spend();
      }
      Spawn(false, 0);
    }

    method TryDrainQueuedPrompt(pre: PrePrompt)
      modifies this, budget
      ensures Now() == DrainQueue(old(Now()), pre)
    {
      if queue == [] {
        return;
      }
      var next := queue[0];
      queue := queue[1..];
      hist := hist.(drained := hist.drained + [next]);
      StartPrompt(next.text, pre);
    }

    method PersistRun(serial: nat, output: seq<Message>)
      modifies this
      ensures Now() == FinishRun(old(Now()), serial, output)
    {
      log := log + [RunOutput(serial, output)];
      hist := hist.(outcomes := hist.outcomes + [RunOutput(serial, output)]);
    }

    method Settle(ended: CurrentRun, end: RunEnd, reactive: Reactive)
      requires run.None?
      modifies this, budget
      ensures Now() == SettleRun(maxRetries, old(Now()), ended, end, reactive)
    {
      match end {
        case Panicked => hist := hist.(lost := hist.lost + 1, panics := hist.panics + 1);
        case Finished(output, None) => PersistRun(ended.serial, output);
        case Finished(output, Some(error)) =>
          match Decide(maxRetries, error, ended.attempt, ended.alreadyCompacted, budget.remaining) {
            case Compact =>
              if reactive.Reduced? {
                Spend();
                hist := hist.(reactive := hist.reactive + 1);
                Spawn(true, ended.attempt);
              } else {
                PersistRun(ended.serial, output);
              }
            case Retry(attempt) =>
              if queue != [] {
                PersistRun(ended.serial, output);
              } else {
                retry := Armed(attempt, ended.alreadyCompacted, error, model, ended.serial);
              }
            case GiveUp(_) => PersistRun(ended.serial, output);
          }
      }
    }

    method RunCompleted(end: RunEnd, reactive: Reactive, pre: PrePrompt)
      requires run.Some?
      modifies this, budget
      ensures Now() == OnRunEnded(maxRetries, old(Now()), end, reactive, pre)
    {
      var ended := run.value;
      run := None;
      Settle(ended, end, reactive);
      ContinueOrExit(pre);
    }

    method ContinueOrExit(pre: PrePrompt)
      modifies this, budget
      ensures Now() == AfterSettling(old(Now()), pre)
    {
      if run.None? && retry.Idle? {
        TryDrainQueuedPrompt(pre);
      }
      if exitAfterRun && run.None? && retry.Idle? && queue == [] {
        quitting := true;
      }
    }

    method CancelCurrent()
      modifies this
      ensures Now() == CancelRun(old(Now()))
    {
      if run.Some? {
        run := Some(run.value.(cancelled := true));
      }
    }

    method Enqueue(interrupt: bool, text: string)
      modifies this
      ensures Now() == Accept(old(Now()), interrupt, text)
    {
      var prompt := QueuedPrompt(accepted, interrupt, text);
      queue := if interrupt then [prompt] + queue else queue + [prompt];
      accepted := accepted + 1;
    }

    method ReplaceSettings(outcome: Outcome, newModel: ModelId, newMax: nat)
      requires run.None?
      modifies this
      ensures Now() == HandleAction(old(Now()), ChangeSettings(outcome, newModel, newMax), NotCompacted)
    {
      match outcome {
        case Applied =>
          model, maxPerTurn := newModel, newMax;
          CancelRetry();
        case UserError =>
        case Fatal => model, maxPerTurn, status := newModel, newMax, Crashed;
      }
    }

    method ReplaceSession(outcome: Outcome, newLog: seq<LogItem>, newModel: ModelId)
      requires run.None?
      modifies this
      ensures Now() == HandleAction(old(Now()), MoveSession(outcome, newLog, newModel), NotCompacted)
    {
      match outcome {
        case Applied =>
          ghost var armed := retry.Armed?;
          log, model := newLog, newModel;
          CancelRetry();
          hist := hist.(lost := LostIn(newLog, armed), strays := StraysIn(newLog, armed));
        case UserError =>
        case Fatal => status := Crashed;
      }
    }

    method TryHandleAction(action: UiAction, pre: PrePrompt)
      modifies this, budget
      ensures Now() == HandleAction(old(Now()), action, pre)
    {
      match action {
        case SubmitPrompt(text) =>
          if run.None? {
            StartPrompt(text, pre);
          }
        case QueuePrompt(text) =>
          if run.Some? {
            Enqueue(false, text);
          } else {
            StartPrompt(text, pre);
          }
        case AbortAndQueuePrompt(text) =>
          if run.Some? {
            Enqueue(true, text);
            CancelCurrent();
          } else {
            StartPrompt(text, pre);
          }
        case Abort =>
          if run.Some? {
            CancelCurrent();
          } else {
            CancelRetry();
          }
        case Quit =>
          quitting := true;
          CancelCurrent();
          CancelRetry();
        case ChangeSettings(outcome, newModel, newMax) =>
          if run.None? {
            ReplaceSettings(outcome, newModel, newMax);
          }
        case CompactNow(failed) =>
          if run.None? {
            if failed {
              status := Crashed;
            } else {
              CancelRetry();
            }
          }
        case MoveSession(outcome, newLog, newModel) =>
          if run.None? {
            ReplaceSession(outcome, newLog, newModel);
          }
        case ListSessions(failed) =>
          if failed {
            status := Crashed;
          }
        case Query =>
      }
    }

    /** One iteration of the main loop: dispatch the event, then see whether to stop. */
    method Iterate(event: Event)
      requires Enabled(Now(), event)
      modifies this, budget
      ensures Now() == Step(maxRetries, old(Now()), event)
    {
      match event {
        case Ui(action, pre) => TryHandleAction(action, pre);
        case UiClosed =>
          if run.Some? {
            quitting := true;
            CancelCurrent();
          } else if retry.Armed? {
            CancelRetry();
            quitting := true;
          } else {
            status := Stopped;
          }
        case RunEnded(end, reactive, pre) => RunCompleted(end, reactive, pre);
        case DeadlineFires =>
          var armed := retry;
          retry := Idle;
          Spawn(armed.alreadyCompacted, armed.attempt);
        case GateConsulted(compacted) =>
          if compacted {
            Spend();
          }
      }
      if status.Serving? && quitting && run.None? && retry.Idle? {
        status := Stopped;
      }
    }

    /** The main loop over the events it meets. */
    method Run(events: seq<Event>)
      requires After(maxRetries, Now(), events).Some?
      modifies this, budget
      ensures Some(Now()) == After(maxRetries, old(Now()), events)
    {
      ghost var start := Now();
      for i := 0 to |events|
        invariant Some(Now()) == After(maxRetries, start, events[..i])
      {
        PrefixReachable(maxRetries, start, events, i + 1);
        assert events[..i + 1][..i] == events[..i];
        Iterate(events[i]);
      }
      assert events[..|events|] == events;
    }
  }

  lemma {:induction false} PrefixReachable(maxRetries: nat, s: State, events: seq<Event>, k: nat)
    requires After(maxRetries, s, events).Some? && k <= |events|
    ensures After(maxRetries, s, events[..k]).Some?
    decreases |events|
  {
    if k < |events| {
      PrefixReachable(maxRetries, s, events[..|events| - 1], k);
      assert events[..|events| - 1][..k] == events[..k];
    } else {
      assert events[..k] == events;
    }
  }
}
