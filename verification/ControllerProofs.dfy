/** What holds in every state the controller can reach, and why it always comes to rest. */
module ControllerProofs {
  import opened Protocol
  import opened RetryPolicy
  import opened CompactionGate
  import opened Controller
  import AgentRunRequests

  predicate Busy(s: State) {
    s.run.Some? || s.retry.Armed?
  }

  function Count(flag: bool): nat {
    if flag then 1 else 0
  }

  // ----- The invariant, part by part -----

  /** The log: a prompt is waiting exactly while something is in flight for it, apart from
      the prompts that were lost. */
  ghost predicate LogOk(log: seq<LogItem>, busy: bool, lost: nat, strays: nat) {
    && (busy ==> Open(log))
    && Unanswered(log) == lost + Count(busy)
    && Strays(log) == strays
    && WellFormedLog(log)
  }

  ghost predicate BudgetOk(s: State) {
    && s.budget == SaturatingSub(s.hist.turnMax, s.hist.automatic)
    && s.hist.automatic <= (if s.hist.turnMax == 0 then 1 else s.hist.turnMax)
    && s.hist.reactive <= s.hist.automatic
    && s.hist.reactive <= 1
    && (s.run.Some? ==> s.hist.reactive == Count(s.run.value.alreadyCompacted))
    && (s.retry.Armed? ==> s.hist.reactive == Count(s.retry.alreadyCompacted))
  }

  ghost predicate RunsOk(maxRetries: nat, s: State) {
    && s.hist.turnRuns <= maxRetries + 2
    && (s.run.Some? ==>
          && s.run.value.attempt <= maxRetries
          && s.hist.turnRuns == 1 + s.run.value.attempt + Count(s.run.value.alreadyCompacted))
    && (s.retry.Armed? ==>
          && 1 <= s.retry.attempt <= maxRetries
          && s.hist.turnRuns == s.retry.attempt + Count(s.retry.alreadyCompacted))
  }

  function RunOf(item: LogItem): int {
    match item
    case UserPrompt(_) => -1
    case RunOutput(run, _) => run
    case Breadcrumb(run, _, _) => run
  }

  /** Each outcome belongs to a settled run of a settled prompt, of its own, and a breadcrumb
      names that run's model. */
  ghost predicate OutcomesOk(outcomes: seq<LogItem>, starts: seq<RunStart>, settled: int, settledTurns: int) {
    && settled <= |starts|
    && (forall i :: 0 <= i < |outcomes| ==>
          0 <= RunOf(outcomes[i]) < settled && 1 <= starts[RunOf(outcomes[i])].turn <= settledTurns)
    && (forall i, j :: 0 <= i < j < |outcomes| ==>
          RunOf(outcomes[i]) < RunOf(outcomes[j])
          && starts[RunOf(outcomes[i])].turn < starts[RunOf(outcomes[j])].turn)
    && (forall i :: 0 <= i < |outcomes| && outcomes[i].Breadcrumb? ==>
          outcomes[i].model == starts[outcomes[i].run].model)
  }

  /** What is in flight belongs to the last run, and that to the last prompt. */
  ghost predicate InFlightOk(s: State) {
    && s.runs == |s.hist.starts|
    && |s.hist.prompts| == |s.hist.outcomes| + s.hist.panics + Count(Busy(s))
    && (Busy(s) ==> s.runs > 0 && s.hist.starts[s.runs - 1].turn == |s.hist.prompts|)
    && (s.run.Some? ==>
          s.run.value.serial == s.runs - 1 && s.run.value.model == s.hist.starts[s.runs - 1].model == s.model)
    && (s.retry.Armed? ==> s.retry.serial == s.runs - 1 && s.retry.model == s.hist.starts[s.runs - 1].model)
  }

  function PromptIds(prompts: seq<QueuedPrompt>): (ids: seq<nat>)
    ensures |ids| == |prompts|
  {
    seq(|prompts|, i requires 0 <= i < |prompts| => prompts[i].id)
  }

  function UpTo(n: nat): (ids: seq<nat>)
    ensures |ids| == n
  {
    seq(n, i => i)
  }

  /** Interrupts come first, latest ahead; then follow-ups, earliest ahead. */
  ghost predicate Ordered(queue: seq<QueuedPrompt>) {
    forall i, j :: 0 <= i < j < |queue| ==> Precedes(queue[i], queue[j])
  }

  predicate Precedes(a: QueuedPrompt, b: QueuedPrompt) {
    if a.interrupt then b.interrupt ==> a.id > b.id else !b.interrupt && a.id < b.id
  }

  /** Follow-ups have been started, and will be, in the order they were accepted. */
  ghost predicate InTurn(drained: seq<QueuedPrompt>, queue: seq<QueuedPrompt>) {
    && (forall i, j :: 0 <= i < j < |drained| && !drained[i].interrupt && !drained[j].interrupt
          ==> drained[i].id < drained[j].id)
    && (forall i, j :: 0 <= i < |drained| && 0 <= j < |queue| && !drained[i].interrupt && !queue[j].interrupt
          ==> drained[i].id < queue[j].id)
  }

  /** Every accepted prompt is in the queue or was started, once. */
  ghost predicate Conserved(drained: seq<QueuedPrompt>, queue: seq<QueuedPrompt>, accepted: nat) {
    multiset(PromptIds(drained)) + multiset(PromptIds(queue)) == multiset(UpTo(accepted))
  }

  ghost predicate Below(prompts: seq<QueuedPrompt>, n: nat) {
    forall i :: 0 <= i < |prompts| ==> prompts[i].id < n
  }

  ghost predicate QueueOk(drained: seq<QueuedPrompt>, queue: seq<QueuedPrompt>, accepted: nat) {
    && Conserved(drained, queue, accepted)
    && Below(queue, accepted) && Below(drained, accepted)
    && Ordered(queue) && InTurn(drained, queue)
  }

  /** What every operation keeps. */
  ghost predicate Base(maxRetries: nat, s: State) {
    && !(s.run.Some? && s.retry.Armed?)
    && LogOk(s.log, Busy(s), s.hist.lost, s.hist.strays)
    && BudgetOk(s) && RunsOk(maxRetries, s) && InFlightOk(s)
    && OutcomesOk(s.hist.outcomes, s.hist.starts, s.runs - Count(Busy(s)), |s.hist.prompts| - Count(Busy(s)))
    && QueueOk(s.hist.drained, s.queue, s.accepted)
  }

  /** What holds at the head of the main loop. */
  ghost predicate AtLoopHead(maxRetries: nat, s: State) {
    && Base(maxRetries, s)
    && (s.queue != [] ==> s.run.Some?)
    && (s.status.Stopped? ==> !Busy(s))
  }

  /** ... unless a fatal error has ended the controller. */
  ghost predicate Holds(maxRetries: nat, s: State) {
    s.status.Crashed? || AtLoopHead(maxRetries, s)
  }

  // ----- Each operation keeps it -----

  lemma LogAppend(log: seq<LogItem>, item: LogItem)
    ensures Gaps(log + [item]) == Gaps(log) + Count(item.UserPrompt? && Open(log))
    ensures Open(log + [item]) == item.UserPrompt?
    ensures Strays(log + [item]) == Strays(log) + Count(!item.UserPrompt? && !Open(log))
  {
    assert (log + [item])[..|log|] == log;
  }

  /** A state between turns, in which a run can be spawned. */
  ghost predicate Quiet(s: State) {
    s.run.None? && s.retry.Idle?
  }

  lemma SpawnKeepsOutcomes(outcomes: seq<LogItem>, starts: seq<RunStart>, settled: int, turns: int, start: RunStart)
    requires OutcomesOk(outcomes, starts, settled, turns)
    ensures OutcomesOk(outcomes, starts + [start], settled, turns)
    ensures OutcomesOk(outcomes, starts + [start], |starts|, turns)
  {
  }

  lemma OutcomeKeepsOutcomes(outcomes: seq<LogItem>, starts: seq<RunStart>, settled: nat, turns: nat, item: LogItem)
    requires OutcomesOk(outcomes, starts, settled, turns) && RunOf(item) == settled < |starts|
    requires starts[settled].turn == turns + 1
    requires item.Breadcrumb? ==> item.model == starts[settled].model
    ensures OutcomesOk(outcomes + [item], starts, settled + 1, turns + 1)
  {
  }

  lemma OutcomeKeepsLog(log: seq<LogItem>, lost: nat, strays: nat, item: LogItem)
    requires LogOk(log, true, lost, strays) && !item.UserPrompt?
    requires item.RunOutput? ==> AgentRunRequests.AgentOutput(item.messages)
    ensures LogOk(log + [item], false, lost, strays)
  {
    LogAppend(log, item);
  }

  lemma PromptKeepsLog(log: seq<LogItem>, lost: nat, strays: nat, text: string)
    requires LogOk(log, false, lost, strays)
    ensures LogOk(log + [UserPrompt(text)], true, lost, strays)
  {
    LogAppend(log, UserPrompt(text));
  }

  lemma AbortKeepsBase(maxRetries: nat, s: State)
    requires Base(maxRetries, s)
    ensures Base(maxRetries, AbortPendingRetry(s))
  {
    if s.retry.Armed? {
      var item := Breadcrumb(s.retry.serial, s.retry.model, s.retry.error);
      OutcomeKeepsLog(s.log, s.hist.lost, s.hist.strays, item);
      OutcomeKeepsOutcomes(s.hist.outcomes, s.hist.starts, s.runs - 1, |s.hist.prompts| - 1, item);
    }
  }

  lemma TurnKeepsBudget(maxRetries: nat, s: State, text: string)
    requires Quiet(s)
    ensures var next := SpawnRun(OpenTurn(s, text), false, 0);
            BudgetOk(next) && RunsOk(maxRetries, next)
    ensures var next := SpawnRun(SpendBudget(OpenTurn(s, text)), false, 0);
            BudgetOk(next) && RunsOk(maxRetries, next)
  {
  }

  lemma TurnKeepsBase(maxRetries: nat, s: State, text: string)
    requires Base(maxRetries, s) && Quiet(s)
    ensures Base(maxRetries, SpawnRun(OpenTurn(s, text), false, 0))
    ensures Base(maxRetries, SpawnRun(SpendBudget(OpenTurn(s, text)), false, 0))
  {
    PromptKeepsLog(s.log, s.hist.lost, s.hist.strays, text);
    TurnKeepsBudget(maxRetries, s, text);
    SpawnKeepsOutcomes(
      s.hist.outcomes, s.hist.starts, s.runs, |s.hist.prompts|, RunStart(s.model, |s.hist.prompts| + 1));
  }

  lemma StartKeepsBase(maxRetries: nat, s: State, text: string, pre: PrePrompt)
    requires Base(maxRetries, s) && s.run.None? && !pre.SummaryFailed?
    ensures Base(maxRetries, StartPromptRun(s, text, pre))
    ensures StartPromptRun(s, text, pre).run.Some? && StartPromptRun(s, text, pre).retry.Idle?
    ensures StartPromptRun(s, text, pre).status == s.status
  {
    AbortKeepsBase(maxRetries, s);
    TurnKeepsBase(maxRetries, AbortPendingRetry(s), text);
  }

  lemma DrainConserves(drained: seq<QueuedPrompt>, queue: seq<QueuedPrompt>, accepted: nat)
    requires Conserved(drained, queue, accepted) && queue != []
    ensures Conserved(drained + [queue[0]], queue[1..], accepted)
  {
    assert PromptIds(drained + [queue[0]]) == PromptIds(drained) + [queue[0].id];
    assert PromptIds(queue) == [queue[0].id] + PromptIds(queue[1..]);
  }

  lemma DrainKeepsTurns(drained: seq<QueuedPrompt>, queue: seq<QueuedPrompt>)
    requires Ordered(queue) && InTurn(drained, queue) && queue != []
    ensures Ordered(queue[1..]) && InTurn(drained + [queue[0]], queue[1..])
  {
    var tail := queue[1..];
    forall i, j | 0 <= i < j < |tail| ensures Precedes(tail[i], tail[j]) {
      assert Precedes(queue[i + 1], queue[j + 1]);
    }
    forall j | 0 <= j < |tail| ensures Precedes(queue[0], tail[j]) {
      assert Precedes(queue[0], queue[j + 1]);
    }
    assert forall j :: 0 <= j < |tail| ==> tail[j] in queue;
  }

  lemma DrainKeepsQueue(drained: seq<QueuedPrompt>, queue: seq<QueuedPrompt>, accepted: nat)
    requires QueueOk(drained, queue, accepted) && queue != []
    ensures QueueOk(drained + [queue[0]], queue[1..], accepted)
  {
    DrainConserves(drained, queue, accepted);
    DrainKeepsTurns(drained, queue);
  }

  lemma DrainKeepsBase(maxRetries: nat, s: State, pre: PrePrompt)
    requires Base(maxRetries, s) && Quiet(s) && !pre.SummaryFailed?
    ensures Base(maxRetries, DrainQueue(s, pre))
    ensures DrainQueue(s, pre).queue != [] ==> DrainQueue(s, pre).run.Some?
  {
    if s.queue != [] {
      DrainKeepsQueue(s.hist.drained, s.queue, s.accepted);
      var popped := s.(queue := s.queue[1..], hist := s.hist.(drained := s.hist.drained + [s.queue[0]]));
      assert Base(maxRetries, popped);
      StartKeepsBase(maxRetries, popped, s.queue[0].text, pre);
    }
  }

  lemma FinishKeepsBase(maxRetries: nat, s: State, output: seq<Message>)
    requires Base(maxRetries, s) && s.run.Some? && AgentRunRequests.AgentOutput(output)
    ensures Base(maxRetries, FinishRun(s.(run := None), s.run.value.serial, output))
  {
    var item := RunOutput(s.run.value.serial, output);
    OutcomeKeepsLog(s.log, s.hist.lost, s.hist.strays, item);
    OutcomeKeepsOutcomes(s.hist.outcomes, s.hist.starts, s.runs - 1, |s.hist.prompts| - 1, item);
  }

  lemma ArmKeepsBase(maxRetries: nat, s: State, error: ProviderError)
    requires Base(maxRetries, s) && s.run.Some? && s.run.value.attempt + 1 <= maxRetries
    ensures var run := s.run.value;
            Base(maxRetries,
              s.(run := None, retry := Armed(run.attempt + 1, run.alreadyCompacted, error, s.model, run.serial)))
  {
  }

  lemma CompactionKeepsBase(maxRetries: nat, s: State)
    requires Base(maxRetries, s) && s.run.Some? && !s.run.value.alreadyCompacted && s.budget > 0
    ensures Base(maxRetries, AfterCompaction(s.(run := None), s.run.value))
  {
  }

  lemma PanicKeepsBase(maxRetries: nat, s: State)
    requires Base(maxRetries, s) && s.run.Some?
    ensures Base(maxRetries, s.(run := None, hist := s.hist.(lost := s.hist.lost + 1, panics := s.hist.panics + 1)))
  {
  }

  lemma ErrorKeepsBase(
    maxRetries: nat, s: State, output: seq<Message>, error: ProviderError, reactive: Reactive)
    requires Base(maxRetries, s) && s.run.Some? && AgentRunRequests.AgentOutput(output)
    ensures Base(maxRetries,
              SettleRun(maxRetries, s.(run := None), s.run.value, Finished(output, Some(error)), reactive))
  {
    var run := s.run.value;
    var next := SettleRun(maxRetries, s.(run := None), run, Finished(output, Some(error)), reactive);
    DecideUsesUpAllowance(maxRetries, error, run.attempt, run.alreadyCompacted, s.budget);
    var decision := Decide(maxRetries, error, run.attempt, run.alreadyCompacted, s.budget);
    if decision.Compact? && reactive.Reduced? {
      CompactionKeepsBase(maxRetries, s);
      assert next == AfterCompaction(s.(run := None), run);
    } else if decision.Retry? && s.queue == [] {
      ArmKeepsBase(maxRetries, s, error);
    } else {
      FinishKeepsBase(maxRetries, s, output);
      assert next == FinishRun(s.(run := None), run.serial, output);
    }
  }

  lemma SettleKeepsBase(maxRetries: nat, s: State, end: RunEnd, reactive: Reactive)
    requires Base(maxRetries, s) && s.run.Some?
    requires end.Finished? ==> AgentRunRequests.AgentOutput(end.output)
    ensures Base(maxRetries, SettleRun(maxRetries, s.(run := None), s.run.value, end, reactive))
  {
    match end {
      case Panicked => PanicKeepsBase(maxRetries, s);
      case Finished(output, None) => FinishKeepsBase(maxRetries, s, output);
      case Finished(output, Some(error)) => ErrorKeepsBase(maxRetries, s, output, error, reactive);
    }
  }

  /** Settling only arms a retry when nothing is queued, and leaves the queue as it is. */
  lemma SettleKeepsQueue(maxRetries: nat, s: State, end: RunEnd, reactive: Reactive)
    requires s.run.Some? && s.retry.Idle?
    ensures var next := SettleRun(maxRetries, s.(run := None), s.run.value, end, reactive);
            next.queue == s.queue && (next.retry.Armed? ==> s.queue == []) && next.status == s.status
  {
  }

  lemma RunEndKeepsLoopHead(maxRetries: nat, s: State, end: RunEnd, reactive: Reactive, pre: PrePrompt)
    requires AtLoopHead(maxRetries, s) && s.status.Serving? && s.run.Some?
    requires end.Finished? ==> AgentRunRequests.AgentOutput(end.output)
    ensures Holds(maxRetries, OnRunEnded(maxRetries, s, end, reactive, pre))
  {
    SettleKeepsBase(maxRetries, s, end, reactive);
    SettleKeepsQueue(maxRetries, s, end, reactive);
    SettledKeepsLoopHead(maxRetries, SettleRun(maxRetries, s.(run := None), s.run.value, end, reactive), pre);
  }

  lemma SettledKeepsLoopHead(maxRetries: nat, s: State, pre: PrePrompt)
    requires Base(maxRetries, s) && s.status.Serving? && (s.retry.Armed? ==> s.queue == [])
    ensures Holds(maxRetries, AfterSettling(s, pre))
  {
    var drained := if Quiet(s) then DrainQueue(s, pre) else s;
    if Quiet(s) && !pre.SummaryFailed? {
      DrainKeepsBase(maxRetries, s, pre);
    }
    if !drained.status.Crashed? {
      QuitKeepsLoopHead(maxRetries, drained);
    }
  }

  /** Neither asking to quit nor stopping with nothing in flight matters to the invariant. */
  lemma QuitKeepsLoopHead(maxRetries: nat, s: State)
    requires AtLoopHead(maxRetries, s)
    ensures AtLoopHead(maxRetries, s.(quitting := true))
    ensures Quiet(s) ==> AtLoopHead(maxRetries, s.(status := Stopped))
  {
  }

  lemma AcceptConserves(drained: seq<QueuedPrompt>, queue: seq<QueuedPrompt>, accepted: nat, prompt: QueuedPrompt)
    requires Conserved(drained, queue, accepted) && prompt.id == accepted
    ensures Conserved(drained, [prompt] + queue, accepted + 1)
    ensures Conserved(drained, queue + [prompt], accepted + 1)
  {
    assert UpTo(accepted + 1) == UpTo(accepted) + [accepted];
    assert PromptIds([prompt] + queue) == [accepted] + PromptIds(queue);
    assert PromptIds(queue + [prompt]) == PromptIds(queue) + [accepted];
  }

  lemma AcceptKeepsOrder(drained: seq<QueuedPrompt>, queue: seq<QueuedPrompt>, accepted: nat, prompt: QueuedPrompt)
    requires Ordered(queue) && InTurn(drained, queue) && Below(queue, accepted) && Below(drained, accepted)
    requires prompt.id == accepted
    ensures prompt.interrupt ==> Ordered([prompt] + queue) && InTurn(drained, [prompt] + queue)
    ensures !prompt.interrupt ==> Ordered(queue + [prompt]) && InTurn(drained, queue + [prompt])
  {
    if prompt.interrupt {
      var next := [prompt] + queue;
      forall i, j | 0 <= i < j < |next| ensures Precedes(next[i], next[j]) {
        if i > 0 {
          assert Precedes(queue[i - 1], queue[j - 1]);
        }
      }
    } else {
      var next := queue + [prompt];
      forall i, j | 0 <= i < j < |next| ensures Precedes(next[i], next[j]) {
        if j < |queue| {
          assert Precedes(queue[i], queue[j]);
        }
      }
    }
  }

  lemma AcceptKeepsQueue(drained: seq<QueuedPrompt>, queue: seq<QueuedPrompt>, accepted: nat, prompt: QueuedPrompt)
    requires QueueOk(drained, queue, accepted) && prompt.id == accepted
    ensures QueueOk(drained, if prompt.interrupt then [prompt] + queue else queue + [prompt], accepted + 1)
  {
    AcceptConserves(drained, queue, accepted, prompt);
    AcceptKeepsOrder(drained, queue, accepted, prompt);
  }

  lemma QueueKeepsBase(maxRetries: nat, s: State, queue: seq<QueuedPrompt>, accepted: nat)
    requires Base(maxRetries, s) && QueueOk(s.hist.drained, queue, accepted)
    ensures Base(maxRetries, s.(queue := queue, accepted := accepted))
  {
  }

  lemma AcceptKeepsBase(maxRetries: nat, s: State, interrupt: bool, text: string)
    requires Base(maxRetries, s)
    ensures Base(maxRetries, Accept(s, interrupt, text))
  {
    var next := Accept(s, interrupt, text);
    AcceptKeepsQueue(s.hist.drained, s.queue, s.accepted, QueuedPrompt(s.accepted, interrupt, text));
    QueueKeepsBase(maxRetries, s, next.queue, next.accepted);
    assert next == s.(queue := next.queue, accepted := next.accepted);
  }

  predicate PromptAction(action: UiAction) {
    action.SubmitPrompt? || action.QueuePrompt? || action.AbortAndQueuePrompt?
  }

  lemma PromptKeepsLoopHead(maxRetries: nat, s: State, action: UiAction, pre: PrePrompt)
    requires AtLoopHead(maxRetries, s) && s.status.Serving?
    requires PromptAction(action)
    ensures Holds(maxRetries, HandleAction(s, action, pre))
  {
    if s.run.None? {
      if !pre.SummaryFailed? {
        StartKeepsBase(maxRetries, s, action.text, pre);
      }
    } else if !action.SubmitPrompt? {
      var next := Accept(s, action.AbortAndQueuePrompt?, action.text);
      AcceptKeepsBase(maxRetries, s, action.AbortAndQueuePrompt?, action.text);
      CancelKeepsBase(maxRetries, next, next.quitting);
      assert next.(quitting := next.quitting) == next;
    }
  }

  lemma SettingsKeepBase(maxRetries: nat, s: State, model: ModelId, maxPerTurn: nat)
    requires Base(maxRetries, s) && s.run.None?
    ensures Base(maxRetries, AbortPendingRetry(s.(model := model, maxPerTurn := maxPerTurn)))
  {
    AbortKeepsBase(maxRetries, s.(model := model, maxPerTurn := maxPerTurn));
  }

  lemma MoveKeepsBase(maxRetries: nat, s: State, log: seq<LogItem>, model: ModelId)
    requires Base(maxRetries, s) && s.run.None? && WellFormedLog(log)
    ensures Base(maxRetries, Move(s, log, model))
  {
    if s.retry.Armed? {
      var item := Breadcrumb(s.retry.serial, s.retry.model, s.retry.error);
      LogAppend(log, item);
      OutcomeKeepsOutcomes(s.hist.outcomes, s.hist.starts, s.runs - 1, |s.hist.prompts| - 1, item);
    }
  }

  lemma CancelKeepsBase(maxRetries: nat, s: State, quitting: bool)
    requires Base(maxRetries, s)
    ensures Base(maxRetries, CancelRun(s.(quitting := quitting)))
  {
  }

  lemma QuitActionKeepsLoopHead(maxRetries: nat, s: State)
    requires AtLoopHead(maxRetries, s) && s.status.Serving?
    ensures AtLoopHead(maxRetries, AbortPendingRetry(CancelRun(s.(quitting := true))))
  {
    CancelKeepsBase(maxRetries, s, true);
    AbortKeepsBase(maxRetries, CancelRun(s.(quitting := true)));
  }

  lemma AbortKeepsLoopHead(maxRetries: nat, s: State)
    requires AtLoopHead(maxRetries, s) && s.status.Serving?
    ensures AtLoopHead(maxRetries, if s.run.Some? then CancelRun(s) else AbortPendingRetry(s))
  {
    AbortKeepsBase(maxRetries, s);
    CancelKeepsBase(maxRetries, s, s.quitting);
    assert s.(quitting := s.quitting) == s;
  }

  lemma MoveKeepsLoopHead(maxRetries: nat, s: State, action: UiAction, pre: PrePrompt)
    requires AtLoopHead(maxRetries, s) && s.status.Serving?
    requires action.MoveSession? && WellFormedLog(action.log)
    ensures Holds(maxRetries, HandleAction(s, action, pre))
  {
    if s.run.None? && action.outcome.Applied? {
      MoveKeepsBase(maxRetries, s, action.log, action.model);
      assert HandleAction(s, action, pre) == Move(s, action.log, action.model);
    } else {
      assert HandleAction(s, action, pre) == s || HandleAction(s, action, pre).status.Crashed?;
    }
  }

  lemma SettingsKeepLoopHead(maxRetries: nat, s: State, action: UiAction, pre: PrePrompt)
    requires AtLoopHead(maxRetries, s) && s.status.Serving? && action.ChangeSettings?
    ensures Holds(maxRetries, HandleAction(s, action, pre))
  {
    if s.run.None? && action.outcome.Applied? {
      SettingsKeepBase(maxRetries, s, action.model, action.maxPerTurn);
    } else {
      assert HandleAction(s, action, pre) == s || HandleAction(s, action, pre).status.Crashed?;
    }
  }

  lemma CommandKeepsLoopHead(maxRetries: nat, s: State, action: UiAction, pre: PrePrompt)
    requires AtLoopHead(maxRetries, s) && s.status.Serving?
    requires !PromptAction(action) && !action.ChangeSettings? && !action.MoveSession?
    ensures Holds(maxRetries, HandleAction(s, action, pre))
  {
    if action.Quit? {
      QuitActionKeepsLoopHead(maxRetries, s);
    } else if action.Abort? || action.CompactNow? {
      AbortKeepsLoopHead(maxRetries, s);
    } else {
      assert HandleAction(s, action, pre) == s || HandleAction(s, action, pre).status.Crashed?;
    }
  }

  lemma ClosingKeepsLoopHead(maxRetries: nat, s: State)
    requires AtLoopHead(maxRetries, s) && s.status.Serving?
    ensures AtLoopHead(maxRetries, OnUiClosed(s))
  {
    if s.run.Some? {
      CancelKeepsBase(maxRetries, s, true);
    } else if s.retry.Armed? {
      AbortKeepsBase(maxRetries, s);
      QuitKeepsLoopHead(maxRetries, AbortPendingRetry(s));
    } else {
      QuitKeepsLoopHead(maxRetries, s);
    }
  }

  lemma GateKeepsLoopHead(maxRetries: nat, s: State)
    requires AtLoopHead(maxRetries, s) && s.run.Some? && s.budget > 0
    ensures AtLoopHead(maxRetries, SpendBudget(s))
  {
  }

  lemma BodyKeepsLoopHead(maxRetries: nat, s: State, event: Event)
    requires AtLoopHead(maxRetries, s) && Enabled(s, event)
    ensures Holds(maxRetries, Handle(maxRetries, s, event))
  {
    match event {
      case Ui(action, pre) =>
        if PromptAction(action) {
          PromptKeepsLoopHead(maxRetries, s, action, pre);
        } else if action.MoveSession? {
          MoveKeepsLoopHead(maxRetries, s, action, pre);
        } else if action.ChangeSettings? {
          SettingsKeepLoopHead(maxRetries, s, action, pre);
        } else {
          CommandKeepsLoopHead(maxRetries, s, action, pre);
        }
      case UiClosed => ClosingKeepsLoopHead(maxRetries, s);
      case RunEnded(end, reactive, pre) => RunEndKeepsLoopHead(maxRetries, s, end, reactive, pre);
      case DeadlineFires => SpawnAfterRetry(maxRetries, s);
      case GateConsulted(compacted) =>
        if compacted {
          GateKeepsLoopHead(maxRetries, s);
        }
    }
  }

  lemma StepKeepsLoopHead(maxRetries: nat, s: State, event: Event)
    requires AtLoopHead(maxRetries, s) && Enabled(s, event)
    ensures Holds(maxRetries, Step(maxRetries, s, event))
  {
    BodyKeepsLoopHead(maxRetries, s, event);
    var next := Handle(maxRetries, s, event);
    if !next.status.Crashed? {
      QuitKeepsLoopHead(maxRetries, next);
    }
  }

  lemma SpawnAfterRetry(maxRetries: nat, s: State)
    requires AtLoopHead(maxRetries, s) && s.retry.Armed? && s.run.None?
    ensures AtLoopHead(maxRetries, OnDeadline(s))
  {
  }

  lemma InitialIsAtLoopHead(maxRetries: nat, exitAfterRun: bool, maxPerTurn: nat, model: ModelId, log: seq<LogItem>)
    requires WellFormedLog(log)
    ensures AtLoopHead(maxRetries, Initial(exitAfterRun, maxPerTurn, model, log))
  {
    assert PromptIds([]) == [] == UpTo(0);
  }

  /** In every reachable state the invariant holds at the loop head, unless a fatal error
      has ended the controller. */
  lemma {:induction false} EveryReachableState(maxRetries: nat, s: State, events: seq<Event>)
    requires AtLoopHead(maxRetries, s) && After(maxRetries, s, events).Some?
    ensures Holds(maxRetries, After(maxRetries, s, events).value)
    decreases |events|
  {
    if events != [] {
      var n := |events| - 1;
      EveryReachableState(maxRetries, s, events[..n]);
      StepKeepsLoopHead(maxRetries, After(maxRetries, s, events[..n]).value, events[n]);
    }
  }
}
