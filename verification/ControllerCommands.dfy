/** What each event does to the run in flight, an armed retry, the settings and the
    controller itself. */
module ControllerCommands {
  import opened Protocol
  import opened RetryPolicy
  import opened Controller
  import opened ControllerProofs
  import opened ControllerResults
  import opened ControllerTermination

  // ----- Beginning -----

  /** A controller begins idle, with what it was configured with, on the log it was given. */
  lemma BeginsAsConfigured(exitAfterRun: bool, maxPerTurn: nat, model: ModelId, log: seq<LogItem>)
    ensures var s := Initial(exitAfterRun, maxPerTurn, model, log);
            && s.status.Serving? && !s.quitting && !Busy(s) && s.queue == [] && s.runs == 0 && s.accepted == 0
            && s.exitAfterRun == exitAfterRun && s.maxPerTurn == maxPerTurn && s.model == model && s.log == log
  {
  }

  // ----- Cancelling -----

  /** The user, or the user's going away, cancels what is running. */
  predicate Cancels(event: Event) {
    || event.UiClosed?
    || (event.Ui? && (event.action.Abort? || event.action.AbortAndQueuePrompt? || event.action.Quit?))
  }

  /** A run in flight is left as it is but for its being cancelled, which it then stays. */
  predicate CancelledAsAsked(s: State, next: State, event: Event) {
    if next.runs == s.runs then
      next.run.Some? ==>
        s.run.Some? && next.run.value == s.run.value.(cancelled := s.run.value.cancelled || Cancels(event))
    else
      next.run.Some? && !next.run.value.cancelled
      && next.run.value.serial == s.runs && next.runs == s.runs + 1
  }

  lemma ActionCancels(s: State, action: UiAction, pre: PrePrompt)
    ensures CancelledAsAsked(s, HandleAction(s, action, pre), Ui(action, pre))
  {
  }

  lemma SettleCancelsNothing(maxRetries: nat, s: State, end: RunEnd, reactive: Reactive)
    requires s.run.Some?
    ensures var next := SettleRun(maxRetries, s.(run := None), s.run.value, end, reactive);
            if next.run.Some? then
              next.runs == s.runs + 1 && next.run.value.serial == s.runs && !next.run.value.cancelled
            else next.runs == s.runs
  {
  }

  lemma SettlingStartsUncancelled(s: State, pre: PrePrompt)
    ensures var next := AfterSettling(s, pre);
            if next.runs == s.runs then next.run == s.run
            else s.run.None? && next.run.Some? && !next.run.value.cancelled
                 && next.run.value.serial == s.runs && next.runs == s.runs + 1
  {
  }

  /** A run becomes cancelled by exactly these events and stays so; a new run is not cancelled. */
  lemma RunIsCancelledIff(maxRetries: nat, s: State, event: Event)
    requires Enabled(s, event) && !(s.run.Some? && s.retry.Armed?)
    ensures CancelledAsAsked(s, Step(maxRetries, s, event), event)
  {
    match event {
      case Ui(action, pre) => ActionCancels(s, action, pre);
      case RunEnded(end, reactive, pre) =>
        SettleCancelsNothing(maxRetries, s, end, reactive);
        SettlingStartsUncancelled(SettleRun(maxRetries, s.(run := None), s.run.value, end, reactive), pre);
      case UiClosed =>
      case DeadlineFires =>
      case GateConsulted(_) =>
    }
  }

  /** Since the run in flight was started, something has asked to cancel it. */
  function AskedToCancel(maxRetries: nat, s: State, events: seq<Event>): bool
    requires After(maxRetries, s, events).Some?
    decreases |events|
  {
    if events == [] then s.run.Some? && s.run.value.cancelled
    else
      var n := |events| - 1;
      After(maxRetries, s, events).value.runs == After(maxRetries, s, events[..n]).value.runs
      && (AskedToCancel(maxRetries, s, events[..n]) || Cancels(events[n]))
  }

  /** Over whole runs: what is in flight is cancelled exactly if that was asked. */
  lemma {:induction false} InFlightIsCancelledIffAsked(maxRetries: nat, s: State, events: seq<Event>, end: State)
    requires AtLoopHead(maxRetries, s) && After(maxRetries, s, events) == Some(end) && end.run.Some?
    ensures end.run.value.cancelled <==> AskedToCancel(maxRetries, s, events)
    decreases |events|
  {
    if events != [] {
      var n := |events| - 1;
      var before := After(maxRetries, s, events[..n]).value;
      EveryReachableState(maxRetries, s, events[..n]);
      RunIsCancelledIff(maxRetries, before, events[n]);
      if before.run.Some? {
        InFlightIsCancelledIffAsked(maxRetries, s, events[..n], before);
      }
    }
  }

  // ----- Settings -----

  /** The event changes the settings: a command that may, when nothing is running. */
  predicate ChangesSettings(s: State, event: Event) {
    event.Ui? && event.action.ChangeSettings? && s.run.None? && !event.action.outcome.UserError?
  }

  predicate SettingsAsAsked(s: State, next: State, event: Event) {
    if ChangesSettings(s, event) then
      next.model == event.action.model && next.maxPerTurn == event.action.maxPerTurn
    else
      && next.maxPerTurn == s.maxPerTurn
      && next.model == if event.Ui? && event.action.MoveSession? && event.action.outcome.Applied? && s.run.None?
                       then event.action.model else s.model
  }

  /** What no run end touches. */
  predicate SameSetup(s: State, next: State) {
    next.model == s.model && next.maxPerTurn == s.maxPerTurn && next.exitAfterRun == s.exitAfterRun
  }

  lemma SettleKeepsSetup(maxRetries: nat, s: State, end: RunEnd, reactive: Reactive)
    requires s.run.Some?
    ensures var next := SettleRun(maxRetries, s.(run := None), s.run.value, end, reactive);
            SameSetup(s, next) && next.quitting == s.quitting && next.status == s.status
  {
  }

  lemma SettlingKeepsSetup(s: State, pre: PrePrompt)
    ensures SameSetup(s, AfterSettling(s, pre))
  {
  }

  lemma RunEndKeepsSetup(maxRetries: nat, s: State, end: RunEnd, reactive: Reactive, pre: PrePrompt)
    requires s.run.Some?
    ensures SameSetup(s, OnRunEnded(maxRetries, s, end, reactive, pre))
  {
    SettleKeepsSetup(maxRetries, s, end, reactive);
    SettlingKeepsSetup(SettleRun(maxRetries, s.(run := None), s.run.value, end, reactive), pre);
  }

  lemma ActionSetup(s: State, action: UiAction, pre: PrePrompt)
    ensures SettingsAsAsked(s, HandleAction(s, action, pre), Ui(action, pre))
    ensures HandleAction(s, action, pre).exitAfterRun == s.exitAfterRun
  {
    if PromptAction(action) {
      PromptKeepsSetup(s, action.text, pre);
    }
  }

  lemma PromptKeepsSetup(s: State, text: string, pre: PrePrompt)
    ensures SameSetup(s, StartPromptRun(s, text, pre))
  {
  }

  /** The model and the allowance are what the last settings change that was let through, or
      for the model the last session moved to, left. */
  lemma SettingsChangeIff(maxRetries: nat, s: State, event: Event)
    requires Enabled(s, event)
    ensures SettingsAsAsked(s, Step(maxRetries, s, event), event)
    ensures Step(maxRetries, s, event).exitAfterRun == s.exitAfterRun
  {
    match event {
      case Ui(action, pre) => ActionSetup(s, action, pre);
      case RunEnded(end, reactive, pre) => RunEndKeepsSetup(maxRetries, s, end, reactive, pre);
      case UiClosed =>
      case DeadlineFires =>
      case GateConsulted(_) =>
    }
  }

  // ----- Stopping -----

  /** The controller is to stop once nothing is in flight. */
  predicate Leaving(s: State, event: Event) {
    || s.quitting
    || event.UiClosed?
    || (event.Ui? && event.action.Quit?)
    || (s.exitAfterRun && event.RunEnded?)
  }

  lemma PromptQuitsNot(s: State, text: string, pre: PrePrompt)
    requires !s.status.Stopped?
    ensures StartPromptRun(s, text, pre).quitting == s.quitting && !StartPromptRun(s, text, pre).status.Stopped?
  {
  }

  lemma ActionQuits(s: State, action: UiAction, pre: PrePrompt)
    requires s.status.Serving?
    ensures HandleAction(s, action, pre).quitting == (s.quitting || action.Quit?)
    ensures !HandleAction(s, action, pre).status.Stopped?
  {
    if PromptAction(action) {
      PromptQuitsNot(s, action.text, pre);
    }
  }

  lemma DrainQuitsNot(s: State, pre: PrePrompt)
    requires !s.status.Stopped?
    ensures DrainQueue(s, pre).quitting == s.quitting && !DrainQueue(s, pre).status.Stopped?
    ensures DrainQueue(s, pre).exitAfterRun == s.exitAfterRun
  {
  }

  lemma SettlingQuits(s: State, pre: PrePrompt)
    requires !s.status.Stopped?
    ensures var next := AfterSettling(s, pre);
            && next.quitting == (s.quitting || (s.exitAfterRun && !Busy(next) && next.queue == []))
            && !next.status.Stopped?
  {
    DrainQuitsNot(s, pre);
  }

  lemma RunEndQuits(maxRetries: nat, s: State, end: RunEnd, reactive: Reactive, pre: PrePrompt)
    requires s.status.Serving? && s.run.Some?
    ensures var next := OnRunEnded(maxRetries, s, end, reactive, pre);
            && next.quitting == (s.quitting || (s.exitAfterRun && !Busy(next) && next.queue == []))
            && !next.status.Stopped?
  {
    SettleKeepsSetup(maxRetries, s, end, reactive);
    SettlingQuits(SettleRun(maxRetries, s.(run := None), s.run.value, end, reactive), pre);
  }

  lemma ClosingStops(s: State)
    requires s.status.Serving? && !(s.run.Some? && s.retry.Armed?)
    ensures LoopTail(OnUiClosed(s)).status.Stopped? <==> !Busy(OnUiClosed(s))
  {
  }

  /** An event stops the controller exactly if it leaves nothing in flight (and no fatal error)
      and the controller is quitting, the interface is gone, or a one-shot run has ended. So
      without these it never stops, and with one it does as soon as it may. */
  lemma StopsIff(maxRetries: nat, s: State, event: Event)
    requires AtLoopHead(maxRetries, s) && Enabled(s, event)
    ensures var next := Step(maxRetries, s, event);
            next.status.Stopped? <==> !next.status.Crashed? && !Busy(next) && Leaving(s, event)
  {
    match event {
      case Ui(action, pre) => ActionQuits(s, action, pre);
      case RunEnded(end, reactive, pre) =>
        RunEndQuits(maxRetries, s, end, reactive, pre);
        RunEndKeepsLoopHead(maxRetries, s, end, reactive, pre);
      case UiClosed => ClosingStops(s);
      case DeadlineFires =>
      case GateConsulted(_) =>
    }
  }

  lemma OneShotServesWhileBusy(maxRetries: nat, s: State, event: Event)
    requires AtLoopHead(maxRetries, s) && s.exitAfterRun && Busy(s)
    requires Enabled(s, event) && Internal(event)
    ensures var next := Step(maxRetries, s, event);
            next.exitAfterRun && (next.status.Serving? ==> Busy(next))
  {
    SettingsChangeIff(maxRetries, s, event);
    StopsIff(maxRetries, s, event);
  }

  lemma {:induction false} OneShotRunServesWhileBusy(maxRetries: nat, s: State, events: seq<Event>, end: State)
    requires AtLoopHead(maxRetries, s) && s.exitAfterRun && s.status.Serving? && Busy(s)
    requires forall i :: 0 <= i < |events| ==> Internal(events[i])
    requires After(maxRetries, s, events) == Some(end)
    ensures end.exitAfterRun && (end.status.Serving? ==> Busy(end))
    decreases |events|
  {
    if events != [] {
      var n := |events| - 1;
      var before := After(maxRetries, s, events[..n]).value;
      OneShotRunServesWhileBusy(maxRetries, s, events[..n], before);
      EveryReachableState(maxRetries, s, events[..n]);
      OneShotServesWhileBusy(maxRetries, before, events[n]);
    }
  }

  /** A one-shot controller with a prompt in flight ends: left alone it serves only while busy,
      and after `Rank` run ends and deadlines at the latest it has stopped or failed. */
  lemma OneShotEnds(maxRetries: nat, s: State, events: seq<Event>, end: State)
    requires AtLoopHead(maxRetries, s) && s.exitAfterRun && s.status.Serving? && Busy(s)
    requires forall i :: 0 <= i < |events| ==> Internal(events[i])
    requires After(maxRetries, s, events) == Some(end)
    ensures !end.status.Crashed? ==> ProgressIn(events) <= Rank(maxRetries, s)
    ensures end.status.Serving? ==> ProgressIn(events) < Rank(maxRetries, s)
  {
    OneShotRunServesWhileBusy(maxRetries, s, events, end);
    if !end.status.Crashed? {
      ComesToRest(maxRetries, s, events, end);
    }
  }

  // ----- Prompts -----

  /** A prompt is taken at once when nothing runs: it is logged and, unless compacting before
      it fails, a fresh run is started for it. */
  lemma IdleControllerTakesPrompt(maxRetries: nat, s: State, action: UiAction, pre: PrePrompt)
    requires s.status.Serving? && s.run.None? && PromptAction(action)
    ensures var next := Step(maxRetries, s, Ui(action, pre));
            && next.hist.prompts == s.hist.prompts + [action.text]
            && next.log != [] && next.log[|next.log| - 1] == UserPrompt(action.text)
            && next.queue == s.queue && next.retry.Idle?
            && (!pre.SummaryFailed? ==> next.run == Some(CurrentRun(false, false, 0, s.runs, s.model)))
  {
    assert HandleAction(s, action, pre) == StartPromptRun(s, action.text, pre);
  }

  /** While something runs, a submitted prompt is refused and a queued one accepted: at the back,
      or ahead of all others if it interrupts. Nothing else changes but that an interrupting
      prompt cancels the run. */
  lemma BusyControllerQueuesPrompt(maxRetries: nat, s: State, action: UiAction, pre: PrePrompt)
    requires s.status.Serving? && s.run.Some? && PromptAction(action)
    ensures var next := Step(maxRetries, s, Ui(action, pre));
            var prompt := QueuedPrompt(s.accepted, action.AbortAndQueuePrompt?, action.text);
            match action
            case SubmitPrompt(_) => next == s
            case QueuePrompt(_) => next == s.(queue := s.queue + [prompt], accepted := s.accepted + 1)
            case AbortAndQueuePrompt(_) =>
              next == s.(queue := [prompt] + s.queue, accepted := s.accepted + 1,
                         run := Some(s.run.value.(cancelled := true)))
            case _ => false
  {
  }

  /** Looking is free: a query, or a list of sessions that can be made, changes nothing. */
  lemma LookingChangesNothing(maxRetries: nat, s: State, action: UiAction, pre: PrePrompt)
    requires s.status.Serving? && (s.quitting ==> Busy(s))
    requires action.Query? || (action.ListSessions? && !action.failed)
    ensures Step(maxRetries, s, Ui(action, pre)) == s
  {
  }

  // ----- Retries -----

  /** When a run's error is retried: the armed retry is the next attempt of that run's prompt,
      with that error and under that model; if it is continued after compacting, at once, as the
      same attempt. */
  lemma RunIsResumedAsItWas(
    maxRetries: nat, s: State, output: seq<Message>, error: ProviderError, reactive: Reactive, pre: PrePrompt)
    requires s.run.Some? && s.retry.Idle? && Resumes(maxRetries, s, error, reactive)
    ensures var next := OnRunEnded(maxRetries, s, Finished(output, Some(error)), reactive, pre);
            if error.ContextOverflow? then
              && next.retry.Idle? && next.budget == s.budget - 1
              && next.run == Some(CurrentRun(false, true, s.run.value.attempt, s.runs, s.model))
            else
              && next.run.None?
              && next.retry
                 == Armed(s.run.value.attempt + 1, s.run.value.alreadyCompacted, error, s.model, s.run.value.serial)
  {
    DecideUsesUpAllowance(maxRetries, error, s.run.value.attempt, s.run.value.alreadyCompacted, s.budget);
  }

  /** The deadline resumes exactly what was armed, without logging a prompt. */
  lemma DeadlineResumesWhatWasArmed(maxRetries: nat, s: State)
    requires Enabled(s, DeadlineFires)
    ensures var next := Step(maxRetries, s, DeadlineFires);
            && next.retry.Idle? && next.log == s.log && next.hist.prompts == s.hist.prompts
            && next.run == Some(CurrentRun(false, s.retry.alreadyCompacted, s.retry.attempt, s.runs, s.model))
  {
  }

  /** What gives up an armed retry: a new prompt, an abort, the end of the session with the user,
      and whatever may change what the retry would run with. */
  predicate GivesUpRetry(event: Event) {
    || event.UiClosed?
    || (event.Ui? &&
          match event.action
          case ChangeSettings(outcome, _, _) => outcome.Applied?
          case MoveSession(outcome, _, _) => outcome.Applied?
          case CompactNow(failed) => !failed
          case ListSessions(_) => false
          case Query => false
          case _ => true)
  }

  predicate RetryAsAsked(s: State, next: State, event: Event)
    requires s.retry.Armed?
  {
    if event.DeadlineFires? then next.hist.outcomes == s.hist.outcomes
    else if GivesUpRetry(event) then
      && next.retry.Idle?
      && next.hist.outcomes == s.hist.outcomes + [Breadcrumb(s.retry.serial, s.retry.model, s.retry.error)]
      && next.log != []
    else next.retry == s.retry && next.log == s.log && next.hist.outcomes == s.hist.outcomes
  }

  lemma ActionGivesUp(s: State, action: UiAction, pre: PrePrompt)
    requires s.retry.Armed? && s.run.None?
    ensures RetryAsAsked(s, HandleAction(s, action, pre), Ui(action, pre))
  {
  }

  /** An armed retry is given up by exactly these events, each leaving its breadcrumb; the
      deadline uses it; nothing else touches it. */
  lemma RetryIsGivenUpIff(maxRetries: nat, s: State, event: Event)
    requires Enabled(s, event) && s.retry.Armed? && s.run.None?
    ensures RetryAsAsked(s, Step(maxRetries, s, event), event)
  {
    match event {
      case Ui(action, pre) => ActionGivesUp(s, action, pre);
      case UiClosed =>
      case DeadlineFires =>
      case RunEnded(_, _, _) =>
      case GateConsulted(_) =>
    }
  }

  // ----- The budget of a turn -----

  /** The event logs a prompt of its own. */
  predicate Opens(s: State, next: State) {
    |next.hist.prompts| > |s.hist.prompts|
  }

  /** The event compacts in the middle of a turn: the gate, or a first overflow for which there
      is budget and something to compact. */
  predicate CompactsMidTurn(s: State, event: Event) {
    || event == GateConsulted(true)
    || (event.RunEnded? && s.run.Some? && event.end.Finished? && event.end.error.Some?
        && event.end.error.value.ContextOverflow? && !s.run.value.alreadyCompacted && s.budget > 0
        && event.reactive.Reduced?)
  }

  predicate BudgetAsSpent(s: State, next: State, pre: PrePrompt, compacts: bool) {
    if Opens(s, next) then
      && next.hist.turnMax == s.maxPerTurn
      && next.hist.automatic == Count(pre.CompactedFirst?)
    else
      && next.hist.turnMax == s.hist.turnMax
      && next.hist.automatic == s.hist.automatic + Count(compacts)
  }

  lemma StartBudget(s: State, text: string, pre: PrePrompt)
    ensures BudgetAsSpent(s, StartPromptRun(s, text, pre), pre, false)
  {
  }

  lemma ActionBudget(s: State, action: UiAction, pre: PrePrompt)
    ensures BudgetAsSpent(s, HandleAction(s, action, pre), pre, false)
  {
    if PromptAction(action) {
      StartBudget(s, action.text, pre);
    }
  }

  lemma SettleBudget(maxRetries: nat, s: State, event: Event)
    requires Enabled(s, event) && event.RunEnded?
    ensures var next := SettleRun(maxRetries, s.(run := None), s.run.value, event.end, event.reactive);
            && next.hist.prompts == s.hist.prompts && next.hist.turnMax == s.hist.turnMax
            && next.hist.automatic == s.hist.automatic + Count(CompactsMidTurn(s, event))
            && next.maxPerTurn == s.maxPerTurn
            && (CompactsMidTurn(s, event) ==> next.run.Some?)
  {
    if event.end.Finished? && event.end.error.Some? {
      DecideUsesUpAllowance(
        maxRetries, event.end.error.value, s.run.value.attempt, s.run.value.alreadyCompacted, s.budget);
    }
  }

  lemma SettlingBudget(s: State, pre: PrePrompt)
    ensures BudgetAsSpent(s, AfterSettling(s, pre), pre, false)
    ensures s.run.Some? ==> AfterSettling(s, pre).hist == s.hist
  {
  }

  lemma RunEndBudget(maxRetries: nat, s: State, event: Event)
    requires Enabled(s, event) && event.RunEnded?
    ensures BudgetAsSpent(s, OnRunEnded(maxRetries, s, event.end, event.reactive, event.pre), event.pre,
                          CompactsMidTurn(s, event))
  {
    SettleBudget(maxRetries, s, event);
    SettlingBudget(SettleRun(maxRetries, s.(run := None), s.run.value, event.end, event.reactive), event.pre);
  }

  /** A turn begins with the allowance as it is then; every automatic compaction is counted
      against it, and nothing else is. */
  lemma BudgetIsSpentExactly(maxRetries: nat, s: State, event: Event)
    requires Enabled(s, event) && !(s.run.Some? && s.retry.Armed?)
    ensures BudgetAsSpent(s, Step(maxRetries, s, event), AnswerBefore(event), CompactsMidTurn(s, event))
  {
    match event {
      case Ui(action, pre) => ActionBudget(s, action, pre);
      case RunEnded(_, _, _) => RunEndBudget(maxRetries, s, event);
      case UiClosed =>
      case DeadlineFires =>
      case GateConsulted(_) =>
    }
  }
}
