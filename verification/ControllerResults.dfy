/** What the invariant says to the user of the controller: one thing in flight, prompts
    neither lost nor repeated, bounds on what a turn may use, and whose outcome is whose. */
module ControllerResults {
  import opened Protocol
  import opened RetryPolicy
  import opened CompactionGate
  import opened Controller
  import opened ControllerProofs

  // ----- Reaching a state -----

  /** The controller has just begun, on some well-formed log. */
  ghost predicate Begins(start: State) {
    exists exitAfterRun, maxPerTurn, model, log ::
      WellFormedLog(log) && start == Initial(exitAfterRun, maxPerTurn, model, log)
  }

  /** `end` is a state the controller can be in at the head of its loop, having begun and met
      these events. */
  ghost predicate Reaches(maxRetries: nat, start: State, events: seq<Event>, end: State) {
    Begins(start) && After(maxRetries, start, events) == Some(end) && !end.status.Crashed?
  }

  lemma BeginsAtLoopHead(maxRetries: nat, start: State)
    requires Begins(start)
    ensures AtLoopHead(maxRetries, start)
  {
    var exitAfterRun, maxPerTurn, model, log :|
      WellFormedLog(log) && start == Initial(exitAfterRun, maxPerTurn, model, log);
    InitialIsAtLoopHead(maxRetries, exitAfterRun, maxPerTurn, model, log);
  }

  lemma ReachedIsAtLoopHead(maxRetries: nat, start: State, events: seq<Event>, end: State)
    requires Reaches(maxRetries, start, events, end)
    ensures AtLoopHead(maxRetries, end)
  {
    BeginsAtLoopHead(maxRetries, start);
    EveryReachableState(maxRetries, start, events);
    assert Holds(maxRetries, end);
  }

  /** A run and an armed retry never coexist, and prompts only queue behind a run. */
  lemma OneThingInFlight(maxRetries: nat, start: State, events: seq<Event>, end: State)
    requires Reaches(maxRetries, start, events, end)
    ensures !(end.run.Some? && end.retry.Armed?)
    ensures end.queue != [] ==> end.run.Some?
    ensures end.retry.Armed? ==> end.queue == []
  {
    ReachedIsAtLoopHead(maxRetries, start, events, end);
  }

  // ----- Queued prompts -----

  lemma {:induction false} OnceUpTo(n: nat, id: nat)
    ensures multiset(UpTo(n))[id] == Count(id < n)
  {
    if n > 0 {
      OnceUpTo(n - 1, id);
      assert UpTo(n) == UpTo(n - 1) + [n - 1];
    }
  }

  /** Every accepted prompt is waiting or was started, and only once. */
  lemma EachPromptStartedOnce(maxRetries: nat, start: State, events: seq<Event>, end: State, id: nat)
    requires Reaches(maxRetries, start, events, end)
    ensures multiset(PromptIds(end.hist.drained))[id] + multiset(PromptIds(end.queue))[id] == Count(id < end.accepted)
  {
    ReachedIsAtLoopHead(maxRetries, start, events, end);
    OnceUpTo(end.accepted, id);
    var started, waiting := multiset(PromptIds(end.hist.drained)), multiset(PromptIds(end.queue));
    assert (started + waiting)[id] == multiset(UpTo(end.accepted))[id];
  }

  /** The next prompt is the latest waiting interrupt, or else the earliest follow-up; and
      follow-ups overtake no follow-up. */
  lemma NextPromptIsDue(maxRetries: nat, start: State, events: seq<Event>, end: State)
    requires Reaches(maxRetries, start, events, end) && end.queue != []
    ensures end.queue[0].interrupt ==>
      (forall j :: 1 <= j < |end.queue| && end.queue[j].interrupt ==> end.queue[j].id < end.queue[0].id)
    ensures !end.queue[0].interrupt ==>
      (forall j :: 1 <= j < |end.queue| ==> !end.queue[j].interrupt && end.queue[0].id < end.queue[j].id)
    ensures forall i ::
              0 <= i < |end.hist.drained| && !end.queue[0].interrupt && !end.hist.drained[i].interrupt
              ==> end.hist.drained[i].id < end.queue[0].id
  {
    ReachedIsAtLoopHead(maxRetries, start, events, end);
    forall j | 1 <= j < |end.queue| ensures Precedes(end.queue[0], end.queue[j]) {}
  }

  // ----- Bounds on a turn -----

  /** The budget left is the allowance less the automatic compactions, however they came
      about; these number at most `max(1, allowance)`, one of them reactive; and a prompt
      costs at most `maxRetries + 2` runs. */
  lemma TurnIsBounded(maxRetries: nat, start: State, events: seq<Event>, end: State)
    requires Reaches(maxRetries, start, events, end)
    ensures end.budget == SaturatingSub(end.hist.turnMax, end.hist.automatic)
    ensures end.hist.automatic <= (if end.hist.turnMax == 0 then 1 else end.hist.turnMax)
    ensures end.hist.reactive <= 1
    ensures end.hist.turnRuns <= maxRetries + 2
  {
    ReachedIsAtLoopHead(maxRetries, start, events, end);
  }

  predicate Overspent(s: State) {
    s.hist.automatic > s.hist.turnMax
  }

  /** What `next` has spent, having come from `s` with this answer from the compaction before
      a prompt, if it logged one. */
  predicate SpentFrom(s: State, next: State, pre: PrePrompt) {
    if |next.hist.prompts| == |s.hist.prompts| then Overspent(next) <==> Overspent(s)
    else Overspent(next) <==> next.hist.turnMax == 0 && pre.CompactedFirst?
  }

  lemma StartSpends(s: State, text: string, pre: PrePrompt)
    ensures SpentFrom(s, StartPromptRun(s, text, pre), pre)
    ensures |StartPromptRun(s, text, pre).hist.prompts| == |s.hist.prompts| + 1
  {
  }

  lemma ActionSpends(s: State, action: UiAction, pre: PrePrompt)
    ensures SpentFrom(s, HandleAction(s, action, pre), pre)
  {
    if PromptAction(action) {
      StartSpends(s, action.text, pre);
    }
  }

  lemma SettleSpends(maxRetries: nat, s: State, end: RunEnd, reactive: Reactive)
    requires s.run.Some? && s.budget == SaturatingSub(s.hist.turnMax, s.hist.automatic)
    ensures var next := SettleRun(maxRetries, s.(run := None), s.run.value, end, reactive);
            next.hist.prompts == s.hist.prompts && (Overspent(next) <==> Overspent(s))
  {
    if end.Finished? && end.error.Some? {
      DecideUsesUpAllowance(maxRetries, end.error.value, s.run.value.attempt, s.run.value.alreadyCompacted, s.budget);
    }
  }

  lemma DrainSpends(s: State, pre: PrePrompt)
    ensures SpentFrom(s, AfterSettling(s, pre), pre)
  {
  }

  function AnswerBefore(event: Event): PrePrompt {
    match event
    case Ui(_, pre) => pre
    case RunEnded(_, _, pre) => pre
    case _ => NotCompacted
  }

  /** A turn spends more than its allowance exactly if that is nothing and the context was
      compacted before the prompt; no later step of the turn changes this. */
  lemma OverspentIff(maxRetries: nat, s: State, event: Event)
    requires AtLoopHead(maxRetries, s) && Enabled(s, event)
    ensures SpentFrom(s, Step(maxRetries, s, event), AnswerBefore(event))
  {
    match event {
      case Ui(action, pre) => ActionSpends(s, action, pre);
      case RunEnded(end, reactive, pre) =>
        SettleSpends(maxRetries, s, end, reactive);
        DrainSpends(SettleRun(maxRetries, s.(run := None), s.run.value, end, reactive), pre);
      case UiClosed =>
      case DeadlineFires =>
      case GateConsulted(_) =>
    }
  }

  /** With no allowance at all a turn can still compact once, before the prompt. */
  lemma BudgetIsNotAskedBeforeThePrompt(maxRetries: nat, model: ModelId, text: string)
    ensures var events := [Ui(SubmitPrompt(text), CompactedFirst)];
            var end := After(maxRetries, Initial(false, 0, model, []), events);
            end.Some? && end.value.hist.turnMax == 0 && end.value.hist.automatic == 1
  {
    var start := Initial(false, 0, model, []);
    var event := Ui(SubmitPrompt(text), CompactedFirst);
    assert [event][..0] == [];
    assert After(maxRetries, start, []) == Some(start);
    assert Enabled(start, event);
    assert After(maxRetries, start, [event]) == Some(Step(maxRetries, start, event));
  }

  // ----- Outcomes -----

  /** The prompt an outcome was produced for, counted from 1. */
  function TurnOf(starts: seq<RunStart>, outcome: LogItem): nat {
    if 0 <= RunOf(outcome) < |starts| then starts[RunOf(outcome)].turn else 0
  }

  /** Whatever happens, outcomes come from distinct runs for distinct prompts, in the order
      these were started, and a breadcrumb carries the model its run was started with. */
  lemma OutcomesNameTheirRuns(maxRetries: nat, start: State, events: seq<Event>, end: State)
    requires Reaches(maxRetries, start, events, end)
    ensures forall i, j :: 0 <= i < j < |end.hist.outcomes| ==>
              && RunOf(end.hist.outcomes[i]) < RunOf(end.hist.outcomes[j])
              && TurnOf(end.hist.starts, end.hist.outcomes[i]) < TurnOf(end.hist.starts, end.hist.outcomes[j])
    ensures forall i :: 0 <= i < |end.hist.outcomes| ==>
              && 0 <= RunOf(end.hist.outcomes[i]) < |end.hist.starts|
              && 1 <= TurnOf(end.hist.starts, end.hist.outcomes[i]) <= |end.hist.prompts|
    ensures forall i :: 0 <= i < |end.hist.outcomes| && end.hist.outcomes[i].Breadcrumb? ==>
              && end.hist.outcomes[i].run < |end.hist.starts|
              && end.hist.outcomes[i].model == end.hist.starts[end.hist.outcomes[i].run].model
  {
    ReachedIsAtLoopHead(maxRetries, start, events, end);
  }

  /** The policy will resume this run: a retry that no queued prompt overtakes, or a first
      overflow for which there is budget and something to compact. */
  predicate Resumes(maxRetries: nat, s: State, error: ProviderError, reactive: Reactive)
    requires s.run.Some?
  {
    || (s.run.value.attempt < RetryCap(maxRetries, error) && s.queue == [])
    || (error.ContextOverflow? && !s.run.value.alreadyCompacted && s.budget > 0 && reactive.Reduced?)
  }

  lemma SettledLog(maxRetries: nat, s: State, end: RunEnd, reactive: Reactive)
    requires s.run.Some? && s.retry.Idle? && end.Finished?
    ensures var next := SettleRun(maxRetries, s.(run := None), s.run.value, end, reactive);
            var resumed := end.error.Some? && Resumes(maxRetries, s, end.error.value, reactive);
            && next.log == (if resumed then s.log else s.log + [RunOutput(s.run.value.serial, end.output)])
            && (resumed <==> Busy(next))
            && next.queue == s.queue
  {
    if end.error.Some? {
      DecideUsesUpAllowance(maxRetries, end.error.value, s.run.value.attempt, s.run.value.alreadyCompacted, s.budget);
    }
  }

  /** A run that returns is persisted as it is, ahead of the next prompt, unless it is
      resumed; then nothing is persisted and the queue is left alone. */
  lemma RunIsPersistedUnlessResumed(maxRetries: nat, s: State, end: RunEnd, reactive: Reactive, pre: PrePrompt)
    requires Base(maxRetries, s) && s.run.Some? && end.Finished?
    ensures var next := OnRunEnded(maxRetries, s, end, reactive, pre);
            var answered := s.log + [RunOutput(s.run.value.serial, end.output)];
            if end.error.Some? && Resumes(maxRetries, s, end.error.value, reactive)
            then next.log == s.log && next.queue == s.queue && Busy(next)
            else next.log == if s.queue == [] then answered else answered + [UserPrompt(s.queue[0].text)]
  {
    SettledLog(maxRetries, s, end, reactive);
  }
}
