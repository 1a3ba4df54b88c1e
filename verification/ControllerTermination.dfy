/** Left alone, the controller comes to rest: every retry and every reactive compaction uses
    something up, and each queued prompt is started once. */
module ControllerTermination {
  import opened Protocol
  import opened RetryPolicy
  import opened Controller
  import opened ControllerProofs

  /** Runs and deadlines still to come for a run at this attempt. */
  function RunRank(maxRetries: nat, attempt: nat, alreadyCompacted: bool): int {
    1 + 2 * (maxRetries - attempt) + (1 - Count(alreadyCompacted))
  }

  /** Bounds the run ends and deadlines that can follow, without new user actions. */
  function Rank(maxRetries: nat, s: State): int {
    |s.queue| * (2 * maxRetries + 3)
    + (match s.run
       case None => 0
       case Some(run) => RunRank(maxRetries, run.attempt, run.alreadyCompacted))
    + (match s.retry
       case Idle => 0
       case Armed(attempt, alreadyCompacted, _, _, _) => 1 + RunRank(maxRetries, attempt, alreadyCompacted))
  }

  /** Bounds the runs that can still be started without new user actions. */
  function RunsLeft(maxRetries: nat, s: State): int {
    |s.queue| * (maxRetries + 2)
    + (match s.run
       case None => 0
       case Some(run) => maxRetries - run.attempt + 1 - Count(run.alreadyCompacted))
    + (match s.retry
       case Idle => 0
       case Armed(attempt, alreadyCompacted, _, _, _) =>
         maxRetries - attempt + 2 - Count(alreadyCompacted))
  }

  predicate Internal(event: Event) {
    !event.Ui?
  }

  predicate Progress(event: Event) {
    event.RunEnded? || event.DeadlineFires?
  }

  /** Left to use: events, and runs. */
  ghost predicate UsesUp(maxRetries: nat, s: State, next: State, events: nat) {
    && Rank(maxRetries, next) + events <= Rank(maxRetries, s)
    && next.runs + RunsLeft(maxRetries, next) <= s.runs + RunsLeft(maxRetries, s)
  }

  lemma SettleUsesUp(maxRetries: nat, s: State, end: RunEnd, reactive: Reactive)
    requires s.run.Some? && s.retry.Idle? && s.run.value.attempt <= maxRetries
    ensures UsesUp(maxRetries, s, SettleRun(maxRetries, s.(run := None), s.run.value, end, reactive), 1)
  {
    if end.Finished? && end.error.Some? {
      DecideUsesUpAllowance(maxRetries, end.error.value, s.run.value.attempt, s.run.value.alreadyCompacted, s.budget);
    }
  }

  lemma DrainUsesUp(maxRetries: nat, s: State, pre: PrePrompt)
    requires Quiet(s)
    ensures UsesUp(maxRetries, s, DrainQueue(s, pre), 0)
  {
    if s.queue != [] {
      var n := |s.queue|;
      assert n * (2 * maxRetries + 3) == (n - 1) * (2 * maxRetries + 3) + (2 * maxRetries + 3);
      assert n * (maxRetries + 2) == (n - 1) * (maxRetries + 2) + (maxRetries + 2);
    }
  }

  lemma RunEndUsesUp(maxRetries: nat, s: State, end: RunEnd, reactive: Reactive, pre: PrePrompt)
    requires Base(maxRetries, s) && s.run.Some?
    ensures UsesUp(maxRetries, s, OnRunEnded(maxRetries, s, end, reactive, pre), 1)
  {
    SettleUsesUp(maxRetries, s, end, reactive);
    var settled := SettleRun(maxRetries, s.(run := None), s.run.value, end, reactive);
    if Quiet(settled) {
      DrainUsesUp(maxRetries, settled, pre);
    }
  }

  lemma ClosingUsesUp(maxRetries: nat, s: State)
    requires Base(maxRetries, s)
    ensures UsesUp(maxRetries, s, OnUiClosed(s), 0)
  {
  }

  lemma StepUsesUp(maxRetries: nat, s: State, event: Event)
    requires AtLoopHead(maxRetries, s) && Enabled(s, event) && Internal(event)
    ensures UsesUp(maxRetries, s, Step(maxRetries, s, event), Count(Progress(event)))
  {
    match event {
      case UiClosed => ClosingUsesUp(maxRetries, s);
      case RunEnded(end, reactive, pre) => RunEndUsesUp(maxRetries, s, end, reactive, pre);
      case DeadlineFires =>
      case GateConsulted(_) =>
    }
  }

  function ProgressIn(events: seq<Event>): nat {
    if events == [] then 0
    else ProgressIn(events[..|events| - 1]) + Count(Progress(events[|events| - 1]))
  }

  lemma RanksAreBounds(maxRetries: nat, s: State)
    requires AtLoopHead(maxRetries, s)
    ensures 0 <= Rank(maxRetries, s) && (Rank(maxRetries, s) == 0 <==> !Busy(s))
    ensures 0 <= RunsLeft(maxRetries, s) <= (|s.queue| + 1) * (maxRetries + 2)
  {
    assert (|s.queue| + 1) * (maxRetries + 2) == |s.queue| * (maxRetries + 2) + (maxRetries + 2);
    assert |s.queue| * (2 * maxRetries + 3) >= 0 && |s.queue| * (maxRetries + 2) >= 0;
  }

  lemma {:induction false} RunUsesUp(maxRetries: nat, s: State, events: seq<Event>)
    requires AtLoopHead(maxRetries, s)
    requires forall i :: 0 <= i < |events| ==> Internal(events[i])
    requires After(maxRetries, s, events).Some? && !After(maxRetries, s, events).value.status.Crashed?
    ensures UsesUp(maxRetries, s, After(maxRetries, s, events).value, ProgressIn(events))
    decreases |events|
  {
    if events != [] {
      var n := |events| - 1;
      var before := After(maxRetries, s, events[..n]).value;
      EveryReachableState(maxRetries, s, events[..n]);
      RunUsesUp(maxRetries, s, events[..n]);
      StepUsesUp(maxRetries, before, events[n]);
    }
  }

  /** Without further user actions only `Rank` run ends and deadlines can happen, and at
      most `maxRetries + 2` runs start for the prompt in flight and for each queued one. */
  lemma ComesToRest(maxRetries: nat, s: State, events: seq<Event>, end: State)
    requires AtLoopHead(maxRetries, s) && !end.status.Crashed?
    requires forall i :: 0 <= i < |events| ==> Internal(events[i])
    requires After(maxRetries, s, events) == Some(end)
    ensures ProgressIn(events) <= Rank(maxRetries, s)
    ensures end.runs - s.runs <= (|s.queue| + 1) * (maxRetries + 2)
    ensures ProgressIn(events) == Rank(maxRetries, s) ==> !Busy(end)
  {
    RunUsesUp(maxRetries, s, events);
    EveryReachableState(maxRetries, s, events);
    RanksAreBounds(maxRetries, s);
    RanksAreBounds(maxRetries, end);
  }

  /** Short of rest the controller is never stuck: while something is in flight a run can
      end or a deadline fire; otherwise no prompt is left waiting. */
  lemma NeverStuck(maxRetries: nat, s: State)
    requires AtLoopHead(maxRetries, s) && s.status.Serving?
    ensures Busy(s) <==> Enabled(s, DeadlineFires) || Enabled(s, RunEnded(Panicked, NotReduced, NotCompacted))
    ensures !Busy(s) ==> s.queue == []
  {
  }

  lemma TailStops(s: State)
    ensures LoopTail(s).status.Serving? && s.quitting ==> Busy(s)
    ensures LoopTail(s).quitting == s.quitting && Busy(LoopTail(s)) == Busy(s)
  {
  }

  lemma ActionKeepsQuitting(s: State, action: UiAction, pre: PrePrompt)
    requires s.quitting
    ensures HandleAction(s, action, pre).quitting
  {
  }

  lemma RunEndKeepsQuitting(maxRetries: nat, s: State, end: RunEnd, reactive: Reactive, pre: PrePrompt)
    requires s.quitting && s.run.Some?
    ensures OnRunEnded(maxRetries, s, end, reactive, pre).quitting
  {
  }

  /** Quit is for good, and from then on the controller only serves what is in flight: at
      rest it has stopped. */
  lemma QuitLeadsToStop(maxRetries: nat, s: State, event: Event)
    requires Enabled(s, event) && (s.quitting || event == UiClosed || (event.Ui? && event.action.Quit?))
    ensures var next := Step(maxRetries, s, event);
            next.status.Serving? ==> next.quitting && Busy(next)
  {
    match event {
      case Ui(action, pre) =>
        if s.quitting {
          ActionKeepsQuitting(s, action, pre);
        }
      case RunEnded(end, reactive, pre) => RunEndKeepsQuitting(maxRetries, s, end, reactive, pre);
      case UiClosed =>
      case DeadlineFires =>
      case GateConsulted(_) =>
    }
    TailStops(Handle(maxRetries, s, event));
  }
}
