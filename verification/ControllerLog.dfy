/** What becomes of every prompt: what a session log owes after any events, exactly when it
    owes nothing, and what a fatal error leaves behind. */
module ControllerLog {
  import opened Protocol
  import opened RetryPolicy
  import opened Controller
  import opened ControllerProofs
  import opened ControllerResults
  import AgentRunRequests

  // ----- What a log owes -----

  /** Prompts of a log that nothing will answer, and its outcomes that answer none. */
  datatype Tally = Tally(lost: nat, strays: nat)

  function TallyOf(s: State): Tally {
    Tally(s.hist.lost, s.hist.strays)
  }

  /** The event replaces the session. */
  predicate Moves(s: State, event: Event) {
    event.Ui? && event.action.MoveSession? && event.action.outcome.Applied? && s.run.None?
  }

  predicate Panics(event: Event) {
    event.RunEnded? && event.end.Panicked?
  }

  /** A panic loses a prompt; a move starts over with what the new log owes. */
  function Owed(s: State, tally: Tally, event: Event): Tally {
    if Panics(event) then tally.(lost := tally.lost + 1)
    else if Moves(s, event) then
      Tally(LostIn(event.action.log, s.retry.Armed?), StraysIn(event.action.log, s.retry.Armed?))
    else tally
  }

  function OwedAfter(maxRetries: nat, start: State, events: seq<Event>): Tally
    requires After(maxRetries, start, events).Some?
    decreases |events|
  {
    if events == [] then Tally(Unanswered(start.log), Strays(start.log))
    else
      var n := |events| - 1;
      Owed(After(maxRetries, start, events[..n]).value, OwedAfter(maxRetries, start, events[..n]), events[n])
  }

  lemma DrainKeepsTally(s: State, pre: PrePrompt)
    ensures TallyOf(AfterSettling(s, pre)) == TallyOf(s) && AfterSettling(s, pre).hist.panics == s.hist.panics
  {
  }

  lemma RunEndTally(maxRetries: nat, s: State, end: RunEnd, reactive: Reactive, pre: PrePrompt)
    requires s.run.Some?
    ensures var next := OnRunEnded(maxRetries, s, end, reactive, pre);
            && TallyOf(next) == Tally(s.hist.lost + Count(end.Panicked?), s.hist.strays)
            && next.hist.panics == s.hist.panics + Count(end.Panicked?)
  {
    DrainKeepsTally(SettleRun(maxRetries, s.(run := None), s.run.value, end, reactive), pre);
  }

  lemma ActionTally(s: State, action: UiAction, pre: PrePrompt)
    ensures TallyOf(HandleAction(s, action, pre)) == Owed(s, TallyOf(s), Ui(action, pre))
    ensures HandleAction(s, action, pre).hist.panics == s.hist.panics
  {
  }

  lemma StepTally(maxRetries: nat, s: State, event: Event)
    requires Enabled(s, event)
    ensures TallyOf(Step(maxRetries, s, event)) == Owed(s, TallyOf(s), event)
    ensures Step(maxRetries, s, event).hist.panics == s.hist.panics + Count(Panics(event))
  {
    match event {
      case Ui(action, pre) => ActionTally(s, action, pre);
      case RunEnded(end, reactive, pre) => RunEndTally(maxRetries, s, end, reactive, pre);
      case UiClosed =>
      case DeadlineFires =>
      case GateConsulted(_) =>
    }
  }

  function PanicsIn(events: seq<Event>): nat {
    if events == [] then 0 else PanicsIn(events[..|events| - 1]) + Count(Panics(events[|events| - 1]))
  }

  lemma {:induction false} RunTally(maxRetries: nat, start: State, events: seq<Event>)
    requires After(maxRetries, start, events).Some?
    requires TallyOf(start) == Tally(Unanswered(start.log), Strays(start.log))
    ensures TallyOf(After(maxRetries, start, events).value) == OwedAfter(maxRetries, start, events)
    ensures After(maxRetries, start, events).value.hist.panics == start.hist.panics + PanicsIn(events)
    decreases |events|
  {
    if events != [] {
      var n := |events| - 1;
      RunTally(maxRetries, start, events[..n]);
      StepTally(maxRetries, After(maxRetries, start, events[..n]).value, events[n]);
    }
  }

  lemma BeginsOwing(start: State)
    requires Begins(start)
    ensures TallyOf(start) == Tally(Unanswered(start.log), Strays(start.log)) && start.hist.panics == 0
  {
  }

  /** After any events the log's unanswered prompts are those it owes by what happened, and
      the one in flight. */
  lemma LogOwesExactly(maxRetries: nat, start: State, events: seq<Event>, end: State)
    requires Reaches(maxRetries, start, events, end)
    ensures Unanswered(end.log) == OwedAfter(maxRetries, start, events).lost + Count(Busy(end))
    ensures Strays(end.log) == OwedAfter(maxRetries, start, events).strays
  {
    ReachedIsAtLoopHead(maxRetries, start, events, end);
    BeginsOwing(start);
    RunTally(maxRetries, start, events);
  }

  /** No event from the `k`th on replaces the session. */
  ghost predicate StaysFrom(maxRetries: nat, start: State, events: seq<Event>, k: nat) {
    forall i :: k <= i < |events| && After(maxRetries, start, events[..i]).Some?
      ==> !Moves(After(maxRetries, start, events[..i]).value, events[i])
  }

  lemma PrefixStays(maxRetries: nat, start: State, events: seq<Event>, n: nat, k: nat)
    requires StaysFrom(maxRetries, start, events, k) && n <= |events|
    ensures StaysFrom(maxRetries, start, events[..n], k)
  {
    var prefix := events[..n];
    forall i | k <= i < n && After(maxRetries, start, prefix[..i]).Some?
      ensures !Moves(After(maxRetries, start, prefix[..i]).value, prefix[i])
    {
      assert prefix[..i] == events[..i] && prefix[i] == events[i];
    }
  }

  lemma OwedWithoutMove(maxRetries: nat, start: State, events: seq<Event>)
    requires After(maxRetries, start, events).Some? && events != []
    ensures After(maxRetries, start, events[..|events| - 1]).Some?
    ensures var n := |events| - 1;
            var before := OwedAfter(maxRetries, start, events[..n]);
            !Moves(After(maxRetries, start, events[..n]).value, events[n]) ==>
              OwedAfter(maxRetries, start, events) == before.(lost := before.lost + Count(Panics(events[n])))
  {
  }

  lemma {:induction false} OwedSince(maxRetries: nat, start: State, events: seq<Event>, k: nat)
    requires After(maxRetries, start, events).Some? && k <= |events|
    requires StaysFrom(maxRetries, start, events, k)
    ensures After(maxRetries, start, events[..k]).Some?
    ensures var before := OwedAfter(maxRetries, start, events[..k]);
            OwedAfter(maxRetries, start, events) == before.(lost := before.lost + PanicsIn(events[k..]))
    decreases |events|
  {
    if k == |events| {
      assert events[..k] == events && events[k..] == [];
    } else {
      var n := |events| - 1;
      var prefix := events[..n];
      PrefixStays(maxRetries, start, events, n, k);
      OwedWithoutMove(maxRetries, start, events);
      assert !Moves(After(maxRetries, start, prefix).value, events[n]);
      OwedSince(maxRetries, start, prefix, k);
      assert prefix[..k] == events[..k];
      PanicsSnoc(events, k);
    }
  }

  lemma PanicsSnoc(events: seq<Event>, k: nat)
    requires k < |events|
    ensures var n := |events| - 1;
            PanicsIn(events[k..]) == PanicsIn(events[..n][k..]) + Count(Panics(events[n]))
  {
    var n, suffix := |events| - 1, events[k..];
    assert suffix[..|suffix| - 1] == events[..n][k..] && suffix[|suffix| - 1] == events[n];
  }

  /** Without a move: the prompts unanswered at the start, one for each panic, and the one in
      flight. */
  lemma UnansweredWithoutMoves(maxRetries: nat, start: State, events: seq<Event>, end: State)
    requires Reaches(maxRetries, start, events, end) && StaysFrom(maxRetries, start, events, 0)
    ensures Unanswered(end.log) == Unanswered(start.log) + PanicsIn(events) + Count(Busy(end))
    ensures Strays(end.log) == Strays(start.log)
  {
    LogOwesExactly(maxRetries, start, events, end);
    OwedSince(maxRetries, start, events, 0);
    assert events[..0] == [] && events[0..] == events;
  }

  /** After the last move, event `m`: the prompts unanswered in the log it moved to, save one
      that a misplaced breadcrumb answers; one for each panic since; and the one in flight. */
  lemma UnansweredSinceMove(maxRetries: nat, start: State, events: seq<Event>, end: State, m: nat)
    requires Reaches(maxRetries, start, events, end) && m < |events|
    requires After(maxRetries, start, events[..m]).Some?
    requires Moves(After(maxRetries, start, events[..m]).value, events[m])
    requires StaysFrom(maxRetries, start, events, m + 1)
    ensures var armed := After(maxRetries, start, events[..m]).value.retry.Armed?;
            var log := events[m].action.log;
            && Unanswered(end.log) + Count(armed && Open(log))
               == Unanswered(log) + PanicsIn(events[m + 1..]) + Count(Busy(end))
            && Strays(end.log) == Strays(log) + Count(armed && !Open(log))
  {
    LogOwesExactly(maxRetries, start, events, end);
    OwedSince(maxRetries, start, events, m + 1);
    var through := events[..m + 1];
    assert through[..m] == events[..m] && through[m] == events[m];
  }

  // ----- When every prompt is answered -----

  /** Prompt, outcome, prompt, outcome, ... */
  predicate Alternates(log: seq<LogItem>) {
    forall i :: 0 <= i < |log| ==> (log[i].UserPrompt? <==> i % 2 == 0)
  }

  lemma {:induction false} AlternatesIff(log: seq<LogItem>)
    ensures Alternates(log) <==> Gaps(log) == 0 && Strays(log) == 0
    ensures Alternates(log) ==> (Open(log) <==> |log| % 2 == 1)
  {
    if log != [] {
      var n := |log| - 1;
      AlternatesIff(log[..n]);
      if Alternates(log) {
        assert Alternates(log[..n]);
        assert log[n].UserPrompt? <==> n % 2 == 0;
      } else if Alternates(log[..n]) {
        assert Open(log[..n]) ==> log[n - 1].UserPrompt?;
        assert !(log[n].UserPrompt? <==> n % 2 == 0);
      }
    }
  }

  /** The log strictly alternates prompts with outcomes, its last prompt open exactly while
      something is in flight, if and only if it owes nothing. */
  lemma EveryPromptIsAnsweredIff(maxRetries: nat, start: State, events: seq<Event>, end: State)
    requires Reaches(maxRetries, start, events, end)
    ensures Alternates(end.log) && (Open(end.log) <==> Busy(end))
       <==> OwedAfter(maxRetries, start, events) == Tally(0, 0)
  {
    LogOwesExactly(maxRetries, start, events, end);
    ReachedIsAtLoopHead(maxRetries, start, events, end);
    AlternatesIff(end.log);
  }

  /** At rest no prompt is unanswered exactly if none is owed. */
  lemma RestingLogIsAnsweredIff(maxRetries: nat, start: State, events: seq<Event>, end: State)
    requires Reaches(maxRetries, start, events, end) && !Busy(end)
    ensures Unanswered(end.log) == 0 <==> OwedAfter(maxRetries, start, events).lost == 0
  {
    LogOwesExactly(maxRetries, start, events, end);
  }

  /** Over all sessions together: every prompt has one outcome, a panic, or is in flight. */
  lemma EveryPromptIsAccountedFor(maxRetries: nat, start: State, events: seq<Event>, end: State)
    requires Reaches(maxRetries, start, events, end)
    ensures |end.hist.prompts| == |end.hist.outcomes| + PanicsIn(events) + Count(Busy(end))
  {
    ReachedIsAtLoopHead(maxRetries, start, events, end);
    BeginsOwing(start);
    RunTally(maxRetries, start, events);
  }

  // ----- Whose outcome it is -----

  /** The prompts with their outcomes in turn; the last one may still be without. */
  function Exchanges(prompts: seq<string>, outcomes: seq<LogItem>): seq<LogItem>
    requires |outcomes| <= |prompts| <= |outcomes| + 1
    decreases |prompts| + |outcomes|
  {
    if prompts == [] then []
    else if |outcomes| < |prompts| then
      Exchanges(prompts[..|prompts| - 1], outcomes) + [UserPrompt(prompts[|prompts| - 1])]
    else Exchanges(prompts, outcomes[..|outcomes| - 1]) + [outcomes[|outcomes| - 1]]
  }

  /** The log is what it was, and the exchanges since; `open` of them. */
  ghost predicate Logged(log: seq<LogItem>, hist: Controller.History, before: seq<LogItem>, open: bool) {
    && |hist.prompts| == |hist.outcomes| + Count(open)
    && log == before + Exchanges(hist.prompts, hist.outcomes)
  }

  lemma PromptLogged(log: seq<LogItem>, hist: Controller.History, before: seq<LogItem>, text: string)
    requires Logged(log, hist, before, false)
    ensures Logged(log + [UserPrompt(text)], hist.(prompts := hist.prompts + [text]), before, true)
  {
    var prompts := hist.prompts + [text];
    assert prompts[..|prompts| - 1] == hist.prompts;
    Regroup(before, Exchanges(hist.prompts, hist.outcomes), [UserPrompt(text)]);
  }

  lemma OutcomeLogged(log: seq<LogItem>, hist: Controller.History, before: seq<LogItem>, item: LogItem)
    requires Logged(log, hist, before, true)
    ensures Logged(log + [item], hist.(outcomes := hist.outcomes + [item]), before, false)
  {
    var outcomes := hist.outcomes + [item];
    assert outcomes[..|outcomes| - 1] == hist.outcomes;
    Regroup(before, Exchanges(hist.prompts, hist.outcomes), [item]);
  }

  ghost predicate InStep(s: State, before: seq<LogItem>) {
    Logged(s.log, s.hist, before, Busy(s))
  }

  lemma AbortLogged(s: State, before: seq<LogItem>)
    requires InStep(s, before) && !(s.run.Some? && s.retry.Armed?)
    ensures InStep(AbortPendingRetry(s), before)
  {
    if s.retry.Armed? {
      OutcomeLogged(s.log, s.hist, before, Breadcrumb(s.retry.serial, s.retry.model, s.retry.error));
    }
  }

  lemma StartLogged(s: State, text: string, pre: PrePrompt, before: seq<LogItem>)
    requires InStep(s, before) && s.run.None? && !pre.SummaryFailed?
    ensures InStep(StartPromptRun(s, text, pre), before)
  {
    var idle := AbortPendingRetry(s);
    AbortLogged(s, before);
    PromptLogged(idle.log, idle.hist, before, text);
  }

  lemma SettleLogged(maxRetries: nat, s: State, end: RunEnd, reactive: Reactive, before: seq<LogItem>)
    requires InStep(s, before) && s.run.Some? && s.retry.Idle? && end.Finished?
    ensures InStep(SettleRun(maxRetries, s.(run := None), s.run.value, end, reactive), before)
  {
    OutcomeLogged(s.log, s.hist, before, RunOutput(s.run.value.serial, end.output));
    SettledLog(maxRetries, s, end, reactive);
  }

  lemma RunEndLogged(
    maxRetries: nat, s: State, end: RunEnd, reactive: Reactive, pre: PrePrompt, before: seq<LogItem>)
    requires InStep(s, before) && s.run.Some? && s.retry.Idle? && end.Finished?
    requires !OnRunEnded(maxRetries, s, end, reactive, pre).status.Crashed?
    ensures InStep(OnRunEnded(maxRetries, s, end, reactive, pre), before)
  {
    var settled := SettleRun(maxRetries, s.(run := None), s.run.value, end, reactive);
    SettleLogged(maxRetries, s, end, reactive, before);
    if Quiet(settled) && settled.queue != [] {
      var popped := settled.(
        queue := settled.queue[1..], hist := settled.hist.(drained := settled.hist.drained + [settled.queue[0]]));
      StartLogged(popped, settled.queue[0].text, pre, before);
    }
  }

  lemma ActionLogged(s: State, action: UiAction, pre: PrePrompt, before: seq<LogItem>)
    requires InStep(s, before) && !(s.run.Some? && s.retry.Armed?)
    requires !Moves(s, Ui(action, pre)) && !HandleAction(s, action, pre).status.Crashed?
    ensures InStep(HandleAction(s, action, pre), before)
  {
    if PromptAction(action) && s.run.None? {
      StartLogged(s, action.text, pre, before);
    } else if action.Quit? {
      AbortLogged(CancelRun(s.(quitting := true)), before);
    } else if action.ChangeSettings? {
      AbortLogged(s.(model := action.model, maxPerTurn := action.maxPerTurn), before);
    } else {
      AbortLogged(s, before);
    }
  }

  lemma StepLogged(maxRetries: nat, s: State, event: Event, before: seq<LogItem>)
    requires InStep(s, before) && !(s.run.Some? && s.retry.Armed?)
    requires Enabled(s, event) && !Panics(event) && !Moves(s, event)
    requires !Step(maxRetries, s, event).status.Crashed?
    ensures InStep(Step(maxRetries, s, event), before)
  {
    match event {
      case Ui(action, pre) => ActionLogged(s, action, pre, before);
      case UiClosed => AbortLogged(s, before);
      case RunEnded(end, reactive, pre) => RunEndLogged(maxRetries, s, end, reactive, pre, before);
      case DeadlineFires =>
      case GateConsulted(_) =>
    }
  }

  /** No run panics, and the session is not replaced. */
  ghost predicate Undisturbed(maxRetries: nat, start: State, events: seq<Event>) {
    StaysFrom(maxRetries, start, events, 0) && forall i :: 0 <= i < |events| ==> !Panics(events[i])
  }

  lemma {:induction false} RunLogged(maxRetries: nat, start: State, events: seq<Event>, end: State)
    requires Reaches(maxRetries, start, events, end) && Undisturbed(maxRetries, start, events)
    ensures InStep(end, start.log)
    decreases |events|
  {
    if events == [] {
      assert start.log + [] == start.log;
    } else {
      var n := |events| - 1;
      var prefix, before := events[..n], After(maxRetries, start, events[..n]).value;
      PrefixStays(maxRetries, start, events, n, 0);
      RunLogged(maxRetries, start, prefix, before);
      OneThingInFlight(maxRetries, start, prefix, before);
      StepLogged(maxRetries, before, events[n], start.log);
    }
  }

  /** Numbers that ascend from at least 1 and stop at their count are 1, 2, 3, ... */
  lemma {:induction false} AscendingAreAll(turns: seq<nat>, k: nat)
    requires forall i, j :: 0 <= i < j < |turns| ==> turns[i] < turns[j]
    requires forall i :: 0 <= i < |turns| ==> 1 <= turns[i] <= |turns|
    requires k < |turns|
    ensures turns[k] == k + 1
  {
    AtLeast(turns, k);
    AtMost(turns, k);
  }

  lemma {:induction false} AtLeast(turns: seq<nat>, k: nat)
    requires forall i, j :: 0 <= i < j < |turns| ==> turns[i] < turns[j]
    requires k < |turns| && 1 <= turns[0]
    ensures k + 1 <= turns[k]
  {
    if k > 0 {
      AtLeast(turns, k - 1);
      assert turns[k - 1] < turns[k];
    }
  }

  lemma {:induction false} AtMost(turns: seq<nat>, k: nat)
    requires forall i, j :: 0 <= i < j < |turns| ==> turns[i] < turns[j]
    requires k < |turns| && turns[|turns| - 1] <= |turns|
    ensures turns[k] <= k + 1
    decreases |turns| - k
  {
    if k + 1 < |turns| {
      AtMost(turns, k + 1);
      assert turns[k] < turns[k + 1];
    }
  }

  lemma TurnsAreAll(maxRetries: nat, s: State)
    requires AtLoopHead(maxRetries, s) && |s.hist.prompts| == |s.hist.outcomes| + Count(Busy(s))
    ensures forall k :: 0 <= k < |s.hist.outcomes| ==> TurnOf(s.hist.starts, s.hist.outcomes[k]) == k + 1
  {
    var outcomes := s.hist.outcomes;
    var turns := seq(|outcomes|, i requires 0 <= i < |outcomes| => TurnOf(s.hist.starts, outcomes[i]));
    forall k | 0 <= k < |outcomes| ensures TurnOf(s.hist.starts, outcomes[k]) == k + 1 {
      AscendingAreAll(turns, k);
      assert turns[k] == k + 1;
    }
  }

  /** The log grows by exactly the prompts, each followed by its outcome, and the `k`th
      outcome comes from a run that was started for the `k`th prompt. */
  lemma EachOutcomeFollowsItsPrompt(maxRetries: nat, start: State, events: seq<Event>, end: State)
    requires Reaches(maxRetries, start, events, end) && Undisturbed(maxRetries, start, events)
    ensures |end.hist.prompts| == |end.hist.outcomes| + Count(Busy(end))
    ensures end.log == start.log + Exchanges(end.hist.prompts, end.hist.outcomes)
    ensures forall k :: 0 <= k < |end.hist.outcomes| ==> TurnOf(end.hist.starts, end.hist.outcomes[k]) == k + 1
  {
    RunLogged(maxRetries, start, events, end);
    ReachedIsAtLoopHead(maxRetries, start, events, end);
    TurnsAreAll(maxRetries, end);
  }

  // ----- The messages in the log -----

  /** The error text a breadcrumb shows is a rendering of the error. */
  function ItemMessages(item: LogItem, show: ProviderError -> string): seq<Message> {
    match item
    case UserPrompt(text) => [User([Text(text)])]
    case RunOutput(_, messages) => messages
    case Breadcrumb(_, model, error) =>
      [Assistant(AssistantMessage([Text(show(error))], Error, Some(show(error)), model.provider, model.name, None))]
  }

  function LogMessages(log: seq<LogItem>, show: ProviderError -> string): seq<Message> {
    if log == [] then [] else LogMessages(log[..|log| - 1], show) + ItemMessages(log[|log| - 1], show)
  }

  /** An assistant message stands strictly between positions `i` and `j`. */
  ghost predicate AssistantBetween(messages: seq<Message>, i: int, j: int)
    requires -1 <= i && j <= |messages|
  {
    exists k :: i < k < j && messages[k].Assistant?
  }

  /** Every user message has an assistant before the next one, and with `open` false the
      last one too. */
  ghost predicate UsersAnswered(messages: seq<Message>, open: bool) {
    && (forall i, j :: 0 <= i < j < |messages| && messages[i].User? && messages[j].User?
          ==> AssistantBetween(messages, i, j))
    && (!open ==> forall i :: 0 <= i < |messages| && messages[i].User? ==> AssistantBetween(messages, i, |messages|))
  }

  lemma PromptKeepsAnswered(messages: seq<Message>, user: Message)
    requires UsersAnswered(messages, false) && user.User?
    ensures UsersAnswered(messages + [user], true)
  {
    var next := messages + [user];
    forall i, j | 0 <= i < j < |next| && next[i].User? && next[j].User? ensures AssistantBetween(next, i, j) {
      if j < |messages| {
        assert AssistantBetween(messages, i, j);
      } else {
        assert AssistantBetween(messages, i, |messages|);
      }
      var k :| i < k < j && messages[k].Assistant?;
      assert next[k].Assistant?;
    }
  }

  lemma OutcomeAnswers(messages: seq<Message>, output: seq<Message>)
    requires UsersAnswered(messages, true) && output != [] && output[0].Assistant?
    requires forall i :: 0 <= i < |output| ==> !output[i].User?
    ensures UsersAnswered(messages + output, false)
  {
    var next := messages + output;
    forall i, j | 0 <= i < j < |next| && next[i].User? && next[j].User? ensures AssistantBetween(next, i, j) {
      assert j < |messages|;
      assert AssistantBetween(messages, i, j);
      var k :| i < k < j && messages[k].Assistant?;
      assert next[k].Assistant?;
    }
    forall i | 0 <= i < |next| && next[i].User? ensures AssistantBetween(next, i, |next|) {
      assert next[|messages|].Assistant?;
    }
  }

  lemma {:induction false} AlternatingLogIsAnswered(log: seq<LogItem>, show: ProviderError -> string)
    requires Alternates(log) && WellFormedLog(log)
    ensures UsersAnswered(LogMessages(log, show), Open(log))
  {
    if log != [] {
      var n := |log| - 1;
      AlternatingLogIsAnswered(log[..n], show);
      AlternatesIff(log[..n]);
      AlternatesIff(log);
      var item := log[n];
      if item.UserPrompt? {
        PromptKeepsAnswered(LogMessages(log[..n], show), User([Text(item.text)]));
      } else {
        var output := ItemMessages(item, show);
        if item.RunOutput? {
          forall i | 0 <= i < |output| ensures !output[i].User? {
            assert output[i] in item.messages;
          }
        }
        OutcomeAnswers(LogMessages(log[..n], show), output);
      }
    }
  }

  /** At the level of messages, in a log that owes nothing: every user message has an
      assistant message before the next user message, and the last one has too unless
      something is in flight. */
  lemma EveryUserMessageIsAnswered(
    maxRetries: nat, start: State, events: seq<Event>, end: State, show: ProviderError -> string)
    requires Reaches(maxRetries, start, events, end) && OwedAfter(maxRetries, start, events) == Tally(0, 0)
    ensures UsersAnswered(LogMessages(end.log, show), Busy(end))
  {
    EveryPromptIsAnsweredIff(maxRetries, start, events, end);
    ReachedIsAtLoopHead(maxRetries, start, events, end);
    AlternatingLogIsAnswered(end.log, show);
  }

  // ----- Fatal errors -----

  /** What ends the controller with an error: a summarizer that fails before a prompt, be it
      submitted or drained from the queue, and a failing command. */
  predicate Fails(maxRetries: nat, s: State, event: Event) {
    match event
    case Ui(action, pre) =>
      if action.ListSessions? then action.failed
      else if s.run.Some? then false
      else if PromptAction(action) then pre.SummaryFailed?
      else if action.CompactNow? then action.failed
      else (action.ChangeSettings? || action.MoveSession?) && action.outcome.Fatal?
    case RunEnded(end, reactive, pre) =>
      && s.run.Some? && s.queue != [] && pre.SummaryFailed?
      && !(end.Finished? && end.error.Some? && Resumes(maxRetries, s, end.error.value, reactive))
    case _ => false
  }

  lemma PromptFailsIff(maxRetries: nat, s: State, action: UiAction, pre: PrePrompt)
    requires s.status.Serving? && PromptAction(action)
    ensures HandleAction(s, action, pre).status.Crashed? <==> Fails(maxRetries, s, Ui(action, pre))
  {
  }

  lemma CommandFailsIff(maxRetries: nat, s: State, action: UiAction, pre: PrePrompt)
    requires s.status.Serving? && !PromptAction(action)
    ensures HandleAction(s, action, pre).status.Crashed? <==> Fails(maxRetries, s, Ui(action, pre))
  {
  }

  lemma RunEndFailsIff(maxRetries: nat, s: State, end: RunEnd, reactive: Reactive, pre: PrePrompt)
    requires s.status.Serving? && s.run.Some? && s.retry.Idle?
    ensures OnRunEnded(maxRetries, s, end, reactive, pre).status.Crashed?
       <==> Fails(maxRetries, s, RunEnded(end, reactive, pre))
  {
    var settled := SettleRun(maxRetries, s.(run := None), s.run.value, end, reactive);
    SettleKeepsQueue(maxRetries, s, end, reactive);
    if end.Finished? {
      SettledLog(maxRetries, s, end, reactive);
    }
    assert Quiet(settled) <==> !Busy(settled);
  }

  lemma CrashesIff(maxRetries: nat, s: State, event: Event)
    requires Enabled(s, event) && !(s.run.Some? && s.retry.Armed?)
    ensures Step(maxRetries, s, event).status.Crashed? <==> Fails(maxRetries, s, event)
  {
    match event {
      case Ui(action, pre) =>
        if PromptAction(action) {
          PromptFailsIff(maxRetries, s, action, pre);
        } else {
          CommandFailsIff(maxRetries, s, action, pre);
        }
      case RunEnded(end, reactive, pre) => RunEndFailsIff(maxRetries, s, end, reactive, pre);
      case UiClosed =>
      case DeadlineFires =>
      case GateConsulted(_) =>
    }
  }

  lemma FailedStart(s: State, text: string)
    requires Unanswered(s.log) == s.hist.lost + Count(s.retry.Armed?) && (s.retry.Armed? ==> Open(s.log))
    ensures var next := StartPromptRun(s, text, SummaryFailed);
            Unanswered(next.log) == next.hist.lost + 1 && Open(next.log)
  {
    if s.retry.Armed? {
      LogAppend(s.log, Breadcrumb(s.retry.serial, s.retry.model, s.retry.error));
    }
    LogAppend(AbortPendingRetry(s).log, UserPrompt(text));
  }

  lemma FailedDrain(maxRetries: nat, s: State, end: RunEnd, reactive: Reactive)
    requires Base(maxRetries, s) && s.run.Some? && s.status.Serving?
    requires end.Finished? ==> AgentRunRequests.AgentOutput(end.output)
    requires Fails(maxRetries, s, RunEnded(end, reactive, SummaryFailed))
    ensures var next := OnRunEnded(maxRetries, s, end, reactive, SummaryFailed);
            Unanswered(next.log) == next.hist.lost + 1 && Open(next.log)
  {
    var settled := SettleRun(maxRetries, s.(run := None), s.run.value, end, reactive);
    SettleKeepsBase(maxRetries, s, end, reactive);
    SettleKeepsQueue(maxRetries, s, end, reactive);
    RunEndFailsIff(maxRetries, s, end, reactive, SummaryFailed);
    var popped := settled.(
      queue := settled.queue[1..], hist := settled.hist.(drained := settled.hist.drained + [settled.queue[0]]));
    FailedStart(popped, settled.queue[0].text);
  }

  /** A fatal error leaves one more prompt unanswered than were lost, exactly if something was
      in flight or the error came between logging a prompt and starting its run. */
  lemma FatalErrorLeavesPromptOpenIff(maxRetries: nat, s: State, event: Event)
    requires AtLoopHead(maxRetries, s) && Enabled(s, event) && Fails(maxRetries, s, event)
    ensures var next := Step(maxRetries, s, event);
            && next.status.Crashed?
            && Unanswered(next.log)
               == next.hist.lost + Count(Busy(s) || (event.Ui? && PromptAction(event.action)))
  {
    CrashesIff(maxRetries, s, event);
    if event.RunEnded? {
      FailedDrain(maxRetries, s, event.end, event.reactive);
    } else if PromptAction(event.action) {
      FailedStart(s, event.action.text);
    }
  }

  /** Over whole runs: what the log of a controller that a fatal error ended owes. */
  lemma CrashedLogOwesExactly(maxRetries: nat, start: State, events: seq<Event>, end: State)
    requires Begins(start) && After(maxRetries, start, events) == Some(end) && end.status.Crashed?
    ensures events != [] && After(maxRetries, start, events[..|events| - 1]).Some?
    ensures var last := events[|events| - 1];
            var before := After(maxRetries, start, events[..|events| - 1]).value;
            Unanswered(end.log)
            == OwedAfter(maxRetries, start, events).lost
               + Count(Busy(before) || (last.Ui? && PromptAction(last.action)))
  {
    var n := |events| - 1;
    var before := After(maxRetries, start, events[..n]).value;
    BeginsOwing(start);
    RunTally(maxRetries, start, events);
    ReachedIsAtLoopHead(maxRetries, start, events[..n], before);
    CrashesIff(maxRetries, before, events[n]);
    FatalErrorLeavesPromptOpenIff(maxRetries, before, events[n]);
  }

  // ----- Moving to another session with a retry armed -----

  /** Moving leaves the old log's last prompt unanswered exactly if a retry was armed, and
      then the breadcrumb lands in the new log: as the answer to its last prompt if that is
      open (in a fork, the copy of the same prompt), as a stray otherwise. */
  lemma MoveStrandsAnArmedRetry(
    maxRetries: nat, s: State, log: seq<LogItem>, model: ModelId, pre: PrePrompt)
    requires AtLoopHead(maxRetries, s) && s.status.Serving? && s.run.None? && WellFormedLog(log)
    ensures Open(s.log) && Unanswered(s.log) > s.hist.lost <==> s.retry.Armed?
    ensures var next := Step(maxRetries, s, Ui(MoveSession(Applied, log, model), pre));
            && (s.retry.Idle? ==> next.log == log)
            && (s.retry.Armed? ==>
                  && next.log == log + [Breadcrumb(s.retry.serial, s.retry.model, s.retry.error)]
                  && Strays(next.log) == Strays(log) + Count(!Open(log))
                  && Unanswered(next.log) == Unanswered(log) - Count(Open(log)))
  {
    if s.retry.Armed? {
      LogAppend(log, Breadcrumb(s.retry.serial, s.retry.model, s.retry.error));
    }
  }
}
