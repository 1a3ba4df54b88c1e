/** What every run sends to the provider, what it leaves behind, and when it stops. */
module AgentRunRequests {
  import opened Protocol
  import opened Sanitizer
  import opened Pairing
  import opened AgentRun
  import Stream = StreamCollector
  import Tools = ToolBatch

  // ----- Requests are well paired -----

  /** The side conditions: what is injected, and what a gate puts in the context's place,
      is itself well paired (messages without calls or results are). */
  predicate InputPaired(input: StepInput) {
    && WellPaired(input.policy) && WellPaired(input.steering) && WellPaired(input.followUps)
    && (input.gate.Compacted? ==> WellPaired(input.gate.messages))
  }

  /** Between steps only the calls about to be executed wait for results. */
  predicate WaitsFor(s: RunState, messages: seq<Message>) {
    Scan([], messages) == Some(if !s.finished && s.intent.ExecuteTools? then Ids(s.intent.calls) else [])
  }

  ghost predicate PairingInvariant(cfg: Config, s: RunState) {
    && WaitsFor(s, s.context) && WaitsFor(s, s.generated)
    && (!s.finished && s.intent.AppendFollowUps? ==> WellPaired(s.intent.messages))
    && (forall request :: request in s.requests ==> PairedOnTheWire(request))
  }

  lemma ScanAssistant(messages: seq<Message>, assistant: AssistantMessage)
    requires WellPaired(messages)
    ensures Scan([], messages + [Assistant(assistant)]) == Some(Owed(Assistant(assistant)))
  {
    ScanConcat([], messages, [Assistant(assistant)]);
    assert [Assistant(assistant)][1..] == [];
  }

  lemma PreparedKeepsPairing(cfg: Config, s: RunState, input: StepInput)
    requires PairingInvariant(cfg, s) && InputPaired(input) && !s.finished && s.intent.ModelTurn?
    ensures PairingInvariant(cfg, Prepared(cfg, s, input))
  {
    WellPairedConcat(s.context, input.policy);
    SanitizedIsPairedOnTheWire(s.context + input.policy, cfg.replay);
  }

  lemma AssistantKeepsPairing(cfg: Config, s: RunState, input: StepInput)
    requires PairingInvariant(cfg, s) && InputPaired(input) && !s.finished && s.intent.ModelTurn?
    ensures PairingInvariant(cfg, AfterAssistant(cfg, Streamed(cfg, s, input.polls),
                                    Stream.Outcome(cfg.stream, input.polls), input.followUps))
  {
    var assistant := Stream.Outcome(cfg.stream, input.polls).assistant;
    ScanAssistant(s.context, assistant);
    ScanAssistant(s.generated, assistant);
    assert Stream.Outcome(cfg.stream, input.polls).error.Some? ==> Failed(assistant);
    assert ExtractToolCalls(assistant.content) == [] ==> Owed(Assistant(assistant)) == [];
  }

  lemma ToolsKeepPairing(cfg: Config, s: RunState, input: StepInput)
    requires PairingInvariant(cfg, s) && InputPaired(input) && Enabled(cfg, s, input)
    requires !s.finished && s.intent.ExecuteTools?
    ensures PairingInvariant(cfg, AfterTools(cfg, s, s.intent.assistant, s.intent.calls, input))
  {
    var results := Tools.BatchResults(cfg.tools, s.intent.calls, input.batch);
    Tools.BatchShape(cfg.tools, s.intent.calls, input.batch);
    ResultsClear(s.intent.calls, results);
    ScanConcat([], s.context, AsMessages(results));
    ScanConcat([], s.generated, AsMessages(results));
    WellPairedConcat(s.context + AsMessages(results), if cfg.steeringHook then input.steering else []);
  }

  lemma NextKeepsPairing(cfg: Config, s: RunState, input: StepInput)
    requires PairingInvariant(cfg, s) && InputPaired(input) && Enabled(cfg, s, input)
    ensures PairingInvariant(cfg, Next(cfg, s, input))
  {
    if !s.finished {
      match s.intent {
        case ModelTurn =>
          var prepared, failure := Prepared(cfg, s, input), FailureText(cfg, input.preflight);
          PreparedKeepsPairing(cfg, s, input);
          if failure.Some? {
            ScanAssistant(prepared.context, ErrorAssistant(cfg, failure.value));
            ScanAssistant(prepared.generated, ErrorAssistant(cfg, failure.value));
          } else {
            AssistantKeepsPairing(cfg, prepared, input);
          }
        case ExecuteTools(_, _) => ToolsKeepPairing(cfg, s, input);
        case AppendFollowUps(messages) => WellPairedConcat(s.context, messages);
        case RunCompactionGate =>
        case Finish =>
      }
    }
  }

  /** On every model turn of every run, the request handed to the provider is paired on the
      wire; and a finished run leaves a well-paired context and well-paired output. */
  lemma EveryRequestIsPaired(
    cfg: Config, prompts: seq<Message>, context: seq<Message>, inputs: seq<StepInput>)
    requires WellPaired(context) && WellPaired(prompts)
    requires After(cfg, Start(prompts, context), inputs).Some?
    requires forall i :: 0 <= i < |inputs| ==> InputPaired(inputs[i])
    ensures var end := After(cfg, Start(prompts, context), inputs).value;
            && (forall request :: request in end.requests ==> PairedOnTheWire(request))
            && (end.finished ==> WellPaired(end.context) && WellPaired(end.generated))
  {
    RunKeepsPairing(cfg, prompts, context, inputs);
  }

  lemma {:induction false} RunKeepsPairing(
    cfg: Config, prompts: seq<Message>, context: seq<Message>, inputs: seq<StepInput>)
    requires WellPaired(context) && WellPaired(prompts)
    requires After(cfg, Start(prompts, context), inputs).Some?
    requires forall i :: 0 <= i < |inputs| ==> InputPaired(inputs[i])
    ensures PairingInvariant(cfg, After(cfg, Start(prompts, context), inputs).value)
    decreases |inputs|
  {
    if inputs == [] {
      WellPairedConcat(context, prompts);
    } else {
      var n := |inputs| - 1;
      LastStep(cfg, Start(prompts, context), inputs);
      RunKeepsPairing(cfg, prompts, context, inputs[..n]);
      NextKeepsPairing(cfg, After(cfg, Start(prompts, context), inputs[..n]).value, inputs[n]);
    }
  }

  /** One event in the life of a session's history: a run on a new prompt, a run that
      resumes without one, or a compaction. Each run has a configuration of its own, as the
      model may have changed. Its output is persisted or dropped (a retry drops it). */
  datatype SessionEvent =
    | Prompted(cfg: Config, prompt: Message, inputs: seq<StepInput>, persisted: bool)
    | Resumed(cfg: Config, inputs: seq<StepInput>, persisted: bool)
    | Rewritten(history: seq<Message>)

  datatype Session = Session(history: seq<Message>, requests: seq<seq<Message>>)

  predicate Completes(cfg: Config, history: seq<Message>, prompts: seq<Message>, inputs: seq<StepInput>) {
    var end := After(cfg, Start(prompts, history), inputs);
    end.Some? && end.value.finished
  }

  predicate Possible(session: Session, event: SessionEvent) {
    match event
    case Prompted(cfg, prompt, inputs, _) => prompt.User? && Completes(cfg, session.history, [prompt], inputs)
    case Resumed(cfg, inputs, _) => Completes(cfg, session.history, [], inputs)
    case Rewritten(_) => true
  }

  function Live(session: Session, event: SessionEvent): Session
    requires Possible(session, event)
  {
    match event
    case Prompted(cfg, prompt, inputs, persisted) =>
      var end := After(cfg, Start([prompt], session.history), inputs).value;
      Session(session.history + [prompt] + (if persisted then end.generated else []), session.requests + end.requests)
    case Resumed(cfg, inputs, persisted) =>
      var end := After(cfg, Start([], session.history), inputs).value;
      Session(session.history + (if persisted then end.generated else []), session.requests + end.requests)
    case Rewritten(history) => session.(history := history)
  }

  function LiveAll(session: Session, events: seq<SessionEvent>): Option<Session>
    decreases |events|
  {
    if events == [] then Some(session)
    else
      match LiveAll(session, events[..|events| - 1])
      case None => None
      case Some(before) =>
        if Possible(before, events[|events| - 1]) then Some(Live(before, events[|events| - 1])) else None
  }

  predicate EventPaired(event: SessionEvent) {
    match event
    case Prompted(_, _, inputs, _) => forall i :: 0 <= i < |inputs| ==> InputPaired(inputs[i])
    case Resumed(_, inputs, _) => forall i :: 0 <= i < |inputs| ==> InputPaired(inputs[i])
    case Rewritten(history) => WellPaired(history)
  }

  ghost predicate SessionPaired(session: Session) {
    && WellPaired(session.history)
    && (forall request :: request in session.requests ==> PairedOnTheWire(request))
  }

  lemma LiveKeepsPairing(session: Session, event: SessionEvent)
    requires SessionPaired(session) && EventPaired(event) && Possible(session, event)
    ensures SessionPaired(Live(session, event))
  {
    match event {
      case Prompted(cfg, prompt, inputs, _) =>
        assert Scan([], [prompt]) == Scan([], [prompt][1..]) == Some([]);
        EveryRequestIsPaired(cfg, [prompt], session.history, inputs);
        WellPairedConcat(session.history, [prompt]);
        var end := After(cfg, Start([prompt], session.history), inputs).value;
        WellPairedConcat(session.history + [prompt], end.generated);
      case Resumed(cfg, inputs, _) =>
        EveryRequestIsPaired(cfg, [], session.history, inputs);
        WellPairedConcat(session.history, After(cfg, Start([], session.history), inputs).value.generated);
      case Rewritten(_) =>
    }
    assert forall xs: seq<Message> :: xs + [] == xs;
  }

  /** Across successive runs of one session, every request ever sent is paired on the wire,
      whatever the models and replay settings of the runs. */
  lemma {:induction false} EverySessionRequestIsPaired(session: Session, events: seq<SessionEvent>)
    requires SessionPaired(session) && LiveAll(session, events).Some?
    requires forall i :: 0 <= i < |events| ==> EventPaired(events[i])
    ensures SessionPaired(LiveAll(session, events).value)
    decreases |events|
  {
    if events != [] {
      var n := |events| - 1;
      EverySessionRequestIsPaired(session, events[..n]);
      LiveKeepsPairing(LiveAll(session, events[..n]).value, events[n]);
    }
  }

  // ----- The shape of the context -----

  datatype Entry = Generated(message: Message) | Injected(message: Message)

  /** How the context came about: a base, then every entry since `cut`. */
  datatype History = History(base: seq<Message>, entries: seq<Entry>, cut: nat)

  function AsGenerated(messages: seq<Message>): (entries: seq<Entry>)
    ensures |entries| == |messages|
  {
    seq(|messages|, i requires 0 <= i < |messages| => Generated(messages[i]))
  }

  function AsInjected(messages: seq<Message>): (entries: seq<Entry>)
    ensures |entries| == |messages|
  {
    seq(|messages|, i requires 0 <= i < |messages| => Injected(messages[i]))
  }

  function AllOf(entries: seq<Entry>): (messages: seq<Message>)
    ensures |messages| == |entries|
  {
    seq(|entries|, i requires 0 <= i < |entries| => entries[i].message)
  }

  function GeneratedOf(entries: seq<Entry>): seq<Message> {
    if entries == [] then []
    else (if entries[0].Generated? then [entries[0].message] else []) + GeneratedOf(entries[1..])
  }

  function InjectedOf(entries: seq<Entry>): seq<Message> {
    if entries == [] then []
    else (if entries[0].Injected? then [entries[0].message] else []) + InjectedOf(entries[1..])
  }

  lemma {:induction false} GeneratedConcat(xs: seq<Entry>, ys: seq<Entry>)
    ensures GeneratedOf(xs + ys) == GeneratedOf(xs) + GeneratedOf(ys)
  {
    if xs == [] {
      assert xs + ys == ys;
    } else {
      var all, first := xs + ys, if xs[0].Generated? then [xs[0].message] else [];
      assert all[0] == xs[0] && all[1..] == xs[1..] + ys;
      assert GeneratedOf(all) == first + GeneratedOf(xs[1..] + ys);
      assert GeneratedOf(xs) == first + GeneratedOf(xs[1..]);
      GeneratedConcat(xs[1..], ys);
      Regroup(first, GeneratedOf(xs[1..]), GeneratedOf(ys));
    }
  }

  lemma {:induction false} InjectedConcat(xs: seq<Entry>, ys: seq<Entry>)
    ensures InjectedOf(xs + ys) == InjectedOf(xs) + InjectedOf(ys)
  {
    if xs == [] {
      assert xs + ys == ys;
    } else {
      var all, first := xs + ys, if xs[0].Injected? then [xs[0].message] else [];
      assert all[0] == xs[0] && all[1..] == xs[1..] + ys;
      assert InjectedOf(all) == first + InjectedOf(xs[1..] + ys);
      assert InjectedOf(xs) == first + InjectedOf(xs[1..]);
      InjectedConcat(xs[1..], ys);
      Regroup(first, InjectedOf(xs[1..]), InjectedOf(ys));
    }
  }

  lemma OfConcat(xs: seq<Entry>, ys: seq<Entry>)
    ensures AllOf(xs + ys) == AllOf(xs) + AllOf(ys)
    ensures GeneratedOf(xs + ys) == GeneratedOf(xs) + GeneratedOf(ys)
    ensures InjectedOf(xs + ys) == InjectedOf(xs) + InjectedOf(ys)
  {
    GeneratedConcat(xs, ys);
    InjectedConcat(xs, ys);
  }

  lemma {:induction false} OfTagged(messages: seq<Message>)
    ensures GeneratedOf(AsGenerated(messages)) == messages == InjectedOf(AsInjected(messages))
    ensures InjectedOf(AsGenerated(messages)) == [] == GeneratedOf(AsInjected(messages))
    ensures AllOf(AsGenerated(messages)) == messages == AllOf(AsInjected(messages))
  {
    if messages != [] {
      OfTagged(messages[1..]);
      assert AsGenerated(messages)[1..] == AsGenerated(messages[1..]);
      assert AsInjected(messages)[1..] == AsInjected(messages[1..]);
    }
  }

  /** What a step injects, from the hooks it consulted. */
  function InjectedBy(cfg: Config, s: RunState, input: StepInput): seq<Message> {
    if s.finished then []
    else
      match s.intent
      case ModelTurn => input.policy
      case ExecuteTools(_, _) => if cfg.steeringHook then input.steering else []
      case AppendFollowUps(messages) => messages
      case RunCompactionGate => []
      case Finish => []
  }

  /** What a whole run injects, in order. */
  function AllInjected(cfg: Config, s: RunState, inputs: seq<StepInput>): seq<Message>
    requires After(cfg, s, inputs).Some?
    decreases |inputs|
  {
    if inputs == [] then []
    else
      var n := |inputs| - 1;
      AllInjected(cfg, s, inputs[..n]) + InjectedBy(cfg, After(cfg, s, inputs[..n]).value, inputs[n])
  }

  /** The step replaced the context. */
  predicate Compacts(cfg: Config, s: RunState, input: StepInput) {
    !s.finished && s.intent.RunCompactionGate? && cfg.compactionGate && input.gate.Compacted?
  }

  ghost predicate Shaped(s: RunState, h: History) {
    && h.cut <= |h.entries|
    && s.context == h.base + AllOf(h.entries[h.cut..])
    && s.generated == GeneratedOf(h.entries)
  }

  lemma AppendEntries(s: RunState, h: History, added: seq<Entry>, next: RunState)
    requires Shaped(s, h)
    requires next.context == s.context + AllOf(added) && next.generated == s.generated + GeneratedOf(added)
    ensures Shaped(next, h.(entries := h.entries + added))
  {
    OfConcat(h.entries, added);
    assert (h.entries + added)[h.cut..] == h.entries[h.cut..] + added;
    assert AllOf(h.entries[h.cut..] + added) == AllOf(h.entries[h.cut..]) + AllOf(added);
    assert next.context == h.base + (AllOf(h.entries[h.cut..]) + AllOf(added));
  }

  /** A model turn appends the policy's messages, then exactly one assistant message. */
  lemma ModelTurnAppends(cfg: Config, s: RunState, input: StepInput) returns (message: Message)
    requires !s.finished && s.intent.ModelTurn?
    ensures message.Assistant?
    ensures Next(cfg, s, input).context == s.context + input.policy + [message]
    ensures Next(cfg, s, input).generated == s.generated + [message]
  {
    var failure := FailureText(cfg, input.preflight);
    message := Assistant(if failure.Some? then ErrorAssistant(cfg, failure.value)
                         else Stream.Outcome(cfg.stream, input.polls).assistant);
  }

  lemma TwoKinds(injected: seq<Message>, generated: seq<Message>)
    ensures var e := AsInjected(injected) + AsGenerated(generated);
            AllOf(e) == injected + generated && GeneratedOf(e) == generated && InjectedOf(e) == injected
    ensures var e := AsGenerated(generated) + AsInjected(injected);
            AllOf(e) == generated + injected && GeneratedOf(e) == generated && InjectedOf(e) == injected
  {
    OfTagged(injected);
    OfTagged(generated);
    OfConcat(AsInjected(injected), AsGenerated(generated));
    OfConcat(AsGenerated(generated), AsInjected(injected));
  }

  /** What a step appends, as entries: nothing when it replaces the context. */
  ghost predicate Appends(cfg: Config, s: RunState, input: StepInput, added: seq<Entry>)
    requires Enabled(cfg, s, input)
  {
    && (!Compacts(cfg, s, input) ==> Next(cfg, s, input).context == s.context + AllOf(added))
    && Next(cfg, s, input).generated == s.generated + GeneratedOf(added)
    && InjectedOf(added) == InjectedBy(cfg, s, input)
  }

  lemma ModelTurnEntries(cfg: Config, s: RunState, input: StepInput) returns (added: seq<Entry>)
    requires !s.finished && s.intent.ModelTurn?
    ensures Appends(cfg, s, input, added)
  {
    var message := ModelTurnAppends(cfg, s, input);
    TwoKinds(input.policy, [message]);
    Regroup(s.context, input.policy, [message]);
    added := AsInjected(input.policy) + AsGenerated([message]);
  }

  lemma ToolEntries(cfg: Config, s: RunState, input: StepInput) returns (added: seq<Entry>)
    requires !s.finished && s.intent.ExecuteTools? && Enabled(cfg, s, input)
    ensures Appends(cfg, s, input, added)
  {
    var results := AsMessages(Tools.BatchResults(cfg.tools, s.intent.calls, input.batch));
    var steering := if cfg.steeringHook then input.steering else [];
    TwoKinds(steering, results);
    Regroup(s.context, results, steering);
    added := AsGenerated(results) + AsInjected(steering);
  }

  lemma NextAppends(cfg: Config, s: RunState, input: StepInput) returns (added: seq<Entry>)
    requires Enabled(cfg, s, input)
    ensures Appends(cfg, s, input, added)
    ensures Compacts(cfg, s, input) ==> added == []
  {
    if !s.finished && s.intent.ModelTurn? {
      added := ModelTurnEntries(cfg, s, input);
    } else if !s.finished && s.intent.ExecuteTools? {
      added := ToolEntries(cfg, s, input);
    } else if !s.finished && s.intent.AppendFollowUps? {
      TwoKinds(s.intent.messages, []);
      OfTagged(s.intent.messages);
      added := AsInjected(s.intent.messages);
      assert s.generated + [] == s.generated;
    } else {
      added := [];
      assert s.context + AllOf([]) == s.context && s.generated + GeneratedOf([]) == s.generated;
    }
  }

  /** What one step adds to the history. */
  lemma NextKeepsShape(cfg: Config, s: RunState, h: History, input: StepInput)
    returns (added: seq<Entry>, next: History)
    requires Shaped(s, h) && Enabled(cfg, s, input)
    ensures Shaped(Next(cfg, s, input), next)
    ensures InjectedOf(added) == InjectedBy(cfg, s, input)
    ensures Compacts(cfg, s, input) ==> added == []
    ensures next == if Compacts(cfg, s, input) then History(input.gate.messages, h.entries, |h.entries|)
                    else h.(entries := h.entries + added)
  {
    added := NextAppends(cfg, s, input);
    if Compacts(cfg, s, input) {
      next := History(input.gate.messages, h.entries, |h.entries|);
      assert h.entries[|h.entries|..] == [] && input.gate.messages + [] == input.gate.messages;
    } else {
      next := h.(entries := h.entries + added);
      AppendEntries(s, h, added, Next(cfg, s, input));
    }
  }

  /** The last replacement of the context: what replaced it, and how many messages had been
      generated and injected by then. Before the first it is the initial context. */
  datatype Replacement = Replacement(messages: seq<Message>, generated: nat, injected: nat)

  function LastReplacement(cfg: Config, s: RunState, inputs: seq<StepInput>): Replacement
    requires After(cfg, s, inputs).Some?
    decreases |inputs|
  {
    if inputs == [] then Replacement(s.context, 0, 0)
    else
      var n := |inputs| - 1;
      var before := After(cfg, s, inputs[..n]).value;
      if Compacts(cfg, before, inputs[n]) then
        Replacement(inputs[n].gate.messages, |before.generated|, |AllInjected(cfg, s, inputs[..n])|)
      else LastReplacement(cfg, s, inputs[..n])
  }

  /** The steps of a run none of which replaced the context. */
  predicate NeverCompacts(cfg: Config, s: RunState, inputs: seq<StepInput>)
    requires After(cfg, s, inputs).Some?
    decreases |inputs|
  {
    if inputs == [] then true
    else
      var n := |inputs| - 1;
      NeverCompacts(cfg, s, inputs[..n]) && !Compacts(cfg, After(cfg, s, inputs[..n]).value, inputs[n])
  }

  lemma {:induction false} NeverReplaced(cfg: Config, s: RunState, inputs: seq<StepInput>)
    requires After(cfg, s, inputs).Some? && NeverCompacts(cfg, s, inputs)
    ensures LastReplacement(cfg, s, inputs) == Replacement(s.context, 0, 0)
    decreases |inputs|
  {
    if inputs != [] {
      NeverReplaced(cfg, s, inputs[..|inputs| - 1]);
    }
  }

  /** The base is the last replacement, and the cut is where it happened. */
  ghost predicate CutAt(h: History, last: Replacement) {
    && h.cut <= |h.entries|
    && h.base == last.messages
    && |GeneratedOf(h.entries[..h.cut])| == last.generated
    && |InjectedOf(h.entries[..h.cut])| == last.injected
  }

  /** The context is the last replacement, then an order-preserving interleaving of exactly
      the messages generated and the messages injected since then. Over the whole run the
      generated ones are `generated`, compactions or not, and the injected ones what the
      hooks supplied. Without a compaction the base is the initial context and the prompts. */
  lemma {:induction false} ContextShape(
    cfg: Config, prompts: seq<Message>, context: seq<Message>, inputs: seq<StepInput>)
    returns (h: History)
    requires After(cfg, Start(prompts, context), inputs).Some?
    ensures var s := Start(prompts, context);
            var end := After(cfg, s, inputs).value;
            && CutAt(h, LastReplacement(cfg, s, inputs))
            && end.context == h.base + AllOf(h.entries[h.cut..])
            && end.generated == GeneratedOf(h.entries)
            && InjectedOf(h.entries) == AllInjected(cfg, s, inputs)
            && (NeverCompacts(cfg, s, inputs) ==> h.base == context + prompts && h.cut == 0)
    decreases |inputs|
  {
    var s := Start(prompts, context);
    if inputs == [] {
      h := History(context + prompts, [], 0);
      assert AllOf([]) == [] && s.context + [] == s.context && h.entries[..0] == [];
    } else {
      var n := |inputs| - 1;
      var before := ContextShape(cfg, prompts, context, inputs[..n]);
      var added;
      added, h := NextKeepsShape(cfg, After(cfg, s, inputs[..n]).value, before, inputs[n]);
      OfConcat(before.entries, added);
      if Compacts(cfg, After(cfg, s, inputs[..n]).value, inputs[n]) {
        assert h.entries[..h.cut] == before.entries;
      } else {
        assert h.entries[..h.cut] == before.entries[..before.cut];
      }
    }
  }

  /** The same as one equation on values: since the last replacement, counted by how much had
      been generated and injected then, the context holds exactly the rest of both. */
  lemma SinceLastReplacement(cfg: Config, prompts: seq<Message>, context: seq<Message>, inputs: seq<StepInput>)
    returns (since: seq<Entry>)
    requires After(cfg, Start(prompts, context), inputs).Some?
    ensures var s := Start(prompts, context);
            var end, last := After(cfg, s, inputs).value, LastReplacement(cfg, s, inputs);
            && last.generated <= |end.generated| && last.injected <= |AllInjected(cfg, s, inputs)|
            && end.context == last.messages + AllOf(since)
            && GeneratedOf(since) == end.generated[last.generated..]
            && InjectedOf(since) == AllInjected(cfg, s, inputs)[last.injected..]
  {
    var h := ContextShape(cfg, prompts, context, inputs);
    since := h.entries[h.cut..];
    var until := h.entries[..h.cut];
    assert h.entries == until + since;
    OfConcat(until, since);
    assert (GeneratedOf(until) + GeneratedOf(since))[|GeneratedOf(until)|..] == GeneratedOf(since);
    assert (InjectedOf(until) + InjectedOf(since))[|InjectedOf(until)|..] == InjectedOf(since);
  }

  // ----- What a finished run generated -----

  predicate AgentOutput(messages: seq<Message>) {
    && messages != [] && messages[0].Assistant?
    && forall m :: m in messages ==> m.Assistant? || m.ToolResultMsg?
  }

  predicate OutputSoFar(s: RunState) {
    && (s.finished || !s.intent.ModelTurn? ==> s.generated != [])
    && (s.generated != [] ==> AgentOutput(s.generated))
  }

  lemma NextKeepsOutput(cfg: Config, s: RunState, input: StepInput)
    requires OutputSoFar(s) && Enabled(cfg, s, input)
    ensures OutputSoFar(Next(cfg, s, input))
  {
    if !s.finished {
      match s.intent {
        case ModelTurn => var message := ModelTurnAppends(cfg, s, input);
        case ExecuteTools(_, calls) =>
          var results := AsMessages(Tools.BatchResults(cfg.tools, calls, input.batch));
          assert Next(cfg, s, input).generated == s.generated + results;
          assert forall m :: m in results ==> m.ToolResultMsg?;
        case AppendFollowUps(_) =>
        case RunCompactionGate =>
        case Finish =>
      }
    }
  }

  /** A finished run has generated at least one assistant message, first, and nothing but
      assistant messages and tool results: it always has something to persist. */
  lemma {:induction false} FinishedRunHasOutput(
    cfg: Config, prompts: seq<Message>, context: seq<Message>, inputs: seq<StepInput>)
    requires After(cfg, Start(prompts, context), inputs).Some?
    ensures OutputSoFar(After(cfg, Start(prompts, context), inputs).value)
    ensures After(cfg, Start(prompts, context), inputs).value.finished
        ==> AgentOutput(After(cfg, Start(prompts, context), inputs).value.generated)
    decreases |inputs|
  {
    if inputs != [] {
      var n := |inputs| - 1;
      FinishedRunHasOutput(cfg, prompts, context, inputs[..n]);
      NextKeepsOutput(cfg, After(cfg, Start(prompts, context), inputs[..n]).value, inputs[n]);
    }
  }

  // ----- Cancellation -----

  /** The tool batches these steps execute. */
  function Batches(cfg: Config, s: RunState, inputs: seq<StepInput>): nat
    requires After(cfg, s, inputs).Some?
    decreases |inputs|
  {
    if inputs == [] then 0
    else
      var n := |inputs| - 1;
      var before := After(cfg, s, inputs[..n]).value;
      Batches(cfg, s, inputs[..n]) + if !before.finished && before.intent.ExecuteTools? then 1 else 0
  }

  /** Once the run is cancelled, at most one more tool batch is executed, whatever the hooks. */
  lemma {:induction false} CancelledRunExecutesOneBatch(cfg: Config, s: RunState, inputs: seq<StepInput>)
    requires After(cfg, s, inputs).Some? && forall i :: 0 <= i < |inputs| ==> inputs[i].cancelled
    ensures Batches(cfg, s, inputs) <= 1
    ensures Batches(cfg, s, inputs) == 1 ==> After(cfg, s, inputs).value.finished
    decreases |inputs|
  {
    if inputs != [] {
      CancelledRunExecutesOneBatch(cfg, s, inputs[..|inputs| - 1]);
    }
  }

  /** How many more steps a cancelled run may take. */
  function StepsLeft(s: RunState): nat {
    if s.finished then 0
    else
      match s.intent
      case ModelTurn => 2
      case ExecuteTools(_, _) => 1
      case AppendFollowUps(_) => 3
      case RunCompactionGate => 3
      case Finish => 1
  }

  /** The step asks the follow-up hook after a clean answer without tool calls, and gets some. */
  predicate FollowsUp(cfg: Config, s: RunState, input: StepInput) {
    && cfg.followUpHook && input.followUps != []
    && !s.finished && s.intent.ModelTurn? && FailureText(cfg, input.preflight).None?
    && var collected := Stream.Outcome(cfg.stream, input.polls);
       collected.error.None? && !Failed(collected.assistant) && ExtractToolCalls(collected.assistant.content) == []
  }

  /** A step of a cancelled run brings its end nearer, exactly unless it follows up. */
  lemma CancelledStepAdvancesIff(cfg: Config, s: RunState, input: StepInput)
    requires !s.finished && input.cancelled && Enabled(cfg, s, input)
    ensures StepsLeft(Next(cfg, s, input)) < StepsLeft(s) <==> !FollowsUp(cfg, s, input)
    ensures FollowsUp(cfg, s, input) ==> StepsLeft(Next(cfg, s, input)) == StepsLeft(s) + 1
  {
  }

  function FollowUpsIn(cfg: Config, s: RunState, inputs: seq<StepInput>): nat
    requires After(cfg, s, inputs).Some?
    decreases |inputs|
  {
    if inputs == [] then 0
    else
      var n := |inputs| - 1;
      FollowUpsIn(cfg, s, inputs[..n]) + if FollowsUp(cfg, After(cfg, s, inputs[..n]).value, inputs[n]) then 1 else 0
  }

  /** With any hooks: a cancelled run takes at most three steps, and two for each time it
      follows up. */
  lemma {:induction false} CancelledRunIsBounded(cfg: Config, s: RunState, inputs: seq<StepInput>)
    requires After(cfg, s, inputs).Some? && forall i :: 0 <= i < |inputs| ==> inputs[i].cancelled
    ensures var end := After(cfg, s, inputs).value;
            end.finished || |inputs| + StepsLeft(end) <= StepsLeft(s) + 2 * FollowUpsIn(cfg, s, inputs)
    ensures |inputs| >= 3 + 2 * FollowUpsIn(cfg, s, inputs) ==> After(cfg, s, inputs).value.finished
    decreases |inputs|
  {
    if inputs != [] {
      var n := |inputs| - 1;
      LastStep(cfg, s, inputs);
      CancelledRunIsBounded(cfg, s, inputs[..n]);
      var before := After(cfg, s, inputs[..n]).value;
      if !before.finished {
        CancelledStepAdvancesIff(cfg, before, inputs[n]);
      }
    }
  }

  /** Without a follow-up hook, a cancelled run finishes within three steps, from any state. */
  lemma {:induction false} CancelledRunFinishes(cfg: Config, s: RunState, inputs: seq<StepInput>)
    requires After(cfg, s, inputs).Some? && !cfg.followUpHook
    requires forall i :: 0 <= i < |inputs| ==> inputs[i].cancelled
    ensures |inputs| + StepsLeft(After(cfg, s, inputs).value) <= 3 || After(cfg, s, inputs).value.finished
    ensures |inputs| >= 3 ==> After(cfg, s, inputs).value.finished
    decreases |inputs|
  {
    if inputs != [] {
      CancelledRunFinishes(cfg, s, inputs[..|inputs| - 1]);
    }
  }

  /** A cancelled model turn goes on all the same when its answer is clean and the hook has
      follow-ups: this is why the bound above needs the hook to be absent. */
  lemma FollowUpsOutliveCancellation(cfg: Config, s: RunState, input: StepInput, reply: AssistantMessage)
    requires cfg.followUpHook && !s.finished && s.intent.ModelTurn?
    requires input.cancelled && input.preflight.Ready? && input.polls == [Stream.Item(Stream.Done(reply))]
    requires !Failed(reply) && ExtractToolCalls(reply.content) == [] && input.followUps != []
    ensures !Next(cfg, s, input).finished && Next(cfg, s, input).intent == AppendFollowUps(input.followUps)
    ensures forall later: StepInput ::
      !Next(cfg, Next(cfg, s, input), later).finished && Next(cfg, Next(cfg, s, input), later).intent.ModelTurn?
  {
    assert Stream.Streamed(input.polls) == [];
    assert Stream.Outcome(cfg.stream, input.polls) == Stream.Collected(reply, None);
  }
}
