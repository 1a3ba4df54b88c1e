/** What the refresh lock guarantees in every interleaving, and exactly when a refresh
    presents the server's current token. */
module RefreshProofs {
  import opened Protocol
  import opened RefreshLock

  // ----- The lock, and what it protects -----

  /** The lock is held by the one process that is inside, and what that process read is
      still in the entry. */
  ghost predicate LockOk(s: State) {
    && (s.holder.Some? ==> s.holder.value < |s.phases|)
    && (forall p :: 0 <= p < |s.phases| ==> (HoldsLock(s.phases[p]) <==> s.holder == Some(p)))
    && (forall p :: 0 <= p < |s.phases| && s.phases[p].Refreshing? ==> s.entry == OAuthEntry(s.phases[p].current))
  }

  predicate BeingSaved(s: State) {
    s.holder.Some? && s.holder.value < |s.phases| && s.phases[s.holder.value].Saving?
  }

  /** The server's current token is the one about to be saved, or else in the entry unless a
      rotation was lost. */
  ghost predicate TokenOk(s: State) {
    && s.server.current <= s.server.issued
    && (s.entry.OAuthEntry? ==> s.entry.data.refresh <= s.server.issued)
    && (BeingSaved(s) ==>
          !s.hist.lost && s.phases[s.holder.value].refreshed.refresh == s.server.current
          && s.entry.OAuthEntry? && s.entry.data.refresh != s.server.current)
    && (!BeingSaved(s) && s.entry.OAuthEntry? ==> (s.entry.data.refresh == s.server.current <==> !s.hist.lost))
  }

  predicate MayHaveCalled(phase: Phase) {
    || phase.Saving?
    || ((phase.Releasing? || phase.Done?) && phase.outcome != Failure(LockTimeout))
  }

  ghost predicate CallsOk(s: State) {
    && (forall i :: 0 <= i < |s.hist.calls| ==>
          (s.hist.calls[i].presented == s.hist.calls[i].current <==> !s.hist.calls[i].afterLoss))
    && (forall i :: 0 <= i < |s.hist.calls| ==>
          s.hist.calls[i].process < |s.phases| && MayHaveCalled(s.phases[s.hist.calls[i].process]))
    && (forall i, j :: 0 <= i < j < |s.hist.calls| ==> s.hist.calls[i].process != s.hist.calls[j].process)
  }

  ghost predicate Inv(s: State) {
    LockOk(s) && TokenOk(s) && CallsOk(s)
  }

  lemma MoveKeepsLock(s: State, p: nat, phase: Phase, holder: Option<nat>)
    requires LockOk(s) && p < |s.phases|
    requires HoldsLock(s.phases[p]) || !HoldsLock(phase) || s.holder.None?
    requires holder == if HoldsLock(phase) then Some(p) else if HoldsLock(s.phases[p]) then None else s.holder
    requires phase.Refreshing? ==> s.entry == OAuthEntry(phase.current)
    ensures LockOk(At(s, p, phase).(holder := holder))
  {
  }

  lemma MoveKeepsCalls(s: State, p: nat, phase: Phase)
    requires CallsOk(s) && p < |s.phases|
    requires MayHaveCalled(s.phases[p]) ==> MayHaveCalled(phase)
    ensures CallsOk(At(s, p, phase))
  {
  }

  lemma FastReadKeeps(s: State, p: nat)
    requires Inv(s) && p < |s.phases| && s.phases[p].Started?
    ensures Inv(StepFastRead(s, p))
  {
    var phase := StepFastRead(s, p).phases[p];
    MoveKeepsLock(s, p, phase, s.holder);
    MoveKeepsCalls(s, p, phase);
  }

  lemma OpenLockKeeps(cfg: Config, s: State, p: nat, ioFails: bool)
    requires Inv(s) && p < |s.phases| && s.phases[p].Opening?
    ensures Inv(StepOpenLock(cfg, s, p, ioFails))
  {
    var phase := StepOpenLock(cfg, s, p, ioFails).phases[p];
    MoveKeepsLock(s, p, phase, s.holder);
    MoveKeepsCalls(s, p, phase);
  }

  lemma TryLockKeeps(s: State, p: nat, ioFails: bool)
    requires Inv(s) && p < |s.phases| && s.phases[p].Waiting?
    ensures Inv(StepTryLock(s, p, ioFails))
  {
    var phase := StepTryLock(s, p, ioFails).phases[p];
    MoveKeepsLock(s, p, phase, if phase.Locked? then Some(p) else s.holder);
    MoveKeepsCalls(s, p, phase);
  }

  lemma ReReadKeeps(s: State, p: nat)
    requires Inv(s) && p < |s.phases| && s.phases[p].Locked?
    ensures Inv(StepReRead(s, p))
  {
    var phase := StepReRead(s, p).phases[p];
    MoveKeepsLock(s, p, phase, Some(p));
    MoveKeepsCalls(s, p, phase);
  }

  lemma CallKeeps(s: State, p: nat, reply: Reply)
    requires Inv(s) && p < |s.phases| && s.phases[p].Refreshing?
    ensures Inv(StepCallServer(s, p, reply))
  {
    var next := StepCallServer(s, p, reply);
    MoveKeepsLock(s, p, next.phases[p], Some(p));
    assert s.holder == Some(p);
    assert s.hist.calls == next.hist.calls[..|s.hist.calls|];
  }

  lemma SaveKeeps(s: State, p: nat, write: Write)
    requires Inv(s) && p < |s.phases| && s.phases[p].Saving?
    ensures Inv(StepSave(s, p, write))
  {
    var next := StepSave(s, p, write);
    MoveKeepsLock(s.(entry := next.entry), p, next.phases[p], Some(p));
    MoveKeepsCalls(s, p, next.phases[p]);
  }

  lemma LeaveKeeps(s: State, p: nat)
    requires Inv(s) && p < |s.phases|
    ensures s.phases[p].Releasing? ==> Inv(StepUnlock(s, p))
    ensures !s.phases[p].Done? ==> Inv(StepDie(s, p))
  {
    if !s.phases[p].Done? {
      var died := StepDie(s, p);
      MoveKeepsLock(s, p, Done(Failure(Died)), died.holder);
      MoveKeepsCalls(s, p, Done(Failure(Died)));
    }
    if s.phases[p].Releasing? {
      MoveKeepsLock(s, p, Done(s.phases[p].outcome), None);
      MoveKeepsCalls(s, p, Done(s.phases[p].outcome));
    }
  }

  lemma StepKeeps(cfg: Config, s: State, event: Event)
    requires Inv(s)
    ensures Inv(Step(cfg, s, event))
  {
    if Possible(s, event) {
      match event {
        case Tick(_) =>
        case FastRead(p) => FastReadKeeps(s, p);
        case OpenLock(p, ioFails) => OpenLockKeeps(cfg, s, p, ioFails);
        case TryLock(p, ioFails) => TryLockKeeps(s, p, ioFails);
        case ReRead(p) => ReReadKeeps(s, p);
        case CallServer(p, reply) => CallKeeps(s, p, reply);
        case Save(p, write) => SaveKeeps(s, p, write);
        case Unlock(p) => LeaveKeeps(s, p);
        case Die(p) => LeaveKeeps(s, p);
      }
    }
  }

  lemma {:induction false} RunKeeps(cfg: Config, s: State, events: seq<Event>)
    requires Initial(s)
    ensures Inv(Run(cfg, s, events))
    decreases |events|
  {
    if events != [] {
      RunKeeps(cfg, s, events[..|events| - 1]);
      StepKeeps(cfg, Run(cfg, s, events[..|events| - 1]), events[|events| - 1]);
    }
  }

  /** At most one process is between lock and unlock. */
  lemma MutualExclusion(cfg: Config, s: State, events: seq<Event>, p: nat, q: nat)
    requires Initial(s)
    requires var end := Run(cfg, s, events);
             p < |end.phases| && q < |end.phases| && HoldsLock(end.phases[p]) && HoldsLock(end.phases[q])
    ensures p == q
  {
    RunKeeps(cfg, s, events);
  }

  /** A call presents the server's current token exactly if no rotation was lost before it;
      no process calls twice; and one that timed out on the lock never calls. */
  lemma RefreshPresentsCurrentTokenIff(cfg: Config, s: State, events: seq<Event>, i: nat)
    requires Initial(s) && i < |Run(cfg, s, events).hist.calls|
    ensures var end := Run(cfg, s, events);
            var call := end.hist.calls[i];
            && (call.presented == call.current <==> !call.afterLoss)
            && call.process < |end.phases|
            && end.phases[call.process] != Done(Failure(LockTimeout))
            && (forall j :: 0 <= j < |end.hist.calls| && end.hist.calls[j].process == call.process ==> j == i)
  {
    RunKeeps(cfg, s, events);
  }

  /** What loses a rotation: a reply that never arrives, a save that writes nothing, and a
      process that dies before saving; nothing else. */
  predicate LosesRotation(s: State, event: Event) {
    && Possible(s, event)
    && match event
       case CallServer(p, reply) => reply.ReplyLost? && s.phases[p].current.refresh == s.server.current
       case Save(_, write) => write.NotWritten?
       case Die(p) => s.phases[p].Saving?
       case _ => false
  }

  lemma LostExactlyThen(cfg: Config, s: State, event: Event)
    ensures Step(cfg, s, event).hist.lost <==> s.hist.lost || LosesRotation(s, event)
  {
  }

  /** The state in which the `k`th event happens. */
  function Before(cfg: Config, s: State, events: seq<Event>, k: nat): State
    requires k <= |events|
  {
    Run(cfg, s, events[..k])
  }

  ghost predicate LosesAt(cfg: Config, s: State, events: seq<Event>, k: nat)
    requires k < |events|
  {
    LosesRotation(Before(cfg, s, events, k), events[k])
  }

  /** The `k`th event is a call that reaches the server. */
  predicate CallsAt(cfg: Config, s: State, events: seq<Event>, k: nat)
    requires k < |events|
  {
    events[k].CallServer? && Possible(Before(cfg, s, events, k), events[k])
  }

  /** ... and it presents the token that is current just then. */
  predicate PresentsCurrentAt(cfg: Config, s: State, events: seq<Event>, k: nat)
    requires k < |events| && CallsAt(cfg, s, events, k)
  {
    var before := Before(cfg, s, events, k);
    before.phases[events[k].process].current.refresh == before.server.current
  }

  lemma {:induction false} LostBefore(cfg: Config, s: State, events: seq<Event>, k: nat)
    requires k <= |events|
    ensures Before(cfg, s, events, k).hist.lost <==>
      s.hist.lost || exists j: nat :: j < k && LosesAt(cfg, s, events, j)
  {
    if k > 0 {
      LostBefore(cfg, s, events, k - 1);
      var prefix := events[..k];
      assert prefix[..|prefix| - 1] == events[..k - 1] && prefix[|prefix| - 1] == events[k - 1];
      LostExactlyThen(cfg, Before(cfg, s, events, k - 1), events[k - 1]);
      assert Before(cfg, s, events, k).hist.lost <==>
        Before(cfg, s, events, k - 1).hist.lost || LosesAt(cfg, s, events, k - 1);
    }
  }

  /** In the events alone: a call presents the current token if and only if the entry held it
      at the start and no earlier step lost a rotation. */
  lemma CallIsCurrentIff(cfg: Config, s: State, events: seq<Event>, k: nat)
    requires Initial(s) && k < |events| && CallsAt(cfg, s, events, k)
    ensures PresentsCurrentAt(cfg, s, events, k) <==>
      !s.hist.lost && !exists j: nat :: j < k && LosesAt(cfg, s, events, j)
  {
    LostBefore(cfg, s, events, k);
    RunKeeps(cfg, s, events[..k]);
  }

  /** So from an entry in step with the server, every call presents the current token if and
      only if no call follows a step that lost a rotation. */
  lemma EveryCallIsCurrentIff(cfg: Config, s: State, events: seq<Event>)
    requires Initial(s) && !s.hist.lost
    ensures (forall k: nat :: k < |events| && CallsAt(cfg, s, events, k) ==> PresentsCurrentAt(cfg, s, events, k))
       <==> (forall j: nat, k: nat :: j < k < |events| && CallsAt(cfg, s, events, k) ==> !LosesAt(cfg, s, events, j))
  {
    forall k: nat | k < |events| && CallsAt(cfg, s, events, k)
      ensures PresentsCurrentAt(cfg, s, events, k) <==> !exists j: nat :: j < k && LosesAt(cfg, s, events, j)
    {
      CallIsCurrentIff(cfg, s, events, k);
    }
  }

  // ----- What each step answers -----

  /** A token is good while it is valid for more than 30 seconds. */
  lemma NearExpiryIsThirtySeconds(data: OAuthData, now: int)
    ensures data.expiresAt.Some? ==> (IsNearExpiry(data, now) == Some(true) <==> data.expiresAt.value <= now + 30000)
    ensures data.expiresAt.None? <==> IsNearExpiry(data, now).None?
  {
  }

  /** Where reading the entry leads, in or out of the lock. */
  predicate ReadsAs(entry: Entry, now: int, phase: Phase, token: Outcome -> Phase, stale: OAuthData -> Phase) {
    match entry
    case NoEntry => phase == token(Failure(Missing))
    case ApiKeyEntry => phase == token(Failure(NotOAuth))
    case OAuthEntry(data) =>
      match data.expiresAt
      case None => phase == token(Failure(Expiry))
      case Some(deadline) =>
        if deadline > now + 30000 then phase == token(Token(data.access)) else phase == stale(data)
  }

  /** The fast read answers from the entry, or goes for the lock; inside the lock the same
      reading answers, or leads to a refresh. */
  lemma ReadingAnswers(s: State, p: nat)
    requires p < |s.phases|
    ensures s.phases[p].Started? ==>
      ReadsAs(s.entry, s.now, StepFastRead(s, p).phases[p], o => Done(o), _ => Opening)
    ensures s.phases[p].Locked? ==>
      ReadsAs(s.entry, s.now, StepReRead(s, p).phases[p], o => Releasing(o), data => Refreshing(data))
  {
  }

  /** A waiting process gets a free lock at once, and otherwise gives up only from its deadline on. */
  lemma TryingTheLockAnswers(s: State, p: nat, ioFails: bool)
    requires p < |s.phases| && s.phases[p].Waiting?
    ensures var next := StepTryLock(s, p, ioFails);
            && (next.phases[p].Locked? <==> !ioFails && s.holder.None?)
            && (next.phases[p] == Done(Failure(LockTimeout)) <==>
                  !ioFails && s.holder.Some? && s.now >= s.phases[p].deadline)
            && (next.phases[p] == Done(Failure(Persist)) <==> ioFails)
            && (next == s <==> !ioFails && s.holder.Some? && s.now < s.phases[p].deadline)
  {
  }

  /** A refresh succeeds exactly if the server grants it and the entry is written without any
      error; a refusal and a failed save are told apart. */
  lemma RefreshingAnswers(s: State, p: nat, reply: Reply, write: Write)
    requires p < |s.phases|
    ensures s.phases[p].Refreshing? ==>
      var next := StepCallServer(s, p, reply);
      var granted := reply.Grants? && s.phases[p].current.refresh == s.server.current;
      if granted then
        && next.phases[p].Saving?
        && next.phases[p].refreshed.refresh == next.server.current
        && next.phases[p].refreshed.expiresAt == Some(reply.expiresAt)
      else next.phases[p] == Releasing(Failure(RefreshFailed))
    ensures s.phases[p].Saving? ==>
      var next := StepSave(s, p, write);
      && (next.entry == if write.NotWritten? then s.entry else OAuthEntry(s.phases[p].refreshed))
      && next.phases[p]
         == Releasing(if write.Written? then Token(s.phases[p].refreshed.access) else Failure(Persist))
  {
  }

  /** Unlocking frees the lock and keeps the answer; dying frees it and gives none. */
  lemma LeavingAnswers(s: State, p: nat)
    requires p < |s.phases|
    ensures s.phases[p].Releasing? ==>
      StepUnlock(s, p).phases[p] == Done(s.phases[p].outcome) && StepUnlock(s, p).holder == None
    ensures !s.phases[p].Done? ==>
      var next := StepDie(s, p);
      && next.phases[p] == Done(Failure(Died)) && next.entry == s.entry
      && next.holder == if HoldsLock(s.phases[p]) then None else s.holder
  {
  }

  // ----- One expiry -----

  predicate FreshUntil(data: OAuthData, horizon: int) {
    IsNearExpiry(data, horizon) == Some(false)
  }

  /** Tokens granted in this step stay clear of the margin until the horizon. */
  predicate GrantsFresh(event: Event, horizon: int) {
    event.CallServer? && event.reply.Grants? ==> event.reply.expiresAt - horizon > REFRESH_SAFETY_MARGIN_MS
  }

  function Answered(calls: seq<Call>): nat {
    if calls == [] then 0
    else Answered(calls[..|calls| - 1]) + if calls[|calls| - 1].answered then 1 else 0
  }

  /** A token about to be refreshed has expired; one about to be saved is the one minted, and
      fresh; one that is returned is that one. */
  predicate OneTokenPhase(phase: Phase, rotations: nat, minted: nat, horizon: int) {
    && (phase.Refreshing? ==> IsNearExpiry(phase.current, horizon) == Some(true))
    && (phase.Saving? ==>
          rotations == 1 && phase.refreshed.access == minted && FreshUntil(phase.refreshed, horizon))
    && ((phase.Releasing? || phase.Done?) && phase.outcome.Token? ==>
          rotations == 1 && phase.outcome.access == minted)
  }

  ghost predicate OneTokenPhases(phases: seq<Phase>, rotations: nat, minted: nat, horizon: int) {
    forall p :: 0 <= p < |phases| ==> OneTokenPhase(phases[p], rotations, minted, horizon)
  }

  /** The expired entry is still there, or was replaced by the one token minted. */
  predicate OneTokenEntry(entry: Entry, expired: OAuthData, rotations: nat, minted: nat, horizon: int) {
    && entry.OAuthEntry?
    && (entry.data == expired || (rotations == 1 && entry.data.access == minted && FreshUntil(entry.data, horizon)))
  }

  ghost predicate OneToken(s: State, expired: OAuthData, minted: nat, horizon: int) {
    && s.hist.rotations <= 1
    && Answered(s.hist.calls) <= s.hist.rotations
    && OneTokenEntry(s.entry, expired, s.hist.rotations, minted, horizon)
    && (s.hist.rotations == 0 ==> s.server.issued + 1 == minted)
    && (s.hist.rotations == 1 && s.entry.data == expired ==> s.hist.lost || BeingSaved(s))
    && OneTokenPhases(s.phases, s.hist.rotations, minted, horizon)
  }

  lemma MoveKeepsPhases(s: State, p: nat, phase: Phase, minted: nat, horizon: int)
    requires OneTokenPhases(s.phases, s.hist.rotations, minted, horizon) && p < |s.phases|
    requires OneTokenPhase(phase, s.hist.rotations, minted, horizon)
    ensures OneTokenPhases(At(s, p, phase).phases, s.hist.rotations, minted, horizon)
  {
  }

  lemma ReadKeepsOneToken(cfg: Config, s: State, event: Event, expired: OAuthData, minted: nat, horizon: int)
    requires Inv(s) && OneToken(s, expired, minted, horizon) && s.now <= horizon
    requires IsNearExpiry(expired, s.now) == Some(true)
    requires (event.FastRead? || event.ReRead?) && Possible(s, event)
    ensures OneToken(Step(cfg, s, event), expired, minted, horizon)
  {
    var p := event.process;
    var phase := Step(cfg, s, event).phases[p];
    assert OneTokenPhase(phase, s.hist.rotations, minted, horizon);
    MoveKeepsPhases(s, p, phase, minted, horizon);
    assert Step(cfg, s, event) == At(s, p, phase);
    assert BeingSaved(s) ==> s.holder != Some(p);
  }

  lemma OpenKeepsOneToken(
    cfg: Config, s: State, p: nat, ioFails: bool, expired: OAuthData, minted: nat, horizon: int)
    requires Inv(s) && OneToken(s, expired, minted, horizon)
    requires p < |s.phases| && s.phases[p].Opening?
    ensures OneToken(StepOpenLock(cfg, s, p, ioFails), expired, minted, horizon)
  {
    MoveKeepsPhases(s, p, StepOpenLock(cfg, s, p, ioFails).phases[p], minted, horizon);
  }

  lemma LockKeepsOneToken(s: State, p: nat, ioFails: bool, expired: OAuthData, minted: nat, horizon: int)
    requires Inv(s) && OneToken(s, expired, minted, horizon)
    requires p < |s.phases| && s.phases[p].Waiting?
    ensures OneToken(StepTryLock(s, p, ioFails), expired, minted, horizon)
  {
    var phase := StepTryLock(s, p, ioFails).phases[p];
    MoveKeepsPhases(s, p, phase, minted, horizon);
  }

  /** A process about to refresh holds the expired token, and what it presents is current only
      if no rotation has happened. */
  lemma AboutToRefresh(s: State, p: nat, expired: OAuthData, minted: nat, horizon: int)
    requires Inv(s) && OneToken(s, expired, minted, horizon)
    requires p < |s.phases| && s.phases[p].Refreshing?
    ensures s.holder == Some(p) && s.entry == OAuthEntry(expired) && s.phases[p].current == expired
    ensures expired.refresh == s.server.current ==> s.hist.rotations == 0
  {
    assert OneTokenPhase(s.phases[p], s.hist.rotations, minted, horizon);
  }

  lemma AnsweredSnoc(calls: seq<Call>, call: Call)
    ensures Answered(calls + [call]) == Answered(calls) + if call.answered then 1 else 0
  {
    assert (calls + [call])[..|calls|] == calls;
  }

  lemma TurnedDownKeepsOneToken(s: State, p: nat, reply: Reply, expired: OAuthData, minted: nat, horizon: int)
    requires Inv(s) && OneToken(s, expired, minted, horizon)
    requires p < |s.phases| && s.phases[p].Refreshing?
    requires reply.Refuses? || s.phases[p].current.refresh != s.server.current
    ensures OneToken(StepCallServer(s, p, reply), expired, minted, horizon)
  {
    AboutToRefresh(s, p, expired, minted, horizon);
    AnsweredSnoc(s.hist.calls, StepCallServer(s, p, reply).hist.calls[|s.hist.calls|]);
    MoveKeepsPhases(s, p, Releasing(Failure(RefreshFailed)), minted, horizon);
  }

  /** The first rotation: no token has been saved or returned before it. */
  lemma RotatedPhases(s: State, p: nat, phase: Phase, minted: nat, horizon: int)
    requires OneTokenPhases(s.phases, 0, minted, horizon) && p < |s.phases|
    requires OneTokenPhase(phase, 1, minted, horizon)
    ensures OneTokenPhases(At(s, p, phase).phases, 1, minted, horizon)
  {
    forall q | 0 <= q < |s.phases| ensures OneTokenPhase(At(s, p, phase).phases[q], 1, minted, horizon) {
      assert OneTokenPhase(s.phases[q], 0, minted, horizon);
    }
  }

  lemma RotationKeepsOneToken(s: State, p: nat, reply: Reply, expired: OAuthData, minted: nat, horizon: int)
    requires Inv(s) && OneToken(s, expired, minted, horizon)
    requires p < |s.phases| && s.phases[p].Refreshing?
    requires !reply.Refuses? && s.phases[p].current.refresh == s.server.current
    requires reply.Grants? ==> reply.expiresAt - horizon > REFRESH_SAFETY_MARGIN_MS
    ensures OneToken(StepCallServer(s, p, reply), expired, minted, horizon)
  {
    AboutToRefresh(s, p, expired, minted, horizon);
    var next := StepCallServer(s, p, reply);
    AnsweredSnoc(s.hist.calls, next.hist.calls[|s.hist.calls|]);
    RotatedPhases(s, p, next.phases[p], minted, horizon);
  }

  lemma CallKeepsOneToken(s: State, p: nat, reply: Reply, expired: OAuthData, minted: nat, horizon: int)
    requires Inv(s) && OneToken(s, expired, minted, horizon)
    requires p < |s.phases| && s.phases[p].Refreshing?
    requires reply.Grants? ==> reply.expiresAt - horizon > REFRESH_SAFETY_MARGIN_MS
    ensures OneToken(StepCallServer(s, p, reply), expired, minted, horizon)
  {
    if reply.Refuses? || s.phases[p].current.refresh != s.server.current {
      TurnedDownKeepsOneToken(s, p, reply, expired, minted, horizon);
    } else {
      RotationKeepsOneToken(s, p, reply, expired, minted, horizon);
    }
  }

  lemma SaveKeepsOneToken(s: State, p: nat, write: Write, expired: OAuthData, minted: nat, horizon: int)
    requires Inv(s) && OneToken(s, expired, minted, horizon)
    requires p < |s.phases| && s.phases[p].Saving? && !FreshUntil(expired, horizon)
    ensures OneToken(StepSave(s, p, write), expired, minted, horizon)
  {
    assert OneTokenPhase(s.phases[p], s.hist.rotations, minted, horizon);
    MoveKeepsPhases(s, p, StepSave(s, p, write).phases[p], minted, horizon);
  }

  lemma LeaveKeepsOneToken(s: State, p: nat, expired: OAuthData, minted: nat, horizon: int)
    requires Inv(s) && OneToken(s, expired, minted, horizon) && p < |s.phases|
    ensures s.phases[p].Releasing? ==> OneToken(StepUnlock(s, p), expired, minted, horizon)
    ensures !s.phases[p].Done? ==> OneToken(StepDie(s, p), expired, minted, horizon)
  {
    assert OneTokenPhase(s.phases[p], s.hist.rotations, minted, horizon);
    MoveKeepsPhases(s, p, Done(Failure(Died)), minted, horizon);
    if s.phases[p].Releasing? {
      MoveKeepsPhases(s, p, Done(s.phases[p].outcome), minted, horizon);
    }
  }

  lemma StepKeepsOneToken(cfg: Config, s: State, event: Event, expired: OAuthData, minted: nat, horizon: int)
    requires Inv(s) && OneToken(s, expired, minted, horizon) && s.now <= horizon
    requires IsNearExpiry(expired, s.now) == Some(true) && GrantsFresh(event, horizon)
    ensures OneToken(Step(cfg, s, event), expired, minted, horizon)
  {
    if Possible(s, event) {
      match event {
        case Tick(_) =>
        case FastRead(p) => ReadKeepsOneToken(cfg, s, event, expired, minted, horizon);
        case OpenLock(p, ioFails) => OpenKeepsOneToken(cfg, s, p, ioFails, expired, minted, horizon);
        case TryLock(p, ioFails) => LockKeepsOneToken(s, p, ioFails, expired, minted, horizon);
        case ReRead(p) => ReadKeepsOneToken(cfg, s, event, expired, minted, horizon);
        case CallServer(p, reply) => CallKeepsOneToken(s, p, reply, expired, minted, horizon);
        case Save(p, write) => SaveKeepsOneToken(s, p, write, expired, minted, horizon);
        case Unlock(p) => LeaveKeepsOneToken(s, p, expired, minted, horizon);
        case Die(p) => LeaveKeepsOneToken(s, p, expired, minted, horizon);
      }
    }
  }

  ghost predicate Expires(s: State, events: seq<Event>, horizon: int) {
    && (forall p :: 0 <= p < |s.phases| ==> s.phases[p].Started?)
    && s.entry.OAuthEntry? && IsNearExpiry(s.entry.data, s.now) == Some(true)
    && (forall i :: 0 <= i < |events| ==> GrantsFresh(events[i], horizon))
  }

  lemma {:induction false} TimePasses(cfg: Config, s: State, events: seq<Event>)
    ensures Run(cfg, s, events).now >= s.now
    decreases |events|
  {
    if events != [] {
      TimePasses(cfg, s, events[..|events| - 1]);
    }
  }

  lemma {:induction false} RunKeepsOneToken(cfg: Config, s: State, events: seq<Event>, horizon: int)
    requires Initial(s) && Expires(s, events, horizon) && Run(cfg, s, events).now <= horizon
    ensures OneToken(Run(cfg, s, events), s.entry.data, s.server.issued + 1, horizon)
    decreases |events|
  {
    if events != [] {
      var n := |events| - 1;
      var before := Run(cfg, s, events[..n]);
      assert before.now <= Run(cfg, s, events).now;
      TimePasses(cfg, s, events[..n]);
      RunKeepsOneToken(cfg, s, events[..n], horizon);
      RunKeeps(cfg, s, events[..n]);
      StepKeepsOneToken(cfg, before, events[n], s.entry.data, s.server.issued + 1, horizon);
    }
  }

  /** While new tokens stay clear of the margin, one expiry rotates the tokens at most once,
      however many processes notice it and whatever fails; if any of them gets a token, then
      exactly once, and they all get the new one. */
  lemma OneExpiryOneRefresh(cfg: Config, s: State, events: seq<Event>, horizon: int)
    requires Initial(s) && Expires(s, events, horizon) && Run(cfg, s, events).now <= horizon
    ensures var end := Run(cfg, s, events);
            && end.hist.rotations <= 1 && Answered(end.hist.calls) <= end.hist.rotations
            && forall p :: 0 <= p < |end.phases| && end.phases[p].Done? && end.phases[p].outcome.Token? ==>
                 end.hist.rotations == 1 && end.phases[p].outcome.access == s.server.issued + 1
  {
    RunKeepsOneToken(cfg, s, events, horizon);
    var end, minted := Run(cfg, s, events), s.server.issued + 1;
    forall p | 0 <= p < |end.phases| ensures OneTokenPhase(end.phases[p], end.hist.rotations, minted, horizon) {}
  }

  // ----- The lock is not enough when a save fails -----

  const TIMEOUT := Config(15000)
  const OLD := OAuthData(1, 1, Some(0))

  function Snapshot(holder: Option<nat>, server: nat, phases: seq<Phase>, hist: History): State {
    State(0, OAuthEntry(OLD), holder, Server(server, server), phases, hist)
  }

  function Early(expiresAt: int): (events: seq<Event>) {
    [OpenLock(0, false), TryLock(0, false), ReRead(0), CallServer(0, Grants(expiresAt)), Save(0, NotWritten)]
  }

  function Late(expiresAt: int): (events: seq<Event>) {
    [Unlock(0), OpenLock(1, false), TryLock(1, false), ReRead(1), CallServer(1, Grants(expiresAt))]
  }

  const FIRST_CALL := Call(0, 1, 1, false, true)

  function Begun(): (events: seq<Event>) {
    [FastRead(0), FastRead(1)]
  }

  lemma BothNotice()
    ensures Run(TIMEOUT, Snapshot(None, 1, [Started, Started], History([], 0, false)), Begun())
         == Snapshot(None, 1, [Opening, Opening], History([], 0, false))
  {
    var s := Snapshot(None, 1, [Started, Started], History([], 0, false));
    LastStep(TIMEOUT, s, [], FastRead(0));
    LastStep(TIMEOUT, s, [FastRead(0)], FastRead(1));
    assert [] + [FastRead(0)] == [FastRead(0)] && [FastRead(0)] + [FastRead(1)] == Begun();
    assert Step(TIMEOUT, s, FastRead(0)).phases == [Opening, Started];
  }

  lemma FirstSaveFails(expiresAt: int)
    ensures Run(TIMEOUT, Snapshot(None, 1, [Opening, Opening], History([], 0, false)), Early(expiresAt))
         == Snapshot(Some(0), 2, [Releasing(Failure(Persist)), Opening], History([FIRST_CALL], 1, true))
  {
    var s := Snapshot(None, 1, [Opening, Opening], History([], 0, false));
    var e := Early(expiresAt);
    FiveSteps(TIMEOUT, s, e[0], e[1], e[2], e[3], e[4]);
    var ready := Step(TIMEOUT, s, e[0]);
    assert ready.phases == [Waiting(15000), Opening];
    var locked := Step(TIMEOUT, ready, e[1]);
    assert locked.phases == [Locked, Opening];
    var reread := Step(TIMEOUT, locked, e[2]);
    assert reread.phases == [Refreshing(OLD), Opening];
    var called := Step(TIMEOUT, reread, e[3]);
    assert called.phases == [Saving(OAuthData(2, 2, Some(expiresAt))), Opening];
    assert called.hist.calls == [FIRST_CALL];
  }

  lemma SecondCallIsStale(expiresAt: int)
    ensures Run(TIMEOUT, Snapshot(Some(0), 2, [Releasing(Failure(Persist)), Opening], History([FIRST_CALL], 1, true)),
                Late(expiresAt)).hist.calls
         == [FIRST_CALL, Call(1, 1, 2, true, false)]
  {
    var s := Snapshot(Some(0), 2, [Releasing(Failure(Persist)), Opening], History([FIRST_CALL], 1, true));
    var e := Late(expiresAt);
    FiveSteps(TIMEOUT, s, e[0], e[1], e[2], e[3], e[4]);
    var freed := Step(TIMEOUT, s, e[0]);
    var waiting := Step(TIMEOUT, freed, e[1]);
    assert waiting.phases == [Done(Failure(Persist)), Waiting(15000)];
    var locked := Step(TIMEOUT, waiting, e[2]);
    assert locked.phases == [Done(Failure(Persist)), Locked];
    var reread := Step(TIMEOUT, locked, e[3]);
    assert reread.phases == [Done(Failure(Persist)), Refreshing(OLD)];
  }

  /** Two processes notice the expiry. The first one's save fails, and the second presents a
      token that has been rotated away, although only one of them was ever inside the lock. */
  lemma FailedSaveMakesTheNextCallStale(expiresAt: int)
    ensures var s := Snapshot(None, 1, [Started, Started], History([], 0, false));
            && Initial(s)
            && Run(TIMEOUT, s, Begun() + (Early(expiresAt) + Late(expiresAt))).hist.calls
               == [FIRST_CALL, Call(1, 1, 2, true, false)]
  {
    var s := Snapshot(None, 1, [Started, Started], History([], 0, false));
    BothNotice();
    FirstSaveFails(expiresAt);
    SecondCallIsStale(expiresAt);
    RunConcat(TIMEOUT, s, Begun(), Early(expiresAt) + Late(expiresAt));
    RunConcat(TIMEOUT, Run(TIMEOUT, s, Begun()), Early(expiresAt), Late(expiresAt));
  }

  lemma LastStep(cfg: Config, s: State, events: seq<Event>, last: Event)
    ensures Run(cfg, s, events + [last]) == Step(cfg, Run(cfg, s, events), last)
  {
    assert (events + [last])[..|events|] == events;
  }

  lemma FiveSteps(cfg: Config, s: State, a: Event, b: Event, c: Event, d: Event, e: Event)
    ensures Run(cfg, s, [a, b, c, d, e]) == Step(cfg, Step(cfg, Step(cfg, Step(cfg, Step(cfg, s, a), b), c), d), e)
  {
    LastStep(cfg, s, [], a);
    LastStep(cfg, s, [a], b);
    LastStep(cfg, s, [a, b], c);
    LastStep(cfg, s, [a, b, c], d);
    LastStep(cfg, s, [a, b, c, d], e);
    assert [] + [a] == [a] && [a] + [b] == [a, b] && [a, b] + [c] == [a, b, c];
    assert [a, b, c] + [d] == [a, b, c, d] && [a, b, c, d] + [e] == [a, b, c, d, e];
  }
}
