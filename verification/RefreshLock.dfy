/** Refreshing an OAuth token under a lock: processes that share one credential entry, one
    advisory lock and a server that rotates refresh tokens (section 6 of RFC 6749). `Step` is
    one atomic step of one process; `OAuthRefresher` is the code, run among the others. */
module RefreshLock {
  import opened Protocol

  const REFRESH_SAFETY_MARGIN_MS: int := 30000
  const POLL_INTERVAL_MS: nat := 50

  /** Tokens are numbered as the server issues them; `None` is a malformed expiry. */
  datatype OAuthData = OAuthData(access: nat, refresh: nat, expiresAt: Option<int>)

  datatype Entry = NoEntry | ApiKeyEntry | OAuthEntry(data: OAuthData)

  datatype RefreshError = LockTimeout | NotOAuth | Missing | RefreshFailed | Persist | Expiry | Died

  datatype Outcome = Token(access: nat) | Failure(error: RefreshError)

  /** Where a process is in `resolve_access_token`. */
  datatype Phase =
    | Started
    | Opening
    | Waiting(deadline: int)
    | Locked
    | Refreshing(current: OAuthData)
    | Saving(refreshed: OAuthData)
    | Releasing(outcome: Outcome)
    | Done(outcome: Outcome)

  datatype Server = Server(current: nat, issued: nat)

  /** One call of the refresh endpoint: what was presented and what was current then. */
  datatype Call = Call(process: nat, presented: nat, current: nat, afterLoss: bool, answered: bool)

  /** What has happened; `lost` says that a rotation never reached the entry. */
  datatype History = History(calls: seq<Call>, rotations: nat, lost: bool)

  datatype State = State(
    now: int, entry: Entry, holder: Option<nat>, server: Server, phases: seq<Phase>, hist: History)

  /** A granted refresh, one the server turns down, or one whose reply never arrives. */
  datatype Reply = Grants(expiresAt: int) | Refuses | ReplyLost

  /** A save can also fail after the entry has been written, on setting its permissions. */
  datatype Write = Written | WrittenButFailed | NotWritten

  datatype Event =
    | FastRead(process: nat)
    | OpenLock(process: nat, ioFails: bool)
    | TryLock(process: nat, ioFails: bool)
    | ReRead(process: nat)
    | CallServer(process: nat, reply: Reply)
    | Save(process: nat, write: Write)
    | Unlock(process: nat)
    | Die(process: nat)
    | Tick(ms: nat)

  datatype Config = Config(lockTimeoutMs: nat)

  // ----- Reading the entry -----

  datatype Loaded = Found(data: OAuthData) | NotFound(error: RefreshError)

  function LoadOAuthData(entry: Entry): Loaded {
    match entry
    case OAuthEntry(data) => Found(data)
    case ApiKeyEntry => NotFound(NotOAuth)
    case NoEntry => NotFound(Missing)
  }

  /** `None` when the expiry is malformed. */
  function IsNearExpiry(data: OAuthData, now: int): Option<bool> {
    match data.expiresAt
    case None => None
    case Some(deadline) => Some(deadline - now <= REFRESH_SAFETY_MARGIN_MS)
  }

  datatype Verdict = Usable(access: nat) | Stale(data: OAuthData) | Unreadable(error: RefreshError)

  function Inspect(entry: Entry, now: int): Verdict {
    match LoadOAuthData(entry)
    case NotFound(error) => Unreadable(error)
    case Found(data) =>
      match IsNearExpiry(data, now)
      case None => Unreadable(Expiry)
      case Some(near) => if near then Stale(data) else Usable(data.access)
  }

  // ----- Steps -----

  function At(s: State, p: nat, phase: Phase): State
    requires p < |s.phases|
  {
    s.(phases := s.phases[p := phase])
  }

  predicate HoldsLock(phase: Phase) {
    phase.Locked? || phase.Refreshing? || phase.Saving? || phase.Releasing?
  }

  function StepFastRead(s: State, p: nat): State
    requires p < |s.phases| && s.phases[p].Started?
  {
    match Inspect(s.entry, s.now)
    case Unreadable(error) => At(s, p, Done(Failure(error)))
    case Usable(access) => At(s, p, Done(Token(access)))
    case Stale(_) => At(s, p, Opening)
  }

  /** The lock file is opened, and the deadline set. */
  function StepOpenLock(cfg: Config, s: State, p: nat, ioFails: bool): State
    requires p < |s.phases| && s.phases[p].Opening?
  {
    At(s, p, if ioFails then Done(Failure(Persist)) else Waiting(s.now + cfg.lockTimeoutMs))
  }

  function StepTryLock(s: State, p: nat, ioFails: bool): State
    requires p < |s.phases| && s.phases[p].Waiting?
  {
    if ioFails then At(s, p, Done(Failure(Persist)))
    else if s.holder.None? then At(s, p, Locked).(holder := Some(p))
    else if s.now >= s.phases[p].deadline then At(s, p, Done(Failure(LockTimeout)))
    else s
  }

  function StepReRead(s: State, p: nat): State
    requires p < |s.phases| && s.phases[p].Locked?
  {
    match Inspect(s.entry, s.now)
    case Unreadable(error) => At(s, p, Releasing(Failure(error)))
    case Usable(access) => At(s, p, Releasing(Token(access)))
    case Stale(data) => At(s, p, Refreshing(data))
  }

  function Rotate(server: Server): Server {
    Server(server.issued + 1, server.issued + 1)
  }

  function StepCallServer(s: State, p: nat, reply: Reply): State
    requires p < |s.phases| && s.phases[p].Refreshing?
  {
    var presented := s.phases[p].current.refresh;
    var valid := presented == s.server.current;
    var call := Call(p, presented, s.server.current, s.hist.lost, valid && reply.Grants?);
    var called := s.(hist := s.hist.(calls := s.hist.calls + [call]));
    if !valid || reply.Refuses? then At(called, p, Releasing(Failure(RefreshFailed)))
    else
      var rotated := called.(server := Rotate(s.server), hist := called.hist.(rotations := s.hist.rotations + 1));
      match reply
      case Grants(expiresAt) =>
        At(rotated, p, Saving(OAuthData(s.server.issued + 1, s.server.issued + 1, Some(expiresAt))))
      case _ => At(rotated, p, Releasing(Failure(RefreshFailed))).(hist := rotated.hist.(lost := true))
  }

  function StepSave(s: State, p: nat, write: Write): State
    requires p < |s.phases| && s.phases[p].Saving?
  {
    var refreshed := s.phases[p].refreshed;
    match write
    case Written => At(s, p, Releasing(Token(refreshed.access))).(entry := OAuthEntry(refreshed))
    case WrittenButFailed => At(s, p, Releasing(Failure(Persist))).(entry := OAuthEntry(refreshed))
    case NotWritten => At(s, p, Releasing(Failure(Persist))).(hist := s.hist.(lost := true))
  }

  function StepUnlock(s: State, p: nat): State
    requires p < |s.phases| && s.phases[p].Releasing?
  {
    At(s, p, Done(s.phases[p].outcome)).(holder := None)
  }

  /** The operating system releases the lock of a process that dies. */
  function StepDie(s: State, p: nat): State
    requires p < |s.phases| && !s.phases[p].Done?
  {
    var phase := s.phases[p];
    At(s, p, Done(Failure(Died))).(
      holder := if HoldsLock(phase) then None else s.holder,
      hist := s.hist.(lost := s.hist.lost || phase.Saving?))
  }

  predicate Possible(s: State, event: Event) {
    if event.Tick? then true
    else
      && event.process < |s.phases|
      && var phase := s.phases[event.process];
         match event
         case FastRead(_) => phase.Started?
         case OpenLock(_, _) => phase.Opening?
         case TryLock(_, _) => phase.Waiting?
         case ReRead(_) => phase.Locked?
         case CallServer(_, _) => phase.Refreshing?
         case Save(_, _) => phase.Saving?
         case Unlock(_) => phase.Releasing?
         case Die(_) => !phase.Done?
  }

  /** One step; an event that is not possible changes nothing. */
  function Step(cfg: Config, s: State, event: Event): State {
    if !Possible(s, event) then s
    else
      match event
      case Tick(ms) => s.(now := s.now + ms)
      case FastRead(p) => StepFastRead(s, p)
      case OpenLock(p, ioFails) => StepOpenLock(cfg, s, p, ioFails)
      case TryLock(p, ioFails) => StepTryLock(s, p, ioFails)
      case ReRead(p) => StepReRead(s, p)
      case CallServer(p, reply) => StepCallServer(s, p, reply)
      case Save(p, write) => StepSave(s, p, write)
      case Unlock(p) => StepUnlock(s, p)
      case Die(p) => StepDie(s, p)
  }

  function Run(cfg: Config, s: State, events: seq<Event>): State
    decreases |events|
  {
    if events == [] then s
    else Step(cfg, Run(cfg, s, events[..|events| - 1]), events[|events| - 1])
  }

  /** Nobody has begun, and the entry may or may not hold the server's current token. */
  predicate Initial(s: State) {
    && (forall p :: 0 <= p < |s.phases| ==> s.phases[p].Started?)
    && s.holder.None?
    && s.server.current <= s.server.issued
    && (s.entry.OAuthEntry? ==> s.entry.data.refresh <= s.server.issued)
    && s.hist == History([], 0, s.entry.OAuthEntry? && s.entry.data.refresh != s.server.current)
  }

  // ----- The code -----

  lemma {:induction false} RunConcat(cfg: Config, s: State, xs: seq<Event>, ys: seq<Event>)
    ensures Run(cfg, s, xs + ys) == Run(cfg, Run(cfg, s, xs), ys)
    decreases |ys|
  {
    if ys == [] {
      assert xs + ys == xs;
    } else {
      var n := |ys| - 1;
      RunConcat(cfg, s, xs, ys[..n]);
      assert (xs + ys)[..|xs + ys| - 1] == xs + ys[..n];
    }
  }

  predicate Foreign(me: nat, event: Event) {
    event.Tick? || event.process != me
  }

  predicate AllForeign(me: nat, events: seq<Event>) {
    forall i :: 0 <= i < |events| ==> Foreign(me, events[i])
  }

  lemma {:induction false} OthersLeaveMyPhase(cfg: Config, s: State, me: nat, events: seq<Event>)
    requires AllForeign(me, events)
    ensures |Run(cfg, s, events).phases| == |s.phases|
    ensures me < |s.phases| ==> Run(cfg, s, events).phases[me] == s.phases[me]
    ensures Run(cfg, s, events).now >= s.now
    decreases |events|
  {
    if events != [] {
      OthersLeaveMyPhase(cfg, s, me, events[..|events| - 1]);
    }
  }

  /** The shared world: every process's progress, the entry, the lock, the server, the clock. */
  class World {
    const cfg: Config
    var state: State

    constructor (cfg: Config, state: State)
      ensures this.cfg == cfg && this.state == state
    {
      this.cfg, this.state := cfg, state;
    }

    method Happen(event: Event)
      modifies this
      ensures state == Step(cfg, old(state), event)
    {
      state := Step(cfg, state, event);
    }

    /** Whatever the other processes do in the meantime. */
    method Pause(events: seq<Event>)
      modifies this
      ensures state == Run(cfg, old(state), events)
    {
      ghost var start := state;
      for i := 0 to |events|
        invariant state == Run(cfg, start, events[..i])
      {
        assert events[..i + 1][..i] == events[..i];
        Happen(events[i]);
      }
      assert events[..|events|] == events;
    }
  }

  /** What the environment does while one process resolves its token: the events of the
      others at each of its pauses, and how its own I/O goes. */
  datatype Environment = Environment(
    others: nat -> seq<Event>, openFails: bool, lockFails: nat -> bool, reply: Reply, write: Write)

  ghost predicate OthersOnly(env: Environment, me: nat) {
    forall k :: AllForeign(me, env.others(k))
  }

  class OAuthRefresher {
    const world: World
    const me: nat

    constructor (world: World, me: nat)
      ensures this.world == world && this.me == me
    {
      this.world, this.me := world, me;
    }

    ghost predicate InPhase(phase: Phase)
      reads world
    {
      me < |world.state.phases| && world.state.phases[me] == phase
    }

    /** Take one step of this process. */
    method Act(event: Event, ghost before: State, ghost past: seq<Event>) returns (ghost trace: seq<Event>)
      requires world.state == Run(world.cfg, before, past)
      modifies world
      ensures world.state == Step(world.cfg, old(world.state), event)
      ensures world.state == Run(world.cfg, before, trace)
    {
      trace := past + [event];
      assert trace[..|trace| - 1] == past;
      world.Happen(event);
    }

    /** Sleep while the others go on. */
    method Sleep(others: seq<Event>, ms: nat, ghost before: State, ghost past: seq<Event>)
      returns (ghost trace: seq<Event>)
      requires AllForeign(me, others) && me < |world.state.phases|
      requires world.state == Run(world.cfg, before, past)
      modifies world
      ensures world.state == Run(world.cfg, before, trace)
      ensures |world.state.phases| == |old(world.state.phases)|
      ensures world.state.phases[me] == old(world.state.phases[me])
      ensures world.state.now >= old(world.state.now) + ms
    {
      OthersLeaveMyPhase(world.cfg, world.state, me, others);
      RunConcat(world.cfg, before, past, others);
      world.Pause(others);
      trace := Act(Tick(ms), before, past + others);
    }

    /** Open the lock file and poll until it is locked. `k` counts the pauses taken. */
    method AcquireLockBlocking(env: Environment, k0: nat, ghost before: State, ghost past: seq<Event>)
      returns (error: Option<RefreshError>, k: nat, ghost trace: seq<Event>)
      requires OthersOnly(env, me)
      requires world.state == Run(world.cfg, before, past)
      requires InPhase(Opening)
      modifies world
      ensures world.state == Run(world.cfg, before, trace)
      ensures error.None? ==> InPhase(Locked)
      ensures error.Some? ==> InPhase(Done(Failure(error.value)))
      ensures error == Some(LockTimeout) ==> world.state.now >= old(world.state.now) + world.cfg.lockTimeoutMs
    {
      k := k0;
      var deadline := world.state.now + world.cfg.lockTimeoutMs;
      var openFails := env.openFails;
      trace := Act(OpenLock(me, openFails), before, past);
      if openFails {
        return Some(Persist), k, trace;
      }
      while true
        invariant world.state == Run(world.cfg, before, trace)
        invariant InPhase(Waiting(deadline))
        decreases deadline - world.state.now
      {
        var free, now, ioFails := world.state.holder.None?, world.state.now, env.lockFails(k);
        trace := Act(TryLock(me, ioFails), before, trace);
        if ioFails {
          return Some(Persist), k, trace;
        }
        if free {
          return None, k, trace;
        }
        if now >= deadline {
          return Some(LockTimeout), k, trace;
        }
        trace := Sleep(env.others(k), POLL_INTERVAL_MS, before, trace);
        k := k + 1;
      }
    }

    /** One call of the provider's refresh endpoint. */
    method Refresh(current: OAuthData, reply: Reply, ghost before: State, ghost past: seq<Event>)
      returns (refreshed: Option<OAuthData>, ghost trace: seq<Event>)
      requires world.state == Run(world.cfg, before, past) && InPhase(Refreshing(current))
      modifies world
      ensures world.state == Run(world.cfg, before, trace)
      ensures refreshed.Some? ==> InPhase(Saving(refreshed.value))
      ensures refreshed.None? ==> InPhase(Releasing(Failure(RefreshFailed)))
    {
      var valid, minted := current.refresh == world.state.server.current, world.state.server.issued + 1;
      trace := Act(CallServer(me, reply), before, past);
      refreshed := if valid && reply.Grants? then Some(OAuthData(minted, minted, Some(reply.expiresAt))) else None;
    }

    /** Inside the lock: look again, refresh if still needed, persist. */
    method RefreshUnderLock(env: Environment, k: nat, ghost before: State, ghost past: seq<Event>)
      returns (outcome: Outcome, ghost trace: seq<Event>)
      requires OthersOnly(env, me)
      requires world.state == Run(world.cfg, before, past) && InPhase(Locked)
      modifies world
      ensures world.state == Run(world.cfg, before, trace) && InPhase(Releasing(outcome))
    {
      var loaded, now := LoadOAuthData(world.state.entry), world.state.now;
      trace := Act(ReRead(me), before, past);
      if loaded.NotFound? {
        return Failure(loaded.error), trace;
      }
      var near := IsNearExpiry(loaded.data, now);
      if near.None? {
        return Failure(Expiry), trace;
      }
      if !near.value {
        return Token(loaded.data.access), trace;
      }
      trace := Sleep(env.others(k), 0, before, trace);
      var refreshed;
      refreshed, trace := Refresh(loaded.data, env.reply, before, trace);
      if refreshed.None? {
        return Failure(RefreshFailed), trace;
      }
      trace := Sleep(env.others(k + 1), 0, before, trace);
      trace := Act(Save(me, env.write), before, trace);
      outcome := if env.write.Written? then Token(refreshed.value.access) else Failure(Persist);
    }

    /** The fast path: no lock while the token has headroom. */
    method ReadCached() returns (settled: Option<Outcome>, ghost trace: seq<Event>)
      requires InPhase(Started)
      modifies world
      ensures world.state == Run(world.cfg, old(world.state), trace)
      ensures settled.Some? ==> InPhase(Done(settled.value))
      ensures settled.None? ==> InPhase(Opening)
    {
      var loaded, now := LoadOAuthData(world.state.entry), world.state.now;
      trace := Act(FastRead(me), world.state, []);
      if loaded.NotFound? {
        return Some(Failure(loaded.error)), trace;
      }
      var near := IsNearExpiry(loaded.data, now);
      if near.None? {
        return Some(Failure(Expiry)), trace;
      }
      settled := if near.value then None else Some(Token(loaded.data.access));
    }

    /** Whatever the others do, what this process does and returns is a run of the protocol. */
    method ResolveAccessToken(env: Environment) returns (outcome: Outcome, ghost trace: seq<Event>)
      requires OthersOnly(env, me) && InPhase(Started)
      modifies world
      ensures world.state == Run(world.cfg, old(world.state), trace) && InPhase(Done(outcome))
    {
      ghost var before := world.state;
      var settled;
      settled, trace := ReadCached();
      if settled.Some? {
        return settled.value, trace;
      }
      trace := Sleep(env.others(0), 0, before, trace);
      var error, k;
      error, k, trace := AcquireLockBlocking(env, 1, before, trace);
      if error.Some? {
        return Failure(error.value), trace;
      }
      outcome, trace := RefreshUnderLock(env, k, before, trace);
      trace := Sleep(env.others(k + 2), 0, before, trace);
      trace := Act(Unlock(me), before, trace);
    }
  }
}
