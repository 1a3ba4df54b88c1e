/** The mid-turn compaction gate, and the per-turn budget it shares with the controller. */
module CompactionGate {
  import opened Protocol
  import opened AgentRun

  function SaturatingSub(a: nat, b: nat): nat {
    if a < b then 0 else a - b
  }

  /** The counter that pre-prompt, mid-turn and reactive compactions all draw on. */
  class Budget {
    var remaining: nat

    constructor (remaining: nat)
      ensures this.remaining == remaining
    {
      this.remaining := remaining;
    }

    method Spend()
      modifies this
      ensures remaining == SaturatingSub(old(remaining), 1)
    {
      remaining := if remaining == 0 then 0 else remaining - 1;
    }
  }

  datatype CompactionConfig = CompactionConfig(contextWindow: nat, reserveTokens: nat)

  /** What compacting in memory came to: the summarizer may also fail. */
  datatype Inline =
    | Inlined(messages: seq<Message>, summary: string, tokensBefore: nat, tokensAfter: nat)
    | NothingToDiscard
    | SummarizerFailed

  /** The context is over the threshold. */
  predicate Over(config: CompactionConfig, tokens: nat) {
    tokens > SaturatingSub(config.contextWindow, config.reserveTokens)
  }

  /** In plain terms: there is something, and with the reserve it is more than the window. */
  lemma OverIff(config: CompactionConfig, tokens: nat)
    ensures Over(config, tokens) <==> tokens > 0 && tokens + config.reserveTokens > config.contextWindow
  {
  }

  class ControllerCompactionGate {
    const config: CompactionConfig
    const budget: Budget
    const log: EventLog

    constructor (config: CompactionConfig, budget: Budget, log: EventLog)
      ensures this.config == config && this.budget == budget && this.log == log
    {
      this.config, this.budget, this.log := config, budget, log;
    }

    /** The gate compacts when the context is over the threshold, budget is left and there is
        something to discard; it spends budget exactly when it compacts. `tokens` and
        `canCompact` are the session crate's estimate and cut-point check. */
    method MaybeCompact(tokens: nat, canCompact: bool, inline: Inline, exhausted: string)
      returns (outcome: GateOutcome)
      modifies budget, log
      ensures outcome.Compacted? <==>
        Over(config, tokens) && old(budget.remaining) > 0 && canCompact && inline.Inlined?
      ensures outcome.Compacted? ==> outcome.messages == inline.messages
      ensures outcome == Skipped(exhausted) <==> Over(config, tokens) && old(budget.remaining) == 0
      ensures outcome == GateFailed <==>
        Over(config, tokens) && old(budget.remaining) > 0 && canCompact && inline.SummarizerFailed?
      ensures budget.remaining == if outcome.Compacted? then old(budget.remaining) - 1 else old(budget.remaining)
      ensures log.trace == old(log.trace)
        + (if Over(config, tokens) && old(budget.remaining) > 0 && canCompact then [CompactionStart(MidTurn)] else [])
        + (if outcome.Compacted?
           then [CompactionEnd(MidTurn, inline.summary, inline.tokensBefore, inline.tokensAfter)] else [])
    {
      if tokens <= SaturatingSub(config.contextWindow, config.reserveTokens) {
        return Unchanged;
      }
      if budget.remaining == 0 {
        return Skipped(exhausted);
      }
      if !canCompact {
        return Unchanged;
      }
      log.Send(CompactionStart(MidTurn));
      match inline {
        case Inlined(messages, summary, tokensBefore, tokensAfter) =>
          budget.Spend();
          log.Send(CompactionEnd(MidTurn, summary, tokensBefore, tokensAfter));
          return Compacted(messages);
        case NothingToDiscard => return Unchanged;
        case SummarizerFailed => return GateFailed;
      }
    }
  }
}
