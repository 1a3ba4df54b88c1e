/** What the agent loop strips from a context before a provider request. */
module Sanitizer {
  import opened Protocol

  /** What the provider and the model accept in replayed history. */
  datatype Replay = Replay(includesThinking: bool, requiresSignature: bool)

  predicate KeepBlock(block: ContentBlock, replay: Replay) {
    match block
    case Text(text) => !Blank(text)
    case Thinking(thinking, signature) =>
      && !Blank(thinking)
      && replay.includesThinking
      && (signature.None? ==> !replay.requiresSignature)
    case RedactedThinking(_) => replay.includesThinking
    case Image(_, _) => true
    case ToolCallBlock(_) => true
  }

  function KeepBlocks(content: seq<ContentBlock>, replay: Replay): (kept: seq<ContentBlock>)
    ensures |kept| <= |content|
  {
    if content == [] then []
    else (if KeepBlock(content[0], replay) then [content[0]] else []) + KeepBlocks(content[1..], replay)
  }

  predicate Visible(block: ContentBlock) {
    !block.Thinking? && !block.RedactedThinking?
  }

  function SanitizeAssistant(assistant: AssistantMessage, replay: Replay): Option<AssistantMessage> {
    if Failed(assistant) then None
    else
      var content := KeepBlocks(assistant.content, replay);
      if exists i :: 0 <= i < |content| && Visible(content[i])
      then Some(assistant.(content := content))
      else None
  }

  function SanitizeMessage(message: Message, replay: Replay): (kept: seq<Message>)
    ensures |kept| <= 1
  {
    if message.Assistant? then
      match SanitizeAssistant(message.assistant, replay)
      case None => []
      case Some(assistant) => [Assistant(assistant)]
    else [message]
  }

  function Sanitize(messages: seq<Message>, replay: Replay): (sanitized: seq<Message>)
    ensures |sanitized| <= |messages|
  {
    if messages == [] then []
    else SanitizeMessage(messages[0], replay) + Sanitize(messages[1..], replay)
  }

  // ----- The fast path is exact -----

  lemma {:induction false} KeepBlocksUnchangedIff(content: seq<ContentBlock>, replay: Replay)
    ensures KeepBlocks(content, replay) == content
       <==> forall i :: 0 <= i < |content| ==> KeepBlock(content[i], replay)
  {
    if content != [] {
      KeepBlocksUnchangedIff(content[1..], replay);
      assert content == [content[0]] + content[1..];
      if KeepBlock(content[0], replay) {
        assert forall i :: 0 < i < |content| ==> content[i] == content[1..][i - 1];
        assert KeepBlocks(content, replay)[1..] == KeepBlocks(content[1..], replay);
      }
    }
  }

  /** A context survives sanitizing untouched exactly when each of its messages does. */
  lemma {:induction false} UnchangedIffEachUnchanged(messages: seq<Message>, replay: Replay)
    ensures Sanitize(messages, replay) == messages
       <==> forall i :: 0 <= i < |messages| ==> SanitizeMessage(messages[i], replay) == [messages[i]]
  {
    if messages != [] {
      UnchangedIffEachUnchanged(messages[1..], replay);
      assert messages == [messages[0]] + messages[1..];
      assert forall i :: 0 < i < |messages| ==> messages[i] == messages[1..][i - 1];
      if SanitizeMessage(messages[0], replay) == [messages[0]] {
        assert Sanitize(messages, replay)[1..] == Sanitize(messages[1..], replay);
      } else if |SanitizeMessage(messages[0], replay)| == 1 {
        assert Sanitize(messages, replay)[0] == SanitizeMessage(messages[0], replay)[0];
      }
    }
  }

  /** The read-only scan that decides whether the context must be copied. It is exact in
      both directions: it says yes if and only if sanitizing would change something. */
  method ContextNeedsSanitization(messages: seq<Message>, replay: Replay) returns (needed: bool)
    ensures needed <==> Sanitize(messages, replay) != messages
  {
    UnchangedIffEachUnchanged(messages, replay);
    for i := 0 to |messages|
      invariant forall j :: 0 <= j < i ==> SanitizeMessage(messages[j], replay) == [messages[j]]
    {
      if messages[i].Assistant? {
        var assistant := messages[i].assistant;
        if assistant.stopReason == Error || assistant.stopReason == Aborted {
          return true;
        }
        var visible, anyDrop := false, false;
        for k := 0 to |assistant.content|
          invariant anyDrop <==> exists j :: 0 <= j < k && !KeepBlock(assistant.content[j], replay)
          invariant !anyDrop ==>
            (visible <==> exists j :: 0 <= j < k && Visible(assistant.content[j]))
        {
          match assistant.content[k] {
            case Text(text) =>
              if Blank(text) { anyDrop := true; } else { visible := true; }
            case Thinking(thinking, signature) =>
              if Blank(thinking) || !replay.includesThinking
                 || (signature == None && replay.requiresSignature)
              {
                anyDrop := true;
              }
            case RedactedThinking(_) =>
              if !replay.includesThinking { anyDrop := true; }
            case Image(_, _) => visible := true;
            case ToolCallBlock(_) => visible := true;
          }
        }
        KeepBlocksUnchangedIff(assistant.content, replay);
        if anyDrop || !visible {
          return true;
        }
      }
    }
    return false;
  }

  /** The request path: borrow the context when nothing would change, rebuild it otherwise. */
  method SanitizeContextForRequest(messages: seq<Message>, replay: Replay)
    returns (sanitized: seq<Message>, borrowed: bool)
    ensures sanitized == Sanitize(messages, replay)
    ensures borrowed <==> sanitized == messages
  {
    var needed := ContextNeedsSanitization(messages, replay);
    if !needed {
      return messages, true;
    }
    sanitized := [];
    for i := 0 to |messages|
      invariant sanitized == Sanitize(messages[..i], replay)
    {
      sanitized := sanitized + SanitizeMessage(messages[i], replay);
      SanitizeConcat(messages[..i], [messages[i]], replay);
      assert messages[..i + 1] == messages[..i] + [messages[i]];
      assert [messages[i]][1..] == [];
    }
    assert messages[..|messages|] == messages;
    borrowed := false;
  }

  lemma {:induction false} SanitizeConcat(xs: seq<Message>, ys: seq<Message>, replay: Replay)
    ensures Sanitize(xs + ys, replay) == Sanitize(xs, replay) + Sanitize(ys, replay)
  {
    if xs == [] {
      assert xs + ys == ys;
    } else {
      var all, first := xs + ys, SanitizeMessage(xs[0], replay);
      assert all[0] == xs[0] && all[1..] == xs[1..] + ys;
      assert Sanitize(all, replay) == first + Sanitize(xs[1..] + ys, replay);
      assert Sanitize(xs, replay) == first + Sanitize(xs[1..], replay);
      SanitizeConcat(xs[1..], ys, replay);
      Regroup(first, Sanitize(xs[1..], replay), Sanitize(ys, replay));
    }
  }

  // ----- Sanitizing is idempotent -----

  lemma {:induction false} KeepBlocksAllKept(content: seq<ContentBlock>, replay: Replay)
    ensures forall i :: 0 <= i < |KeepBlocks(content, replay)|
                    ==> KeepBlock(KeepBlocks(content, replay)[i], replay)
  {
    if content != [] {
      KeepBlocksAllKept(content[1..], replay);
    }
  }

  /** Whatever sanitizing keeps of one message, sanitizing again keeps as it is. */
  lemma SanitizeMessageStable(message: Message, replay: Replay)
    ensures forall kept :: kept in SanitizeMessage(message, replay)
                       ==> SanitizeMessage(kept, replay) == [kept]
  {
    if message.Assistant? && SanitizeAssistant(message.assistant, replay).Some? {
      var content := KeepBlocks(message.assistant.content, replay);
      KeepBlocksAllKept(message.assistant.content, replay);
      KeepBlocksUnchangedIff(content, replay);
    }
  }

  /** Sanitizing its own output changes nothing, under all four flag settings. */
  lemma {:induction false} SanitizeIdempotent(messages: seq<Message>, replay: Replay)
    ensures Sanitize(Sanitize(messages, replay), replay) == Sanitize(messages, replay)
  {
    if messages != [] {
      var head, tail := SanitizeMessage(messages[0], replay), messages[1..];
      SanitizeIdempotent(tail, replay);
      SanitizeMessageStable(messages[0], replay);
      SanitizeConcat(head, Sanitize(tail, replay), replay);
      if head != [] {
        assert head[0] in head && head[1..] == [];
        assert Sanitize(head, replay) == head;
      }
    }
  }

  /** Every message the sanitizer lets through is one the provider accepts. */
  ghost predicate RequestReady(message: Message, replay: Replay) {
    message.Assistant? ==>
      && !Failed(message.assistant)
      && (forall i :: 0 <= i < |message.assistant.content| ==> KeepBlock(message.assistant.content[i], replay))
      && (exists i :: 0 <= i < |message.assistant.content| && Visible(message.assistant.content[i]))
  }

  lemma {:induction false} SanitizedIsRequestReady(messages: seq<Message>, replay: Replay)
    ensures forall m :: m in Sanitize(messages, replay) ==> RequestReady(m, replay)
  {
    if messages != [] {
      SanitizedIsRequestReady(messages[1..], replay);
      if messages[0].Assistant? {
        KeepBlocksAllKept(messages[0].assistant.content, replay);
      }
    }
  }
}
