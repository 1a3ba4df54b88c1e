/** What the sanitizer drops and what it must keep, in the source's own terms. */
module SanitizerResults {
  import opened Protocol
  import opened Sanitizer

  // ----- Blank text -----

  function TrimStart(text: string): string {
    if text != [] && IsWhitespace(text[0]) then TrimStart(text[1..]) else text
  }

  function TrimEnd(text: string): string {
    if text != [] && IsWhitespace(text[|text| - 1]) then TrimEnd(text[..|text| - 1]) else text
  }

  lemma {:induction false} TrimStartLeaves(text: string)
    ensures Blank(text) <==> TrimStart(text) == []
    ensures TrimStart(text) != [] ==> !IsWhitespace(TrimStart(text)[0])
  {
    if text != [] && IsWhitespace(text[0]) {
      TrimStartLeaves(text[1..]);
      assert Blank(text) <==> Blank(text[1..]) by {
        assert forall i :: 1 <= i < |text| ==> text[1..][i - 1] == text[i];
        assert Blank(text[1..]) ==> forall i :: 1 <= i < |text| ==> IsWhitespace(text[i]);
      }
    }
  }

  lemma {:induction false} TrimEndKeepsInk(text: string)
    requires text != [] && !IsWhitespace(text[0])
    ensures TrimEnd(text) != []
  {
    if IsWhitespace(text[|text| - 1]) {
      TrimEndKeepsInk(text[..|text| - 1]);
    }
  }

  /** A text is blank exactly if trimming it at both ends leaves nothing. */
  lemma BlankIffTrimsToNothing(text: string)
    ensures Blank(text) <==> TrimEnd(TrimStart(text)) == []
  {
    TrimStartLeaves(text);
    if TrimStart(text) != [] {
      TrimEndKeepsInk(TrimStart(text));
    }
  }

  /** White space by code point, as Unicode lists it. */
  lemma WhitespaceByCodePoint(c: char)
    ensures IsWhitespace(c) <==>
      var point := c as int;
      || 9 <= point <= 13 || 8192 <= point <= 8202
      || point in {32, 133, 160, 5760, 8232, 8233, 8239, 8287, 12288}
  {
  }

  // ----- Blocks -----

  /** Blank text, blank thinking, reasoning the provider does not want replayed, and unsigned
      thinking where signatures are required. */
  predicate DropsBlock(block: ContentBlock, replay: Replay) {
    || (block.Text? && Blank(block.text))
    || (block.Thinking? && Blank(block.thinking))
    || ((block.Thinking? || block.RedactedThinking?) && !replay.includesThinking)
    || (block.Thinking? && block.signature.None? && replay.requiresSignature)
  }

  function RemainingBlocks(content: seq<ContentBlock>, replay: Replay): seq<ContentBlock> {
    if content == [] then []
    else if DropsBlock(content[0], replay) then RemainingBlocks(content[1..], replay)
    else [content[0]] + RemainingBlocks(content[1..], replay)
  }

  /** Something the model can be shown: text that is not blank, an image or a tool call. */
  predicate Substantial(block: ContentBlock) {
    (block.Text? && !Blank(block.text)) || block.Image? || block.ToolCallBlock?
  }

  predicate HasSubstance(content: seq<ContentBlock>) {
    exists i :: 0 <= i < |content| && Substantial(content[i])
  }

  lemma {:induction false} KeepsRemaining(content: seq<ContentBlock>, replay: Replay)
    ensures KeepBlocks(content, replay) == RemainingBlocks(content, replay)
    ensures (exists i :: 0 <= i < |KeepBlocks(content, replay)| && Visible(KeepBlocks(content, replay)[i]))
       <==> HasSubstance(content)
  {
    if content != [] {
      var rest, kept := content[1..], KeepBlocks(content, replay);
      KeepsRemaining(rest, replay);
      assert HasSubstance(content) <==> Substantial(content[0]) || HasSubstance(rest) by {
        if HasSubstance(rest) {
          var i :| 0 <= i < |rest| && Substantial(rest[i]);
          assert Substantial(content[i + 1]);
        }
        if HasSubstance(content) && !Substantial(content[0]) {
          var i :| 0 <= i < |content| && Substantial(content[i]);
          assert Substantial(rest[i - 1]);
        }
      }
      ConsVisible(content[0], KeepBlocks(rest, replay));
      assert kept == if KeepBlock(content[0], replay) then [content[0]] + KeepBlocks(rest, replay)
                     else KeepBlocks(rest, replay);
    }
  }

  lemma ConsVisible(block: ContentBlock, rest: seq<ContentBlock>)
    ensures var all := [block] + rest;
            (exists i :: 0 <= i < |all| && Visible(all[i]))
            <==> Visible(block) || exists i :: 0 <= i < |rest| && Visible(rest[i])
  {
    var all := [block] + rest;
    if i :| 0 <= i < |rest| && Visible(rest[i]) {
      assert Visible(all[i + 1]);
    }
    if Visible(block) {
      assert Visible(all[0]);
    }
  }

  // ----- Messages -----

  /** A failed assistant, or one with nothing to show. */
  predicate DropsMessage(message: Message) {
    && message.Assistant?
    && (message.assistant.stopReason == Error || message.assistant.stopReason == Aborted
        || !HasSubstance(message.assistant.content))
  }

  function Rewritten(message: Message, replay: Replay): Message {
    if message.Assistant? then
      Assistant(message.assistant.(content := RemainingBlocks(message.assistant.content, replay)))
    else message
  }

  function Remaining(messages: seq<Message>, replay: Replay): seq<Message> {
    if messages == [] then []
    else if DropsMessage(messages[0]) then Remaining(messages[1..], replay)
    else [Rewritten(messages[0], replay)] + Remaining(messages[1..], replay)
  }

  lemma SanitizesMessageExactly(message: Message, replay: Replay)
    ensures SanitizeMessage(message, replay) == if DropsMessage(message) then [] else [Rewritten(message, replay)]
  {
    if message.Assistant? {
      KeepsRemaining(message.assistant.content, replay);
    }
  }

  /** The request holds exactly the messages that are not dropped, in order, each as it is
      but for the blocks that are dropped. */
  lemma {:induction false} SanitizesExactly(messages: seq<Message>, replay: Replay)
    ensures Sanitize(messages, replay) == Remaining(messages, replay)
  {
    if messages != [] {
      SanitizesMessageExactly(messages[0], replay);
      SanitizesExactly(messages[1..], replay);
    }
  }
}
