/** Tool calls and their results: what providers require of a request. */
module Pairing {
  import opened Protocol
  import opened Sanitizer

  /** The ids a message asks results for. A failed assistant's calls are never executed. */
  function Owed(message: Message): seq<string> {
    if message.Assistant? && !Failed(message.assistant)
    then Ids(ExtractToolCalls(message.assistant.content))
    else []
  }

  /** Read the context against the ids still waiting for a result: a result must answer the
      first waiting id, any other message needs nothing to be waiting. `None` is a violation. */
  function Scan(waiting: seq<string>, messages: seq<Message>): (r: Option<seq<string>>)
    decreases |messages|
  {
    if messages == [] then Some(waiting)
    else if messages[0].ToolResultMsg? then
      if waiting != [] && messages[0].result.toolCallId == waiting[0]
      then Scan(waiting[1..], messages[1..])
      else None
    else if waiting == [] then Scan(Owed(messages[0]), messages[1..])
    else None
  }

  /** Every executed batch of calls is followed at once by its results, same ids, same
      order, and there is no other tool result anywhere. */
  predicate WellPaired(messages: seq<Message>) {
    Scan([], messages) == Some([])
  }

  /** The same, position by position: what a provider checks on the wire. */
  ghost predicate PairedOnTheWire(messages: seq<Message>) {
    && (forall i :: 0 <= i < |messages| && messages[i].Assistant? ==> AnsweredAt(messages, i))
    && (forall i :: 0 <= i < |messages| && messages[i].ToolResultMsg? ==> Called(messages, i))
  }

  /** The assistant at `i` is followed at once by results for all its calls, in order. */
  ghost predicate AnsweredAt(messages: seq<Message>, i: nat)
    requires i < |messages| && messages[i].Assistant?
  {
    var ids := Ids(ExtractToolCalls(messages[i].assistant.content));
    && i + |ids| < |messages|
    && forall k :: 0 <= k < |ids| ==> ResultFor(messages[i + 1 + k], ids[k])
  }

  predicate ResultFor(message: Message, id: string) {
    message.ToolResultMsg? && message.result.toolCallId == id
  }

  ghost predicate Called(messages: seq<Message>, i: int) {
    exists j :: IsBatch(messages, j, i)
  }

  /** Position `i` lies inside the block of results that the assistant at `j` called for. */
  ghost predicate IsBatch(messages: seq<Message>, j: int, i: int) {
    && 0 <= j < i < |messages|
    && messages[j].Assistant?
    && i <= j + |ExtractToolCalls(messages[j].assistant.content)|
  }

  lemma {:induction false} ScanConcat(waiting: seq<string>, xs: seq<Message>, ys: seq<Message>)
    ensures Scan(waiting, xs + ys)
         == match Scan(waiting, xs) case None => None case Some(rest) => Scan(rest, ys)
    decreases |xs|
  {
    if xs == [] {
      assert xs + ys == ys;
    } else {
      assert (xs + ys)[0] == xs[0] && (xs + ys)[1..] == xs[1..] + ys;
      if xs[0].ToolResultMsg? {
        if waiting != [] && xs[0].result.toolCallId == waiting[0] {
          ScanConcat(waiting[1..], xs[1..], ys);
        }
      } else if waiting == [] {
        ScanConcat(Owed(xs[0]), xs[1..], ys);
      }
    }
  }

  lemma WellPairedConcat(xs: seq<Message>, ys: seq<Message>)
    requires WellPaired(xs) && WellPaired(ys)
    ensures WellPaired(xs + ys)
  {
    ScanConcat([], xs, ys);
  }

  /** A full batch of results, in call order, leaves nothing waiting. */
  lemma {:induction false} ResultsClear(calls: seq<ToolCall>, results: seq<ToolResultMessage>)
    requires |results| == |calls|
    requires forall i :: 0 <= i < |calls| ==> results[i].toolCallId == calls[i].id
    ensures Scan(Ids(calls), AsMessages(results)) == Some([])
  {
    if calls == [] {
      assert Ids(calls) == [] && AsMessages(results) == [];
    } else {
      ResultsClear(calls[1..], results[1..]);
      assert Ids(calls)[1..] == Ids(calls[1..]);
      assert AsMessages(results)[1..] == AsMessages(results[1..]);
    }
  }

  // ----- Sanitizing keeps every pairing -----

  lemma {:induction false} KeepBlocksKeepsCalls(content: seq<ContentBlock>, replay: Replay)
    ensures ExtractToolCalls(KeepBlocks(content, replay)) == ExtractToolCalls(content)
    ensures ExtractToolCalls(content) != []
        ==> exists i :: 0 <= i < |KeepBlocks(content, replay)| && Visible(KeepBlocks(content, replay)[i])
  {
    if content != [] {
      var rest := KeepBlocks(content[1..], replay);
      KeepBlocksKeepsCalls(content[1..], replay);
      if KeepBlock(content[0], replay) {
        assert KeepBlocks(content, replay)[1..] == rest;
        if ExtractToolCalls(content) != [] && !content[0].ToolCallBlock? {
          var i :| 0 <= i < |rest| && Visible(rest[i]);
          assert KeepBlocks(content, replay)[i + 1] == rest[i];
        } else if content[0].ToolCallBlock? {
          assert Visible(KeepBlocks(content, replay)[0]);
        }
      } else {
        assert KeepBlocks(content, replay) == rest;
      }
    }
  }

  /** A dropped message owes nothing; a kept one owes exactly what it owed before. So no
      assistant whose calls were executed is ever dropped. */
  lemma SanitizeMessageKeepsOwed(message: Message, replay: Replay)
    ensures SanitizeMessage(message, replay) == [] ==> Owed(message) == [] && message.Assistant?
    ensures forall kept :: kept in SanitizeMessage(message, replay)
                       ==> Owed(kept) == Owed(message) && kept.ToolResultMsg? == message.ToolResultMsg?
    ensures message.ToolResultMsg? ==> SanitizeMessage(message, replay) == [message]
  {
    if message.Assistant? {
      KeepBlocksKeepsCalls(message.assistant.content, replay);
    }
  }

  /** Sanitizing reads the same against any waiting ids. */
  lemma {:induction false} SanitizeKeepsScan(waiting: seq<string>, messages: seq<Message>, replay: Replay)
    requires Scan(waiting, messages).Some?
    ensures Scan(waiting, Sanitize(messages, replay)) == Scan(waiting, messages)
    decreases |messages|
  {
    if messages != [] {
      var head, tail := SanitizeMessage(messages[0], replay), Sanitize(messages[1..], replay);
      SanitizeMessageKeepsOwed(messages[0], replay);
      if messages[0].ToolResultMsg? {
        SanitizeKeepsScan(waiting[1..], messages[1..], replay);
        assert (head + tail)[1..] == tail;
      } else {
        SanitizeKeepsScan(Owed(messages[0]), messages[1..], replay);
        if head == [] {
          assert head + tail == tail;
        } else {
          assert head[0] in head;
          assert (head + tail)[0] == head[0] && (head + tail)[1..] == tail;
        }
      }
    }
  }

  lemma SanitizeKeepsPairing(messages: seq<Message>, replay: Replay)
    requires WellPaired(messages)
    ensures WellPaired(Sanitize(messages, replay))
  {
    SanitizeKeepsScan([], messages, replay);
  }

  // ----- The scan means what a provider checks -----

  /** The wire check for a context whose first messages answer the `waiting` ids. */
  ghost predicate PairedFrom(waiting: seq<string>, messages: seq<Message>) {
    && |waiting| <= |messages|
    && (forall k :: 0 <= k < |waiting| ==> ResultFor(messages[k], waiting[k]))
    && (forall i :: 0 <= i < |messages| && messages[i].Assistant? ==> AnsweredAt(messages, i))
    && (forall i :: |waiting| <= i < |messages| && messages[i].ToolResultMsg? ==> Called(messages, i))
  }

  lemma PairedFromStep(waiting: seq<string>, next: seq<string>, messages: seq<Message>)
    requires messages != [] && PairedFrom(next, messages[1..])
    requires next == if messages[0].ToolResultMsg? && waiting != [] then waiting[1..] else Owed(messages[0])
    requires messages[0].Assistant? ==> !Failed(messages[0].assistant)
    requires if messages[0].ToolResultMsg? then waiting != [] && ResultFor(messages[0], waiting[0]) else waiting == []
    ensures PairedFrom(waiting, messages)
  {
    var tail := messages[1..];
    assert forall m :: 0 <= m < |tail| ==> tail[m] == messages[m + 1];
    forall i | 0 <= i < |messages| && messages[i].Assistant?
      ensures AnsweredAt(messages, i)
    {
      if i > 0 {
        assert AnsweredAt(tail, i - 1);
      } else {
        assert Ids(ExtractToolCalls(messages[0].assistant.content)) == next;
      }
    }
    forall i | |waiting| <= i < |messages| && messages[i].ToolResultMsg?
      ensures Called(messages, i)
    {
      if i - 1 < |next| {
        assert IsBatch(messages, 0, i);
      } else {
        assert Called(tail, i - 1);
        var j :| IsBatch(tail, j, i - 1);
        assert IsBatch(messages, j + 1, i);
      }
    }
  }

  lemma PairedFromUnstep(waiting: seq<string>, messages: seq<Message>) returns (next: seq<string>)
    requires messages != [] && PairedFrom(waiting, messages)
    requires messages[0].Assistant? ==> !Failed(messages[0].assistant)
    ensures if messages[0].ToolResultMsg? then waiting != [] && ResultFor(messages[0], waiting[0]) else waiting == []
    ensures next == if messages[0].ToolResultMsg? then waiting[1..] else Owed(messages[0])
    ensures PairedFrom(next, messages[1..])
  {
    assert !Called(messages, 0);
    if waiting != [] {
      assert ResultFor(messages[0], waiting[0]);
    }
    if messages[0].Assistant? {
      assert AnsweredAt(messages, 0);
    }
    next := if messages[0].ToolResultMsg? then waiting[1..] else Owed(messages[0]);
    var tail := messages[1..];
    assert forall m :: 0 <= m < |tail| ==> tail[m] == messages[m + 1];
    forall i | 0 <= i < |tail| && tail[i].Assistant?
      ensures AnsweredAt(tail, i)
    {
      assert AnsweredAt(messages, i + 1);
    }
    forall i | |next| <= i < |tail| && tail[i].ToolResultMsg?
      ensures Called(tail, i)
    {
      assert Called(messages, i + 1);
      var j :| IsBatch(messages, j, i + 1);
      assert IsBatch(tail, j - 1, i);
    }
  }

  lemma {:induction false} ScanIffPairedFrom(waiting: seq<string>, messages: seq<Message>)
    requires forall m :: m in messages && m.Assistant? ==> !Failed(m.assistant)
    ensures Scan(waiting, messages) == Some([]) <==> PairedFrom(waiting, messages)
    decreases |messages|
  {
    if messages != [] {
      if Scan(waiting, messages) == Some([]) {
        var next := if messages[0].ToolResultMsg? then waiting[1..] else Owed(messages[0]);
        ScanIffPairedFrom(next, messages[1..]);
        PairedFromStep(waiting, next, messages);
      }
      if PairedFrom(waiting, messages) {
        var next := PairedFromUnstep(waiting, messages);
        ScanIffPairedFrom(next, messages[1..]);
      }
    }
  }

  /** On contexts without failed assistants, the scan and the wire check are one notion. */
  lemma WellPairedIffPairedOnTheWire(messages: seq<Message>)
    requires forall m :: m in messages && m.Assistant? ==> !Failed(m.assistant)
    ensures WellPaired(messages) <==> PairedOnTheWire(messages)
  {
    ScanIffPairedFrom([], messages);
  }

  /** What the provider receives is paired on the wire whenever the context is well paired. */
  lemma SanitizedIsPairedOnTheWire(messages: seq<Message>, replay: Replay)
    requires WellPaired(messages)
    ensures PairedOnTheWire(Sanitize(messages, replay))
  {
    SanitizeKeepsPairing(messages, replay);
    SanitizedIsRequestReady(messages, replay);
    WellPairedIffPairedOnTheWire(Sanitize(messages, replay));
  }
}
