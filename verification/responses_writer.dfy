// translator/openai_responses.go: the stream writer and the accumulator as the
// source runs them, each method proved equal to its function in Responses.
module ResponsesWriter {
  import R = Responses
  import opened Wrappers

  class OpenAIResponsesStreamWriter {
    const visit: R.Visit
    var seqNo: nat
    var messageOpen: bool
    var messageIndex: nat
    var partOpen: bool
    var textSoFar: string
    var toolCalls: map<string, R.ToolCall>
    var nextOutIndex: nat
    var completedItems: seq<Option<R.Item>>
    var lastUsage: Option<R.Usage>
    var completedEmitted: bool

    function Value(): R.Writer
      reads this
    {
      R.Writer(seqNo, messageOpen, messageIndex, partOpen, textSoFar, toolCalls, nextOutIndex, completedItems,
               lastUsage, completedEmitted)
    }

    constructor (visit: R.Visit)
      ensures this.visit == visit && Value() == R.NEW
    {
      this.visit := visit;
      seqNo, messageOpen, messageIndex, partOpen, textSoFar := 0, false, 0, false, "";
      toolCalls, nextOutIndex, completedItems, lastUsage, completedEmitted := map[], 0, [], None, false;
    }

    method NextSeq() returns (s: nat)
      modifies this`seqNo
      ensures s == old(seqNo) && seqNo == s + 1
    {
      s := seqNo;
      seqNo := seqNo + 1;
    }

    // One more frame at the end of `buf`.
    method Put(buf: seq<R.Frame>, body: R.Body) returns (buf': seq<R.Frame>)
      modifies this`seqNo
      ensures (Value(), buf') == R.Put((old(Value()), buf), body)
    {
      var s := NextSeq();
      buf' := buf + [R.Frame(s, body)];
    }

    method InitialFrames() returns (buf: seq<R.Frame>)
      modifies this
      ensures (Value(), buf) == R.InitialFrames(old(Value()))
    {
      buf := Put([], R.Created);
      buf := Put(buf, R.InProgress);
    }

    method EncodeTextDelta(text: string) returns (buf: seq<R.Frame>)
      modifies this
      ensures (Value(), buf) == R.EncodeTextDelta(old(Value()), text)
    {
      buf := [];
      if !messageOpen {
        messageOpen := true;
        messageIndex := nextOutIndex;
        nextOutIndex := nextOutIndex + 1;
        buf := Put(buf, R.MessageAdded(messageIndex));
      }
      if !partOpen {
        partOpen := true;
        buf := Put(buf, R.PartAdded(messageIndex));
      }
      textSoFar := textSoFar + text;
      buf := Put(buf, R.TextDeltaSent(messageIndex, text));
    }

    method EncodeToolCallStart(id: string, name: string, args: string) returns (buf: seq<R.Frame>)
      modifies this
      ensures (Value(), buf) == R.EncodeToolCallStart(old(Value()), id, name, args)
    {
      if id !in toolCalls {
        toolCalls := toolCalls[id := R.ToolCall(id, name, nextOutIndex, "", false, false)];
        nextOutIndex := nextOutIndex + 1;
      }
      buf := [];
      if !toolCalls[id].announced {
        toolCalls := toolCalls[id := toolCalls[id].(announced := true)];
        buf := Put(buf, R.FunctionAdded(toolCalls[id].outputIndex, toolCalls[id].callId, toolCalls[id].name));
      }
      if args != "" {
        toolCalls := toolCalls[id := toolCalls[id].(arguments := toolCalls[id].arguments + args)];
        buf := Put(buf, R.ArgumentsDelta(toolCalls[id].outputIndex, args));
      }
    }

    method EncodeToolCallDelta(id: string, args: string) returns (buf: seq<R.Frame>)
      modifies this
      ensures (Value(), buf) == R.AppendArguments((old(Value()), []), id, args)
    {
      if id !in toolCalls || args == "" {
        return [];
      }
      toolCalls := toolCalls[id := toolCalls[id].(arguments := toolCalls[id].arguments + args)];
      buf := Put([], R.ArgumentsDelta(toolCalls[id].outputIndex, args));
    }

    method CloseToolCall(buf: seq<R.Frame>, id: string) returns (buf': seq<R.Frame>)
      requires id in toolCalls
      modifies this
      ensures (Value(), buf') == R.CloseToolCall((old(Value()), buf), id)
    {
      toolCalls := toolCalls[id := toolCalls[id].(closed := true)];
      var call := toolCalls[id];
      buf' := Put(buf, R.ArgumentsDone(call.outputIndex, call.arguments));
      var item := R.FunctionCall(call.callId, call.name, call.arguments);
      buf' := Put(buf', R.ItemDone(call.outputIndex, item));
      completedItems := completedItems + [Some(item)];
    }

    method EncodeToolCallCompleted(id: string) returns (buf: seq<R.Frame>)
      modifies this
      ensures (Value(), buf) == R.EncodeToolCallCompleted(old(Value()), id)
    {
      if id !in toolCalls || toolCalls[id].closed {
        return [];
      }
      buf := CloseToolCall([], id);
    }

    static method InsertAtOutputIndex(items: seq<Option<R.Item>>, idx: nat, item: R.Item) returns (r: seq<Option<R.Item>>)
      ensures r == R.InsertAt(items, idx, item)
    {
      r := items;
      while |r| <= idx
        invariant R.InsertAt(r, idx, item) == R.InsertAt(items, idx, item)
        decreases idx + 1 - |r|
      {
        r := r + [None];
      }
      r := r[idx := Some(item)];
    }

    method CloseMessage() returns (buf: seq<R.Frame>)
      modifies this
      ensures (Value(), buf) == R.CloseMessage(old(Value()))
    {
      buf := [];
      if messageOpen {
        if partOpen {
          buf := Put(buf, R.TextDone(messageIndex, textSoFar));
          buf := Put(buf, R.PartDone(messageIndex, textSoFar));
          partOpen := false;
        }
        var item := R.Message(textSoFar);
        buf := Put(buf, R.ItemDone(messageIndex, item));
        completedItems := InsertAtOutputIndex(completedItems, messageIndex, item);
        messageOpen := false;
      }
    }

    method BuildCompletedFrame(buf: seq<R.Frame>) returns (buf': seq<R.Frame>)
      modifies this
      ensures (Value(), buf') == R.CompletedFrame((old(Value()), buf))
    {
      completedEmitted := true;
      var output := completedItems;
      if |output| == 0 && textSoFar != "" {
        output := [Some(R.Message(textSoFar))];
      }
      buf' := Put(buf, R.Completed(output, lastUsage));
    }

    method EncodeTurnEnded(usage: Option<R.Usage>) returns (buf: seq<R.Frame>)
      modifies this
      ensures (Value(), buf) == R.EncodeTurnEnded(visit, old(Value()), usage)
    {
      if usage.Some? {
        lastUsage := usage;
      }
      var ids := visit(toolCalls.Keys);
      buf := CloseMessage();
      ghost var o := (Value(), buf);
      for i := 0 to |ids|
        invariant (Value(), buf) == R.CloseCalls(o, ids[..i])
      {
        assert ids[..i + 1][..i] == ids[..i];
        var id := ids[i];
        if id !in toolCalls || !toolCalls[id].announced || toolCalls[id].closed {
          continue;
        }
        buf := CloseToolCall(buf, id);
      }
      assert ids[..|ids|] == ids;
      buf := BuildCompletedFrame(buf);
    }

    method Encode(ev: R.Event) returns (buf: seq<R.Frame>)
      modifies this
      ensures (Value(), buf) == R.Encode(visit, old(Value()), ev)
    {
      buf := [];
      match ev {
        case TextDelta(text) =>
          if text != "" {
            buf := EncodeTextDelta(text);
          }
        case ToolCallStarted(id, name, args) => buf := EncodeToolCallStart(id, name, args);
        case ToolCallDelta(id, args) => buf := EncodeToolCallDelta(id, args);
        case ToolCallCompleted(id) => buf := EncodeToolCallCompleted(id);
        case TurnEnded(usage) => buf := EncodeTurnEnded(usage);
        case Other =>
      }
    }
  }

  class ResponsesNonStreamingAccumulator {
    var text: string
    var toolCalls: seq<R.AccCall>
    var usage: Option<R.Usage>

    function Value(): R.Accumulator
      reads this
    {
      R.Accumulator(text, toolCalls, usage)
    }

    constructor ()
      ensures Value() == R.EMPTY
    {
      text, toolCalls, usage := "", [], None;
    }

    method Consume(ev: R.Event)
      modifies this
      ensures Value() == R.Consume(old(Value()), ev)
    {
      match ev {
        case TextDelta(t) => text := text + t;
        case ToolCallStarted(id, name, args) => toolCalls := toolCalls + [R.AccCall(id, name, args)];
        case ToolCallDelta(id, args) =>
          for i := 0 to |toolCalls|
            modifies this
            invariant Value() == old(Value())
            invariant forall k | 0 <= k < i :: toolCalls[k].callId != id
          {
            if toolCalls[i].callId == id {
              assert R.Find(toolCalls, id) == i;
              toolCalls := toolCalls[i := toolCalls[i].(arguments := toolCalls[i].arguments + args)];
              return;
            }
          }
          assert R.Find(toolCalls, id) == |toolCalls|;
        case TurnEnded(u) => usage := u;
        case _ =>
      }
    }
  }

  // A whole stream, as the handlers drive it.
  method Stream(visit: R.Visit, events: seq<R.Event>) returns (frames: seq<R.Frame>)
    ensures frames == R.Stream(visit, events).1
  {
    var writer := new OpenAIResponsesStreamWriter(visit);
    frames := writer.InitialFrames();
    for i := 0 to |events|
      invariant fresh(writer) && writer.visit == visit
      invariant (writer.Value(), frames) == R.Stream(visit, events[..i])
    {
      assert events[..i + 1][..i] == events[..i];
      var more := writer.Encode(events[i]);
      frames := frames + more;
    }
    assert events[..|events|] == events;
  }
}
