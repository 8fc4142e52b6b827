// executor/inference_stream.go: the reader as the source runs it, over the
// in-place buffer of ConnectFrames and an object holding the stream's maps.
module InferenceReader {
  import opened Text
  import opened ConnectFrames
  import I = InferenceStream
  import opened Wrappers

  // One return of body.Read: n bytes, an error, and whether the context was
  // cancelled by then.
  datatype Read = Read(data: bytes, error: I.ReadError, cancelled: bool)

  function Chunks(script: seq<Read>): (r: seq<bytes>)
    ensures |r| == |script|
    ensures forall i | 0 <= i < |script| :: r[i] == script[i].data
  {
    seq(|script|, i requires 0 <= i < |script| => script[i].data)
  }

  // A body is read until its first error.
  predicate Complete(script: seq<Read>) {
    && script != []
    && (forall i | 0 <= i < |script| - 1 :: script[i].error.NoError?)
    && !script[|script| - 1].error.NoError?
  }

  class InferenceStreamState {
    var toolStarted: map<string, bool>
    var toolComplete: map<string, bool>
    var toolArgs: map<string, string>
    var sawTurnEnded: bool
    var sawError: bool

    // The maps of flags only ever hold true.
    ghost predicate Valid()
      reads this
    {
      (forall id | id in toolStarted :: toolStarted[id]) && (forall id | id in toolComplete :: toolComplete[id])
    }

    function Value(): I.State
      reads this
    {
      I.State(toolStarted.Keys, toolComplete.Keys, toolArgs, sawTurnEnded, sawError)
    }

    constructor ()
      ensures Valid() && Value() == I.INITIAL
    {
      toolStarted, toolComplete, toolArgs := map[], map[], map[];
      sawTurnEnded, sawError := false, false;
    }

    static method PartId(codec: I.Codec, part: I.ToolPart) returns (id: string)
      ensures id == I.PartId(codec, part)
    {
      id := TrimSpace(part.id);
      if id == "" {
        match part.index {
          case Some(n) => id := "inference-tool-" + codec.showInt(n);
          case None => id := "inference-tool-0";
        }
      }
    }

    static method PartName(part: I.ToolPart) returns (name: string)
      ensures name == I.PartName(part)
    {
      name := TrimSpace(part.name);
      if name == "" {
        name := "unknown";
      }
    }

    method ToolCallPartEvents(codec: I.Codec, part: I.ToolPart, raw: bytes) returns (out: seq<I.ChatEvent>)
      requires Valid()
      modifies this
      ensures Valid() && (Value(), out) == I.OnPart(codec, old(Value()), part, raw)
    {
      var id := PartId(codec, part);
      var name := PartName(part);
      toolArgs := toolArgs[id := I.ArgsOf(toolArgs, id) + part.args];
      var call := I.ToolCall(id, name, toolArgs[id]);
      ghost var st := old(Value());
      out := StartedEvents(codec, id, call, part.args, raw);
      assert out == I.Opening(st, id, call, raw) + I.Fragment(codec, st, id, call, part.args, raw);
      if part.isComplete && !(id in toolComplete && toolComplete[id]) {
        toolComplete := toolComplete[id := true];
        out := out + [I.ChatEvent(raw, I.ToolCallCompleted(id, call))];
      }
      assert toolComplete.Keys == if part.isComplete then old(toolComplete.Keys) + {id} else old(toolComplete.Keys);
      assert out == I.Opening(st, id, call, raw) + I.Fragment(codec, st, id, call, part.args, raw)
                    + I.Closing(st, id, call, part.isComplete, raw);
    }

    // The first branch of the part handler: start the call, or continue it.
    method StartedEvents(codec: I.Codec, id: string, call: I.ToolCall, args: string, raw: bytes) returns (out: seq<I.ChatEvent>)
      requires Valid()
      modifies this`toolStarted
      ensures Valid() && toolStarted.Keys == old(toolStarted.Keys) + {id}
      ensures out == I.Opening(old(Value()), id, call, raw) + I.Fragment(codec, old(Value()), id, call, args, raw)
    {
      out := [];
      if !(id in toolStarted && toolStarted[id]) {
        toolStarted := toolStarted[id := true];
        var valid := I.ArgsValid(codec, call.args);
        out := out + [I.ChatEvent(raw, I.ToolCallStarted(id, call))];
        if !valid && args != "" {
          out := out + [I.ChatEvent(raw, I.PartialToolCall(id, args))];
        }
      } else if args != "" {
        out := out + [I.ChatEvent(raw, I.PartialToolCall(id, args))];
      }
    }

    method ResponseInfoEvents(codec: I.Codec, messages: seq<Option<I.InfoMessage>>, errorMessage: string, raw: bytes)
      returns (out: seq<I.ChatEvent>)
      requires Valid()
      modifies this
      ensures Valid() && (Value(), out) == I.OnInfo(codec, old(Value()), messages, errorMessage, raw)
    {
      out := [];
      ghost var st := Value();
      for m := 0 to |messages|
        invariant Valid() && (Value(), out) == I.OnInfoMessages(codec, st, messages[..m], raw)
      {
        assert messages[..m + 1][..m] == messages[..m];
        match messages[m] {
          case None =>
          case Some(message) =>
            var more := InfoMessageEvents(codec, message, raw);
            out := out + more;
        }
      }
      assert messages[..|messages|] == messages;
      if errorMessage != "" {
        out := out + [I.ChatEvent(raw, I.Trailer(I.Status(13, errorMessage)))];
        sawError := true;
      }
    }

    method InfoMessageEvents(codec: I.Codec, message: I.InfoMessage, raw: bytes) returns (out: seq<I.ChatEvent>)
      requires Valid()
      modifies this
      ensures Valid() && (Value(), out) == I.OnInfoMessage(codec, old(Value()), message, raw)
    {
      out := [];
      if message.content != "" {
        out := [I.ChatEvent(raw, I.TextDelta(message.content))];
      }
      var thoughts := ReasoningEvents(message.reasoning, raw);
      var calls := InfoCallEvents(codec, message.toolCalls, raw);
      out := out + thoughts + calls;
    }

    static method ReasoningEvents(reasoning: seq<Option<string>>, raw: bytes) returns (out: seq<I.ChatEvent>)
      ensures out == I.ReasoningEvents(reasoning, raw)
    {
      out := [];
      for r := 0 to |reasoning|
        invariant out == I.ReasoningEvents(reasoning[..r], raw)
      {
        assert reasoning[..r + 1][..r] == reasoning[..r];
        if reasoning[r].None? || reasoning[r].value == "" {
          continue;
        }
        out := out + [I.ChatEvent(raw, I.ThinkingDelta(reasoning[r].value))];
      }
      assert reasoning[..|reasoning|] == reasoning;
    }

    method InfoCallEvents(codec: I.Codec, calls: seq<Option<I.InfoToolCall>>, raw: bytes) returns (out: seq<I.ChatEvent>)
      requires Valid()
      modifies this
      ensures Valid() && (Value(), out) == I.OnInfoCalls(codec, old(Value()), calls, raw)
    {
      out := [];
      ghost var st := Value();
      for c := 0 to |calls|
        invariant Valid() && (Value(), out) == I.OnInfoCalls(codec, st, calls[..c], raw)
      {
        assert calls[..c + 1][..c] == calls[..c];
        match calls[c] {
          case None =>
          case Some(call) =>
            var more := ToolCallPartEvents(codec, I.ToolPart(call.id, None, call.name, call.args, true), raw);
            out := out + more;
        }
      }
      assert calls[..|calls|] == calls;
    }

    method ResponseEvents(codec: I.Codec, response: I.Response, raw: bytes) returns (out: seq<I.ChatEvent>)
      requires Valid()
      modifies this
      ensures Valid() && (Value(), out) == I.OnResponse(codec, old(Value()), response, raw)
    {
      match response {
        case TextPart(text) =>
          out := if text == "" then [] else [I.ChatEvent(raw, I.TextDelta(text))];
        case ThinkingPart(text) =>
          out := if text == "" then [] else [I.ChatEvent(raw, I.ThinkingDelta(text))];
        case Usage(prompt, completion) =>
          out := [I.ChatEvent(raw, I.TurnEnded(prompt, completion, 0, 0))];
        case ExtendedUsage(input, output, cacheRead, cacheWrite) =>
          out := [I.ChatEvent(raw, I.TurnEnded(input, output, cacheRead, cacheWrite))];
        case ToolCallPart(part) =>
          out := ToolCallPartEvents(codec, part, raw);
        case ResponseInfo(messages, errorMessage) =>
          out := ResponseInfoEvents(codec, messages, errorMessage, raw);
        case StreamError(code, message, errorType) =>
          sawError := true;
          out := [I.ChatEvent(raw, I.Trailer(I.StreamErrorStatus(code, message, errorType)))];
        case Other =>
          out := [I.ChatEvent(raw, I.RawOnly)];
      }
    }

    method EmitSyntheticTurnEnd() returns (out: seq<I.ChatEvent>)
      requires Valid()
      modifies this
      ensures Valid() && (Value(), out) == I.SyntheticTurnEnd(old(Value()))
    {
      if sawTurnEnded || sawError {
        return [];
      }
      sawTurnEnded := true;
      out := [I.ChatEvent([], I.TurnEnded(0, 0, 0, 0))];
    }

    method EmitStatus(status: I.Status, raw: bytes) returns (out: seq<I.ChatEvent>)
      requires Valid()
      modifies this
      ensures Valid() && (Value(), out) == I.EmitStatus(old(Value()), status, raw)
    {
      sawError := !status.Ok();
      out := [I.ChatEvent(raw, I.Trailer(status))];
    }

    // The body of the frame loop: what one frame sends, and whether to return.
    method Handle(codec: I.Codec, frame: Frame) returns (out: seq<I.ChatEvent>, stop: bool)
      requires Valid()
      modifies this
      ensures Valid() && I.Step(Value(), out, stop) == I.OnFrame(codec, old(Value()), frame)
    {
      out := [];
      var payload := frame.payload;
      if IsTrailer(frame.flags) {
        var status := if payload == [] then I.Status(13, "empty InferenceService/Stream trailer") else codec.trailer(payload);
        if status.Ok() {
          out := EmitSyntheticTurnEnd();
        }
        var last := EmitStatus(status, payload);
        return out + last, true;
      }
      if IsCompressed(frame.flags) {
        var (decoded, ok) := codec.gunzip(payload);
        payload := decoded;
        if !ok {
          out := EmitStatus(I.Status(13, "decode compressed InferenceService/Stream frame"), payload);
          return out, true;
        }
      }
      match codec.decode(payload) {
        case None =>
          out := EmitStatus(I.Status(13, "decode InferenceStreamResponse"), payload);
          return out, true;
        case Some(response) =>
          var events := ResponseEvents(codec, response, payload);
          ghost var st := Value();
          for i := 0 to |events|
            invariant Valid() && out == events[..i]
            invariant Value() == I.Sent(st, events[..i])
          {
            var event := events[i];
            I.AnyAppend(events[..i], [event]);
            assert events[..i + 1] == events[..i] + [event];
            assert I.AnyTurnEnd([event]) <==> I.IsTurnEnd(event) by { assert [event][0] == event; }
            assert I.AnyError([event]) <==> I.IsError(event) by { assert [event][0] == event; }
            if event.body.TurnEnded? {
              sawTurnEnded := true;
            }
            if event.body.Trailer? && !event.body.status.Ok() {
              sawError := true;
            }
            out := out + [event];
          }
          assert events[..|events|] == events;
          stop := false;
      }
    }
  }

  // What a prefix of the frames has sent stays at the head of the whole run.
  ghost predicate Progress(codec: I.Codec, st: I.State, out: seq<I.ChatEvent>, frames: seq<Frame>) {
    I.OnFrames(codec, I.INITIAL, frames) == I.Step(st, out, false)
  }

  // The frame loop: handle every complete frame in the buffer, or return early.
  method HandleBuffered(codec: I.Codec, buf: FrameBuffer, state: InferenceStreamState, out: seq<I.ChatEvent>, ghost frames: seq<Frame>)
    returns (out': seq<I.ChatEvent>, stop: bool, ghost frames': seq<Frame>)
    requires buf.Valid() && state.Valid()
    requires Progress(codec, state.Value(), out, frames)
    modifies buf`len, buf.data, state
    ensures buf.Valid() && state.Valid() && buf.len <= old(buf.len)
    ensures frames' <= After(frames, old(buf.Contents())).frames
    ensures if stop then I.OnFrames(codec, I.INITIAL, frames').stop && I.OnFrames(codec, I.INITIAL, frames').out == out'
            else Progress(codec, state.Value(), out', frames')
                 && After(frames, old(buf.Contents())) == After(frames', buf.Contents())
                 && (SplitHead(buf.Contents()) == NeedMore || LengthWraps(buf.Contents()))
  {
    ghost var target := After(frames, buf.Contents());
    out', frames' := out, frames;
    while true
      invariant buf.Valid() && state.Valid() && buf.len <= old(buf.len)
      invariant target == After(frames', buf.Contents())
      invariant Progress(codec, state.Value(), out', frames')
      decreases buf.len
    {
      AfterHead(frames', buf.Contents());
      var frame, ok := TakeFrame(buf);
      if !ok {
        return out', false, frames';
      }
      ProgressNext(codec, state.Value(), out', frames', frame);
      var sent;
      sent, stop := state.Handle(codec, frame);
      out' := out' + sent;
      frames' := frames' + [frame];
      if stop {
        return;
      }
    }
  }

  lemma {:induction false} ProgressNext(codec: I.Codec, st: I.State, out: seq<I.ChatEvent>, frames: seq<Frame>, frame: Frame)
    requires Progress(codec, st, out, frames)
    ensures var step := I.OnFrame(codec, st, frame);
      I.OnFrames(codec, I.INITIAL, frames + [frame]) == I.Step(step.st, out + step.out, step.stop)
      && (IsTrailer(frame.flags) ==> step.stop)
  {
    assert (frames + [frame])[..|frames|] == frames && (frames + [frame])[..|frames| + 1] == frames + [frame];
    I.OnFramesNext(codec, I.INITIAL, frames + [frame], |frames|);
  }

  // What a reader sends that has handled `frames`, none of which stopped it,
  // and holds `unread` when the body ends.
  function EndedWith(codec: I.Codec, frames: seq<Frame>, unread: bytes, last: Read): seq<I.ChatEvent> {
    var step := I.OnFrames(codec, I.INITIAL, frames);
    step.out + I.OnEnd(step.st, unread, last.error, last.cancelled).1
  }

  // The body ends while the buffer holds a complete frame whose length test
  // wraps; the frames handled and those still in the buffer are all there are.
  ghost predicate Stalled(codec: I.Codec, script: seq<Read>, frames: seq<Frame>, unread: bytes, out: seq<I.ChatEvent>)
    requires Complete(script)
  {
    && LengthWraps(unread) && After(frames, unread) == Deliver(Flatten(Chunks(script)))
    && out == EndedWith(codec, frames, unread, script[|script| - 1])
  }

  // What a whole run of the reader sends.
  ghost predicate Sends(codec: I.Codec, script: seq<Read>, out: seq<I.ChatEvent>)
    requires Complete(script)
  {
    var last := script[|script| - 1];
    || out == I.Run(codec, Flatten(Chunks(script)), last.error, last.cancelled)
    || (!ReadsFit(Chunks(script)) && exists frames, unread :: Stalled(codec, script, frames, unread, out))
  }

  // readInferenceStream: whatever the chunks, the reader sends what a run over
  // the whole body sends. Only if the reads do not fit under 4 GiB it may
  // instead end stalled.
  method ReadInferenceStream(codec: I.Codec, script: seq<Read>) returns (out: seq<I.ChatEvent>)
    requires Complete(script)
    ensures Sends(codec, script, out)
  {
    var state := new InferenceStreamState();
    var buf := new FrameBuffer(8192);
    out := [];
    ghost var frames := [];
    ReadingStarts(codec, Chunks(script));
    var i := 0;
    while true
      invariant fresh(buf) && fresh(buf.data) && fresh(state)
      invariant 0 <= i < |script|
      invariant buf.Valid() && state.Valid()
      invariant Reading(codec, Chunks(script), i, frames, buf.Contents(), state.Value(), out)
      decreases |script| - i
    {
      var finished;
      out, finished, frames := HandleRead(codec, script, i, buf, state, out, frames);
      if finished {
        return;
      }
      i := i + 1;
    }
  }

  // The first i chunks have been read and every frame the code can split off is
  // handled.
  ghost predicate Reading(codec: I.Codec, chunks: seq<bytes>, i: nat, frames: seq<Frame>,
                          unread: bytes, st: I.State, out: seq<I.ChatEvent>)
    requires i <= |chunks|
  {
    && After(frames, unread) == Deliver(Flatten(chunks[..i]))
    && (SplitHead(unread) == NeedMore || (LengthWraps(unread) && !ReadsFit(chunks)))
    && Progress(codec, st, out, frames)
  }

  lemma {:induction false} ReadingStarts(codec: I.Codec, chunks: seq<bytes>)
    ensures Reading(codec, chunks, 0, [], [], I.INITIAL, [])
  {
    assert chunks[..0] == [];
  }

  // One turn of the read loop.
  method HandleRead(codec: I.Codec, script: seq<Read>, i: nat, buf: FrameBuffer, state: InferenceStreamState,
                    out: seq<I.ChatEvent>, ghost frames: seq<Frame>)
    returns (out': seq<I.ChatEvent>, finished: bool, ghost frames': seq<Frame>)
    requires Complete(script) && i < |script| && buf.Valid() && state.Valid()
    requires Reading(codec, Chunks(script), i, frames, buf.Contents(), state.Value(), out)
    modifies buf, buf.data, state
    ensures buf.Valid() && state.Valid() && (buf.data == old(buf.data) || fresh(buf.data))
    ensures if finished then Sends(codec, script, out')
            else i + 1 < |script| && Reading(codec, Chunks(script), i + 1, frames', buf.Contents(), state.Value(), out')
  {
    var read := script[i];
    ghost var unread := buf.Contents();
    buf.Append(read.data);
    out', finished, frames' := HandleBuffered(codec, buf, state, out, frames);
    if finished {
      StoppedRun(codec, script, i, frames, unread, frames', out');
      return;
    }
    ReadingNext(codec, script, i, frames, unread, frames', buf.Contents(), state.Value(), out');
    if read.error != I.NoError {
      out' := FinishRun(codec, script, buf, state, out', frames');
      finished := true;
    }
  }

  // The body has ended.
  method FinishRun(codec: I.Codec, script: seq<Read>, buf: FrameBuffer, state: InferenceStreamState,
                   out: seq<I.ChatEvent>, ghost frames: seq<Frame>) returns (out': seq<I.ChatEvent>)
    requires Complete(script) && buf.Valid() && state.Valid()
    requires Reading(codec, Chunks(script), |script|, frames, buf.Contents(), state.Value(), out)
    modifies state
    ensures state.Valid() && Sends(codec, script, out')
  {
    FinishedRun(codec, script, frames, buf.Contents(), state.Value(), out);
    var last := Finish(script[|script| - 1], buf, state);
    out' := out + last;
  }

  lemma {:induction false} ReadingNext(codec: I.Codec, script: seq<Read>, i: nat, frames: seq<Frame>, unread: bytes,
                                       frames': seq<Frame>, rest: bytes, st: I.State, out: seq<I.ChatEvent>)
    requires i < |script| && After(frames, unread) == Deliver(Flatten(Chunks(script)[..i]))
    requires SplitHead(unread) == NeedMore || !ReadsFit(Chunks(script))
    requires After(frames, unread + script[i].data) == After(frames', rest) && |rest| <= |unread + script[i].data|
    requires SplitHead(rest) == NeedMore || LengthWraps(rest)
    requires Progress(codec, st, out, frames')
    ensures Reading(codec, Chunks(script), i + 1, frames', rest, st, out)
  {
    NextRead(Chunks(script), i, frames, unread);
    SplitStallsExactly(rest);
  }

  lemma {:induction false} FinishedRun(codec: I.Codec, script: seq<Read>, frames: seq<Frame>, unread: bytes, st: I.State, out: seq<I.ChatEvent>)
    requires Complete(script)
    requires Reading(codec, Chunks(script), |script|, frames, unread, st, out)
    ensures var last := script[|script| - 1];
      Sends(codec, script, out + I.OnEnd(st, unread, last.error, last.cancelled).1)
  {
    var last := script[|script| - 1];
    assert Chunks(script)[..|script|] == Chunks(script);
    AfterAll(frames, unread);
    if SplitHead(unread) != NeedMore {
      assert Stalled(codec, script, frames, unread, out + I.OnEnd(st, unread, last.error, last.cancelled).1);
    }
  }

  // What is sent once reading fails.
  method Finish(read: Read, buf: FrameBuffer, state: InferenceStreamState) returns (out: seq<I.ChatEvent>)
    requires buf.Valid() && state.Valid() && read.error != I.NoError
    modifies state
    ensures state.Valid() && out == I.OnEnd(old(state.Value()), old(buf.Contents()), read.error, read.cancelled).1
  {
    if read.cancelled {
      return [];
    }
    match read.error {
      case Eof =>
        if buf.len == 0 {
          out := state.EmitSyntheticTurnEnd();
        } else {
          out := state.EmitStatus(I.Status(13, "truncated InferenceService/Stream frame"), buf.data[..buf.len]);
        }
      case Failed(message) =>
        out := state.EmitStatus(I.Status(13, "read InferenceService/Stream: " + message), []);
    }
  }

  // A run that stopped within the first chunks sends nothing more.
  lemma {:induction false} StoppedRun(codec: I.Codec, script: seq<Read>, i: nat, before: seq<Frame>, unread: bytes,
                                      frames: seq<Frame>, out: seq<I.ChatEvent>)
    requires Complete(script) && i < |script| && After(before, unread) == Deliver(Flatten(Chunks(script)[..i]))
    requires frames <= After(before, unread + script[i].data).frames
    requires I.OnFrames(codec, I.INITIAL, frames).stop && I.OnFrames(codec, I.INITIAL, frames).out == out
    ensures Sends(codec, script, out)
  {
    NextRead(Chunks(script), i, before, unread);
    var all := Deliver(Flatten(Chunks(script))).frames;
    FramesGrow(Chunks(script), i + 1);
    assert all == frames + all[|frames|..];
    I.StopIsFinal(codec, I.INITIAL, frames, all[|frames|..]);
  }

  // Later chunks only add frames.
  lemma {:induction false} FramesGrow(chunks: seq<bytes>, k: nat)
    requires k <= |chunks|
    ensures Deliver(Flatten(chunks[..k])).frames <= Deliver(Flatten(chunks)).frames
  {
    FlattenAppend(chunks[..k], chunks[k..]);
    assert chunks[..k] + chunks[k..] == chunks;
    DeliverAppend(Flatten(chunks[..k]), Flatten(chunks[k..]));
  }
}
