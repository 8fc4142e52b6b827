// What a run of the direct-inference reader sends for the responses it decodes:
// said of the responses alone, piece by piece and in their order.
module InferenceContent {
  import opened Text
  import opened Wrappers
  import opened ConnectFrames
  import opened InferenceStream

  // ---------- what the responses hold ----------

  datatype Piece =
    | Say(text: string)
    | Think(text: string)
    | Turn(input: int, output: int, cacheRead: int, cacheWrite: int)
    | Part(part: ToolPart)
    | Fail(status: Status)
    | Unknown

  // A piece with the decoded payload of its frame.
  type Stamped = (Piece, bytes)

  function ThoughtPieces(reasoning: seq<Option<string>>, raw: bytes): seq<Stamped> {
    if reasoning == [] then []
    else
      var n := |reasoning| - 1;
      ThoughtPieces(reasoning[..n], raw) + match reasoning[n] case Some(text) => [(Think(text), raw)] case None => []
  }

  // A call of a response info is complete at once.
  function CallPieces(calls: seq<Option<InfoToolCall>>, raw: bytes): seq<Stamped> {
    if calls == [] then []
    else
      var n := |calls| - 1;
      CallPieces(calls[..n], raw) +
      match calls[n]
      case Some(call) => [(Part(ToolPart(call.id, None, call.name, call.args, true)), raw)]
      case None => []
  }

  function MessagePieces(messages: seq<Option<InfoMessage>>, raw: bytes): seq<Stamped> {
    if messages == [] then []
    else
      var n := |messages| - 1;
      MessagePieces(messages[..n], raw) +
      match messages[n]
      case Some(m) => [(Say(m.content), raw)] + ThoughtPieces(m.reasoning, raw) + CallPieces(m.toolCalls, raw)
      case None => []
  }

  function PiecesOf(response: Response, raw: bytes): seq<Stamped> {
    match response
    case TextPart(text) => [(Say(text), raw)]
    case ThinkingPart(text) => [(Think(text), raw)]
    case Usage(prompt, completion) => [(Turn(prompt, completion, 0, 0), raw)]
    case ExtendedUsage(input, output, cacheRead, cacheWrite) => [(Turn(input, output, cacheRead, cacheWrite), raw)]
    case ToolCallPart(part) => [(Part(part), raw)]
    case ResponseInfo(messages, error) =>
      MessagePieces(messages, raw) + if error == "" then [] else [(Fail(Status(13, error)), raw)]
    case StreamError(code, message, errorType) => [(Fail(StreamErrorStatus(code, message, errorType)), raw)]
    case Other => [(Unknown, raw)]
  }

  function Payload(codec: Codec, frame: Frame): bytes {
    if IsCompressed(frame.flags) then codec.gunzip(frame.payload).0 else frame.payload
  }

  function PiecesFrom(codec: Codec, frames: seq<Frame>): seq<Stamped> {
    if frames == [] then []
    else
      var n := |frames| - 1;
      PiecesFrom(codec, frames[..n]) +
      match codec.decode(Payload(codec, frames[n]))
      case Some(response) => PiecesOf(response, Payload(codec, frames[n]))
      case None => []
  }

  // ---------- what is sent for a piece ----------

  // The id and the name of a tool part: as given, without white space around
  // them; a part without an id is known by its index, or is the first.
  predicate IsCalled(codec: Codec, part: ToolPart, id: string, name: string) {
    && (!Blank(part.id) ==> id == TrimSpace(part.id))
    && (Blank(part.id) && part.index.Some? ==> id == "inference-tool-" + codec.showInt(part.index.value))
    && (Blank(part.id) && part.index.None? ==> id == "inference-tool-0")
    && (if Blank(part.name) then name == "unknown" else name == TrimSpace(part.name))
  }

  predicate FromPart(codec: Codec, e: ChatEvent, part: ToolPart, raw: bytes) {
    && e.raw == raw
    && match e.body
       case ToolCallStarted(id, call) => call.id == id && IsCalled(codec, part, id, call.name)
       case PartialToolCall(id, args) => args == part.args && args != "" && IsCalled(codec, part, id, PartName(part))
       case ToolCallCompleted(id, call) => part.isComplete && call.id == id && IsCalled(codec, part, id, call.name)
       case _ => false
  }

  // A start carries argument text that parses; text that does not is sent behind
  // it, and only then.
  predicate ShowsUnparsed(codec: Codec, part: ToolPart, block: seq<ChatEvent>) {
    forall e | e in block && e.body.ToolCallStarted? ::
      (exists f :: f in block && f.body.PartialToolCall?) <==>
      part.args != "" && !Blank(e.body.call.args) && !codec.parses(TrimSpace(e.body.call.args))
  }

  ghost predicate IsBlock(codec: Codec, stamped: Stamped, block: seq<ChatEvent>) {
    var (piece, raw) := stamped;
    match piece
    case Say(text) => block == if text == "" then [] else [ChatEvent(raw, TextDelta(text))]
    case Think(text) => block == if text == "" then [] else [ChatEvent(raw, ThinkingDelta(text))]
    case Turn(input, output, cacheRead, cacheWrite) => block == [ChatEvent(raw, TurnEnded(input, output, cacheRead, cacheWrite))]
    case Part(part) => (forall e | e in block :: FromPart(codec, e, part, raw)) && ShowsUnparsed(codec, part, block)
    case Fail(status) => block == [ChatEvent(raw, Trailer(status))]
    case Unknown => block == [ChatEvent(raw, RawOnly)]
  }

  // One block of events for each piece, in order.
  ghost predicate Cut(codec: Codec, pieces: seq<Stamped>, blocks: seq<seq<ChatEvent>>) {
    |blocks| == |pieces| && forall k | 0 <= k < |pieces| :: IsBlock(codec, pieces[k], blocks[k])
  }

  ghost predicate InBlocks(codec: Codec, pieces: seq<Stamped>, out: seq<ChatEvent>) {
    exists blocks :: Cut(codec, pieces, blocks) && Flatten(blocks) == out
  }

  function PartsIn(pieces: seq<Stamped>): seq<(ToolPart, bytes)> {
    if pieces == [] then []
    else
      var n := |pieces| - 1;
      PartsIn(pieces[..n]) + match pieces[n].0 case Part(part) => [(part, pieces[n].1)] case _ => []
  }

  // The events about tool calls.
  function Tools(events: seq<ChatEvent>): seq<ChatEvent> {
    if events == [] then []
    else
      var n := |events| - 1;
      Tools(events[..n]) + if AboutTool(events[n]).Some? then [events[n]] else []
  }

  predicate SameTools(a: State, b: State) {
    a.started == b.started && a.complete == b.complete && a.args == b.args
  }

  // From `st` to `st'`, `out` is sent for the pieces; their tool parts go in
  // order through the calls' state.
  ghost predicate Sends(codec: Codec, st: State, pieces: seq<Stamped>, st': State, out: seq<ChatEvent>) {
    var (after, tools) := OnParts(codec, st, PartsIn(pieces));
    InBlocks(codec, pieces, out) && SameTools(st', after) && Tools(out) == tools
  }

  // ---------- composition ----------

  lemma {:induction false} PartsAppend(a: seq<Stamped>, b: seq<Stamped>)
    ensures PartsIn(a + b) == PartsIn(a) + PartsIn(b)
  {
    if b == [] {
      assert a + b == a;
    } else {
      assert (a + b)[..|a + b| - 1] == a + b[..|b| - 1];
      PartsAppend(a, b[..|b| - 1]);
    }
  }

  lemma {:induction false} ToolsAppend(a: seq<ChatEvent>, b: seq<ChatEvent>)
    ensures Tools(a + b) == Tools(a) + Tools(b)
  {
    if b == [] {
      assert a + b == a;
    } else {
      assert (a + b)[..|a + b| - 1] == a + b[..|b| - 1];
      ToolsAppend(a, b[..|b| - 1]);
    }
  }

  // `step` is what the last part does after `before`.
  ghost predicate Extends(codec: Codec, before: (State, seq<ChatEvent>), last: (ToolPart, bytes), after: (State, seq<ChatEvent>),
                          step: (State, seq<ChatEvent>)) {
    step == OnPart(codec, before.0, last.0, last.1) && after == (step.0, before.1 + step.1)
  }

  lemma {:induction false} OnPartsNext(codec: Codec, st: State, parts: seq<(ToolPart, bytes)>, last: (ToolPart, bytes))
    returns (step: (State, seq<ChatEvent>))
    ensures Extends(codec, OnParts(codec, st, parts), last, OnParts(codec, st, parts + [last]), step)
  {
    assert (parts + [last])[..|parts|] == parts;
    step := OnPart(codec, OnParts(codec, st, parts).0, last.0, last.1);
  }

  lemma {:induction false} SameExtension(codec: Codec, last: (ToolPart, bytes), out: seq<ChatEvent>,
                                         a: (State, seq<ChatEvent>), a': (State, seq<ChatEvent>), s: (State, seq<ChatEvent>),
                                         b: (State, seq<ChatEvent>), b': (State, seq<ChatEvent>), t: (State, seq<ChatEvent>))
    requires Extends(codec, a, last, a', s) && Extends(codec, b, last, b', t)
    requires a.0 == b.0 && a.1 == out + b.1
    ensures a' == (b'.0, out + b'.1)
  {
    assert s == t;
    assert (out + b.1) + t.1 == out + (b.1 + t.1);
  }

  ghost predicate Joins(codec: Codec, st: State, a: seq<(ToolPart, bytes)>, b: seq<(ToolPart, bytes)>) {
    var (st1, out1) := OnParts(codec, st, a);
    var (st2, out2) := OnParts(codec, st1, b);
    OnParts(codec, st, a + b) == (st2, out1 + out2)
  }

  lemma {:induction false} JoinsNext(codec: Codec, st: State, a: seq<(ToolPart, bytes)>, front: seq<(ToolPart, bytes)>, last: (ToolPart, bytes))
    requires Joins(codec, st, a, front)
    ensures Joins(codec, st, a, front + [last])
  {
    var whole := (a + front) + [last];
    assert a + (front + [last]) == whole;
    var (st1, out1) := OnParts(codec, st, a);
    var before, before1 := OnParts(codec, st, a + front), OnParts(codec, st1, front);
    var after, after1 := OnParts(codec, st, whole), OnParts(codec, st1, front + [last]);
    var s := OnPartsNext(codec, st, a + front, last);
    var t := OnPartsNext(codec, st1, front, last);
    assert Extends(codec, before, last, after, s) && Extends(codec, before1, last, after1, t);
    SameExtension(codec, last, out1, before, after, s, before1, after1, t);
  }

  lemma {:induction false} JoinsNothing(codec: Codec, st: State, a: seq<(ToolPart, bytes)>)
    ensures Joins(codec, st, a, [])
  {
    assert a + [] == a;
    var (st1, out1) := OnParts(codec, st, a);
    assert out1 + [] == out1;
  }

  lemma {:induction false} OnPartsAppend(codec: Codec, st: State, a: seq<(ToolPart, bytes)>, b: seq<(ToolPart, bytes)>)
    ensures Joins(codec, st, a, b)
  {
    if |b| == 0 {
      JoinsNothing(codec, st, a);
      assert b == [];
    } else {
      var front, last := b[..|b| - 1], b[|b| - 1];
      OnPartsAppend(codec, st, a, front);
      JoinsNext(codec, st, a, front, last);
      assert b == front + [last];
    }
  }

  lemma {:induction false} OnPartsOne(codec: Codec, st: State, part: (ToolPart, bytes))
    ensures OnParts(codec, st, [part]) == OnPart(codec, st, part.0, part.1)
  {
    var s := OnPartsNext(codec, st, [], part);
    assert [] + [part] == [part] && [] + s.1 == s.1;
  }

  lemma {:induction false} OnPartsAlike(codec: Codec, a: State, b: State, parts: seq<(ToolPart, bytes)>)
    requires SameTools(a, b)
    ensures SameTools(OnParts(codec, a, parts).0, OnParts(codec, b, parts).0)
    ensures OnParts(codec, a, parts).1 == OnParts(codec, b, parts).1
  {
    if parts != [] { OnPartsAlike(codec, a, b, parts[..|parts| - 1]); }
  }

  lemma {:induction false} CutThen(codec: Codec, a: seq<Stamped>, x: seq<seq<ChatEvent>>, b: seq<Stamped>, y: seq<seq<ChatEvent>>)
    requires Cut(codec, a, x) && Cut(codec, b, y)
    ensures Cut(codec, a + b, x + y)
  {
    forall k | 0 <= k < |a + b| ensures IsBlock(codec, (a + b)[k], (x + y)[k]) {
      if k < |a| {
        assert IsBlock(codec, a[k], x[k]);
      } else {
        assert IsBlock(codec, b[k - |a|], y[k - |a|]);
      }
    }
  }

  lemma {:induction false} BlocksThen(codec: Codec, a: seq<Stamped>, out1: seq<ChatEvent>, b: seq<Stamped>, out2: seq<ChatEvent>)
    requires InBlocks(codec, a, out1) && InBlocks(codec, b, out2)
    ensures InBlocks(codec, a + b, out1 + out2)
  {
    var x :| Cut(codec, a, x) && Flatten(x) == out1;
    var y :| Cut(codec, b, y) && Flatten(y) == out2;
    FlattenAppend(x, y);
    CutThen(codec, a, x, b, y);
  }

  lemma {:induction false} SendsThen(codec: Codec, st: State, a: seq<Stamped>, st1: State, out1: seq<ChatEvent>,
                                     b: seq<Stamped>, st2: State, out2: seq<ChatEvent>)
    requires Sends(codec, st, a, st1, out1) && Sends(codec, st1, b, st2, out2)
    ensures Sends(codec, st, a + b, st2, out1 + out2)
  {
    BlocksThen(codec, a, out1, b, out2);
    PartsAppend(a, b);
    ToolsAppend(out1, out2);
    var after := OnParts(codec, st, PartsIn(a)).0;
    OnPartsAppend(codec, st, PartsIn(a), PartsIn(b));
    OnPartsAlike(codec, st1, after, PartsIn(b));
  }

  lemma {:induction false} SendsNothing(codec: Codec, st: State)
    ensures Sends(codec, st, [], st, [])
  {
    assert Cut(codec, [], []) && Flatten<ChatEvent>([]) == [];
  }

  lemma {:induction false} OneBlock(codec: Codec, stamped: Stamped, block: seq<ChatEvent>)
    requires IsBlock(codec, stamped, block)
    ensures InBlocks(codec, [stamped], block)
  {
    FlattenOne(block);
    assert Cut(codec, [stamped], [block]);
  }

  lemma {:induction false} NoTools(events: seq<ChatEvent>)
    requires forall e | e in events :: AboutTool(e).None?
    ensures Tools(events) == []
  {
    if events != [] {
      assert events[|events| - 1] in events;
      NoTools(events[..|events| - 1]);
    }
  }

  lemma {:induction false} AllTools(events: seq<ChatEvent>)
    requires forall e | e in events :: AboutTool(e).Some?
    ensures Tools(events) == events
  {
    if events != [] {
      assert events[|events| - 1] in events;
      AllTools(events[..|events| - 1]);
    }
  }

  // ---------- the reader's functions ----------

  lemma {:induction false} PlainPieceSends(codec: Codec, st: State, st': State, stamped: Stamped, block: seq<ChatEvent>)
    requires !stamped.0.Part? && IsBlock(codec, stamped, block) && SameTools(st, st')
    ensures Sends(codec, st, [stamped], st', block)
  {
    OneBlock(codec, stamped, block);
    NoTools(block);
    assert PartsIn([stamped]) == [];
  }

  lemma {:induction false} PartEvents(codec: Codec, st: State, part: ToolPart, raw: bytes)
    ensures forall e | e in OnPart(codec, st, part, raw).1 :: FromPart(codec, e, part, raw)
  {
    assert IsCalled(codec, part, PartId(codec, part), PartName(part));
  }

  lemma {:induction false} PartShowsUnparsed(codec: Codec, st: State, part: ToolPart, raw: bytes)
    ensures ShowsUnparsed(codec, part, OnPart(codec, st, part, raw).1)
  {
    var id := PartId(codec, part);
    var call := ToolCall(id, PartName(part), ArgsOf(st.args, id) + part.args);
    ThreeShow(codec, part, Opening(st, id, call, raw), Fragment(codec, st, id, call, part.args, raw),
              Closing(st, id, call, part.isComplete, raw), call);
  }

  lemma {:induction false} ThreeShow(codec: Codec, part: ToolPart, opening: seq<ChatEvent>, fragment: seq<ChatEvent>,
                                     closing: seq<ChatEvent>, call: ToolCall)
    requires forall e | e in opening :: e.body.ToolCallStarted? && e.body.call == call
    requires forall e | e in fragment :: e.body.PartialToolCall?
    requires forall e | e in closing :: e.body.ToolCallCompleted?
    requires opening != [] ==> (fragment != [] <==> part.args != "" && !ArgsValid(codec, call.args))
    ensures ShowsUnparsed(codec, part, opening + fragment + closing)
  {
    var out := opening + fragment + closing;
    assert forall e :: e in out <==> e in opening || e in fragment || e in closing;
    if fragment != [] { assert fragment[0] in out; }
  }

  lemma {:induction false} PartsOfOne(part: ToolPart, raw: bytes)
    ensures PartsIn([(Part(part), raw)]) == [(part, raw)]
  {
  }

  lemma {:induction false} PartSends(codec: Codec, st: State, part: ToolPart, raw: bytes)
    ensures var (st', out) := OnPart(codec, st, part, raw); Sends(codec, st, [(Part(part), raw)], st', out)
  {
    var out := OnPart(codec, st, part, raw).1;
    PartEvents(codec, st, part, raw);
    PartShowsUnparsed(codec, st, part, raw);
    OneBlock(codec, (Part(part), raw), out);
    AllTools(out);
    PartsOfOne(part, raw);
    OnPartsOne(codec, st, (part, raw));
  }

  lemma {:induction false} ThoughtsSend(codec: Codec, st: State, reasoning: seq<Option<string>>, raw: bytes)
    ensures Sends(codec, st, ThoughtPieces(reasoning, raw), st, ReasoningEvents(reasoning, raw))
  {
    if reasoning == [] {
      SendsNothing(codec, st);
    } else {
      var n := |reasoning| - 1;
      ThoughtsSend(codec, st, reasoning[..n], raw);
      if reasoning[n].Some? {
        var text := reasoning[n].value;
        var block := if text == "" then [] else [ChatEvent(raw, ThinkingDelta(text))];
        PlainPieceSends(codec, st, st, (Think(text), raw), block);
        SendsThen(codec, st, ThoughtPieces(reasoning[..n], raw), st, ReasoningEvents(reasoning[..n], raw),
                  [(Think(text), raw)], st, block);
      } else {
        assert ThoughtPieces(reasoning, raw) == ThoughtPieces(reasoning[..n], raw);
        assert ReasoningEvents(reasoning, raw) == ReasoningEvents(reasoning[..n], raw);
      }
    }
  }

  lemma {:induction false} CallsSend(codec: Codec, st: State, calls: seq<Option<InfoToolCall>>, raw: bytes)
    ensures var (st', out) := OnInfoCalls(codec, st, calls, raw); Sends(codec, st, CallPieces(calls, raw), st', out)
  {
    if calls == [] {
      SendsNothing(codec, st);
    } else {
      var n := |calls| - 1;
      var (st1, out1) := OnInfoCalls(codec, st, calls[..n], raw);
      CallsSend(codec, st, calls[..n], raw);
      if calls[n].Some? {
        var call := calls[n].value;
        var part := ToolPart(call.id, None, call.name, call.args, true);
        var (st2, out2) := OnPart(codec, st1, part, raw);
        PartSends(codec, st1, part, raw);
        SendsThen(codec, st, CallPieces(calls[..n], raw), st1, out1, [(Part(part), raw)], st2, out2);
      } else {
        assert CallPieces(calls, raw) == CallPieces(calls[..n], raw);
      }
    }
  }

  lemma {:induction false} MessageSends(codec: Codec, st: State, m: InfoMessage, raw: bytes)
    ensures var (st', out) := OnInfoMessage(codec, st, m, raw);
      Sends(codec, st, [(Say(m.content), raw)] + ThoughtPieces(m.reasoning, raw) + CallPieces(m.toolCalls, raw), st', out)
  {
    var content := if m.content == "" then [] else [ChatEvent(raw, TextDelta(m.content))];
    var say, thoughts := [(Say(m.content), raw)], ThoughtPieces(m.reasoning, raw);
    PlainPieceSends(codec, st, st, (Say(m.content), raw), content);
    ThoughtsSend(codec, st, m.reasoning, raw);
    SendsThen(codec, st, say, st, content, thoughts, st, ReasoningEvents(m.reasoning, raw));
    CallsSend(codec, st, m.toolCalls, raw);
    var (st', calls) := OnInfoCalls(codec, st, m.toolCalls, raw);
    SendsThen(codec, st, say + thoughts, st, content + ReasoningEvents(m.reasoning, raw), CallPieces(m.toolCalls, raw), st', calls);
  }

  lemma {:induction false} MessagesSend(codec: Codec, st: State, messages: seq<Option<InfoMessage>>, raw: bytes)
    ensures var (st', out) := OnInfoMessages(codec, st, messages, raw); Sends(codec, st, MessagePieces(messages, raw), st', out)
  {
    if messages == [] {
      SendsNothing(codec, st);
    } else {
      var n := |messages| - 1;
      var (st1, out1) := OnInfoMessages(codec, st, messages[..n], raw);
      MessagesSend(codec, st, messages[..n], raw);
      if messages[n].Some? {
        var m := messages[n].value;
        var (st2, out2) := OnInfoMessage(codec, st1, m, raw);
        MessageSends(codec, st1, m, raw);
        SendsThen(codec, st, MessagePieces(messages[..n], raw), st1, out1,
                  [(Say(m.content), raw)] + ThoughtPieces(m.reasoning, raw) + CallPieces(m.toolCalls, raw), st2, out2);
      } else {
        assert MessagePieces(messages, raw) == MessagePieces(messages[..n], raw);
      }
    }
  }

  lemma {:induction false} InfoSends(codec: Codec, st: State, messages: seq<Option<InfoMessage>>, error: string, raw: bytes)
    ensures var (st', out) := OnInfo(codec, st, messages, error, raw);
      Sends(codec, st, PiecesOf(ResponseInfo(messages, error), raw), st', out)
  {
    MessagesSend(codec, st, messages, raw);
    var (st1, out1) := OnInfoMessages(codec, st, messages, raw);
    if error == "" {
      assert MessagePieces(messages, raw) + [] == MessagePieces(messages, raw);
    } else {
      var (st', out) := OnInfo(codec, st, messages, error, raw);
      var last := [ChatEvent(raw, Trailer(Status(13, error)))];
      PlainPieceSends(codec, st1, st', (Fail(Status(13, error)), raw), last);
      SendsThen(codec, st, MessagePieces(messages, raw), st1, out1, [(Fail(Status(13, error)), raw)], st', last);
    }
  }

  lemma {:induction false} ResponseSends(codec: Codec, st: State, response: Response, raw: bytes)
    ensures var (st', out) := OnResponse(codec, st, response, raw); Sends(codec, st, PiecesOf(response, raw), st', out)
  {
    var (st', out) := OnResponse(codec, st, response, raw);
    match response
    case ToolCallPart(part) => PartSends(codec, st, part, raw);
    case ResponseInfo(messages, error) => InfoSends(codec, st, messages, error, raw);
    case _ => PlainPieceSends(codec, st, st', PiecesOf(response, raw)[0], out);
  }

  lemma {:induction false} FlagsAside(codec: Codec, st: State, pieces: seq<Stamped>, st1: State, st2: State, out: seq<ChatEvent>)
    requires Sends(codec, st, pieces, st1, out) && SameTools(st1, st2)
    ensures Sends(codec, st, pieces, st2, out)
  {
  }

  lemma {:induction false} FrameSends(codec: Codec, st: State, frame: Frame)
    requires !OnFrame(codec, st, frame).stop
    ensures var step := OnFrame(codec, st, frame);
      codec.decode(Payload(codec, frame)).Some?
      && Sends(codec, st, PiecesOf(codec.decode(Payload(codec, frame)).value, Payload(codec, frame)), step.st, step.out)
  {
    var raw := Payload(codec, frame);
    var response := codec.decode(raw).value;
    ResponseSends(codec, st, response, raw);
    var (st', out) := OnResponse(codec, st, response, raw);
    FlagsAside(codec, st, PiecesOf(response, raw), st', Sent(st', out), out);
  }

  lemma {:induction false} FramesSend(codec: Codec, frames: seq<Frame>)
    requires !OnFrames(codec, INITIAL, frames).stop
    ensures var step := OnFrames(codec, INITIAL, frames); Sends(codec, INITIAL, PiecesFrom(codec, frames), step.st, step.out)
  {
    if frames == [] {
      SendsNothing(codec, INITIAL);
    } else {
      var n := |frames| - 1;
      var before := OnFrames(codec, INITIAL, frames[..n]);
      FramesSend(codec, frames[..n]);
      FrameSends(codec, before.st, frames[n]);
      var step := OnFrame(codec, before.st, frames[n]);
      SendsThen(codec, INITIAL, PiecesFrom(codec, frames[..n]), before.st, before.out,
                PiecesOf(codec.decode(Payload(codec, frames[n])).value, Payload(codec, frames[n])), step.st, step.out);
    }
  }

  // ---------- whole runs ----------

  // All pieces of the responses decoded before the run ends.
  function Pieces(codec: Codec, body: bytes): seq<Stamped> {
    PiecesFrom(codec, BeforeEnd(codec, Deliver(body).frames))
  }

  // What a run sends before its ending is one block for each piece, in order:
  // text as text, thinking as thinking, counts and errors as they are, each with
  // its own payload; and for a tool part only events of that call.
  lemma {:induction false} MainIsPieces(codec: Codec, body: bytes)
    ensures InBlocks(codec, Pieces(codec, body), Main(codec, body))
    ensures Tools(Main(codec, body)) == OnParts(codec, INITIAL, PartsIn(Pieces(codec, body))).1
  {
    var frames := Deliver(body).frames;
    BeforeEndRuns(codec, INITIAL, frames);
    FramesSend(codec, BeforeEnd(codec, frames));
  }

  function TextIn(e: ChatEvent): string {
    if e.body.TextDelta? then e.body.text else ""
  }

  function ThoughtIn(e: ChatEvent): string {
    if e.body.ThinkingDelta? then e.body.text else ""
  }

  function TextsIn(events: seq<ChatEvent>): string {
    if events == [] then "" else TextsIn(events[..|events| - 1]) + TextIn(events[|events| - 1])
  }

  function ThoughtsIn(events: seq<ChatEvent>): string {
    if events == [] then "" else ThoughtsIn(events[..|events| - 1]) + ThoughtIn(events[|events| - 1])
  }

  function TextOf(pieces: seq<Stamped>): string {
    if pieces == [] then ""
    else TextOf(pieces[..|pieces| - 1]) + match pieces[|pieces| - 1].0 case Say(text) => text case _ => ""
  }

  function ThoughtOf(pieces: seq<Stamped>): string {
    if pieces == [] then ""
    else ThoughtOf(pieces[..|pieces| - 1]) + match pieces[|pieces| - 1].0 case Think(text) => text case _ => ""
  }

  lemma {:induction false} TextsNext(events: seq<ChatEvent>, e: ChatEvent, text: string, thought: string)
    requires text == TextIn(e) && thought == ThoughtIn(e)
    ensures TextsIn(events + [e]) == TextsIn(events) + text && ThoughtsIn(events + [e]) == ThoughtsIn(events) + thought
  {
    assert (events + [e])[..|events|] == events;
  }

  lemma {:induction false} Assoc(a: string, b: string, c: string)
    ensures (a + b) + c == a + (b + c)
  {
  }

  lemma {:induction false} TextsAppend(a: seq<ChatEvent>, b: seq<ChatEvent>)
    ensures TextsIn(a + b) == TextsIn(a) + TextsIn(b)
    ensures ThoughtsIn(a + b) == ThoughtsIn(a) + ThoughtsIn(b)
  {
    if b == [] {
      assert a + b == a;
    } else {
      var front, last := b[..|b| - 1], b[|b| - 1];
      var text, thought := TextIn(last), ThoughtIn(last);
      TextsAppend(a, front);
      assert a + b == (a + front) + [last] && b == front + [last];
      TextsNext(a + front, last, text, thought);
      TextsNext(front, last, text, thought);
      Assoc(TextsIn(a), TextsIn(front), text);
      Assoc(ThoughtsIn(a), ThoughtsIn(front), thought);
    }
  }

  lemma {:induction false} TextsOfOther(events: seq<ChatEvent>)
    requires forall e | e in events :: !e.body.TextDelta? && !e.body.ThinkingDelta?
    ensures TextsIn(events) == "" && ThoughtsIn(events) == ""
  {
    if events != [] {
      assert events[|events| - 1] in events;
      TextsOfOther(events[..|events| - 1]);
    }
  }

  lemma {:induction false} TextsOfOne(e: ChatEvent)
    ensures TextsIn([e]) == TextIn(e) && ThoughtsIn([e]) == ThoughtIn(e)
  {
    assert [e][..0] == [];
  }

  lemma {:induction false} TextsOfBlock(codec: Codec, stamped: Stamped, block: seq<ChatEvent>)
    requires IsBlock(codec, stamped, block)
    ensures TextsIn(block) == match stamped.0 case Say(text) => text case _ => ""
    ensures ThoughtsIn(block) == match stamped.0 case Think(text) => text case _ => ""
  {
    if stamped.0.Part? {
      TextsOfOther(block);
    } else if block != [] {
      TextsOfOne(block[0]);
      assert block == [block[0]];
    }
  }

  lemma {:induction false} TextsOfBlocks(codec: Codec, pieces: seq<Stamped>, blocks: seq<seq<ChatEvent>>)
    requires Cut(codec, pieces, blocks)
    ensures TextsIn(Flatten(blocks)) == TextOf(pieces) && ThoughtsIn(Flatten(blocks)) == ThoughtOf(pieces)
  {
    if blocks != [] {
      var n := |blocks| - 1;
      TextsOfBlocks(codec, pieces[..n], blocks[..n]);
      TextsOfBlock(codec, pieces[n], blocks[n]);
      TextsAppend(Flatten(blocks[..n]), blocks[n]);
    }
  }

  lemma {:induction false} BareTail(main: seq<ChatEvent>, tail: seq<ChatEvent>)
    requires forall e | e in tail :: e.body.TurnEnded? || e.body.Trailer?
    ensures TextsIn(main + tail) == TextsIn(main) && ThoughtsIn(main + tail) == ThoughtsIn(main)
    ensures Tools(main + tail) == Tools(main)
  {
    TextsOfOther(tail);
    NoTools(tail);
    TextsAppend(main, tail);
    ToolsAppend(main, tail);
  }

  lemma {:induction false} EndingKinds(codec: Codec, d: Delivery, error: ReadError, cancelled: bool)
    ensures forall e | e in EndingOf(codec, d, error, cancelled).status :: e.body.Trailer?
  {
  }

  // The ending adds no text, no thinking and no tool call.
  lemma {:induction false} EndingIsBare(codec: Codec, body: bytes, error: ReadError, cancelled: bool)
    ensures var out, main := Run(codec, body, error, cancelled), Main(codec, body);
      TextsIn(out) == TextsIn(main) && ThoughtsIn(out) == ThoughtsIn(main) && Tools(out) == Tools(main)
  {
    RunIsMainThenEnding(codec, body, error, cancelled);
    var main, ending := Main(codec, body), EndingOf(codec, Deliver(body), error, cancelled);
    EndingKinds(codec, Deliver(body), error, cancelled);
    BareTail(main, Synthetic(main, ending));
    BareTail(main + Synthetic(main, ending), ending.status);
  }

  // Every run, whatever the upstream sends: the text deltas are the text parts
  // and message contents, and the thinking deltas the thinking parts and
  // reasoning texts, in their order.
  lemma {:induction false} RunTells(codec: Codec, body: bytes, error: ReadError, cancelled: bool)
    ensures var out := Run(codec, body, error, cancelled);
      TextsIn(out) == TextOf(Pieces(codec, body)) && ThoughtsIn(out) == ThoughtOf(Pieces(codec, body))
  {
    MainIsPieces(codec, body);
    var blocks :| Cut(codec, Pieces(codec, body), blocks) && Flatten(blocks) == Main(codec, body);
    TextsOfBlocks(codec, Pieces(codec, body), blocks);
    EndingIsBare(codec, body, error, cancelled);
  }

  lemma {:induction false} TrackOfTools(codec: Codec, id: string, events: seq<ChatEvent>)
    ensures TrackOf(codec, id, Tools(events)) == TrackOf(codec, id, events)
  {
    if events != [] {
      var n := |events| - 1;
      TrackOfTools(codec, id, events[..n]);
      if AboutTool(events[n]).Some? {
        assert (Tools(events[..n]) + [events[n]])[..|Tools(events[..n])|] == Tools(events[..n]);
      } else {
        assert Tools(events) == Tools(events[..n]);
      }
    }
  }

  // Every run: what a consumer is told of a tool call is what the parts and info
  // calls with its id call for, in their order.
  lemma {:induction false} RunTracksParts(codec: Codec, body: bytes, error: ReadError, cancelled: bool, id: string)
    ensures TrackOf(codec, id, Run(codec, body, error, cancelled)) == TrackSpec(codec, id, PartsIn(Pieces(codec, body)))
  {
    MainIsPieces(codec, body);
    EndingIsBare(codec, body, error, cancelled);
    PartsTrack(codec, PartsIn(Pieces(codec, body)), id);
    TrackOfTools(codec, id, Run(codec, body, error, cancelled));
  }

  // ---------- error texts ----------

  // The same text but for letter case and the three ways to part words.
  predicate SameWords(a: string, b: string) {
    |a| == |b| && forall i | 0 <= i < |a| ::
      LowerChar(a[i]) == LowerChar(b[i]) || (a[i] in {'-', ' ', '_'} && b[i] in {'-', ' ', '_'})
  }

  lemma {:induction false} NormalizedWords(a: string, b: string)
    ensures Normalized(a) == Normalized(b) <==> SameWords(a, b)
  {
    if Normalized(a) == Normalized(b) {
      forall i | 0 <= i < |a|
        ensures LowerChar(a[i]) == LowerChar(b[i]) || (a[i] in {'-', ' ', '_'} && b[i] in {'-', ' ', '_'})
      {
        assert Normalized(a)[i] == Normalized(b)[i];
      }
    }
  }

  lemma {:induction false} PlainName(name: string)
    requires forall c | c in name :: c == '_' || 'a' <= c <= 'z'
    ensures Normalized(name) == name
  {
    assert forall i | 0 <= i < |name| :: name[i] in name;
  }

  lemma {:induction false} IsNamed(text: string, name: string)
    requires forall c | c in name :: c == '_' || 'a' <= c <= 'z'
    ensures Normalized(text) == name <==> SameWords(text, name)
  {
    PlainName(name);
    NormalizedWords(text, name);
  }

  predicate OneOf(text: string, names: set<string>) {
    exists name :: name in names && SameWords(text, name)
  }

  const LOGIN := {"unauthenticated", "authentication", "authentication_error"}
  const DENIED := {"permission_denied", "permission", "forbidden"}
  const EXHAUSTED := {"resource_exhausted", "rate_limit", "rate_limited", "output_token_limit", "overloaded"}
  const INVALID := {"invalid_argument", "input_token_limit", "content_filter"}

  // A set of plain names is met in any letter case and with any separators.
  lemma {:induction false} OneOfNamed(text: string, names: set<string>)
    requires forall name, c | name in names && c in name :: c == '_' || 'a' <= c <= 'z'
    ensures OneOf(text, names) <==> Normalized(text) in names
  {
    forall name | name in names ensures Normalized(text) == name <==> SameWords(text, name) {
      forall c | c in name ensures c == '_' || 'a' <= c <= 'z' { }
      IsNamed(text, name);
    }
  }

  lemma {:induction false} PlainSets()
    ensures forall name, c | name in LOGIN + DENIED + INVALID && c in name :: c == '_' || 'a' <= c <= 'z'
    ensures forall name, c | name in EXHAUSTED && c in name :: c == '_' || 'a' <= c <= 'z'
  {
  }

  lemma {:induction false} SetsByNormal(text: string)
    ensures OneOf(text, LOGIN) <==> Normalized(text) in LOGIN
    ensures OneOf(text, DENIED) <==> Normalized(text) in DENIED
    ensures OneOf(text, EXHAUSTED) <==> Normalized(text) in EXHAUSTED
    ensures OneOf(text, INVALID) <==> Normalized(text) in INVALID
    ensures OneOf(text, {"unavailable"}) <==> Normalized(text) == "unavailable"
  {
    PlainSets();
    OneOfNamed(text, LOGIN);
    OneOfNamed(text, DENIED);
    OneOfNamed(text, EXHAUSTED);
    OneOfNamed(text, INVALID);
    OneOfNamed(text, {"unavailable"});
  }

  lemma {:induction false} CodeOfNormal(text: string)
    ensures var code, n := NamedCode(text), Normalized(text);
      && (code == 16 <==> n in LOGIN) && (code == 7 <==> n in DENIED) && (code == 8 <==> n in EXHAUSTED)
      && (code == 3 <==> n in INVALID) && (code == 14 <==> n == "unavailable") && code in {3, 7, 8, 13, 14, 16}
  {
  }

  // An error text without a number has the code of its name, in any letter case
  // and with any separators, and 13 if it has none.
  lemma {:induction false} NamedCodes(code: string, message: string, errorType: string)
    requires Atoi(TrimSpace(code)) in {None, Some(0)}
    ensures var r, text := StreamErrorStatus(code, message, errorType), TrimSpace(code);
      && (r.code == 16 <==> OneOf(text, LOGIN))
      && (r.code == 7 <==> OneOf(text, DENIED))
      && (r.code == 8 <==> OneOf(text, EXHAUSTED))
      && (r.code == 3 <==> OneOf(text, INVALID))
      && (r.code == 14 <==> OneOf(text, {"unavailable"}))
      && r.code in {3, 7, 8, 13, 14, 16}
  {
    SetsByNormal(TrimSpace(code));
    CodeOfNormal(TrimSpace(code));
  }

  lemma {:induction false} ErrorMessages(code: string, message: string, errorType: string)
    ensures var r := StreamErrorStatus(code, message, errorType);
      && (message != "" ==> r.message == message)
      && (message == "" && !Blank(code) ==> r.message == TrimSpace(code))
      && (message == "" && Blank(code) ==> r.message == errorType)
  {
  }
}
