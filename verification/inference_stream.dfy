// executor/inference_stream.go: the direct-inference reader, as functions on
// values. Protobuf and JSON decoding, gzip and the trailer text are parameters
// (`Codec`); the object in inference_reader.dfy is proved equal to these.
module InferenceStream {
  import opened Text
  import opened Wrappers
  import opened ConnectFrames

  // TrailerStatus: code 0 is success
  datatype Status = Status(code: int, message: string) {
    predicate Ok() {
      code == 0
    }
  }

  // ---------- decoded responses ----------

  datatype ToolPart = ToolPart(id: string, index: Option<int>, name: string, args: string, isComplete: bool)

  datatype InfoToolCall = InfoToolCall(id: string, name: string, args: string)
  datatype InfoMessage = InfoMessage(content: string, reasoning: seq<Option<string>>, toolCalls: seq<Option<InfoToolCall>>)

  datatype Response =
    | TextPart(text: string)
    | ThinkingPart(text: string)
    | Usage(prompt: int, completion: int)
    | ExtendedUsage(input: int, output: int, cacheRead: int, cacheWrite: int)
    | ToolCallPart(part: ToolPart)
    | ResponseInfo(messages: seq<Option<InfoMessage>>, errorMessage: string)
    | StreamError(code: string, message: string, errorType: string)
    | Other

  // What the reader calls but does not define: gunzip returns whatever was
  // decoded and whether it succeeded; `parses` says whether trimmed argument
  // text is a JSON object of representable values.
  datatype Codec = Codec(
    gunzip: bytes -> (bytes, bool),
    decode: bytes -> Option<Response>,
    trailer: bytes -> Status,
    parses: string -> bool,
    showInt: int -> string)

  // ---------- delivered events ----------

  // The tool call built from the argument text accumulated so far.
  datatype ToolCall = ToolCall(id: string, name: string, args: string)

  datatype Body =
    | TextDelta(text: string)
    | ThinkingDelta(text: string)
    | TurnEnded(input: int, output: int, cacheRead: int, cacheWrite: int)
    | ToolCallStarted(id: string, call: ToolCall)
    | PartialToolCall(id: string, args: string)
    | ToolCallCompleted(id: string, call: ToolCall)
    | Trailer(status: Status)
    | RawOnly

  datatype ChatEvent = ChatEvent(raw: bytes, body: Body)

  // ---------- the state of one stream ----------

  datatype State = State(
    started: set<string>,
    complete: set<string>,
    args: map<string, string>,
    sawTurnEnded: bool,
    sawError: bool)

  const INITIAL := State({}, {}, map[], false, false)

  function ArgsOf(args: map<string, string>, id: string): string {
    if id in args then args[id] else ""
  }

  // ---------- tool-call parts ----------

  function PartId(codec: Codec, part: ToolPart): string {
    var id := TrimSpace(part.id);
    if id != "" then id
    else match part.index
      case Some(n) => "inference-tool-" + codec.showInt(n)
      case None => "inference-tool-0"
  }

  function PartName(part: ToolPart): string {
    var name := TrimSpace(part.name);
    if name == "" then "unknown" else name
  }

  // inferenceMcpArgs: blank text counts as parsed
  predicate ArgsValid(codec: Codec, args: string) {
    TrimSpace(args) == "" || codec.parses(TrimSpace(args))
  }

  // The three events a part may send, in this order.
  function Opening(st: State, id: string, call: ToolCall, raw: bytes): seq<ChatEvent> {
    if id in st.started then [] else [ChatEvent(raw, ToolCallStarted(id, call))]
  }

  function Fragment(codec: Codec, st: State, id: string, call: ToolCall, args: string, raw: bytes): seq<ChatEvent> {
    if args != "" && (id in st.started || !ArgsValid(codec, call.args))
    then [ChatEvent(raw, PartialToolCall(id, args))] else []
  }

  function Closing(st: State, id: string, call: ToolCall, isComplete: bool, raw: bytes): seq<ChatEvent> {
    if isComplete && id !in st.complete then [ChatEvent(raw, ToolCallCompleted(id, call))] else []
  }

  function OnPart(codec: Codec, st: State, part: ToolPart, raw: bytes): (State, seq<ChatEvent>) {
    var id, name := PartId(codec, part), PartName(part);
    var fullArgs := ArgsOf(st.args, id) + part.args;
    var call := ToolCall(id, name, fullArgs);
    (st.(started := st.started + {id},
         complete := if part.isComplete then st.complete + {id} else st.complete,
         args := st.args[id := fullArgs]),
     Opening(st, id, call, raw) + Fragment(codec, st, id, call, part.args, raw) + Closing(st, id, call, part.isComplete, raw))
  }

  // ---------- one response ----------

  function ReasoningEvents(reasoning: seq<Option<string>>, raw: bytes): seq<ChatEvent> {
    if reasoning == [] then []
    else
      var n := |reasoning| - 1;
      ReasoningEvents(reasoning[..n], raw) +
      match reasoning[n]
      case Some(text) => if text == "" then [] else [ChatEvent(raw, ThinkingDelta(text))]
      case None => []
  }

  function InfoPart(call: InfoToolCall): ToolPart {
    ToolPart(call.id, None, call.name, call.args, true)
  }

  function OnInfoCalls(codec: Codec, st: State, calls: seq<Option<InfoToolCall>>, raw: bytes): (State, seq<ChatEvent>) {
    if calls == [] then (st, [])
    else
      var n := |calls| - 1;
      var (st', out) := OnInfoCalls(codec, st, calls[..n], raw);
      match calls[n]
      case Some(call) => var (st'', more) := OnPart(codec, st', InfoPart(call), raw); (st'', out + more)
      case None => (st', out)
  }

  function OnInfoMessage(codec: Codec, st: State, message: InfoMessage, raw: bytes): (State, seq<ChatEvent>) {
    var content := if message.content == "" then [] else [ChatEvent(raw, TextDelta(message.content))];
    var (st', calls) := OnInfoCalls(codec, st, message.toolCalls, raw);
    (st', content + ReasoningEvents(message.reasoning, raw) + calls)
  }

  function OnInfoMessages(codec: Codec, st: State, messages: seq<Option<InfoMessage>>, raw: bytes): (State, seq<ChatEvent>) {
    if messages == [] then (st, [])
    else
      var n := |messages| - 1;
      var (st', out) := OnInfoMessages(codec, st, messages[..n], raw);
      match messages[n]
      case Some(message) => var (st'', more) := OnInfoMessage(codec, st', message, raw); (st'', out + more)
      case None => (st', out)
  }

  function OnInfo(codec: Codec, st: State, messages: seq<Option<InfoMessage>>, errorMessage: string, raw: bytes): (State, seq<ChatEvent>) {
    var (st', out) := OnInfoMessages(codec, st, messages, raw);
    if errorMessage == "" then (st', out)
    else (st'.(sawError := true), out + [ChatEvent(raw, Trailer(Status(13, errorMessage)))])
  }

  function OnResponse(codec: Codec, st: State, response: Response, raw: bytes): (State, seq<ChatEvent>) {
    match response
    case TextPart(text) => (st, if text == "" then [] else [ChatEvent(raw, TextDelta(text))])
    case ThinkingPart(text) => (st, if text == "" then [] else [ChatEvent(raw, ThinkingDelta(text))])
    case Usage(prompt, completion) => (st, [ChatEvent(raw, TurnEnded(prompt, completion, 0, 0))])
    case ExtendedUsage(input, output, cacheRead, cacheWrite) =>
      (st, [ChatEvent(raw, TurnEnded(input, output, cacheRead, cacheWrite))])
    case ToolCallPart(part) => OnPart(codec, st, part, raw)
    case ResponseInfo(messages, errorMessage) => OnInfo(codec, st, messages, errorMessage, raw)
    case StreamError(code, message, errorType) =>
      (st.(sawError := true), [ChatEvent(raw, Trailer(StreamErrorStatus(code, message, errorType)))])
    case Other => (st, [ChatEvent(raw, RawOnly)])
  }

  // ---------- error statuses ----------

  function Normalized(code: string): string {
    ToLower(seq(|code|, i requires 0 <= i < |code| => if code[i] == '-' || code[i] == ' ' then '_' else code[i]))
  }

  function NamedCode(code: string): int {
    var normalized := Normalized(code);
    if normalized in ["unauthenticated", "authentication", "authentication_error"] then 16
    else if normalized in ["permission_denied", "permission", "forbidden"] then 7
    else if normalized in ["resource_exhausted", "rate_limit", "rate_limited", "output_token_limit", "overloaded"] then 8
    else if normalized in ["invalid_argument", "input_token_limit", "content_filter"] then 3
    else if normalized == "unavailable" then 14
    else 13
  }

  // A numeric code other than 0 is kept; every other text maps to a non-zero
  // code, so a stream error never reads as success.
  function StreamErrorStatus(code: string, message: string, errorType: string): (r: Status)
    ensures !r.Ok()
    ensures forall n | Atoi(TrimSpace(code)) == Some(n) && n != 0 :: r.code == n
    ensures (Atoi(TrimSpace(code)).None? || Atoi(TrimSpace(code)) == Some(0)) ==> r.code in {3, 7, 8, 13, 14, 16}
    ensures r.message == "" ==> message == "" && TrimSpace(code) == "" && errorType == ""
  {
    var text := TrimSpace(code);
    var parsed := match Atoi(text) case Some(n) => n case None => 0;
    Status(
      if parsed == 0 then NamedCode(text) else parsed,
      if message != "" then message else if text != "" then text else errorType)
  }

  // ---------- one frame ----------

  predicate IsTurnEnd(e: ChatEvent) {
    e.body.TurnEnded?
  }

  predicate IsError(e: ChatEvent) {
    e.body.Trailer? && !e.body.status.Ok()
  }

  predicate AnyTurnEnd(events: seq<ChatEvent>) {
    exists i | 0 <= i < |events| :: IsTurnEnd(events[i])
  }

  predicate AnyError(events: seq<ChatEvent>) {
    exists i | 0 <= i < |events| :: IsError(events[i])
  }

  // The loop that sends a response's events records what it sends.
  function Sent(st: State, events: seq<ChatEvent>): State {
    st.(sawTurnEnded := st.sawTurnEnded || AnyTurnEnd(events), sawError := st.sawError || AnyError(events))
  }

  function SyntheticTurnEnd(st: State): (State, seq<ChatEvent>) {
    if st.sawTurnEnded || st.sawError then (st, [])
    else (st.(sawTurnEnded := true), [ChatEvent([], TurnEnded(0, 0, 0, 0))])
  }

  function EmitStatus(st: State, status: Status, raw: bytes): (State, seq<ChatEvent>) {
    (st.(sawError := !status.Ok()), [ChatEvent(raw, Trailer(status))])
  }

  // The state, the events sent, and whether the reader returns.
  datatype Step = Step(st: State, out: seq<ChatEvent>, stop: bool)

  function OnFrame(codec: Codec, st: State, frame: Frame): Step {
    if IsTrailer(frame.flags) then
      var status := if frame.payload == [] then Status(13, "empty InferenceService/Stream trailer") else codec.trailer(frame.payload);
      var (st1, synthetic) := if status.Ok() then SyntheticTurnEnd(st) else (st, []);
      var (st2, last) := EmitStatus(st1, status, frame.payload);
      Step(st2, synthetic + last, true)
    else
      var (payload, ok) := if IsCompressed(frame.flags) then codec.gunzip(frame.payload) else (frame.payload, true);
      if !ok then
        var (st', last) := EmitStatus(st, Status(13, "decode compressed InferenceService/Stream frame"), payload);
        Step(st', last, true)
      else
        match codec.decode(payload)
        case None =>
          var (st', last) := EmitStatus(st, Status(13, "decode InferenceStreamResponse"), payload);
          Step(st', last, true)
        case Some(response) =>
          var (st', events) := OnResponse(codec, st, response, payload);
          Step(Sent(st', events), events, false)
  }

  // Frames in order, until one makes the reader return.
  function OnFrames(codec: Codec, st: State, frames: seq<Frame>): Step {
    if frames == [] then Step(st, [], false)
    else
      var n := |frames| - 1;
      var before := OnFrames(codec, st, frames[..n]);
      if before.stop then before
      else
        var step := OnFrame(codec, before.st, frames[n]);
        Step(step.st, before.out + step.out, step.stop)
  }

  // ---------- the end of the body ----------

  datatype ReadError = NoError | Eof | Failed(message: string)

  function OnEnd(st: State, unread: bytes, error: ReadError, cancelled: bool): (State, seq<ChatEvent>) {
    if cancelled then (st, [])
    else match error
      case Eof =>
        if unread == [] then SyntheticTurnEnd(st)
        else EmitStatus(st, Status(13, "truncated InferenceService/Stream frame"), unread)
      case Failed(message) => EmitStatus(st, Status(13, "read InferenceService/Stream: " + message), [])
      case NoError => (st, [])
  }

  // ---------- a whole run ----------

  // Everything a run sends, from all bytes of the body and how reading ended.
  function Run(codec: Codec, body: bytes, error: ReadError, cancelled: bool): seq<ChatEvent> {
    var d := Deliver(body);
    var step := OnFrames(codec, INITIAL, d.frames);
    if step.stop then step.out else step.out + OnEnd(step.st, d.rest, error, cancelled).1
  }

  // Frames after the one that ended the run change nothing.
  lemma {:induction false} StopIsFinal(codec: Codec, st: State, frames: seq<Frame>, more: seq<Frame>)
    requires OnFrames(codec, st, frames).stop
    ensures OnFrames(codec, st, frames + more) == OnFrames(codec, st, frames)
  {
    if more == [] {
      assert frames + more == frames;
    } else {
      assert (frames + more)[..|frames + more| - 1] == frames + more[..|more| - 1];
      StopIsFinal(codec, st, frames, more[..|more| - 1]);
    }
  }

  // ---------- what the flags record ----------

  // While the reader runs, its two flags say exactly whether a turn end or an
  // error has been sent.
  ghost predicate FlagsAgree(st: State, out: seq<ChatEvent>) {
    (st.sawTurnEnded <==> AnyTurnEnd(out)) && (st.sawError <==> AnyError(out))
  }

  lemma {:induction false} AnyAppend(a: seq<ChatEvent>, b: seq<ChatEvent>)
    ensures AnyTurnEnd(a + b) <==> AnyTurnEnd(a) || AnyTurnEnd(b)
    ensures AnyError(a + b) <==> AnyError(a) || AnyError(b)
  {
    assert forall i | 0 <= i < |a| :: (a + b)[i] == a[i];
    assert forall i | 0 <= i < |b| :: (a + b)[|a| + i] == b[i];
  }

  // The tool call an event is about.
  function AboutTool(e: ChatEvent): Option<string> {
    match e.body
    case ToolCallStarted(id, _) => Some(id)
    case PartialToolCall(id, _) => Some(id)
    case ToolCallCompleted(id, _) => Some(id)
    case _ => None
  }

  lemma {:induction false} OnPartSendsNoEnd(codec: Codec, st: State, part: ToolPart, raw: bytes)
    ensures var (st', out) := OnPart(codec, st, part, raw);
      && st'.sawTurnEnded == st.sawTurnEnded && st'.sawError == st.sawError
      && forall e | e in out :: AboutTool(e) == Some(PartId(codec, part))
  {
  }

  ghost predicate Quiet(st: State, st': State, out: seq<ChatEvent>) {
    && st'.sawTurnEnded == st.sawTurnEnded && st'.sawError == st.sawError
    && forall e | e in out :: !e.body.TurnEnded? && !e.body.Trailer?
  }

  lemma {:induction false} QuietThen(st: State, st1: State, a: seq<ChatEvent>, st2: State, b: seq<ChatEvent>)
    requires Quiet(st, st1, a) && Quiet(st1, st2, b)
    ensures Quiet(st, st2, a + b)
  {
  }

  lemma {:induction false} ReasoningIsQuiet(reasoning: seq<Option<string>>, raw: bytes)
    ensures forall e | e in ReasoningEvents(reasoning, raw) :: e.body.ThinkingDelta?
  {
    if reasoning != [] { ReasoningIsQuiet(reasoning[..|reasoning| - 1], raw); }
  }

  lemma {:induction false} InfoCallsQuiet(codec: Codec, st: State, calls: seq<Option<InfoToolCall>>, raw: bytes)
    ensures Quiet(st, OnInfoCalls(codec, st, calls, raw).0, OnInfoCalls(codec, st, calls, raw).1)
  {
    if calls != [] {
      var n := |calls| - 1;
      InfoCallsQuiet(codec, st, calls[..n], raw);
      if calls[n].Some? {
        var (st', out) := OnInfoCalls(codec, st, calls[..n], raw);
        OnPartSendsNoEnd(codec, st', InfoPart(calls[n].value), raw);
        var (st'', more) := OnPart(codec, st', InfoPart(calls[n].value), raw);
        assert forall e | e in more :: AboutTool(e).Some?;
        QuietThen(st, st', out, st'', more);
      }
    }
  }

  lemma {:induction false} InfoMessagesQuiet(codec: Codec, st: State, messages: seq<Option<InfoMessage>>, raw: bytes)
    ensures Quiet(st, OnInfoMessages(codec, st, messages, raw).0, OnInfoMessages(codec, st, messages, raw).1)
  {
    if messages != [] {
      var n := |messages| - 1;
      InfoMessagesQuiet(codec, st, messages[..n], raw);
      if messages[n].Some? {
        InfoCallsQuiet(codec, OnInfoMessages(codec, st, messages[..n], raw).0, messages[n].value.toolCalls, raw);
        ReasoningIsQuiet(messages[n].value.reasoning, raw);
      }
    }
  }

  // A response raises the error flag only by sending an error.
  lemma {:induction false} ResponseRaisesWhatItSends(codec: Codec, st: State, response: Response, raw: bytes)
    ensures var (st', out) := OnResponse(codec, st, response, raw);
      st'.sawTurnEnded == st.sawTurnEnded && (st'.sawError <==> st.sawError || (AnyError(out) && st'.sawError))
  {
    match response
    case ToolCallPart(part) => OnPartSendsNoEnd(codec, st, part, raw);
    case ResponseInfo(messages, errorMessage) =>
      InfoMessagesQuiet(codec, st, messages, raw);
      var (st', out) := OnResponse(codec, st, response, raw);
      if errorMessage != "" { assert IsError(out[|out| - 1]); }
    case StreamError(code, message, errorType) =>
      var (st', out) := OnResponse(codec, st, response, raw);
      assert IsError(out[0]);
    case _ =>
  }

  lemma {:induction false} FlagsAgreeWhileRunning(codec: Codec, frames: seq<Frame>)
    ensures var step := OnFrames(codec, INITIAL, frames);
      !step.stop ==> FlagsAgree(step.st, step.out)
  {
    if frames != [] {
      var n := |frames| - 1;
      FlagsAgreeWhileRunning(codec, frames[..n]);
      var before := OnFrames(codec, INITIAL, frames[..n]);
      if !before.stop {
        FrameKeepsFlags(codec, before.st, before.out, frames[n]);
      }
    }
  }

  lemma {:induction false} FrameKeepsFlags(codec: Codec, st: State, out: seq<ChatEvent>, frame: Frame)
    requires FlagsAgree(st, out)
    ensures var step := OnFrame(codec, st, frame); !step.stop ==> FlagsAgree(step.st, out + step.out)
  {
    var step := OnFrame(codec, st, frame);
    AnyAppend(out, step.out);
    if !step.stop {
      var payload := if IsCompressed(frame.flags) then codec.gunzip(frame.payload).0 else frame.payload;
      var response := codec.decode(payload).value;
      ResponseRaisesWhatItSends(codec, st, response, payload);
    }
  }

  // ---------- the terminal guarantee ----------

  // The frames after which the reader returns.
  predicate Ends(codec: Codec, frame: Frame) {
    || IsTrailer(frame.flags)
    || (IsCompressed(frame.flags) && !codec.gunzip(frame.payload).1)
    || codec.decode(if IsCompressed(frame.flags) then codec.gunzip(frame.payload).0 else frame.payload).None?
  }

  function BeforeEnd(codec: Codec, frames: seq<Frame>): (r: seq<Frame>)
    ensures |r| <= |frames|
  {
    if frames == [] then []
    else
      var front := frames[..|frames| - 1];
      var r := BeforeEnd(codec, front);
      if |r| == |front| && !Ends(codec, frames[|frames| - 1]) then frames else r
  }

  // How a run ends: whether the upstream finished without an error, and the
  // status event, if any, that is sent last.
  datatype Ending = Ending(clean: bool, status: seq<ChatEvent>)

  function Failure(message: string, raw: bytes): Ending {
    Ending(false, [ChatEvent(raw, Trailer(Status(13, message)))])
  }

  function EndingOf(codec: Codec, d: Delivery, error: ReadError, cancelled: bool): Ending {
    var k := |BeforeEnd(codec, d.frames)|;
    if k < |d.frames| then
      var frame := d.frames[k];
      if IsTrailer(frame.flags) then
        var status := if frame.payload == [] then Status(13, "empty InferenceService/Stream trailer") else codec.trailer(frame.payload);
        Ending(status.Ok(), [ChatEvent(frame.payload, Trailer(status))])
      else if IsCompressed(frame.flags) && !codec.gunzip(frame.payload).1 then
        Failure("decode compressed InferenceService/Stream frame", codec.gunzip(frame.payload).0)
      else
        Failure("decode InferenceStreamResponse",
                if IsCompressed(frame.flags) then codec.gunzip(frame.payload).0 else frame.payload)
    else if cancelled || error.NoError? then Ending(false, [])
    else match error
      case Eof => if d.rest == [] then Ending(true, []) else Failure("truncated InferenceService/Stream frame", d.rest)
      case Failed(message) => Failure("read InferenceService/Stream: " + message, [])
  }

  // What is sent for decoded responses, before the run ends.
  function Main(codec: Codec, body: bytes): seq<ChatEvent> {
    OnFrames(codec, INITIAL, BeforeEnd(codec, Deliver(body).frames)).out
  }

  function Synthetic(main: seq<ChatEvent>, ending: Ending): seq<ChatEvent> {
    if ending.clean && !AnyTurnEnd(main) && !AnyError(main) then [ChatEvent([], TurnEnded(0, 0, 0, 0))] else []
  }

  lemma {:induction false} EndsIsStop(codec: Codec, st: State, frame: Frame)
    ensures OnFrame(codec, st, frame).stop <==> Ends(codec, frame)
  {
  }

  lemma {:induction false} BeforeEndRuns(codec: Codec, st: State, frames: seq<Frame>)
    ensures var r := BeforeEnd(codec, frames);
      r <= frames && !OnFrames(codec, st, r).stop && (|r| < |frames| ==> Ends(codec, frames[|r|]))
  {
    if frames != [] {
      var n := |frames| - 1;
      BeforeEndRuns(codec, st, frames[..n]);
      if BeforeEnd(codec, frames) == frames {
        EndsIsStop(codec, st, frames[n]);
        assert !Ends(codec, frames[n]);
        assert BeforeEnd(codec, frames[..n]) == frames[..n];
        EndsIsStop(codec, OnFrames(codec, st, frames[..n]).st, frames[n]);
      }
    }
  }

  // The first ending frame decides: the run is what was sent before it, then
  // what it sends.
  lemma {:induction false} RunStopsAtFirstEnd(codec: Codec, st: State, frames: seq<Frame>)
    requires |BeforeEnd(codec, frames)| < |frames|
    ensures var front := BeforeEnd(codec, frames);
      var before := OnFrames(codec, st, front);
      var step := OnFrame(codec, before.st, frames[|front|]);
      step.stop && OnFrames(codec, st, frames) == Step(step.st, before.out + step.out, true)
  {
    BeforeEndRuns(codec, st, frames);
    var front := BeforeEnd(codec, frames);
    var k := |front|;
    assert frames[..k] == front;
    EndsIsStop(codec, OnFrames(codec, st, front).st, frames[k]);
    OnFramesNext(codec, st, frames, k);
    StopsAt(codec, st, frames, k + 1);
  }

  lemma {:induction false} StopsAt(codec: Codec, st: State, frames: seq<Frame>, k: nat)
    requires k <= |frames| && OnFrames(codec, st, frames[..k]).stop
    ensures OnFrames(codec, st, frames) == OnFrames(codec, st, frames[..k])
  {
    StopIsFinal(codec, st, frames[..k], frames[k..]);
    assert frames[..k] + frames[k..] == frames;
  }

  lemma {:induction false} OnFramesNext(codec: Codec, st: State, frames: seq<Frame>, k: nat)
    requires k < |frames| && !OnFrames(codec, st, frames[..k]).stop
    ensures var before := OnFrames(codec, st, frames[..k]);
      var step := OnFrame(codec, before.st, frames[k]);
      OnFrames(codec, st, frames[..k + 1]) == Step(step.st, before.out + step.out, step.stop)
  {
    assert frames[..k + 1][..k] == frames[..k];
  }

  // What the ending frame sends, said without the flags.
  lemma {:induction false} EndFrameSends(codec: Codec, st: State, main: seq<ChatEvent>, d: Delivery, error: ReadError, cancelled: bool)
    requires FlagsAgree(st, main)
    requires |BeforeEnd(codec, d.frames)| < |d.frames|
    ensures var frame := d.frames[|BeforeEnd(codec, d.frames)|];
      var ending := EndingOf(codec, d, error, cancelled);
      Ends(codec, frame) && OnFrame(codec, st, frame).out == Synthetic(main, ending) + ending.status
  {
    BeforeEndRuns(codec, st, d.frames);
    var ending := EndingOf(codec, d, error, cancelled);
    assert [] + ending.status == ending.status;
  }

  lemma {:induction false} EndSends(codec: Codec, st: State, main: seq<ChatEvent>, d: Delivery, error: ReadError, cancelled: bool)
    requires FlagsAgree(st, main)
    requires BeforeEnd(codec, d.frames) == d.frames
    ensures var ending := EndingOf(codec, d, error, cancelled);
      OnEnd(st, d.rest, error, cancelled).1 == Synthetic(main, ending) + ending.status
  {
    var ending := EndingOf(codec, d, error, cancelled);
    var synthetic := Synthetic(main, ending);
    assert [] + ending.status == ending.status && synthetic + [] == synthetic;
  }

  // Every run, exactly: the events of the decoded responses, then a synthetic
  // turn end if and only if the stream ended cleanly and nothing sent was a
  // turn end or an error, then the final status. The reader's flags and its
  // early returns compute this without looking back at what it sent.
  lemma {:induction false} RunIsMainThenEnding(codec: Codec, body: bytes, error: ReadError, cancelled: bool)
    ensures var main := Main(codec, body);
            var ending := EndingOf(codec, Deliver(body), error, cancelled);
            Run(codec, body, error, cancelled) == main + Synthetic(main, ending) + ending.status
  {
    var d := Deliver(body);
    var front := BeforeEnd(codec, d.frames);
    var ending := EndingOf(codec, d, error, cancelled);
    var step := OnFrames(codec, INITIAL, front);
    BeforeEndRuns(codec, INITIAL, d.frames);
    FlagsAgreeWhileRunning(codec, front);
    assert step.out + (Synthetic(step.out, ending) + ending.status) == step.out + Synthetic(step.out, ending) + ending.status;
    if |front| < |d.frames| {
      RunStopsAtFirstEnd(codec, INITIAL, d.frames);
      EndFrameSends(codec, step.st, step.out, d, error, cancelled);
    } else {
      EndSends(codec, step.st, step.out, d, error, cancelled);
    }
  }

  // A run that is not cancelled tells its consumer how the turn ended.
  lemma {:induction false} TerminalGuarantee(codec: Codec, body: bytes, error: ReadError)
    requires error != NoError
    ensures var out := Run(codec, body, error, false); AnyTurnEnd(out) || AnyError(out)
  {
    RunIsMainThenEnding(codec, body, error, false);
    var main := Main(codec, body);
    var ending := EndingOf(codec, Deliver(body), error, false);
    var synthetic := Synthetic(main, ending);
    AnyAppend(main, synthetic);
    AnyAppend(main + synthetic, ending.status);
    if synthetic != [] {
      assert IsTurnEnd(synthetic[0]);
    } else if !ending.clean {
      UncleanEndsInError(codec, Deliver(body), error);
    }
  }

  lemma {:induction false} UncleanEndsInError(codec: Codec, d: Delivery, error: ReadError)
    requires error != NoError && !EndingOf(codec, d, error, false).clean
    ensures AnyError(EndingOf(codec, d, error, false).status)
  {
    assert IsError(EndingOf(codec, d, error, false).status[0]);
  }

  // ---------- tool calls, seen from the events alone ----------

  // What a consumer of the events knows about one tool call: the argument text
  // it has been sent (the text Started carries, when it already parses, and
  // the partials after it), and the text of the completed call.
  datatype Track = Untouched | Open(sent: string) | Closed(sent: string, final: string) | Broken

  function TrackStep(codec: Codec, id: string, t: Track, e: ChatEvent): Track {
    match e.body
    case ToolCallStarted(id', call) =>
      if id' != id then t
      else if t.Untouched? then Open(if ArgsValid(codec, call.args) then call.args else "") else Broken
    case PartialToolCall(id', args) =>
      if id' != id then t
      else (match t
            case Open(sent) => Open(sent + args)
            case Closed(sent, final) => Closed(sent + args, final)
            case _ => Broken)
    case ToolCallCompleted(id', call) =>
      if id' != id then t
      else if t.Open? && call.args == t.sent then Closed(t.sent, call.args) else Broken
    case _ => t
  }

  function TrackFrom(codec: Codec, id: string, t: Track, events: seq<ChatEvent>): Track {
    if events == [] then t
    else TrackStep(codec, id, TrackFrom(codec, id, t, events[..|events| - 1]), events[|events| - 1])
  }

  function TrackOf(codec: Codec, id: string, events: seq<ChatEvent>): Track {
    TrackFrom(codec, id, Untouched, events)
  }

  lemma {:induction false} TrackAppend(codec: Codec, id: string, t: Track, a: seq<ChatEvent>, b: seq<ChatEvent>)
    ensures TrackFrom(codec, id, t, a + b) == TrackFrom(codec, id, TrackFrom(codec, id, t, a), b)
  {
    if b == [] {
      assert a + b == a;
    } else {
      assert (a + b)[..|a + b| - 1] == a + b[..|b| - 1];
      TrackAppend(codec, id, t, a, b[..|b| - 1]);
    }
  }

  lemma {:induction false} TrackSingle(codec: Codec, id: string, t: Track, e: ChatEvent)
    ensures TrackFrom(codec, id, t, [e]) == TrackStep(codec, id, t, e)
  {
    assert [e][..0] == [];
  }

  lemma {:induction false} TrackIgnores(codec: Codec, id: string, t: Track, events: seq<ChatEvent>)
    requires forall e | e in events :: AboutTool(e) != Some(id)
    ensures TrackFrom(codec, id, t, events) == t
  {
    if events != [] {
      TrackIgnores(codec, id, t, events[..|events| - 1]);
      assert AboutTool(events[|events| - 1]) != Some(id);
    }
  }

  // A tool call's record in the state is what its events say: never broken,
  // all text received so far has been sent, and the completed text is a prefix.
  ghost predicate Agrees(st: State, id: string, t: Track) {
    match t
    case Untouched => id !in st.started && id !in st.complete && ArgsOf(st.args, id) == ""
    case Open(sent) => id in st.started && id !in st.complete && sent == ArgsOf(st.args, id)
    case Closed(sent, final) => id in st.started && id in st.complete && sent == ArgsOf(st.args, id) && final <= sent
    case Broken => false
  }

  function PartTracked(t: Track, part: ToolPart): Track {
    var t' := Sending(t, part.args);
    if t'.Open? && part.isComplete then Closed(t'.sent, t'.sent) else t'
  }

  // What one part does to the record of a tool call: its own, or another.
  lemma {:induction false} PartKeepsTrack(codec: Codec, st: State, part: ToolPart, raw: bytes, id: string, t: Track)
    requires Agrees(st, id, t)
    ensures var (st', out) := OnPart(codec, st, part, raw);
      var t' := if id == PartId(codec, part) then PartTracked(t, part) else t;
      TrackFrom(codec, id, t, out) == t' && Agrees(st', id, t')
  {
    if id == PartId(codec, part) {
      OwnPartTrack(codec, st, part, raw, t);
    } else {
      OnPartSendsNoEnd(codec, st, part, raw);
      TrackIgnores(codec, id, t, OnPart(codec, st, part, raw).1);
    }
  }

  lemma {:induction false} OwnPartTrack(codec: Codec, st: State, part: ToolPart, raw: bytes, t: Track)
    requires Agrees(st, PartId(codec, part), t)
    ensures var (st', out) := OnPart(codec, st, part, raw);
      var id := PartId(codec, part);
      TrackFrom(codec, id, t, out) == PartTracked(t, part) && Agrees(st', id, PartTracked(t, part))
  {
    var id := PartId(codec, part);
    var call := ToolCall(id, PartName(part), ArgsOf(st.args, id) + part.args);
    var a := Opening(st, id, call, raw);
    var b := Fragment(codec, st, id, call, part.args, raw);
    var c := Closing(st, id, call, part.isComplete, raw);
    TrackAppend(codec, id, t, a + b, c);
    TrackAppend(codec, id, t, a, b);
    OwnOpening(codec, st, part, t, raw);
    OwnFragment(codec, st, part, t, raw);
    OwnClosing(codec, st, part, t, raw);
    AgreesAfter(codec, st, part, t, raw);
  }

  lemma {:induction false} OwnClosing(codec: Codec, st: State, part: ToolPart, t: Track, raw: bytes)
    requires Agrees(st, PartId(codec, part), t)
    ensures var id := PartId(codec, part);
      var call := ToolCall(id, PartName(part), ArgsOf(st.args, id) + part.args);
      TrackFrom(codec, id, Sending(t, part.args), Closing(st, id, call, part.isComplete, raw)) == PartTracked(t, part)
  {
    var id := PartId(codec, part);
    var call := ToolCall(id, PartName(part), ArgsOf(st.args, id) + part.args);
    var c := Closing(st, id, call, part.isComplete, raw);
    assert "" + part.args == part.args;
    if c != [] { TrackSingle(codec, id, Sending(t, part.args), c[0]); }
  }

  lemma {:induction false} AgreesAfter(codec: Codec, st: State, part: ToolPart, t: Track, raw: bytes)
    requires Agrees(st, PartId(codec, part), t)
    ensures Agrees(OnPart(codec, st, part, raw).0, PartId(codec, part), PartTracked(t, part))
  {
    assert "" + part.args == part.args;
  }

  // The record after the part's text has been sent, by Started or a partial.
  function Sending(t: Track, args: string): Track {
    match t
    case Untouched => Open(args)
    case Open(sent) => Open(sent + args)
    case Closed(sent, final) => Closed(sent + args, final)
    case Broken => Broken
  }

  lemma {:induction false} OwnFragment(codec: Codec, st: State, part: ToolPart, t: Track, raw: bytes)
    requires Agrees(st, PartId(codec, part), t)
    ensures var id := PartId(codec, part);
      var call := ToolCall(id, PartName(part), ArgsOf(st.args, id) + part.args);
      var t1 := if t.Untouched? then Open(if ArgsValid(codec, part.args) then part.args else "") else t;
      TrackFrom(codec, id, t1, Fragment(codec, st, id, call, part.args, raw)) == Sending(t, part.args)
  {
    var id := PartId(codec, part);
    var call := ToolCall(id, PartName(part), ArgsOf(st.args, id) + part.args);
    var t1 := if t.Untouched? then Open(if ArgsValid(codec, part.args) then part.args else "") else t;
    var b := Fragment(codec, st, id, call, part.args, raw);
    assert "" + part.args == part.args;
    if t.Open? || t.Closed? { assert t.sent + "" == t.sent; }
    if b != [] { TrackSingle(codec, id, t1, b[0]); }
  }

  // After Started the call is open, with the fragment already sent if it parsed.
  lemma {:induction false} OwnOpening(codec: Codec, st: State, part: ToolPart, t: Track, raw: bytes)
    requires Agrees(st, PartId(codec, part), t)
    ensures var id := PartId(codec, part);
      var call := ToolCall(id, PartName(part), ArgsOf(st.args, id) + part.args);
      TrackFrom(codec, id, t, Opening(st, id, call, raw)) ==
        if t.Untouched? then Open(if ArgsValid(codec, part.args) then part.args else "") else t
  {
    var id := PartId(codec, part);
    var call := ToolCall(id, PartName(part), ArgsOf(st.args, id) + part.args);
    var a := Opening(st, id, call, raw);
    assert "" + part.args == part.args;
    if a != [] { TrackSingle(codec, id, t, a[0]); }
  }

  // ---------- a sequence of parts ----------

  function OnParts(codec: Codec, st: State, parts: seq<(ToolPart, bytes)>): (State, seq<ChatEvent>) {
    if parts == [] then (st, [])
    else
      var n := |parts| - 1;
      var (st', out) := OnParts(codec, st, parts[..n]);
      var (st'', more) := OnPart(codec, st', parts[n].0, parts[n].1);
      (st'', out + more)
  }

  // All argument text the parts of one tool call carry.
  function TextFor(codec: Codec, id: string, parts: seq<(ToolPart, bytes)>): string {
    if parts == [] then ""
    else
      var n := |parts| - 1;
      TextFor(codec, id, parts[..n]) + if PartId(codec, parts[n].0) == id then parts[n].0.args else ""
  }

  predicate Mentions(codec: Codec, id: string, parts: seq<(ToolPart, bytes)>) {
    exists i | 0 <= i < |parts| :: PartId(codec, parts[i].0) == id
  }

  // The text of the completed call: all of it up to the first complete part.
  function CompletedText(codec: Codec, id: string, parts: seq<(ToolPart, bytes)>): Option<string> {
    if parts == [] then None
    else
      var n := |parts| - 1;
      var before := CompletedText(codec, id, parts[..n]);
      if before.Some? then before
      else if PartId(codec, parts[n].0) == id && parts[n].0.isComplete then Some(TextFor(codec, id, parts))
      else None
  }

  // What the consumer should see of a tool call after these parts.
  function TrackSpec(codec: Codec, id: string, parts: seq<(ToolPart, bytes)>): Track {
    if !Mentions(codec, id, parts) then Untouched
    else match CompletedText(codec, id, parts)
      case Some(final) => Closed(TextFor(codec, id, parts), final)
      case None => Open(TextFor(codec, id, parts))
  }

  // For every sequence of parts and every id: one Started first and only when
  // the id occurs; started text and partials make up all its argument text; one
  // Completed exactly when a part is complete, carrying the text up to there.
  lemma {:induction false} PartsTrack(codec: Codec, parts: seq<(ToolPart, bytes)>, id: string)
    ensures var (st, out) := OnParts(codec, INITIAL, parts);
      TrackOf(codec, id, out) == TrackSpec(codec, id, parts) && Agrees(st, id, TrackOf(codec, id, out))
  {
    if parts != [] {
      var n := |parts| - 1;
      PartsTrack(codec, parts[..n], id);
      var (st, out) := OnParts(codec, INITIAL, parts[..n]);
      TrackAppend(codec, id, Untouched, out, OnPart(codec, st, parts[n].0, parts[n].1).1);
      PartKeepsTrack(codec, st, parts[n].0, parts[n].1, id, TrackOf(codec, id, out));
      TrackSpecSnoc(codec, id, parts);
    }
  }

  lemma {:induction false} TrackSpecSnoc(codec: Codec, id: string, parts: seq<(ToolPart, bytes)>)
    requires parts != []
    ensures var n := |parts| - 1;
      TrackSpec(codec, id, parts) ==
        if PartId(codec, parts[n].0) == id then PartTracked(TrackSpec(codec, id, parts[..n]), parts[n].0)
        else TrackSpec(codec, id, parts[..n])
  {
    var n := |parts| - 1;
    MentionsSnoc(codec, id, parts);
    UnmentionedHasNoText(codec, id, parts[..n]);
    assert TextFor(codec, id, parts[..n]) + "" == TextFor(codec, id, parts[..n]);
  }

  lemma {:induction false} MentionsSnoc(codec: Codec, id: string, parts: seq<(ToolPart, bytes)>)
    requires parts != []
    ensures var n := |parts| - 1;
      Mentions(codec, id, parts) <==> Mentions(codec, id, parts[..n]) || PartId(codec, parts[n].0) == id
  {
    var n := |parts| - 1;
    assert forall i | 0 <= i < n :: parts[..n][i] == parts[i];
    if Mentions(codec, id, parts[..n]) {
      var i :| 0 <= i < n && PartId(codec, parts[..n][i].0) == id;
      assert PartId(codec, parts[i].0) == id;
    }
  }

  lemma {:induction false} UnmentionedHasNoText(codec: Codec, id: string, parts: seq<(ToolPart, bytes)>)
    ensures !Mentions(codec, id, parts) ==> TextFor(codec, id, parts) == "" && CompletedText(codec, id, parts).None?
  {
    if parts != [] {
      var n := |parts| - 1;
      UnmentionedHasNoText(codec, id, parts[..n]);
      if !Mentions(codec, id, parts) {
        assert forall i | 0 <= i < n :: PartId(codec, parts[..n][i].0) == PartId(codec, parts[i].0);
      }
    }
  }

  // ---------- tool calls over whole runs ----------

  // A step that leaves every record in agreement does so whatever came before.
  ghost predicate KeepsTracks(codec: Codec, st: State, st': State, out: seq<ChatEvent>) {
    forall id, t :: Agrees(st, id, t) ==> Agrees(st', id, TrackFrom(codec, id, t, out))
  }

  lemma {:induction false} KeepsTracksThen(codec: Codec, st: State, st1: State, a: seq<ChatEvent>, st2: State, b: seq<ChatEvent>)
    requires KeepsTracks(codec, st, st1, a) && KeepsTracks(codec, st1, st2, b)
    ensures KeepsTracks(codec, st, st2, a + b)
  {
    forall id, t | Agrees(st, id, t) ensures Agrees(st2, id, TrackFrom(codec, id, t, a + b)) {
      TrackAppend(codec, id, t, a, b);
    }
  }

  lemma {:induction false} PartKeepsTracks(codec: Codec, st: State, part: ToolPart, raw: bytes)
    ensures KeepsTracks(codec, st, OnPart(codec, st, part, raw).0, OnPart(codec, st, part, raw).1)
  {
    forall id, t | Agrees(st, id, t)
      ensures Agrees(OnPart(codec, st, part, raw).0, id, TrackFrom(codec, id, t, OnPart(codec, st, part, raw).1))
    {
      PartKeepsTrack(codec, st, part, raw, id, t);
    }
  }

  // Events that are not about tool calls, and flags, do not matter.
  lemma {:induction false} OthersKeepTracks(codec: Codec, st: State, st': State, out: seq<ChatEvent>)
    requires st'.started == st.started && st'.complete == st.complete && st'.args == st.args
    requires forall e | e in out :: AboutTool(e).None?
    ensures KeepsTracks(codec, st, st', out)
  {
    forall id, t | Agrees(st, id, t) ensures Agrees(st', id, TrackFrom(codec, id, t, out)) {
      TrackIgnores(codec, id, t, out);
    }
  }

  lemma {:induction false} InfoCallsKeepTracks(codec: Codec, st: State, calls: seq<Option<InfoToolCall>>, raw: bytes)
    ensures var (st', out) := OnInfoCalls(codec, st, calls, raw); KeepsTracks(codec, st, st', out)
  {
    if calls == [] {
      OthersKeepTracks(codec, st, st, []);
    } else {
      var n := |calls| - 1;
      InfoCallsKeepTracks(codec, st, calls[..n], raw);
      var (st', out) := OnInfoCalls(codec, st, calls[..n], raw);
      if calls[n].Some? {
        var (st'', more) := OnPart(codec, st', InfoPart(calls[n].value), raw);
        PartKeepsTracks(codec, st', InfoPart(calls[n].value), raw);
        KeepsTracksThen(codec, st, st', out, st'', more);
      }
    }
  }

  lemma {:induction false} InfoMessagesKeepTracks(codec: Codec, st: State, messages: seq<Option<InfoMessage>>, raw: bytes)
    ensures var (st', out) := OnInfoMessages(codec, st, messages, raw); KeepsTracks(codec, st, st', out)
  {
    if messages == [] {
      OthersKeepTracks(codec, st, st, []);
    } else {
      var n := |messages| - 1;
      InfoMessagesKeepTracks(codec, st, messages[..n], raw);
      var (st', out) := OnInfoMessages(codec, st, messages[..n], raw);
      if messages[n].Some? {
        var message := messages[n].value;
        var (st'', more) := OnInfoMessage(codec, st', message, raw);
        InfoMessageKeepsTracks(codec, st', message, raw);
        KeepsTracksThen(codec, st, st', out, st'', more);
      }
    }
  }

  lemma {:induction false} InfoMessageKeepsTracks(codec: Codec, st: State, message: InfoMessage, raw: bytes)
    ensures var (st', out) := OnInfoMessage(codec, st, message, raw); KeepsTracks(codec, st, st', out)
  {
    var content := if message.content == "" then [] else [ChatEvent(raw, TextDelta(message.content))];
    var texts := content + ReasoningEvents(message.reasoning, raw);
    ReasoningIsQuiet(message.reasoning, raw);
    OthersKeepTracks(codec, st, st, texts);
    InfoCallsKeepTracks(codec, st, message.toolCalls, raw);
    var (st', calls) := OnInfoCalls(codec, st, message.toolCalls, raw);
    KeepsTracksThen(codec, st, st, texts, st', calls);
  }

  lemma {:induction false} ResponseKeepsTracks(codec: Codec, st: State, response: Response, raw: bytes)
    ensures var (st', out) := OnResponse(codec, st, response, raw); KeepsTracks(codec, st, st', out)
  {
    var (st', out) := OnResponse(codec, st, response, raw);
    match response
    case ToolCallPart(part) => PartKeepsTracks(codec, st, part, raw);
    case ResponseInfo(messages, errorMessage) =>
      InfoMessagesKeepTracks(codec, st, messages, raw);
      if errorMessage != "" {
        var (st1, out1) := OnInfoMessages(codec, st, messages, raw);
        var last := [ChatEvent(raw, Trailer(Status(13, errorMessage)))];
        OthersKeepTracks(codec, st1, st', last);
        KeepsTracksThen(codec, st, st1, out1, st', last);
      }
    case _ => OthersKeepTracks(codec, st, st', out);
  }

  lemma {:induction false} StatusKeepsTracks(codec: Codec, st: State, status: Status, raw: bytes)
    ensures var (st', out) := EmitStatus(st, status, raw); KeepsTracks(codec, st, st', out)
  {
    var (st', out) := EmitStatus(st, status, raw);
    OthersKeepTracks(codec, st, st', out);
  }

  lemma {:induction false} SyntheticKeepsTracks(codec: Codec, st: State)
    ensures var (st', out) := SyntheticTurnEnd(st); KeepsTracks(codec, st, st', out)
  {
    var (st', out) := SyntheticTurnEnd(st);
    OthersKeepTracks(codec, st, st', out);
  }

  lemma {:induction false} TrailerKeepsTracks(codec: Codec, st: State, status: Status, raw: bytes)
    ensures var (st1, synthetic) := if status.Ok() then SyntheticTurnEnd(st) else (st, []);
      var (st2, last) := EmitStatus(st1, status, raw);
      KeepsTracks(codec, st, st2, synthetic + last)
  {
    var (st1, synthetic) := if status.Ok() then SyntheticTurnEnd(st) else (st, []);
    if status.Ok() { SyntheticKeepsTracks(codec, st); } else { OthersKeepTracks(codec, st, st, []); }
    StatusKeepsTracks(codec, st1, status, raw);
    KeepsTracksThen(codec, st, st1, synthetic, EmitStatus(st1, status, raw).0, EmitStatus(st1, status, raw).1);
  }

  lemma {:induction false} StopKeepsTracks(codec: Codec, st: State, frame: Frame)
    requires OnFrame(codec, st, frame).stop
    ensures var step := OnFrame(codec, st, frame); KeepsTracks(codec, st, step.st, step.out)
  {
    if IsTrailer(frame.flags) {
      var status := if frame.payload == [] then Status(13, "empty InferenceService/Stream trailer") else codec.trailer(frame.payload);
      TrailerKeepsTracks(codec, st, status, frame.payload);
    } else {
      var (payload, ok) := if IsCompressed(frame.flags) then codec.gunzip(frame.payload) else (frame.payload, true);
      StatusKeepsTracks(codec, st, Status(13, if ok then "decode InferenceStreamResponse" else "decode compressed InferenceService/Stream frame"), payload);
    }
  }

  lemma {:induction false} SentKeepsTracks(codec: Codec, st: State, response: Response, payload: bytes)
    ensures var (st', out) := OnResponse(codec, st, response, payload); KeepsTracks(codec, st, Sent(st', out), out)
  {
    var (st', out) := OnResponse(codec, st, response, payload);
    ResponseKeepsTracks(codec, st, response, payload);
    OthersKeepTracks(codec, st', Sent(st', out), []);
    KeepsTracksThen(codec, st, st', out, Sent(st', out), []);
    assert out + [] == out;
  }

  lemma {:induction false} FrameKeepsTracks(codec: Codec, st: State, frame: Frame)
    ensures var step := OnFrame(codec, st, frame); KeepsTracks(codec, st, step.st, step.out)
  {
    if OnFrame(codec, st, frame).stop {
      StopKeepsTracks(codec, st, frame);
    } else {
      var payload := if IsCompressed(frame.flags) then codec.gunzip(frame.payload).0 else frame.payload;
      SentKeepsTracks(codec, st, codec.decode(payload).value, payload);
    }
  }

  lemma {:induction false} FramesKeepTracks(codec: Codec, frames: seq<Frame>)
    ensures var step := OnFrames(codec, INITIAL, frames); KeepsTracks(codec, INITIAL, step.st, step.out)
  {
    if frames == [] {
      OthersKeepTracks(codec, INITIAL, INITIAL, []);
    } else {
      var n := |frames| - 1;
      FramesKeepTracks(codec, frames[..n]);
      var before := OnFrames(codec, INITIAL, frames[..n]);
      if !before.stop {
        FrameKeepsTracks(codec, before.st, frames[n]);
        var step := OnFrame(codec, before.st, frames[n]);
        KeepsTracksThen(codec, INITIAL, before.st, before.out, step.st, step.out);
      }
    }
  }

  // Every run, whatever the upstream sends: no tool call is started twice,
  // continued or completed before it starts, or completed twice, and the text
  // of a completed call is what its started text and partials had shown.
  lemma {:induction false} RunNeverBreaksAToolCall(codec: Codec, body: bytes, error: ReadError, cancelled: bool, id: string)
    ensures !TrackOf(codec, id, Run(codec, body, error, cancelled)).Broken?
  {
    var d := Deliver(body);
    var step := OnFrames(codec, INITIAL, d.frames);
    FramesKeepTracks(codec, d.frames);
    assert Agrees(INITIAL, id, Untouched);
    if !step.stop {
      var (st', tail) := OnEnd(step.st, d.rest, error, cancelled);
      OthersKeepTracks(codec, step.st, st', tail);
      KeepsTracksThen(codec, INITIAL, step.st, step.out, st', tail);
    }
  }
}
