// What an Anthropic stream says: in every run, the text and the thinking a client
// rebuilds from the frames are those of the events, and so are the tool calls,
// except that a repeated start of a running call is lost.
module AnthropicContent {
  import opened AnthropicStream

  // ---------- text and thinking ----------

  function WordsOf(f: Frame): string {
    match f
    case BlockDelta(_, Words(text)) => text
    case _ => ""
  }

  function ThoughtOf(f: Frame): string {
    match f
    case BlockDelta(_, Thought(text)) => text
    case _ => ""
  }

  function Said(frames: seq<Frame>): string {
    if frames == [] then "" else Said(frames[..|frames| - 1]) + WordsOf(frames[|frames| - 1])
  }

  function Mused(frames: seq<Frame>): string {
    if frames == [] then "" else Mused(frames[..|frames| - 1]) + ThoughtOf(frames[|frames| - 1])
  }

  predicate Speaks(f: Frame) {
    f.BlockDelta? && (f.delta.Words? || f.delta.Thought?)
  }

  lemma {:induction false} Assoc(a: string, b: string, c: string)
    ensures a + (b + c) == (a + b) + c
  {
  }

  lemma {:induction false} SaidAppend(a: seq<Frame>, b: seq<Frame>)
    ensures Said(a + b) == Said(a) + Said(b)
  {
    if b == [] {
      assert a + b == a;
    } else {
      var n := |b| - 1;
      SaidAppend(a, b[..n]);
      assert (a + b)[..|a + b| - 1] == a + b[..n];
      Assoc(Said(a), Said(b[..n]), WordsOf(b[n]));
    }
  }

  lemma {:induction false} MusedAppend(a: seq<Frame>, b: seq<Frame>)
    ensures Mused(a + b) == Mused(a) + Mused(b)
  {
    if b == [] {
      assert a + b == a;
    } else {
      var n := |b| - 1;
      MusedAppend(a, b[..n]);
      assert (a + b)[..|a + b| - 1] == a + b[..n];
      Assoc(Mused(a), Mused(b[..n]), ThoughtOf(b[n]));
    }
  }

  lemma {:induction false} Silence(frames: seq<Frame>)
    requires forall f | f in frames :: !Speaks(f)
    ensures Said(frames) == "" && Mused(frames) == ""
  {
    if frames != [] {
      Silence(frames[..|frames| - 1]);
      assert frames[|frames| - 1] in frames;
    }
  }

  function SpokenIn(ev: Event): string {
    if ev.TextDelta? then ev.text else ""
  }

  function ThoughtIn(ev: Event): string {
    if ev.ThinkingDelta? then ev.text else ""
  }

  lemma {:induction false} CitationsAreSilent(index: nat, citations: seq<Citation>)
    ensures forall f | f in CitationFrames(index, citations) :: !Speaks(f) && !ShowsTool(f)
  {
    if citations != [] { CitationsAreSilent(index, citations[..|citations| - 1]); }
  }

  lemma {:induction false} StopsAreSilent(blocks: map<string, nat>, ids: seq<string>)
    ensures forall f | f in StopFrames(blocks, ids) :: !Speaks(f) && !ShowsTool(f)
  {
    if ids != [] { StopsAreSilent(blocks, ids[..|ids| - 1]); }
  }

  lemma {:induction false} OrphanIsSilent(w: Writer, id: string)
    ensures forall f | f in EncodeOrphan(w, id).1 :: !Speaks(f) && !ShowsTool(f)
  {
  }

  lemma {:induction false} OrphansAreSilent(w: Writer, ids: seq<string>)
    ensures forall f | f in EncodeOrphans(w, ids).1 :: !Speaks(f) && !ShowsTool(f)
  {
    if ids != [] {
      OrphansAreSilent(w, ids[..|ids| - 1]);
      OrphanIsSilent(EncodeOrphans(w, ids[..|ids| - 1]).0, ids[|ids| - 1]);
    }
  }

  lemma {:induction false} TurnEndIsSilent(cfg: Config, w: Writer, stopReason: string, stopSequence: string)
    ensures forall f | f in EncodeTurnEnded(cfg, w, stopReason, stopSequence).1 :: !Speaks(f) && !ShowsTool(f)
  {
    CitationsAreSilent(w.blockIndex, w.citations);
    var w2 := CloseCurrentBlock(w).0.(blockOpen := false);
    StopsAreSilent(w2.toolBlocks, cfg.order(w2.toolBlocks.Keys));
    OrphansAreSilent(w2.(toolBlocks := map[]), cfg.order(w2.serverToolBlocks.Keys));
  }

  // The frames before a delta say nothing, so the event's text is said once.
  lemma {:induction false} InBlockSays(w: Writer, t: BlockType, delta: Delta)
    ensures var out := EncodeInBlock(w, t, delta).1;
      && (forall f | f in out[..|out| - 1] :: !Speaks(f) && !ShowsTool(f))
      && out[|out| - 1].BlockDelta? && out[|out| - 1].delta == delta
  {
    var (w1, f1) := StartFrame(w);
    CitationsAreSilent(w1.blockIndex, w1.citations);
    var (w2, f2) := if w1.blockType == t then (w1, []) else CloseAndAdvance(w1);
    var (w3, f3) := OpenBlock(w2, t);
    var out := EncodeInBlock(w, t, delta).1;
    assert out[..|out| - 1] == f1 + f2 + f3;
  }

  lemma {:induction false} OtherEventsSayNothing(cfg: Config, w: Writer, ev: Event)
    requires !ev.TextDelta? && !ev.ThinkingDelta?
    ensures forall f | f in Encode(cfg, w, ev).1 :: !Speaks(f)
  {
    var w1 := StartFrame(w).0;
    CitationsAreSilent(w1.blockIndex, w1.citations);
    if ev.TurnEnded? { TurnEndIsSilent(cfg, w, ev.stopReason, ev.stopSequence); }
  }

  lemma {:induction false} EventSays(cfg: Config, w: Writer, ev: Event)
    ensures Said(Encode(cfg, w, ev).1) == SpokenIn(ev) && Mused(Encode(cfg, w, ev).1) == ThoughtIn(ev)
  {
    var out := Encode(cfg, w, ev).1;
    if ev.TextDelta? || ev.ThinkingDelta? {
      if ev.TextDelta? { InBlockSays(w.(text := w.text + ev.text), TextType, Words(ev.text)); }
      else { InBlockSays(w, ThinkingType, Thought(ev.text)); }
      Silence(out[..|out| - 1]);
    } else {
      OtherEventsSayNothing(cfg, w, ev);
      Silence(out);
    }
  }

  function Spoken(events: seq<Event>): string {
    if events == [] then "" else SpokenIn(events[0]) + Spoken(events[1..])
  }

  function Pondered(events: seq<Event>): string {
    if events == [] then "" else ThoughtIn(events[0]) + Pondered(events[1..])
  }

  // In every run, clean or not, the text and the thinking a client assembles
  // are exactly those of the events, in order.
  lemma {:induction false} TraceSays(cfg: Config, w: Writer, events: seq<Event>)
    ensures Said(Trace(cfg, w, events)) == Spoken(events) && Mused(Trace(cfg, w, events)) == Pondered(events)
    decreases |events|
  {
    if events != [] {
      var (w', out) := Encode(cfg, w, events[0]);
      EventSays(cfg, w, events[0]);
      SaidAppend(out, Trace(cfg, w', events[1..]));
      MusedAppend(out, Trace(cfg, w', events[1..]));
      TraceSays(cfg, w', events[1..]);
    }
  }

  // ---------- tool calls ----------

  datatype Call = Call(id: string, name: string, json: string)

  // A tool_use block as the client sees it grow.
  datatype Seen = Seen(index: nat, call: Call)

  predicate ShowsTool(f: Frame) {
    (f.BlockStart? && f.block.ToolUse?) || (f.BlockDelta? && f.delta.InputJson?)
  }

  function Grow(s: Seen, index: nat, json: string): Seen {
    if s.index == index then Seen(index, s.call.(json := s.call.json + json)) else s
  }

  function Show(seen: seq<Seen>, f: Frame): seq<Seen> {
    match f
    case BlockStart(index, ToolUse(id, name)) => seen + [Seen(index, Call(id, name, ""))]
    case BlockDelta(index, InputJson(json)) => seq(|seen|, k requires 0 <= k < |seen| => Grow(seen[k], index, json))
    case _ => seen
  }

  function ShowAll(seen: seq<Seen>, frames: seq<Frame>): seq<Seen> {
    if frames == [] then seen else Show(ShowAll(seen, frames[..|frames| - 1]), frames[|frames| - 1])
  }

  lemma {:induction false} ShowAppend(seen: seq<Seen>, a: seq<Frame>, b: seq<Frame>)
    ensures ShowAll(seen, a + b) == ShowAll(ShowAll(seen, a), b)
  {
    if b == [] {
      assert a + b == a;
    } else {
      var n := |b| - 1;
      ShowAppend(seen, a, b[..n]);
      assert (a + b)[..|a + b| - 1] == a + b[..n];
    }
  }

  lemma {:induction false} ShowNothing(seen: seq<Seen>, frames: seq<Frame>)
    requires forall f | f in frames :: !ShowsTool(f)
    ensures ShowAll(seen, frames) == seen
  {
    if frames != [] {
      ShowNothing(seen, frames[..|frames| - 1]);
      assert frames[|frames| - 1] in frames;
    }
  }

  lemma {:induction false} ShowOne(seen: seq<Seen>, f: Frame)
    ensures ShowAll(seen, [f]) == Show(seen, f)
  {
    assert [f][..0] == [];
  }

  // The calls the events ask for; `flight` is where each running call is. A start
  // of a call that is running adds nothing: its name and its text are lost.
  datatype Asked = Asked(calls: seq<Call>, flight: map<string, nat>)

  function Ask(cfg: Config, a: Asked, ev: Event): Asked {
    match ev
    case ToolCallStarted(id, name, args) =>
      var toolId := ResolveClientToolID(cfg, id);
      if toolId in a.flight then a
      else Asked(a.calls + [Call(toolId, name, args)], a.flight[toolId := |a.calls|])
    case ToolCallDelta(id, args) =>
      var toolId := ResolveClientToolID(cfg, id);
      if toolId !in a.flight || a.flight[toolId] >= |a.calls| then a
      else
        var call := a.calls[a.flight[toolId]];
        a.(calls := a.calls[a.flight[toolId] := call.(json := call.json + args)])
    case ToolCallCompleted(id) => a.(flight := a.flight - {ResolveClientToolID(cfg, id)})
    case TurnEnded(_, _) => a.(flight := map[])
    case _ => a
  }

  function AskAll(cfg: Config, a: Asked, events: seq<Event>): Asked
    decreases |events|
  {
    if events == [] then a else AskAll(cfg, Ask(cfg, a, events[0]), events[1..])
  }

  // Shown and asked calls are the same, and the writer sends each running
  // call's arguments to that call's own block.
  ghost predicate Matches(w: Writer, seen: seq<Seen>, a: Asked) {
    && |seen| == |a.calls|
    && (forall k | 0 <= k < |seen| :: seen[k].call == a.calls[k] && seen[k].index < w.blockIndex)
    && (forall i, j | 0 <= i < j < |seen| :: seen[i].index != seen[j].index)
    && a.flight.Keys == w.toolBlocks.Keys
    && (forall id | id in a.flight :: a.flight[id] < |seen| && seen[a.flight[id]].index == w.toolBlocks[id])
  }

  // Steps that show no tool and only move on keep the match.
  lemma {:induction false} UnshownKeeps(w: Writer, w': Writer, seen: seq<Seen>, a: Asked, out: seq<Frame>)
    requires Matches(w, seen, a) && w'.toolBlocks == w.toolBlocks && w.blockIndex <= w'.blockIndex
    requires forall f | f in out :: !ShowsTool(f)
    ensures Matches(w', ShowAll(seen, out), a)
  {
    ShowNothing(seen, out);
  }

  lemma {:induction false} UnseenJson(seen: seq<Seen>, index: nat, args: string)
    requires forall k | 0 <= k < |seen| :: seen[k].index != index
    ensures ShowAll(seen, ArgsFrames(index, args)) == seen
  {
    if args != "" {
      ShowOne(seen, BlockDelta(index, InputJson(args)));
      assert Show(seen, BlockDelta(index, InputJson(args))) == seen;
    }
  }

  lemma {:induction false} ToolStartMatches(cfg: Config, w: Writer, seen: seq<Seen>, a: Asked, id: string, name: string, args: string)
    requires Matches(w, seen, a)
    ensures var (w', out) := EncodeToolStart(cfg, w, id, name, args);
      Matches(w', ShowAll(seen, out), Ask(cfg, a, ToolCallStarted(id, name, args)))
  {
    var toolId := ResolveClientToolID(cfg, id);
    var (w1, f1) := StartFrame(w);
    var (w2, f2) := CloseAndAdvance(w1);
    CloseMoves(w, seen, a);
    if toolId in w.toolBlocks {
      assert EncodeToolStart(cfg, w, id, name, args) == (w2, []);
    } else {
      NewCallShown(seen, f1 + f2, w2.blockIndex, Call(toolId, name, ""), args);
      NewCallMatches(w2, seen, a, toolId, name, args);
    }
  }

  // What comes before a new block shows no tool and moves the index on.
  lemma {:induction false} CloseMoves(w: Writer, seen: seq<Seen>, a: Asked)
    requires Matches(w, seen, a)
    ensures var (w1, f1) := StartFrame(w);
      var (w2, f2) := CloseAndAdvance(w1);
      w2.toolBlocks == w.toolBlocks && Matches(w2, seen, a) && ShowAll(seen, f1 + f2) == seen && ShowAll(seen, []) == seen
  {
    var (w1, f1) := StartFrame(w);
    CitationsAreSilent(w1.blockIndex, w1.citations);
    var (w2, f2) := CloseAndAdvance(w1);
    ShowNothing(seen, f1 + f2);
    UnshownKeeps(w, w2, seen, a, f1 + f2);
  }

  lemma {:induction false} NewCallShown(seen: seq<Seen>, before: seq<Frame>, index: nat, call: Call, args: string)
    requires call.json == "" && (forall k | 0 <= k < |seen| :: seen[k].index < index) && ShowAll(seen, before) == seen
    ensures ShowAll(seen, before + [BlockStart(index, ToolUse(call.id, call.name))] + ArgsFrames(index, args))
            == seen + [Seen(index, call.(json := args))]
  {
    var start := BlockStart(index, ToolUse(call.id, call.name));
    ShowAppend(seen, before, [start]);
    ShowOne(seen, start);
    ShowAppend(seen, before + [start], ArgsFrames(index, args));
    NewCallGrows(seen, index, call, args);
  }

  lemma {:induction false} NewCallMatches(w: Writer, seen: seq<Seen>, a: Asked, toolId: string, name: string, args: string)
    requires Matches(w, seen, a) && toolId !in w.toolBlocks
    ensures Matches(w.(toolBlocks := w.toolBlocks[toolId := w.blockIndex], blockIndex := w.blockIndex + 1, sawToolCall := true),
                    seen + [Seen(w.blockIndex, Call(toolId, name, args))],
                    Asked(a.calls + [Call(toolId, name, args)], a.flight[toolId := |a.calls|]))
  {
  }

  lemma {:induction false} NewCallGrows(seen: seq<Seen>, index: nat, call: Call, args: string)
    requires call.json == "" && forall k | 0 <= k < |seen| :: seen[k].index != index
    ensures ShowAll(seen + [Seen(index, call)], ArgsFrames(index, args)) == seen + [Seen(index, call.(json := args))]
  {
    var seen1 := seen + [Seen(index, call)];
    if args != "" {
      ShowOne(seen1, BlockDelta(index, InputJson(args)));
      assert "" + args == args;
      assert Show(seen1, BlockDelta(index, InputJson(args))) == seen + [Seen(index, call.(json := args))];
    }
  }

  lemma {:induction false} ToolDeltaMatches(cfg: Config, w: Writer, seen: seq<Seen>, a: Asked, id: string, args: string)
    requires Matches(w, seen, a)
    ensures var (w', out) := EncodeToolDelta(cfg, w, id, args);
      Matches(w', ShowAll(seen, out), Ask(cfg, a, ToolCallDelta(id, args)))
  {
    var toolId := ResolveClientToolID(cfg, id);
    if toolId in w.toolBlocks {
      var k := a.flight[toolId];
      var a' := Ask(cfg, a, ToolCallDelta(id, args));
      if args == "" {
        assert a.calls[k].json + "" == a.calls[k].json;
        assert a'.calls == a.calls;
      } else {
        ShowOne(seen, BlockDelta(w.toolBlocks[toolId], InputJson(args)));
        assert seen[k].index == w.toolBlocks[toolId];
      }
    }
  }

  // A server tool's frames, whatever comes before them, show no tool call.
  lemma {:induction false} ServerFramesShowNothing(seen: seq<Seen>, before: seq<Frame>, index: nat, id: string, name: string, args: string)
    requires (forall f | f in before :: !ShowsTool(f)) && forall k | 0 <= k < |seen| :: seen[k].index != index
    ensures ShowAll(seen, before + [BlockStart(index, ServerToolUse(id, name))] + ArgsFrames(index, args)) == seen
  {
    var f := before + [BlockStart(index, ServerToolUse(id, name))];
    ShowNothing(seen, f);
    ShowAppend(seen, f, ArgsFrames(index, args));
    UnseenJson(seen, index, args);
  }

  // Starting the message and closing a block show no tool.
  lemma {:induction false} ClosingIsUnshown(w: Writer)
    ensures var (w1, f1) := StartFrame(w); var (w2, f2) := CloseAndAdvance(w1);
      && w2.toolBlocks == w.toolBlocks && w.blockIndex <= w2.blockIndex
      && forall f | f in f1 + f2 :: !ShowsTool(f)
  {
    var w1 := StartFrame(w).0;
    CitationsAreSilent(w1.blockIndex, w1.citations);
  }

  // Moving on without showing a tool keeps the match.
  lemma {:induction false} MovedMatches(w: Writer, w': Writer, seen: seq<Seen>, a: Asked)
    requires Matches(w, seen, a) && w'.toolBlocks == w.toolBlocks && w.blockIndex <= w'.blockIndex
    ensures Matches(w', seen, a)
  {
  }

  lemma {:induction false} ServerToolMatches(w: Writer, seen: seq<Seen>, a: Asked, id: string, name: string, args: string)
    requires Matches(w, seen, a)
    ensures var (w', out) := EncodeServerToolStart(w, id, name, args); Matches(w', ShowAll(seen, out), a)
  {
    var (w1, f1) := StartFrame(w);
    var (w2, f2) := CloseAndAdvance(w1);
    ClosingIsUnshown(w);
    if id !in w2.serverToolBlocks {
      ServerFramesShowNothing(seen, f1 + f2, w2.blockIndex, id, name, args);
    }
    MovedMatches(w, EncodeServerToolStart(w, id, name, args).0, seen, a);
  }

  lemma {:induction false} InBlockMoves(w: Writer, t: BlockType, delta: Delta)
    ensures var w' := EncodeInBlock(w, t, delta).0; w'.toolBlocks == w.toolBlocks && w.blockIndex <= w'.blockIndex
  {
    var w1 := StartFrame(w).0;
    assert w1.toolBlocks == w.toolBlocks && w1.blockIndex == w.blockIndex;
    var w2 := if w1.blockType == t then w1 else CloseAndAdvance(w1).0;
    assert w2.toolBlocks == w.toolBlocks && w.blockIndex <= w2.blockIndex;
    var w3 := OpenBlock(w2, t).0;
    assert w3.toolBlocks == w.toolBlocks && w.blockIndex <= w3.blockIndex;
    assert EncodeInBlock(w, t, delta).0 == w3;
  }

  lemma {:induction false} AllButLast(out: seq<Frame>, last: Frame)
    requires out != [] && out[|out| - 1] == last && !ShowsTool(last)
    requires forall f | f in out[..|out| - 1] :: !ShowsTool(f)
    ensures forall f | f in out :: !ShowsTool(f)
  {
    assert out == out[..|out| - 1] + [last];
  }

  lemma {:induction false} InBlockMatches(w: Writer, seen: seq<Seen>, a: Asked, t: BlockType, delta: Delta)
    requires Matches(w, seen, a) && !delta.InputJson?
    ensures var (w', out) := EncodeInBlock(w, t, delta); Matches(w', ShowAll(seen, out), a)
  {
    var (w', out) := EncodeInBlock(w, t, delta);
    InBlockSays(w, t, delta);
    InBlockMoves(w, t, delta);
    AllButLast(out, out[|out| - 1]);
    UnshownKeeps(w, w', seen, a, out);
  }

  lemma {:induction false} OrphansMove(w: Writer, ids: seq<string>)
    ensures var w' := EncodeOrphans(w, ids).0; w'.toolBlocks == w.toolBlocks && w.blockIndex <= w'.blockIndex
  {
    if ids != [] { OrphansMove(w, ids[..|ids| - 1]); }
  }

  lemma {:induction false} TurnEndMatches(cfg: Config, w: Writer, seen: seq<Seen>, a: Asked, stopReason: string, stopSequence: string)
    requires Matches(w, seen, a)
    ensures var (w', out) := EncodeTurnEnded(cfg, w, stopReason, stopSequence);
      Matches(w', ShowAll(seen, out), a.(flight := map[]))
  {
    var (w', out) := EncodeTurnEnded(cfg, w, stopReason, stopSequence);
    TurnEndIsSilent(cfg, w, stopReason, stopSequence);
    var w3 := CloseCurrentBlock(w).0.(blockOpen := false, toolBlocks := map[]);
    OrphansMove(w3, cfg.order(w3.serverToolBlocks.Keys));
    ShowNothing(seen, out);
  }

  lemma {:induction false} OtherEventsMove(cfg: Config, w: Writer, ev: Event)
    requires ev.SignatureDelta? || ev.Heartbeat? || ev.WebSearchResult? || ev.Other?
    ensures var (w', out) := Encode(cfg, w, ev);
      && w'.toolBlocks == w.toolBlocks && w.blockIndex <= w'.blockIndex
      && forall f | f in out :: !ShowsTool(f)
  {
    if ev.WebSearchResult? { WebResultMoves(w, ev.id, ev.name, ev.results, ev.error); }
  }

  lemma {:induction false} WebResultMoves(w: Writer, id: string, name: string, results: seq<WebResult>, error: string)
    ensures var (w', out) := EncodeWebResult(w, id, name, results, error);
      && w'.toolBlocks == w.toolBlocks && w.blockIndex <= w'.blockIndex
      && forall f | f in out :: !ShowsTool(f)
  {
  }

  lemma {:induction false} EventMatches(cfg: Config, w: Writer, seen: seq<Seen>, a: Asked, ev: Event)
    requires Matches(w, seen, a)
    ensures var (w', out) := Encode(cfg, w, ev); Matches(w', ShowAll(seen, out), Ask(cfg, a, ev))
  {
    match ev
    case TextDelta(text) => InBlockMatches(w.(text := w.text + text), seen, a, TextType, Words(text));
    case ThinkingDelta(text) => InBlockMatches(w, seen, a, ThinkingType, Thought(text));
    case ToolCallStarted(id, name, args) => ToolStartMatches(cfg, w, seen, a, id, name, args);
    case ToolCallDelta(id, args) => ToolDeltaMatches(cfg, w, seen, a, id, args);
    case ToolCallCompleted(id) => ToolCompletedMatches(cfg, w, seen, a, id);
    case ServerToolStarted(id, name, args) => ServerToolMatches(w, seen, a, id, name, args);
    case TurnEnded(stopReason, stopSequence) => TurnEndMatches(cfg, w, seen, a, stopReason, stopSequence);
    case _ => OtherEventMatches(cfg, w, seen, a, ev);
  }

  lemma {:induction false} CallEnds(w: Writer, seen: seq<Seen>, a: Asked, toolId: string)
    requires Matches(w, seen, a)
    ensures Matches(w.(toolBlocks := w.toolBlocks - {toolId}), seen, a.(flight := a.flight - {toolId}))
  {
    assert (a.flight - {toolId}).Keys == a.flight.Keys - {toolId} == (w.toolBlocks - {toolId}).Keys;
  }

  lemma {:induction false} ToolCompletedMatches(cfg: Config, w: Writer, seen: seq<Seen>, a: Asked, id: string)
    requires Matches(w, seen, a)
    ensures var (w', out) := EncodeToolCompleted(cfg, w, id);
      Matches(w', ShowAll(seen, out), Ask(cfg, a, ToolCallCompleted(id)))
  {
    CallEnds(w, seen, a, ResolveClientToolID(cfg, id));
    ShowNothing(seen, EncodeToolCompleted(cfg, w, id).1);
  }

  lemma {:induction false} OtherEventMatches(cfg: Config, w: Writer, seen: seq<Seen>, a: Asked, ev: Event)
    requires Matches(w, seen, a)
    requires ev.SignatureDelta? || ev.Heartbeat? || ev.WebSearchResult? || ev.Other?
    ensures var (w', out) := Encode(cfg, w, ev); Matches(w', ShowAll(seen, out), Ask(cfg, a, ev))
  {
    var (w', out) := Encode(cfg, w, ev);
    OtherEventsMove(cfg, w, ev);
    UnshownKeeps(w, w', seen, a, out);
  }

  function CallsOf(seen: seq<Seen>): (r: seq<Call>)
    ensures |r| == |seen| && forall k | 0 <= k < |seen| :: r[k] == seen[k].call
  {
    seq(|seen|, k requires 0 <= k < |seen| => seen[k].call)
  }

  lemma {:induction false} TraceShows(cfg: Config, w: Writer, seen: seq<Seen>, a: Asked, events: seq<Event>)
    requires Matches(w, seen, a)
    ensures CallsOf(ShowAll(seen, Trace(cfg, w, events))) == AskAll(cfg, a, events).calls
    decreases |events|
  {
    if events != [] {
      var (w', out) := Encode(cfg, w, events[0]);
      EventMatches(cfg, w, seen, a, events[0]);
      ShowAppend(seen, out, Trace(cfg, w', events[1..]));
      TraceShows(cfg, w', ShowAll(seen, out), Ask(cfg, a, events[0]), events[1..]);
    }
  }

  // In every run, clean or not, the tool calls a client rebuilds from tool_use
  // blocks and their deltas are the calls the events ask for: same order, ids,
  // names and argument text, however the calls interleave. A repeated start of a
  // running call counts for nothing on either side (SecondStartIsLost).
  lemma {:induction false} ToolCallsAreFaithful(cfg: Config, events: seq<Event>)
    ensures CallsOf(ShowAll([], Trace(cfg, NEW, events))) == AskAll(cfg, Asked([], map[]), events).calls
  {
    TraceShows(cfg, NEW, [], Asked([], map[]), events);
  }

  // What a repeated start brings never reaches the client.
  lemma {:induction false} SecondStartIsLost(cfg: Config, id: string, first: (string, string), second: (string, string))
    ensures var events := [ToolCallStarted(id, first.0, first.1), ToolCallStarted(id, second.0, second.1)];
      CallsOf(ShowAll([], Trace(cfg, NEW, events))) == [Call(ResolveClientToolID(cfg, id), first.0, first.1)]
  {
    var a, b := ToolCallStarted(id, first.0, first.1), ToolCallStarted(id, second.0, second.1);
    ToolCallsAreFaithful(cfg, [a, b]);
    assert [a, b][1..] == [b] && [b][1..] == [];
    var begun := Ask(cfg, Asked([], map[]), a);
    assert AskAll(cfg, begun, [b]) == AskAll(cfg, begun, []);
  }
}
