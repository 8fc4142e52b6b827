// The server tools a client rebuilds from an Anthropic stream: their ids, names
// and argument text are those of the events.
module AnthropicServerTools {
  import opened AnthropicStream
  import opened AnthropicEvents
  import opened AnthropicContent
  import opened AnthropicMessage

  // ---------- what a client sees ----------

  function SeeFrame(seen: seq<Seen>, f: Frame): seq<Seen> {
    match f
    case BlockStart(index, ServerToolUse(id, name)) => seen + [Seen(index, Call(id, name, ""))]
    case BlockDelta(index, InputJson(json)) => seq(|seen|, k requires 0 <= k < |seen| => Grow(seen[k], index, json))
    case _ => seen
  }

  function See(seen: seq<Seen>, frames: seq<Frame>): seq<Seen> {
    if frames == [] then seen else SeeFrame(See(seen, frames[..|frames| - 1]), frames[|frames| - 1])
  }

  lemma {:induction false} SeeAppend(seen: seq<Seen>, a: seq<Frame>, b: seq<Frame>)
    ensures See(seen, a + b) == See(See(seen, a), b)
  {
    if b == [] {
      assert a + b == a;
    } else {
      var n := |b| - 1;
      SeeAppend(seen, a, b[..n]);
      assert (a + b)[..|a + b| - 1] == a + b[..n];
    }
  }

  lemma {:induction false} SeeOne(seen: seq<Seen>, f: Frame)
    ensures See(seen, [f]) == SeeFrame(seen, f)
  {
    assert [f][..0] == [];
  }

  // A frame that neither starts a server tool nor adds to one that was seen.
  predicate Aside(f: Frame, seen: seq<Seen>) {
    && !(f.BlockStart? && f.block.ServerToolUse?)
    && (f.BlockDelta? && f.delta.InputJson? ==> forall k | 0 <= k < |seen| :: seen[k].index != f.index)
  }

  predicate AllAside(frames: seq<Frame>, seen: seq<Seen>) {
    forall f | f in frames :: Aside(f, seen)
  }

  lemma {:induction false} AsideShows(seen: seq<Seen>, f: Frame)
    requires Aside(f, seen)
    ensures SeeFrame(seen, f) == seen
  {
  }

  lemma {:induction false} AllAsideShow(seen: seq<Seen>, frames: seq<Frame>)
    requires AllAside(frames, seen)
    ensures See(seen, frames) == seen
  {
    if frames != [] {
      var n := |frames| - 1;
      assert frames[n] in frames;
      AllAsideShow(seen, frames[..n]);
      AsideShows(seen, frames[n]);
    }
  }

  // ---------- what the events call for ----------

  function ServerCalls(events: seq<Event>): seq<Call> {
    if events == [] then []
    else
      var front, ev := events[..|events| - 1], events[|events| - 1];
      ServerCalls(front) +
      if ev.ServerToolStarted? && !Unanswered(front, ev.id) then [Call(ev.id, ev.name, ev.args)] else []
  }

  // ---------- no block of another kind is mistaken for a server tool ----------

  ghost predicate Apart(w: Writer, seen: seq<Seen>) {
    && (forall k | 0 <= k < |seen| :: seen[k].index < w.blockIndex)
    && (forall id | id in w.toolBlocks :: w.toolBlocks[id] < w.blockIndex)
    && (forall id, k | id in w.toolBlocks && 0 <= k < |seen| :: seen[k].index != w.toolBlocks[id])
  }

  lemma {:induction false} CitationsAside(index: nat, citations: seq<Citation>, seen: seq<Seen>)
    ensures AllAside(CitationFrames(index, citations), seen)
  {
    if citations != [] { CitationsAside(index, citations[..|citations| - 1], seen); }
  }

  lemma {:induction false} StopsAside(blocks: map<string, nat>, ids: seq<string>, seen: seq<Seen>)
    ensures AllAside(StopFrames(blocks, ids), seen)
  {
    if ids != [] { StopsAside(blocks, ids[..|ids| - 1], seen); }
  }

  lemma {:induction false} ClosingAside(w: Writer, seen: seq<Seen>)
    requires Apart(w, seen)
    ensures var (w1, f1) := StartFrame(w);
      var (w2, f2) := CloseAndAdvance(w1);
      && AllAside(f1, seen) && AllAside(f2, seen) && Apart(w1, seen) && Apart(w2, seen)
      && w2.toolBlocks == w.toolBlocks && w2.serverToolBlocks == w.serverToolBlocks
    ensures AllAside(CloseCurrentBlock(w).1, seen)
  {
    CitationsAside(w.blockIndex, w.citations, seen);
  }

  lemma {:induction false} InBlockAside(w: Writer, t: BlockType, delta: Delta, seen: seq<Seen>)
    requires Apart(w, seen) && !delta.InputJson?
    ensures var (w', out) := EncodeInBlock(w, t, delta); AllAside(out, seen) && Apart(w', seen)
  {
    ClosingAside(w, seen);
  }

  lemma {:induction false} ToolStartAside(cfg: Config, w: Writer, id: string, name: string, args: string, seen: seq<Seen>)
    requires Apart(w, seen)
    ensures var (w', out) := EncodeToolStart(cfg, w, id, name, args); AllAside(out, seen) && Apart(w', seen)
  {
    ClosingAside(w, seen);
  }

  lemma {:induction false} ToolDeltaAside(cfg: Config, w: Writer, id: string, args: string, seen: seq<Seen>)
    requires Apart(w, seen)
    ensures var (w', out) := EncodeToolDelta(cfg, w, id, args); AllAside(out, seen) && Apart(w', seen)
  {
  }

  lemma {:induction false} ResultAside(w: Writer, id: string, name: string, results: seq<WebResult>, error: string, seen: seq<Seen>)
    requires Apart(w, seen)
    ensures var (w', out) := EncodeWebResult(w, id, name, results, error); AllAside(out, seen) && Apart(w', seen)
  {
  }

  lemma {:induction false} OrphanAside(w: Writer, id: string, seen: seq<Seen>)
    ensures AllAside(EncodeOrphan(w, id).1, seen)
  {
  }

  lemma {:induction false} OrphansAside(w: Writer, ids: seq<string>, seen: seq<Seen>)
    ensures AllAside(EncodeOrphans(w, ids).1, seen)
  {
    if ids != [] {
      OrphansAside(w, ids[..|ids| - 1], seen);
      OrphanAside(EncodeOrphans(w, ids[..|ids| - 1]).0, ids[|ids| - 1], seen);
    }
  }

  lemma {:induction false} TurnEndAside(cfg: Config, w: Writer, stopReason: string, stopSequence: string, seen: seq<Seen>)
    requires Apart(w, seen)
    ensures AllAside(EncodeTurnEnded(cfg, w, stopReason, stopSequence).1, seen)
  {
    ClosingAside(w, seen);
    var w2 := CloseCurrentBlock(w).0.(blockOpen := false);
    StopsAside(w2.toolBlocks, cfg.order(w2.toolBlocks.Keys), seen);
    OrphansAside(w2.(toolBlocks := map[]), cfg.order(w2.serverToolBlocks.Keys), seen);
  }

  lemma {:induction false} OthersAside(cfg: Config, w: Writer, ev: Event, seen: seq<Seen>)
    requires Apart(w, seen) && (ev.SignatureDelta? || ev.Heartbeat? || ev.ToolCallCompleted? || ev.Other?)
    ensures var (w', out) := Encode(cfg, w, ev); AllAside(out, seen) && Apart(w', seen)
  {
  }

  lemma {:induction false} EventAside(cfg: Config, w: Writer, ev: Event, seen: seq<Seen>)
    requires Apart(w, seen) && !ev.ServerToolStarted? && !ev.TurnEnded?
    ensures var (w', out) := Encode(cfg, w, ev); AllAside(out, seen) && Apart(w', seen)
  {
    match ev
    case TextDelta(text) => InBlockAside(w.(text := w.text + text), TextType, Words(text), seen);
    case ThinkingDelta(text) => InBlockAside(w, ThinkingType, Thought(text), seen);
    case ToolCallStarted(id, name, args) => ToolStartAside(cfg, w, id, name, args, seen);
    case ToolCallDelta(id, args) => ToolDeltaAside(cfg, w, id, args, seen);
    case WebSearchResult(id, name, results, error) => ResultAside(w, id, name, results, error, seen);
    case _ => OthersAside(cfg, w, ev, seen);
  }

  // A server tool that is not running is seen with its argument text.
  lemma {:induction false} ServerStartSeen(w: Writer, id: string, name: string, args: string, seen: seq<Seen>)
    requires Apart(w, seen)
    ensures var (w', out) := EncodeServerToolStart(w, id, name, args);
      var index := CloseAndAdvance(StartFrame(w).0).0.blockIndex;
      var seen' := if id in w.serverToolBlocks then seen else seen + [Seen(index, Call(id, name, args))];
      See(seen, out) == seen' && Apart(w', seen')
  {
    ClosingAside(w, seen);
    var (w1, f1) := StartFrame(w);
    var (w2, f2) := CloseAndAdvance(w1);
    if id !in w.serverToolBlocks {
      StartSeen(seen, f1 + f2, w2.blockIndex, id, name, args);
    }
  }

  lemma {:induction false} StartSeen(seen: seq<Seen>, before: seq<Frame>, index: nat, id: string, name: string, args: string)
    requires AllAside(before, seen) && forall k | 0 <= k < |seen| :: seen[k].index < index
    ensures See(seen, before + [BlockStart(index, ServerToolUse(id, name))] + ArgsFrames(index, args)) ==
      seen + [Seen(index, Call(id, name, args))]
  {
    var start := BlockStart(index, ServerToolUse(id, name));
    AllAsideShow(seen, before);
    SeeAppend(seen, before, [start]);
    SeeOne(seen, start);
    SeeAppend(seen, before + [start], ArgsFrames(index, args));
    var opened_ := seen + [Seen(index, Call(id, name, ""))];
    if args != "" {
      SeeOne(opened_, BlockDelta(index, InputJson(args)));
      assert "" + args == args;
      assert SeeFrame(opened_, BlockDelta(index, InputJson(args))) == seen + [Seen(index, Call(id, name, args))];
    }
  }

  // ---------- whole runs ----------

  ghost predicate Sees(w: Writer, seen: seq<Seen>, calls: seq<Call>) {
    Apart(w, seen) && CallsOf(seen) == calls
  }

  lemma {:induction false} CallsNext(front: seq<Event>, ev: Event)
    ensures ServerCalls(front + [ev]) == ServerCalls(front) +
      if ev.ServerToolStarted? && !Unanswered(front, ev.id) then [Call(ev.id, ev.name, ev.args)] else []
  {
    assert (front + [ev])[..|front|] == front;
  }

  lemma {:induction false} CallsOfNext(seen: seq<Seen>, one: Seen)
    ensures CallsOf(seen + [one]) == CallsOf(seen) + [one.call]
  {
  }

  lemma {:induction false} StartIsSeen(w: Writer, front: seq<Event>, id: string, name: string, args: string, seen: seq<Seen>)
    requires Sees(w, seen, ServerCalls(front)) && (id in w.serverToolBlocks <==> Unanswered(front, id))
    ensures var (w', out) := EncodeServerToolStart(w, id, name, args);
      Sees(w', See(seen, out), ServerCalls(front + [ServerToolStarted(id, name, args)]))
  {
    CallsNext(front, ServerToolStarted(id, name, args));
    ServerStartSeen(w, id, name, args, seen);
    CallsOfNext(seen, Seen(CloseAndAdvance(StartFrame(w).0).0.blockIndex, Call(id, name, args)));
  }

  lemma {:induction false} OthersSeen(cfg: Config, w: Writer, front: seq<Event>, ev: Event, seen: seq<Seen>)
    requires !ev.ServerToolStarted? && !ev.TurnEnded? && Sees(w, seen, ServerCalls(front))
    ensures var (w', out) := Encode(cfg, w, ev); Sees(w', See(seen, out), ServerCalls(front + [ev]))
  {
    CallsNext(front, ev);
    EventAside(cfg, w, ev, seen);
    AllAsideShow(seen, Encode(cfg, w, ev).1);
    assert ServerCalls(front) + [] == ServerCalls(front);
  }

  lemma {:induction false} EventSeen(cfg: Config, w: Writer, front: seq<Event>, ev: Event, seen: seq<Seen>)
    requires Tracks(cfg, front, w) && !ev.TurnEnded? && Sees(w, seen, ServerCalls(front))
    ensures var (w', out) := Encode(cfg, w, ev); Sees(w', See(seen, out), ServerCalls(front + [ev]))
  {
    if ev.ServerToolStarted? {
      StartIsSeen(w, front, ev.id, ev.name, ev.args, seen);
    } else {
      OthersSeen(cfg, w, front, ev, seen);
    }
  }

  ghost predicate RunSees(cfg: Config, events: seq<Event>) {
    Sees(WriterFrom(cfg, NEW, events), See([], Trace(cfg, NEW, events)), ServerCalls(events))
  }

  lemma {:induction false} NextSeen(cfg: Config, front: seq<Event>, ev: Event)
    requires RunSees(cfg, front) && !ev.TurnEnded? && forall e | e in front :: !e.TurnEnded?
    ensures RunSees(cfg, front + [ev])
  {
    var w := WriterFrom(cfg, NEW, front);
    var out := Encode(cfg, w, ev).1;
    RunHolds(cfg, front);
    EventSeen(cfg, w, front, ev, See([], Trace(cfg, NEW, front)));
    TraceNextEvent(cfg, NEW, front, ev);
    SeeAppend([], Trace(cfg, NEW, front), out);
    WriterNext(cfg, front, ev);
  }

  lemma {:induction false} WriterNext(cfg: Config, front: seq<Event>, ev: Event)
    ensures WriterFrom(cfg, NEW, front + [ev]) == Encode(cfg, WriterFrom(cfg, NEW, front), ev).0
  {
    assert (front + [ev])[..|front|] == front;
  }

  lemma {:induction false} RunSeen(cfg: Config, events: seq<Event>)
    requires forall ev | ev in events :: !ev.TurnEnded?
    ensures RunSees(cfg, events)
  {
    if events != [] {
      var n := |events| - 1;
      RunSeen(cfg, events[..n]);
      NextSeen(cfg, events[..n], events[n]);
      assert events == events[..n] + [events[n]];
    }
  }

  // Every run through its first turn end, clean or not: the server tools that a
  // client rebuilds are those started while not running, each with its id, its
  // name and its argument text, in their order.
  lemma {:induction false} ServerToolsAreFaithful(cfg: Config, events: seq<Event>, stopReason: string, stopSequence: string)
    requires forall ev | ev in events :: !ev.TurnEnded?
    ensures CallsOf(See([], Trace(cfg, NEW, events))) == ServerCalls(events)
    ensures CallsOf(See([], Trace(cfg, NEW, events + [TurnEnded(stopReason, stopSequence)]))) == ServerCalls(events)
  {
    var w, last := WriterFrom(cfg, NEW, events), TurnEnded(stopReason, stopSequence);
    var seen := See([], Trace(cfg, NEW, events));
    RunSeen(cfg, events);
    TraceNextEvent(cfg, NEW, events, last);
    TurnEndAside(cfg, w, stopReason, stopSequence, seen);
    AllAsideShow(seen, Encode(cfg, w, last).1);
    SeeAppend([], Trace(cfg, NEW, events), Encode(cfg, w, last).1);
  }
}
