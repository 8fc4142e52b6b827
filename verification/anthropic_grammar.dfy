// The order in which Anthropic stream frames may appear, and exactly which runs
// of translator/anthropic.go respect it.
module AnthropicGrammar {
  import opened AnthropicStream
  import Text

  // ---------- the grammar ----------

  datatype Kind = TextKind | ThinkingKind | ToolKind | ServerToolKind | ResultKind

  function KindOf(block: Block): Kind {
    match block
    case TextBlock => TextKind
    case ThinkingBlock => ThinkingKind
    case ToolUse(_, _) => ToolKind
    case ServerToolUse(_, _) => ServerToolKind
    case _ => ResultKind
  }

  predicate Fits(kind: Kind, delta: Delta) {
    match delta
    case Words(_) => kind.TextKind?
    case Citing(_) => kind.TextKind?
    case Thought(_) => kind.ThinkingKind?
    case Signature(_) => kind.ThinkingKind?
    case InputJson(_) => kind.ToolKind? || kind.ServerToolKind?
  }

  // How far a trace has got: blocks start at next = 0, 1, 2, ...; `open` holds
  // those not yet stopped.
  datatype Progress =
    | Streaming(started: bool, next: nat, open: map<nat, Kind>)
    | Ending
    | Done
    | Rejected

  const BEGIN := Streaming(false, 0, map[])

  function Accept(p: Progress, f: Frame): Progress {
    match p
    case Streaming(started, next, open) =>
      (match f
       case MessageStart => if started then Rejected else p.(started := true)
       case Ping => if started then p else Rejected
       case BlockStart(index, block) =>
         if started && index == next then Streaming(true, next + 1, open[index := KindOf(block)]) else Rejected
       case BlockDelta(index, delta) =>
         if started && index in open && Fits(open[index], delta) then p else Rejected
       case BlockStop(index) =>
         if started && index in open then p.(open := open - {index}) else Rejected
       case MessageDelta(_, _, _) => if started && open == map[] then Ending else Rejected
       case MessageStop => Rejected)
    case Ending => if f.MessageStop? then Done else Rejected
    case Done => Rejected
    case Rejected => Rejected
  }

  function AcceptAll(p: Progress, frames: seq<Frame>): Progress
    decreases |frames|
  {
    if frames == [] then p else AcceptAll(Accept(p, frames[0]), frames[1..])
  }

  lemma {:induction false} AcceptAppend(p: Progress, a: seq<Frame>, b: seq<Frame>)
    ensures AcceptAll(p, a + b) == AcceptAll(AcceptAll(p, a), b)
    decreases |a|
  {
    if a == [] {
      assert a + b == b;
    } else {
      assert (a + b)[1..] == a[1..] + b;
      AcceptAppend(Accept(p, a[0]), a[1..], b);
    }
  }

  lemma {:induction false} RejectedStays(frames: seq<Frame>)
    ensures AcceptAll(Rejected, frames) == Rejected
  {
    if frames != [] { RejectedStays(frames[1..]); }
  }

  // ---------- which runs follow it ----------

  // Events that send nothing once the turn has ended.
  predicate Silent(ev: Event) {
    ev.ToolCallDelta? || ev.ToolCallCompleted? || ev.Other? || (ev.SignatureDelta? && ev.text == "")
  }

  // What a caller must respect at each event; each line names a branch of the
  // source that breaks the stream when it is not.
  predicate Allowed(cfg: Config, w: Writer, ended: bool, ev: Event) {
    if ended then Silent(ev)
    else match ev
      // a second start of an id in flight discards the stop of the open block
      case ToolCallStarted(id, _, _) => !(w.blockOpen && ResolveClientToolID(cfg, id) in w.toolBlocks)
      case ServerToolStarted(id, _, _) => !(w.blockOpen && id in w.serverToolBlocks)
      // a result does not close an open block, and takes its index
      case WebSearchResult(_, _, _, _) => !w.blockOpen
      // nothing starts the message; or the orphans' results take the index of
      // the block closed just before
      case TurnEnded(_, _) => w.sentStart && !(w.blockOpen && w.serverToolBlocks != map[])
      case _ => true
  }

  predicate Clean(cfg: Config, w: Writer, ended: bool, events: seq<Event>)
    decreases |events|
  {
    if events == [] then ended
    else Allowed(cfg, w, ended, events[0])
         && Clean(cfg, Encode(cfg, w, events[0]).0, ended || events[0].TurnEnded?, events[1..])
  }

  // ---------- writer and grammar in step ----------

  ghost predicate Injective(blocks: map<string, nat>) {
    forall a, b | a in blocks && b in blocks && blocks[a] == blocks[b] :: a == b
  }

  // Every recorded block is open, with its kind, and no index is recorded twice.
  ghost predicate Recorded(blocks: map<string, nat>, kind: Kind, open: map<nat, Kind>) {
    && Injective(blocks)
    && (forall id | id in blocks :: blocks[id] in open && open[blocks[id]] == kind)
    && (forall i | i in open && open[i] == kind :: i in blocks.Values)
  }

  // The open tool blocks are exactly the recorded ones, below the next index.
  ghost predicate Tidy(open: map<nat, Kind>, tools: map<string, nat>, servers: map<string, nat>, next: nat) {
    && Recorded(tools, ToolKind, open) && Recorded(servers, ServerToolKind, open)
    && (forall i | i in open :: i < next && open[i] in {ToolKind, ServerToolKind})
  }

  lemma {:induction false} RecordedAdd(blocks: map<string, nat>, kind: Kind, open: map<nat, Kind>, id: string, index: nat)
    requires Recorded(blocks, kind, open) && id !in blocks && index !in open
    ensures Recorded(blocks[id := index], kind, open[index := kind])
  {
    var more := blocks[id := index];
    assert more[id] == index;
    forall i | i in open[index := kind] && open[index := kind][i] == kind ensures i in more.Values {
      if i != index {
        var k :| k in blocks && blocks[k] == i;
        assert more[k] == i;
      }
    }
  }

  lemma {:induction false} RecordedRemove(blocks: map<string, nat>, kind: Kind, open: map<nat, Kind>, id: string)
    requires Recorded(blocks, kind, open) && id in blocks
    ensures Recorded(blocks - {id}, kind, open - {blocks[id]})
  {
    var fewer := blocks - {id};
    forall i | i in open && i != blocks[id] && open[i] == kind ensures i in fewer.Values {
      var k :| k in blocks && blocks[k] == i;
      assert fewer[k] == i;
    }
  }

  lemma {:induction false} AddTool(open: map<nat, Kind>, tools: map<string, nat>, servers: map<string, nat>, next: nat, id: string)
    requires Tidy(open, tools, servers, next) && id !in tools
    ensures Tidy(open[next := ToolKind], tools[id := next], servers, next + 1)
  {
    RecordedAdd(tools, ToolKind, open, id, next);
  }

  lemma {:induction false} AddServer(open: map<nat, Kind>, tools: map<string, nat>, servers: map<string, nat>, next: nat, id: string)
    requires Tidy(open, tools, servers, next) && id !in servers
    ensures Tidy(open[next := ServerToolKind], tools, servers[id := next], next + 1)
  {
    RecordedAdd(servers, ServerToolKind, open, id, next);
  }

  lemma {:induction false} RemoveTool(open: map<nat, Kind>, tools: map<string, nat>, servers: map<string, nat>, next: nat, id: string)
    requires Tidy(open, tools, servers, next) && id in tools
    ensures Tidy(open - {tools[id]}, tools - {id}, servers, next)
    ensures tools[id] in open && open[tools[id]] == ToolKind && tools[id] < next
  {
    RecordedRemove(tools, ToolKind, open, id);
  }

  lemma {:induction false} RemoveServer(open: map<nat, Kind>, tools: map<string, nat>, servers: map<string, nat>, next: nat, id: string)
    requires Tidy(open, tools, servers, next) && id in servers
    ensures Tidy(open - {servers[id]}, tools, servers - {id}, next)
    ensures servers[id] in open && open[servers[id]] == ServerToolKind && servers[id] < next
  {
    RecordedRemove(servers, ServerToolKind, open, id);
  }

  function OpenKind(w: Writer): Kind {
    if w.blockType.TextType? then TextKind else ThinkingKind
  }

  // The blocks open besides the one the writer is in.
  function Others(w: Writer, p: Progress): map<nat, Kind>
    requires p.Streaming?
  {
    if w.blockOpen then p.open - {w.blockIndex} else p.open
  }

  // Exactly the blocks the writer knows of are open, and an open block implies
  // that message_start was sent.
  ghost predicate InStep(w: Writer, p: Progress) {
    && p.Streaming? && p.started == w.sentStart
    && p.next == w.blockIndex + (if w.blockOpen then 1 else 0)
    && (w.blockOpen ==> w.blockIndex in p.open && p.open[w.blockIndex] == OpenKind(w) && w.blockType != NoType)
    && Tidy(Others(w, p), w.toolBlocks, w.serverToolBlocks, w.blockIndex)
    && (w.blockOpen || w.toolBlocks != map[] || w.serverToolBlocks != map[] ==> w.sentStart)
  }

  lemma {:induction false} CitationsKeep(p: Progress, index: nat, citations: seq<Citation>)
    requires p.Streaming? && p.started && index in p.open && p.open[index] == TextKind
    ensures AcceptAll(p, CitationFrames(index, citations)) == p
  {
    if citations != [] {
      var n := |citations| - 1;
      CitationsKeep(p, index, citations[..n]);
      AcceptAppend(p, CitationFrames(index, citations[..n]), [BlockDelta(index, Citing(citations[n]))]);
    }
  }

  lemma {:induction false} CloseStops(w: Writer, p: Progress)
    requires InStep(w, p) && w.blockOpen
    ensures AcceptAll(p, CloseCurrentBlock(w).1) == p.(open := p.open - {w.blockIndex})
  {
    if w.blockType == TextType && w.citations != [] {
      CitationsKeep(p, w.blockIndex, w.citations);
      AcceptAppend(p, CitationFrames(w.blockIndex, w.citations), [BlockStop(w.blockIndex)]);
    }
  }

  lemma {:induction false} CloseKeeps(w: Writer, p: Progress)
    requires InStep(w, p)
    ensures var (w', out) := CloseAndAdvance(w); InStep(w', AcceptAll(p, out)) && !w'.blockOpen && w'.sentStart == w.sentStart
  {
    if w.blockOpen {
      CloseStops(w, p);
    }
  }

  lemma {:induction false} OpenKeeps(w: Writer, p: Progress, t: BlockType)
    requires InStep(w, p) && w.sentStart && t != NoType
    requires w.blockOpen ==> w.blockType == t
    ensures var (w', out) := OpenBlock(w, t); InStep(w', AcceptAll(p, out)) && w'.blockOpen && w'.blockType == t && w'.sentStart
  {
  }

  // A delta that fits the open block changes nothing.
  lemma {:induction false} DeltaKeeps(p: Progress, index: nat, delta: Delta)
    requires p.Streaming? && p.started && index in p.open && Fits(p.open[index], delta)
    ensures AcceptAll(p, [BlockDelta(index, delta)]) == p
  {
  }

  lemma {:induction false} InBlockKeeps(w: Writer, p: Progress, t: BlockType, delta: Delta)
    requires InStep(w, p) && t != NoType
    requires Fits(if t.TextType? then TextKind else ThinkingKind, delta)
    ensures var (w', out) := EncodeInBlock(w, t, delta); InStep(w', AcceptAll(p, out))
  {
    var (w1, f1) := StartFrame(w);
    var (w2, f2) := if w1.blockType == t then (w1, []) else CloseAndAdvance(w1);
    var (w3, f3) := OpenBlock(w2, t);
    var p1 := AcceptAll(p, f1);
    var p2 := AcceptAll(p1, f2);
    var p3 := AcceptAll(p2, f3);
    if w1.blockType != t { CloseKeeps(w1, p1); }
    OpenKeeps(w2, p2, t);
    AcceptAppend(p, f1, f2);
    AcceptAppend(p, f1 + f2, f3);
    AcceptAppend(p, f1 + f2 + f3, [BlockDelta(w3.blockIndex, delta)]);
    DeltaKeeps(p3, w3.blockIndex, delta);
  }

  lemma {:induction false} SignatureKeeps(w: Writer, p: Progress, text: string)
    requires InStep(w, p)
    ensures var (w', out) := EncodeSignature(w, text); InStep(w', AcceptAll(p, out))
  {
    if text != "" {
      var (w1, f1) := StartFrame(w);
      var p1 := AcceptAll(p, f1);
      if w1.blockOpen && w1.blockType != ThinkingType {
        assert w1 == w;
      } else {
        var (w2, f2) := OpenBlock(w1, ThinkingType);
        OpenKeeps(w1, p1, ThinkingType);
        AcceptAppend(p, f1, f2);
        AcceptAppend(p, f1 + f2, [BlockDelta(w2.blockIndex, Signature(text))]);
        DeltaKeeps(AcceptAll(p1, f2), w2.blockIndex, Signature(text));
      }
    }
  }

  lemma {:induction false} HeartbeatKeeps(w: Writer, p: Progress)
    requires InStep(w, p)
    ensures var (w', out) := StartFrame(w); InStep(w', AcceptAll(p, out + [Ping]))
  {
    var (w', out) := StartFrame(w);
    AcceptAppend(p, out, [Ping]);
  }

  lemma {:induction false} ArgsKeep(p: Progress, index: nat, args: string)
    requires p.Streaming? && p.started && index in p.open && p.open[index] in {ToolKind, ServerToolKind}
    ensures AcceptAll(p, ArgsFrames(index, args)) == p
  {
    if args != "" { DeltaKeeps(p, index, InputJson(args)); }
  }

  // A tool block starts at the next index and is recorded under its id.
  lemma {:induction false} NewToolBlock(w: Writer, p: Progress, id: string, name: string)
    requires InStep(w, p) && !w.blockOpen && w.sentStart && id !in w.toolBlocks
    ensures var w' := w.(toolBlocks := w.toolBlocks[id := w.blockIndex], blockIndex := w.blockIndex + 1, sawToolCall := true);
      var p' := AcceptAll(p, [BlockStart(w.blockIndex, ToolUse(id, name))]);
      InStep(w', p') && w.blockIndex in p'.open && p'.open[w.blockIndex] == ToolKind
  {
    AddTool(p.open, w.toolBlocks, w.serverToolBlocks, w.blockIndex, id);
  }

  lemma {:induction false} NewServerBlock(w: Writer, p: Progress, id: string, name: string)
    requires InStep(w, p) && !w.blockOpen && w.sentStart && id !in w.serverToolBlocks
    ensures var w' := w.(serverToolBlocks := w.serverToolBlocks[id := w.blockIndex],
                         serverToolNames := w.serverToolNames[id := name], blockIndex := w.blockIndex + 1);
      var p' := AcceptAll(p, [BlockStart(w.blockIndex, ServerToolUse(id, name))]);
      InStep(w', p') && w.blockIndex in p'.open && p'.open[w.blockIndex] == ServerToolKind
  {
    AddServer(p.open, w.toolBlocks, w.serverToolBlocks, w.blockIndex, id);
  }

  lemma {:induction false} ToolStartKeeps(cfg: Config, w: Writer, p: Progress, id: string, name: string, args: string)
    requires InStep(w, p) && Allowed(cfg, w, false, ToolCallStarted(id, name, args))
    ensures var (w', out) := EncodeToolStart(cfg, w, id, name, args); InStep(w', AcceptAll(p, out))
  {
    var (w1, f1) := StartFrame(w);
    var (w2, f2) := CloseAndAdvance(w1);
    var p1 := AcceptAll(p, f1);
    var p2 := AcceptAll(p1, f2);
    var toolId := ResolveClientToolID(cfg, id);
    CloseKeeps(w1, p1);
    if toolId in w2.toolBlocks {
      assert w2 == w;
    } else {
      var f3 := [BlockStart(w2.blockIndex, ToolUse(toolId, name))];
      NewToolBlock(w2, p2, toolId, name);
      ArgsKeep(AcceptAll(p2, f3), w2.blockIndex, args);
      AcceptAppend(p, f1, f2);
      AcceptAppend(p, f1 + f2, f3);
      AcceptAppend(p, f1 + f2 + f3, ArgsFrames(w2.blockIndex, args));
    }
  }

  lemma {:induction false} ServerToolStartKeeps(cfg: Config, w: Writer, p: Progress, id: string, name: string, args: string)
    requires InStep(w, p) && Allowed(cfg, w, false, ServerToolStarted(id, name, args))
    ensures var (w', out) := EncodeServerToolStart(w, id, name, args); InStep(w', AcceptAll(p, out))
  {
    var (w1, f1) := StartFrame(w);
    var (w2, f2) := CloseAndAdvance(w1);
    var p1 := AcceptAll(p, f1);
    var p2 := AcceptAll(p1, f2);
    CloseKeeps(w1, p1);
    if id in w2.serverToolBlocks {
      assert w2 == w;
    } else {
      var f3 := [BlockStart(w2.blockIndex, ServerToolUse(id, name))];
      NewServerBlock(w2, p2, id, name);
      ArgsKeep(AcceptAll(p2, f3), w2.blockIndex, args);
      AcceptAppend(p, f1, f2);
      AcceptAppend(p, f1 + f2, f3);
      AcceptAppend(p, f1 + f2 + f3, ArgsFrames(w2.blockIndex, args));
    }
  }

  // Stopping a tool block and forgetting its id.
  lemma {:induction false} ToolStopKeeps(w: Writer, p: Progress, id: string)
    requires InStep(w, p) && id in w.toolBlocks
    ensures InStep(w.(toolBlocks := w.toolBlocks - {id}), AcceptAll(p, [BlockStop(w.toolBlocks[id])]))
  {
    RemoveTool(Others(w, p), w.toolBlocks, w.serverToolBlocks, w.blockIndex, id);
    RemoveUnder(p.open, w.blockIndex, w.toolBlocks[id]);
  }

  lemma {:induction false} RemoveUnder(open: map<nat, Kind>, i: nat, j: nat)
    ensures open - {i} - {j} == open - {j} - {i}
  {
  }

  lemma {:induction false} ServerStopKeeps(w: Writer, p: Progress, id: string)
    requires InStep(w, p)
    ensures var (w', out) := StopServerTool(w, id);
      InStep(w', AcceptAll(p, out)) && w'.blockOpen == w.blockOpen && w'.sentStart == w.sentStart
  {
    if id in w.serverToolBlocks {
      RemoveServer(Others(w, p), w.toolBlocks, w.serverToolBlocks, w.blockIndex, id);
      RemoveUnder(p.open, w.blockIndex, w.serverToolBlocks[id]);
    }
  }

  lemma {:induction false} ResultKeeps(w: Writer, p: Progress, block: Block)
    requires InStep(w, p) && !w.blockOpen && w.sentStart
    ensures var (w', out) := ResultBlock(w, block); InStep(w', AcceptAll(p, out)) && !w'.blockOpen
  {
    var (w', out) := ResultBlock(w, block);
    assert out == [out[0]] + [out[1]];
    AcceptAppend(p, [out[0]], [out[1]]);
  }

  // Bookkeeping the grammar does not look at.
  ghost predicate SameBlocks(w: Writer, v: Writer) {
    v == w.(citations := v.citations, webSearchRequests := v.webSearchRequests, text := v.text,
            sawToolCall := v.sawToolCall, serverToolNames := v.serverToolNames)
  }

  lemma {:induction false} SameBlocksInStep(w: Writer, v: Writer, p: Progress)
    requires InStep(w, p) && SameBlocks(w, v)
    ensures InStep(v, p)
  {
  }

  lemma {:induction false} WebResultKeeps(w: Writer, p: Progress, id: string, name: string, results: seq<WebResult>, error: string)
    requires InStep(w, p) && !w.blockOpen
    ensures var (w', out) := EncodeWebResult(w, id, name, results, error); InStep(w', AcceptAll(p, out)) && !w'.blockOpen
  {
    var (w1, f1) := StartFrame(w);
    var (w2, f2) := StopServerTool(w1, id);
    var p1 := AcceptAll(p, f1);
    var p2 := AcceptAll(p1, f2);
    ServerStopKeeps(w1, p1, id);
    var w2' := if IsWebFetch(name) then w2 else w2.(citations := Citations(id, results));
    SameBlocksInStep(w2, w2', p2);
    var block := if IsWebFetch(name) then WebFetchToolResult(id, results, error != "")
                 else WebSearchToolResult(id, results, error != "");
    ResultKeeps(w2', p2, block);
    var (w3, f3) := ResultBlock(w2', block);
    AcceptAppend(p, f1, f2);
    AcceptAppend(p, f1 + f2, f3);
    SameBlocksInStep(w3, EncodeWebResult(w, id, name, results, error).0, AcceptAll(p2, f3));
  }

  lemma {:induction false} StopServerEffect(w: Writer, id: string)
    ensures StopServerTool(w, id).0.serverToolBlocks == w.serverToolBlocks - {id}
  {
  }

  lemma {:induction false} OrphanKeeps(w: Writer, p: Progress, id: string)
    requires InStep(w, p) && !w.blockOpen && w.sentStart
    ensures var (w', out) := EncodeOrphan(w, id); InStep(w', AcceptAll(p, out)) && !w'.blockOpen
  {
    if id in w.serverToolNames && IsWebFetch(w.serverToolNames[id]) {
      WebResultKeeps(w, p, id, "web_fetch", [], "unavailable");
    } else {
      var (w1, f1) := StopServerTool(w, id);
      var p1 := AcceptAll(p, f1);
      ServerStopKeeps(w, p, id);
      ResultKeeps(w1, p1, WebSearchToolResult(id, [], true));
      var (w2, f2) := ResultBlock(w1, WebSearchToolResult(id, [], true));
      AcceptAppend(p, f1, f2);
      SameBlocksInStep(w2, w2.(webSearchRequests := w2.webSearchRequests + 1), AcceptAll(p1, f2));
    }
  }

  lemma {:induction false} OrphanEffect(w: Writer, id: string)
    requires w.sentStart
    ensures var w' := EncodeOrphan(w, id).0;
      w'.sentStart && w'.toolBlocks == w.toolBlocks && w'.serverToolBlocks == w.serverToolBlocks - {id}
  {
    StopServerEffect(w, id);
  }

  lemma {:induction false} OrphansKeep(w: Writer, p: Progress, ids: seq<string>)
    requires InStep(w, p) && !w.blockOpen && w.sentStart
    ensures var (w', out) := EncodeOrphans(w, ids);
      InStep(w', AcceptAll(p, out)) && !w'.blockOpen && w'.sentStart
      && w'.toolBlocks == w.toolBlocks && (forall id :: id in w'.serverToolBlocks <==> id in w.serverToolBlocks && id !in ids)
  {
    if ids != [] {
      var n := |ids| - 1;
      OrphansKeep(w, p, ids[..n]);
      var (w1, f1) := EncodeOrphans(w, ids[..n]);
      OrphanKeeps(w1, AcceptAll(p, f1), ids[n]);
      OrphanEffect(w1, ids[n]);
      AcceptAppend(p, f1, EncodeOrphan(w1, ids[n]).1);
      assert forall id :: id in ids <==> id in ids[..n] || id == ids[n];
    }
  }

  function KeySet(ids: seq<string>): set<string> {
    set id | id in ids
  }

  lemma {:induction false} KeySetNext(ids: seq<string>)
    requires ids != []
    ensures KeySet(ids) == KeySet(ids[..|ids| - 1]) + {ids[|ids| - 1]}
  {
    var n := |ids| - 1;
    assert ids == ids[..n] + [ids[n]];
  }

  lemma {:induction false} RemoveNext(blocks: map<string, nat>, keys: set<string>, id: string)
    ensures blocks - keys - {id} == blocks - (keys + {id})
    ensures id in blocks && id !in keys ==> id in blocks - keys && (blocks - keys)[id] == blocks[id]
  {
  }

  lemma {:induction false} StopFramesNext(blocks: map<string, nat>, ids: seq<string>)
    requires ids != [] && ids[|ids| - 1] in blocks
    ensures StopFrames(blocks, ids) == StopFrames(blocks, ids[..|ids| - 1]) + [BlockStop(blocks[ids[|ids| - 1]])]
  {
  }

  // Stopping tool blocks one by one, in any order.
  lemma {:induction false} ToolStopsKeep(w: Writer, p: Progress, ids: seq<string>)
    requires InStep(w, p)
    requires forall id | id in ids :: id in w.toolBlocks
    requires forall i, j | 0 <= i < j < |ids| :: ids[i] != ids[j]
    ensures InStep(w.(toolBlocks := w.toolBlocks - KeySet(ids)), AcceptAll(p, StopFrames(w.toolBlocks, ids)))
  {
    if ids == [] {
      assert w.toolBlocks - KeySet(ids) == w.toolBlocks;
    } else {
      var n := |ids| - 1;
      var front, id := ids[..n], ids[n];
      ToolStopsKeep(w, p, front);
      assert id !in front;
      OneMoreStop(w, p, KeySet(front), StopFrames(w.toolBlocks, front), id);
      KeySetNext(ids);
      StopFramesNext(w.toolBlocks, ids);
    }
  }

  lemma {:induction false} OneMoreStop(w: Writer, p: Progress, gone: set<string>, frames: seq<Frame>, id: string)
    requires id in w.toolBlocks && id !in gone
    requires InStep(w.(toolBlocks := w.toolBlocks - gone), AcceptAll(p, frames))
    ensures InStep(w.(toolBlocks := w.toolBlocks - (gone + {id})), AcceptAll(p, frames + [BlockStop(w.toolBlocks[id])]))
  {
    RemoveNext(w.toolBlocks, gone, id);
    ToolStopKeeps(w.(toolBlocks := w.toolBlocks - gone), AcceptAll(p, frames), id);
    AcceptAppend(p, frames, [BlockStop(w.toolBlocks[id])]);
  }

  lemma {:induction false} AllToolsStop(cfg: Config, w: Writer, p: Progress)
    requires Fair(cfg) && InStep(w, p)
    ensures InStep(w.(toolBlocks := map[]), AcceptAll(p, StopFrames(w.toolBlocks, cfg.order(w.toolBlocks.Keys))))
  {
    var ids := cfg.order(w.toolBlocks.Keys);
    assert Enumerates(ids, w.toolBlocks.Keys);
    ToolStopsKeep(w, p, ids);
    assert w.toolBlocks - KeySet(ids) == map[];
  }

  lemma {:induction false} AllOrphansStop(cfg: Config, w: Writer, p: Progress)
    requires Fair(cfg) && InStep(w, p) && !w.blockOpen && w.sentStart
    ensures var (w', out) := EncodeOrphans(w, cfg.order(w.serverToolBlocks.Keys));
      InStep(w', AcceptAll(p, out)) && !w'.blockOpen && w'.sentStart && w'.toolBlocks == w.toolBlocks && w'.serverToolBlocks == map[]
  {
    var ids := cfg.order(w.serverToolBlocks.Keys);
    assert Enumerates(ids, w.serverToolBlocks.Keys);
    OrphansKeep(w, p, ids);
  }

  // ---------- the turn end ----------

  // The writer once its turn has ended.
  predicate Finished(w: Writer) {
    !w.blockOpen && w.toolBlocks == map[] && w.serverToolBlocks == map[] && w.sentStart
  }

  lemma {:induction false} EndingAccepted(p: Progress, stopReason: string, stopSequence: string, requests: nat)
    requires p.Streaming?
    ensures AcceptAll(p, [MessageDelta(stopReason, stopSequence, requests), MessageStop]) ==
            if p.started && p.open == map[] then Done else Rejected
  {
    var a, b := MessageDelta(stopReason, stopSequence, requests), MessageStop;
    assert [a, b] == [a] + [b];
    AcceptAppend(p, [a], [b]);
  }

  // The stages of the turn end, in the order of the source.
  lemma {:induction false} TurnEndStages(cfg: Config, w: Writer, p: Progress, stopReason: string, stopSequence: string)
    ensures var (w1, f1) := CloseCurrentBlock(w);
      var w2 := w1.(blockOpen := false);
      var f2 := StopFrames(w2.toolBlocks, cfg.order(w2.toolBlocks.Keys));
      var w3 := w2.(toolBlocks := map[]);
      var (w4, f4) := EncodeOrphans(w3, cfg.order(w3.serverToolBlocks.Keys));
      var f5 := [MessageDelta(StopReasonOf(cfg, w4, stopReason), stopSequence, w4.webSearchRequests), MessageStop];
      && EncodeTurnEnded(cfg, w, stopReason, stopSequence) == (w4, f1 + f2 + f4 + f5)
      && AcceptAll(p, f1 + f2 + f4 + f5) == AcceptAll(AcceptAll(AcceptAll(AcceptAll(p, f1), f2), f4), f5)
  {
    var (w1, f1) := CloseCurrentBlock(w);
    var w2 := w1.(blockOpen := false);
    var f2 := StopFrames(w2.toolBlocks, cfg.order(w2.toolBlocks.Keys));
    var w3 := w2.(toolBlocks := map[]);
    var (w4, f4) := EncodeOrphans(w3, cfg.order(w3.serverToolBlocks.Keys));
    var f5 := [MessageDelta(StopReasonOf(cfg, w4, stopReason), stopSequence, w4.webSearchRequests), MessageStop];
    AcceptAppend(p, f1, f2);
    AcceptAppend(p, f1 + f2, f4);
    AcceptAppend(p, f1 + f2 + f4, f5);
  }

  // After the open block is closed and the tool blocks are stopped, the grammar
  // is where a writer with the next index would be.
  lemma {:induction false} ClosedAndStopped(cfg: Config, w: Writer, p: Progress)
    requires Fair(cfg) && InStep(w, p)
    ensures var (w1, f1) := CloseCurrentBlock(w);
      var w3 := w1.(blockOpen := false, toolBlocks := map[]);
      var f2 := StopFrames(w1.toolBlocks, cfg.order(w1.toolBlocks.Keys));
      InStep(if w.blockOpen then w3.(blockIndex := w.blockIndex + 1) else w3, AcceptAll(AcceptAll(p, f1), f2))
  {
    var (w1, f1) := CloseCurrentBlock(w);
    var v := if w.blockOpen then w1.(blockOpen := false, blockIndex := w.blockIndex + 1) else w1;
    CloseKeeps(w, p);
    assert InStep(v, AcceptAll(p, f1));
    AllToolsStop(cfg, v, AcceptAll(p, f1));
  }

  lemma {:induction false} NothingOpen(w: Writer, p: Progress)
    requires InStep(w, p) && !w.blockOpen && w.toolBlocks == map[] && w.serverToolBlocks == map[]
    ensures p.open == map[]
  {
    assert p.open.Keys == {};
  }

  lemma {:induction false} TurnEndedKeeps(cfg: Config, w: Writer, p: Progress, stopReason: string, stopSequence: string)
    requires Fair(cfg) && InStep(w, p) && Allowed(cfg, w, false, TurnEnded(stopReason, stopSequence))
    ensures var (w', out) := EncodeTurnEnded(cfg, w, stopReason, stopSequence); AcceptAll(p, out) == Done && Finished(w')
  {
    TurnEndStages(cfg, w, p, stopReason, stopSequence);
    ClosedAndStopped(cfg, w, p);
    var (w1, f1) := CloseCurrentBlock(w);
    var f2 := StopFrames(w1.toolBlocks, cfg.order(w1.toolBlocks.Keys));
    var w3 := w1.(blockOpen := false, toolBlocks := map[]);
    var p3 := AcceptAll(AcceptAll(p, f1), f2);
    var ids := cfg.order(w3.serverToolBlocks.Keys);
    var (w4, f4) := EncodeOrphans(w3, ids);
    if w.blockOpen {
      assert Enumerates(ids, w3.serverToolBlocks.Keys);
      assert ids == [];
      assert w3.(blockIndex := w.blockIndex + 1).toolBlocks == map[];
      NothingOpen(w3.(blockIndex := w.blockIndex + 1), p3);
    } else {
      AllOrphansStop(cfg, w3, p3);
      NothingOpen(w4, AcceptAll(p3, f4));
    }
    EndingAccepted(AcceptAll(p3, f4), StopReasonOf(cfg, w4, stopReason), stopSequence, w4.webSearchRequests);
  }

  // ---------- what the guards shut out ----------

  // A result that does not take the next index is rejected.
  lemma {:induction false} ResultMisplaced(w: Writer, p: Progress, block: Block)
    requires p.Streaming? && p.next != w.blockIndex
    ensures AcceptAll(p, ResultBlock(w, block).1) == Rejected
  {
    var out := ResultBlock(w, block).1;
    assert out == [out[0]] + [out[1]];
    AcceptAppend(p, [out[0]], [out[1]]);
  }

  lemma {:induction false} StopServerNeverAdvances(w: Writer, p: Progress, id: string)
    requires p.Streaming?
    ensures var p' := AcceptAll(p, StopServerTool(w, id).1); p'.Rejected? || (p'.Streaming? && p'.next == p.next)
  {
  }

  lemma {:induction false} WebResultMisplaced(w: Writer, p: Progress, id: string, name: string, results: seq<WebResult>, error: string)
    requires p.Streaming? && w.sentStart && p.next != w.blockIndex
    ensures AcceptAll(p, EncodeWebResult(w, id, name, results, error).1) == Rejected
  {
    var (w2, f2) := StopServerTool(w, id);
    var p2 := AcceptAll(p, f2);
    StopServerNeverAdvances(w, p, id);
    var block := if IsWebFetch(name) then WebFetchToolResult(id, results, error != "")
                 else WebSearchToolResult(id, results, error != "");
    var w2' := if IsWebFetch(name) then w2 else w2.(citations := Citations(id, results));
    var f3 := ResultBlock(w2', block).1;
    assert EncodeWebResult(w, id, name, results, error).1 == [] + f2 + f3 == f2 + f3;
    AcceptAppend(p, f2, f3);
    if p2.Rejected? { RejectedStays(f3); } else { ResultMisplaced(w2', p2, block); }
  }

  lemma {:induction false} OrphanMisplaced(w: Writer, p: Progress, id: string)
    requires p.Streaming? && w.sentStart && p.next != w.blockIndex
    ensures AcceptAll(p, EncodeOrphan(w, id).1) == Rejected
  {
    if id in w.serverToolNames && IsWebFetch(w.serverToolNames[id]) {
      WebResultMisplaced(w, p, id, "web_fetch", [], "unavailable");
    } else {
      var (w1, f1) := StopServerTool(w, id);
      var p1 := AcceptAll(p, f1);
      StopServerNeverAdvances(w, p, id);
      var f2 := ResultBlock(w1, WebSearchToolResult(id, [], true)).1;
      AcceptAppend(p, f1, f2);
      if p1.Rejected? { RejectedStays(f2); } else { ResultMisplaced(w1, p1, WebSearchToolResult(id, [], true)); }
    }
  }

  lemma {:induction false} OrphansMisplaced(w: Writer, p: Progress, ids: seq<string>)
    requires p.Streaming? && w.sentStart && p.next != w.blockIndex && ids != []
    ensures AcceptAll(p, EncodeOrphans(w, ids).1) == Rejected
  {
    var n := |ids| - 1;
    var (w1, f1) := EncodeOrphans(w, ids[..n]);
    var f2 := EncodeOrphan(w1, ids[n]).1;
    AcceptAppend(p, f1, f2);
    if n == 0 {
      OrphanMisplaced(w, p, ids[0]);
    } else {
      OrphansMisplaced(w, p, ids[..n]);
      RejectedStays(f2);
    }
  }

  lemma {:induction false} TurnEndedRejected(cfg: Config, w: Writer, p: Progress, stopReason: string, stopSequence: string)
    requires Fair(cfg) && InStep(w, p) && !Allowed(cfg, w, false, TurnEnded(stopReason, stopSequence))
    ensures AcceptAll(p, EncodeTurnEnded(cfg, w, stopReason, stopSequence).1) == Rejected
  {
    TurnEndStages(cfg, w, p, stopReason, stopSequence);
    ClosedAndStopped(cfg, w, p);
    var (w1, f1) := CloseCurrentBlock(w);
    var f2 := StopFrames(w1.toolBlocks, cfg.order(w1.toolBlocks.Keys));
    var w3 := w1.(blockOpen := false, toolBlocks := map[]);
    var p3 := AcceptAll(AcceptAll(p, f1), f2);
    var (w4, f4) := EncodeOrphans(w3, cfg.order(w3.serverToolBlocks.Keys));
    if w.sentStart {
      OrphansCollide(cfg, w3, p3);
      RejectedStays([MessageDelta(StopReasonOf(cfg, w4, stopReason), stopSequence, w4.webSearchRequests), MessageStop]);
    } else {
      assert Enumerates(cfg.order(w3.serverToolBlocks.Keys), {});
      EndingAccepted(p3, StopReasonOf(cfg, w4, stopReason), stopSequence, w4.webSearchRequests);
    }
  }

  lemma {:induction false} OrphansCollide(cfg: Config, w: Writer, p: Progress)
    requires Fair(cfg) && p.Streaming? && w.sentStart && p.next != w.blockIndex && w.serverToolBlocks != map[]
    ensures AcceptAll(p, EncodeOrphans(w, cfg.order(w.serverToolBlocks.Keys)).1) == Rejected
  {
    var ids := cfg.order(w.serverToolBlocks.Keys);
    assert Enumerates(ids, w.serverToolBlocks.Keys);
    var id :| id in w.serverToolBlocks;
    assert id in ids;
    OrphansMisplaced(w, p, ids);
  }

  // A block the writer has forgotten.
  ghost predicate Forgotten(w: Writer, j: nat) {
    && j < w.blockIndex
    && (forall id | id in w.toolBlocks :: w.toolBlocks[id] != j)
    && (forall id | id in w.serverToolBlocks :: w.serverToolBlocks[id] != j)
  }

  predicate NeverStops(frames: seq<Frame>, j: nat) {
    forall f | f in frames :: f != BlockStop(j)
  }

  // A block nobody stops stays open, unless the trace is rejected.
  lemma {:induction false} StaysOpen(p: Progress, frames: seq<Frame>, j: nat)
    requires p.Rejected? || (p.Streaming? && j in p.open)
    requires NeverStops(frames, j)
    ensures var p' := AcceptAll(p, frames); p'.Rejected? || (p'.Streaming? && j in p'.open)
    decreases |frames|
  {
    if frames != [] {
      assert frames[0] in frames && forall f | f in frames[1..] :: f in frames;
      StaysOpen(Accept(p, frames[0]), frames[1..], j);
    }
  }

  lemma {:induction false} CitationsNeverStop(index: nat, citations: seq<Citation>, j: nat)
    ensures NeverStops(CitationFrames(index, citations), j)
  {
    if citations != [] { CitationsNeverStop(index, citations[..|citations| - 1], j); }
  }

  lemma {:induction false} StopFramesNeverStop(blocks: map<string, nat>, ids: seq<string>, j: nat)
    requires forall id | id in blocks :: blocks[id] != j
    ensures NeverStops(StopFrames(blocks, ids), j)
  {
    if ids != [] { StopFramesNeverStop(blocks, ids[..|ids| - 1], j); }
  }

  lemma {:induction false} CloseForgets(w: Writer, j: nat)
    requires Forgotten(w, j)
    ensures Forgotten(CloseCurrentBlock(w).0, j) && NeverStops(CloseCurrentBlock(w).1, j)
    ensures Forgotten(CloseAndAdvance(w).0, j) && NeverStops(CloseAndAdvance(w).1, j)
  {
    CitationsNeverStop(w.blockIndex, w.citations, j);
  }

  lemma {:induction false} WebResultForgets(w: Writer, id: string, name: string, results: seq<WebResult>, error: string, j: nat)
    requires Forgotten(w, j)
    ensures var (w', out) := EncodeWebResult(w, id, name, results, error); Forgotten(w', j) && NeverStops(out, j)
  {
  }

  lemma {:induction false} OrphanForgets(w: Writer, id: string, j: nat)
    requires Forgotten(w, j)
    ensures var (w', out) := EncodeOrphan(w, id); Forgotten(w', j) && NeverStops(out, j)
  {
    if id in w.serverToolNames && IsWebFetch(w.serverToolNames[id]) {
      WebResultForgets(w, id, "web_fetch", [], "unavailable", j);
    }
  }

  lemma {:induction false} OrphansForget(w: Writer, ids: seq<string>, j: nat)
    requires Forgotten(w, j)
    ensures var (w', out) := EncodeOrphans(w, ids); Forgotten(w', j) && NeverStops(out, j)
  {
    if ids != [] {
      OrphansForget(w, ids[..|ids| - 1], j);
      OrphanForgets(EncodeOrphans(w, ids[..|ids| - 1]).0, ids[|ids| - 1], j);
    }
  }

  lemma {:induction false} TurnEndForgets(cfg: Config, w: Writer, stopReason: string, stopSequence: string, j: nat)
    requires Forgotten(w, j)
    ensures var (w', out) := EncodeTurnEnded(cfg, w, stopReason, stopSequence); Forgotten(w', j) && NeverStops(out, j)
  {
    CloseForgets(w, j);
    var w2 := CloseCurrentBlock(w).0.(blockOpen := false);
    StopFramesNeverStop(w2.toolBlocks, cfg.order(w2.toolBlocks.Keys), j);
    OrphansForget(w2.(toolBlocks := map[]), cfg.order(w2.serverToolBlocks.Keys), j);
  }

  lemma {:induction false} InBlockForgets(w: Writer, t: BlockType, delta: Delta, j: nat)
    requires Forgotten(w, j)
    ensures var (w', out) := EncodeInBlock(w, t, delta); Forgotten(w', j) && NeverStops(out, j)
  {
    CloseForgets(StartFrame(w).0, j);
  }

  lemma {:induction false} ToolStartForgets(cfg: Config, w: Writer, id: string, name: string, args: string, j: nat)
    requires Forgotten(w, j)
    ensures var (w', out) := EncodeToolStart(cfg, w, id, name, args); Forgotten(w', j) && NeverStops(out, j)
  {
    CloseForgets(StartFrame(w).0, j);
  }

  lemma {:induction false} ServerToolStartForgets(w: Writer, id: string, name: string, args: string, j: nat)
    requires Forgotten(w, j)
    ensures var (w', out) := EncodeServerToolStart(w, id, name, args); Forgotten(w', j) && NeverStops(out, j)
  {
    CloseForgets(StartFrame(w).0, j);
  }

  // Once forgotten, a block is never stopped.
  lemma {:induction false} EncodeForgets(cfg: Config, w: Writer, ev: Event, j: nat)
    requires Forgotten(w, j)
    ensures var (w', out) := Encode(cfg, w, ev); Forgotten(w', j) && NeverStops(out, j)
  {
    match ev
    case TextDelta(text) => InBlockForgets(w.(text := w.text + text), TextType, Words(text), j);
    case ThinkingDelta(text) => InBlockForgets(w, ThinkingType, Thought(text), j);
    case ToolCallStarted(id, name, args) => ToolStartForgets(cfg, w, id, name, args, j);
    case ServerToolStarted(id, name, args) => ServerToolStartForgets(w, id, name, args, j);
    case WebSearchResult(id, name, results, error) => WebResultForgets(w, id, name, results, error, j);
    case TurnEnded(stopReason, stopSequence) => TurnEndForgets(cfg, w, stopReason, stopSequence, j);
    case _ =>
  }

  lemma {:induction false} ForgottenNeverDone(cfg: Config, w: Writer, p: Progress, j: nat, events: seq<Event>)
    requires Forgotten(w, j) && (p.Rejected? || (p.Streaming? && j in p.open))
    ensures !AcceptAll(p, Trace(cfg, w, events)).Done?
    decreases |events|
  {
    if events != [] {
      var (w', out) := Encode(cfg, w, events[0]);
      EncodeForgets(cfg, w, events[0], j);
      StaysOpen(p, out, j);
      AcceptAppend(p, out, Trace(cfg, w', events[1..]));
      ForgottenNeverDone(cfg, w', AcceptAll(p, out), j, events[1..]);
    }
  }

  // ---------- one event ----------

  lemma {:induction false} AllowedKeeps(cfg: Config, w: Writer, p: Progress, ev: Event)
    requires Fair(cfg) && InStep(w, p) && Allowed(cfg, w, false, ev)
    ensures var (w', out) := Encode(cfg, w, ev);
      if ev.TurnEnded? then AcceptAll(p, out) == Done && Finished(w') else InStep(w', AcceptAll(p, out))
  {
    match ev
    case TextDelta(text) =>
      SameBlocksInStep(w, w.(text := w.text + text), p);
      InBlockKeeps(w.(text := w.text + text), p, TextType, Words(text));
    case ThinkingDelta(text) => InBlockKeeps(w, p, ThinkingType, Thought(text));
    case SignatureDelta(text) => SignatureKeeps(w, p, text);
    case Heartbeat => HeartbeatKeeps(w, p);
    case ToolCallStarted(id, name, args) => ToolStartKeeps(cfg, w, p, id, name, args);
    case ToolCallDelta(id, args) =>
      var toolId := ResolveClientToolID(cfg, id);
      if args != "" && toolId in w.toolBlocks {
        RemoveTool(Others(w, p), w.toolBlocks, w.serverToolBlocks, w.blockIndex, toolId);
        DeltaKeeps(p, w.toolBlocks[toolId], InputJson(args));
      }
    case ToolCallCompleted(id) =>
      var toolId := ResolveClientToolID(cfg, id);
      if toolId in w.toolBlocks { ToolStopKeeps(w, p, toolId); }
    case ServerToolStarted(id, name, args) => ServerToolStartKeeps(cfg, w, p, id, name, args);
    case WebSearchResult(id, name, results, error) => WebResultKeeps(w, p, id, name, results, error);
    case TurnEnded(stopReason, stopSequence) => TurnEndedKeeps(cfg, w, p, stopReason, stopSequence);
    case Other =>
  }

  lemma {:induction false} DisallowedNeverDone(cfg: Config, w: Writer, p: Progress, events: seq<Event>)
    requires Fair(cfg) && InStep(w, p) && events != [] && !Allowed(cfg, w, false, events[0])
    ensures !AcceptAll(p, Trace(cfg, w, events)).Done?
  {
    var ev := events[0];
    var (w', out) := Encode(cfg, w, ev);
    var rest := Trace(cfg, w', events[1..]);
    AcceptAppend(p, out, rest);
    if ev.ToolCallStarted? || ev.ServerToolStarted? {
      assert out == [];
      assert Forgotten(w', w.blockIndex);
      ForgottenNeverDone(cfg, w', p, w.blockIndex, events[1..]);
    } else {
      if ev.WebSearchResult? {
        WebResultMisplaced(w, p, ev.id, ev.name, ev.results, ev.error);
      } else {
        TurnEndedRejected(cfg, w, p, ev.stopReason, ev.stopSequence);
      }
      RejectedStays(rest);
    }
  }

  // After the turn end only silent events leave the trace complete.
  lemma {:induction false} AfterTheEnd(cfg: Config, w: Writer, events: seq<Event>)
    requires Finished(w)
    ensures AcceptAll(Done, Trace(cfg, w, events)).Done? <==> Clean(cfg, w, true, events)
    decreases |events|
  {
    if events != [] {
      var (w', out) := Encode(cfg, w, events[0]);
      var rest := Trace(cfg, w', events[1..]);
      AcceptAppend(Done, out, rest);
      if Silent(events[0]) {
        assert w' == w && out == [];
        AfterTheEnd(cfg, w, events[1..]);
      } else {
        RejectedStays(out[1..]);
        RejectedStays(rest);
      }
    }
  }

  lemma {:induction false} RunFrom(cfg: Config, w: Writer, p: Progress, events: seq<Event>)
    requires Fair(cfg) && InStep(w, p)
    ensures AcceptAll(p, Trace(cfg, w, events)).Done? <==> Clean(cfg, w, false, events)
    decreases |events|
  {
    if events != [] {
      if Allowed(cfg, w, false, events[0]) {
        var (w', out) := Encode(cfg, w, events[0]);
        AllowedKeeps(cfg, w, p, events[0]);
        AcceptAppend(p, out, Trace(cfg, w', events[1..]));
        if events[0].TurnEnded? {
          AfterTheEnd(cfg, w', events[1..]);
        } else {
          RunFrom(cfg, w', AcceptAll(p, out), events[1..]);
        }
      } else {
        DisallowedNeverDone(cfg, w, p, events);
      }
    }
  }

  // The trace grammar, exactly: for every sequence of events, the frames form a
  // complete message if and only if every event is allowed where it occurs and
  // the turn ends once.
  lemma {:induction false} TraceGrammar(cfg: Config, events: seq<Event>)
    requires Fair(cfg)
    ensures AcceptAll(BEGIN, Trace(cfg, NEW, events)) == Done <==> Clean(cfg, NEW, false, events)
  {
    RunFrom(cfg, NEW, BEGIN, events);
  }

  // The guards are needed; one short run for each. A tool id started again
  // around text: block 1 is never stopped.
  lemma {:induction false} SecondStartBreaks(cfg: Config, id: string, text: string)
    requires Fair(cfg)
    ensures var again := ToolCallStarted(id, "Bash", "");
      var frames := Trace(cfg, NEW, [again, TextDelta(text), again, TurnEnded("", "")]);
      && AcceptAll(BEGIN, frames) != Done
      && frames == [MessageStart, BlockStart(0, ToolUse(ResolveClientToolID(cfg, id), "Bash")),
                    BlockStart(1, TextBlock), BlockDelta(1, Words(text)),
                    BlockStop(0), MessageDelta("tool_use", "", 0), MessageStop]
  {
    var again, words := ToolCallStarted(id, "Bash", ""), TextDelta(text);
    var toolId := ResolveClientToolID(cfg, id);
    var w1 := NEW.(sentStart := true, toolBlocks := NEW.toolBlocks[toolId := 0], blockIndex := 1, sawToolCall := true);
    var w2 := w1.(blockOpen := true, blockType := TextType, text := "" + text);
    var w3 := w2.(blockOpen := false, blockIndex := 2);
    assert Encode(cfg, NEW, again).0 == w1 && Encode(cfg, NEW, again).1 == [MessageStart, BlockStart(0, ToolUse(toolId, "Bash"))];
    FirstWords(cfg, w1, text);
    assert Encode(cfg, w2, again).0 == w3 && Encode(cfg, w2, again).1 == [];
    assert w3.toolBlocks.Keys == {toolId} && w3.serverToolBlocks.Keys == {};
    OrderOfOne(cfg, toolId);
    OrderOfNone(cfg);
    assert StopFrames(w3.toolBlocks, [toolId]) == [] + [BlockStop(0)];
    assert Encode(cfg, w3, TurnEnded("", "")).1 == [BlockStop(0), MessageDelta("tool_use", "", 0), MessageStop];
    TraceOfFour(cfg, NEW, again, words, again, TurnEnded("", ""));
    var events := [again, words, again, TurnEnded("", "")];
    TraceGrammar(cfg, events);
    CleanSecond(cfg, events);
  }

  // a web result while text is open: block 0 starts twice.
  lemma {:induction false} ResultInTextBreaks(cfg: Config, text: string, result: Event)
    requires Fair(cfg) && result.WebSearchResult?
    ensures var frames := Trace(cfg, NEW, [TextDelta(text), result, TurnEnded("", "")]);
      && AcceptAll(BEGIN, frames) != Done
      && |frames| >= 5 && frames[..3] == [MessageStart, BlockStart(0, TextBlock), BlockDelta(0, Words(text))]
      && frames[3].BlockStart? && frames[3].index == 0 && frames[4] == BlockStop(0)
  {
    var words := TextDelta(text);
    var w1 := NEW.(sentStart := true, blockOpen := true, blockType := TextType, text := "" + text);
    var f2 := Encode(cfg, w1, result).1;
    assert Encode(cfg, NEW, words).0 == w1;
    assert Encode(cfg, NEW, words).1 == [MessageStart, BlockStart(0, TextBlock), BlockDelta(0, Words(text))];
    assert |f2| == 2 && f2[0].BlockStart? && f2[0].index == 0 && f2[1] == BlockStop(0);
    TraceOfThree(cfg, NEW, words, result, TurnEnded("", ""));
    TraceGrammar(cfg, [words, result, TurnEnded("", "")]);
    CleanSecond(cfg, [words, result, TurnEnded("", "")]);
  }

  // a server tool left unanswered behind text: its result takes the index of
  // the text block.
  lemma {:induction false} OrphanBehindTextBreaks(cfg: Config, id: string, text: string)
    requires Fair(cfg)
    ensures var start := ServerToolStarted(id, "web_search", "");
      var frames := Trace(cfg, NEW, [start, TextDelta(text), TurnEnded("", "")]);
      && AcceptAll(BEGIN, frames) != Done
      && |frames| == 10
      && frames[..8] == [MessageStart, BlockStart(0, ServerToolUse(id, "web_search")),
                         BlockStart(1, TextBlock), BlockDelta(1, Words(text)), BlockStop(1), BlockStop(0),
                         BlockStart(1, WebSearchToolResult(id, [], true)), BlockStop(1)]
  {
    var events := [ServerToolStarted(id, "web_search", ""), TextDelta(text), TurnEnded("", "")];
    OrphanTrace(cfg, id, text);
    TraceGrammar(cfg, events);
    CleanSecond(cfg, events);
    assert Encode(cfg, NEW, events[0]).0.serverToolBlocks == NEW.serverToolBlocks[id := 0];
  }

  lemma {:induction false} OrphanTrace(cfg: Config, id: string, text: string)
    requires Fair(cfg)
    ensures var frames := Trace(cfg, NEW, [ServerToolStarted(id, "web_search", ""), TextDelta(text), TurnEnded("", "")]);
      && |frames| == 10
      && frames[..8] == [MessageStart, BlockStart(0, ServerToolUse(id, "web_search")),
                         BlockStart(1, TextBlock), BlockDelta(1, Words(text)), BlockStop(1), BlockStop(0),
                         BlockStart(1, WebSearchToolResult(id, [], true)), BlockStop(1)]
  {
    var start, words := ServerToolStarted(id, "web_search", ""), TextDelta(text);
    var w1 := NEW.(sentStart := true, serverToolBlocks := NEW.serverToolBlocks[id := 0],
                  serverToolNames := NEW.serverToolNames[id := "web_search"], blockIndex := 1);
    var w2 := w1.(blockOpen := true, blockType := TextType, text := "" + text);
    assert Encode(cfg, NEW, start).0 == w1 && Encode(cfg, NEW, start).1 == [MessageStart, BlockStart(0, ServerToolUse(id, "web_search"))];
    FirstWords(cfg, w1, text);
    OrphanTurnEnd(cfg, w2, id);
    TraceOfThree(cfg, NEW, start, words, TurnEnded("", ""));
  }

  lemma {:induction false} FirstWords(cfg: Config, w: Writer, text: string)
    requires w.sentStart && !w.blockOpen
    ensures Encode(cfg, w, TextDelta(text)).0 == w.(blockOpen := true, blockType := TextType, text := w.text + text)
    ensures Encode(cfg, w, TextDelta(text)).1 == [BlockStart(w.blockIndex, TextBlock), BlockDelta(w.blockIndex, Words(text))]
  {
  }

  lemma {:induction false} OrphanTurnEnd(cfg: Config, w: Writer, id: string)
    requires Fair(cfg) && w.blockOpen && w.citations == []
    requires w.toolBlocks == map[] && w.serverToolBlocks == map[id := 0] && w.serverToolNames == map[id := "web_search"]
    ensures var frames := Encode(cfg, w, TurnEnded("", "")).1;
      && |frames| == 6
      && frames[..4] == [BlockStop(w.blockIndex), BlockStop(0),
                         BlockStart(w.blockIndex, WebSearchToolResult(id, [], true)), BlockStop(w.blockIndex)]
  {
    OrphanFrames(cfg, w.(blockOpen := false), id);
  }

  lemma {:induction false} OrphanFrames(cfg: Config, w: Writer, id: string)
    requires Fair(cfg) && w.toolBlocks == map[] && w.serverToolBlocks == map[id := 0]
    requires w.serverToolNames == map[id := "web_search"]
    ensures cfg.order(w.toolBlocks.Keys) == []
    ensures EncodeOrphans(w, cfg.order(w.serverToolBlocks.Keys)).1 ==
      [BlockStop(0), BlockStart(w.blockIndex, WebSearchToolResult(id, [], true)), BlockStop(w.blockIndex)]
  {
    assert w.toolBlocks.Keys == {} && w.serverToolBlocks.Keys == {id};
    OrderOfOne(cfg, id);
    OrderOfNone(cfg);
    assert Text.ToLower("web_search")[4] != Text.ToLower("web_fetch")[4];
    assert EncodeOrphans(w, []) == (w, []);
    assert [id][..0] == [] && [id][0] == id;
  }

  // and a turn that ends before anything else: no message_start.
  lemma {:induction false} EmptyTurnBreaks(cfg: Config)
    requires Fair(cfg)
    ensures var frames := Trace(cfg, NEW, [TurnEnded("", "")]);
      && AcceptAll(BEGIN, frames) != Done
      && |frames| == 2 && frames[0].MessageDelta? && frames[1] == MessageStop
  {
    OrderOfNone(cfg);
    assert NEW.toolBlocks.Keys == {} && NEW.serverToolBlocks.Keys == {};
    TraceGrammar(cfg, [TurnEnded("", "")]);
  }

  // A clean run allows its second and third event.
  lemma {:induction false} CleanSecond(cfg: Config, events: seq<Event>)
    requires |events| >= 2 && !events[0].TurnEnded?
    ensures Clean(cfg, NEW, false, events) ==>
      var w1 := Encode(cfg, NEW, events[0]).0;
      && Allowed(cfg, w1, false, events[1])
      && (|events| >= 3 && !events[1].TurnEnded? ==> Allowed(cfg, Encode(cfg, w1, events[1]).0, false, events[2]))
  {
    if Clean(cfg, NEW, false, events) {
      var w1 := Encode(cfg, NEW, events[0]).0;
      assert Clean(cfg, w1, false, events[1..]);
      if |events| >= 3 && !events[1].TurnEnded? {
        assert Clean(cfg, Encode(cfg, w1, events[1]).0, false, events[1..][1..]);
      }
    }
  }

  lemma {:induction false} OrderOfNone(cfg: Config)
    requires Fair(cfg)
    ensures cfg.order({}) == []
  {
    assert Enumerates(cfg.order({}), {});
  }

  lemma {:induction false} OrderOfOne(cfg: Config, id: string)
    requires Fair(cfg)
    ensures cfg.order({id}) == [id]
  {
    assert Enumerates(cfg.order({id}), {id});
    assert cfg.order({id})[0] in cfg.order({id});
  }

  lemma {:induction false} TraceNext(cfg: Config, w: Writer, first: Event, rest: seq<Event>)
    ensures var (w1, out) := Encode(cfg, w, first); Trace(cfg, w, [first] + rest) == out + Trace(cfg, w1, rest)
  {
    assert ([first] + rest)[1..] == rest;
  }

  lemma {:induction false} TraceOfTwo(cfg: Config, w: Writer, a: Event, b: Event)
    ensures var (w1, f1) := Encode(cfg, w, a); Trace(cfg, w, [a, b]) == f1 + Encode(cfg, w1, b).1
  {
    var w1 := Encode(cfg, w, a).0;
    assert [a] + [b] == [a, b] && [b] + [] == [b];
    TraceNext(cfg, w, a, [b]);
    TraceNext(cfg, w1, b, []);
    assert Encode(cfg, w1, b).1 + [] == Encode(cfg, w1, b).1;
  }

  lemma {:induction false} TraceOfThree(cfg: Config, w: Writer, a: Event, b: Event, c: Event)
    ensures var (w1, f1) := Encode(cfg, w, a); var (w2, f2) := Encode(cfg, w1, b);
      Trace(cfg, w, [a, b, c]) == f1 + (f2 + Encode(cfg, w2, c).1)
  {
    assert [a] + [b, c] == [a, b, c];
    TraceNext(cfg, w, a, [b, c]);
    TraceOfTwo(cfg, Encode(cfg, w, a).0, b, c);
  }

  lemma {:induction false} TraceOfFour(cfg: Config, w: Writer, a: Event, b: Event, c: Event, d: Event)
    ensures var (w1, f1) := Encode(cfg, w, a); var (w2, f2) := Encode(cfg, w1, b); var (w3, f3) := Encode(cfg, w2, c);
      Trace(cfg, w, [a, b, c, d]) == f1 + (f2 + (f3 + Encode(cfg, w3, d).1))
  {
    assert [a] + [b, c, d] == [a, b, c, d];
    TraceNext(cfg, w, a, [b, c, d]);
    TraceOfThree(cfg, Encode(cfg, w, a).0, b, c, d);
  }
}
