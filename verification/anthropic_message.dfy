// What the rest of an Anthropic stream carries, said of the events alone:
// signatures, server tools, result blocks, citations and the message_delta.
module AnthropicMessage {
  import opened AnthropicStream
  import opened AnthropicEvents
  import opened AnthropicContent
  import opened AnthropicGrammar

  // ---------- what a client notes ----------

  datatype Note =
    | Sign(text: string)
    | Cite(citation: Citation)
    | Started(id: string, name: string)
    | Result(block: Block)
    | Beat

  function NoteOf(f: Frame): seq<Note> {
    match f
    case BlockDelta(_, Signature(text)) => [Sign(text)]
    case BlockDelta(_, Citing(citation)) => [Cite(citation)]
    case BlockStart(_, ServerToolUse(id, name)) => [Started(id, name)]
    case BlockStart(_, WebSearchToolResult(id, results, failed)) => [Result(WebSearchToolResult(id, results, failed))]
    case BlockStart(_, WebFetchToolResult(id, results, failed)) => [Result(WebFetchToolResult(id, results, failed))]
    case Ping => [Beat]
    case _ => []
  }

  function NotesIn(frames: seq<Frame>): seq<Note> {
    if frames == [] then [] else NotesIn(frames[..|frames| - 1]) + NoteOf(frames[|frames| - 1])
  }

  lemma {:induction false} NotesSnoc(frames: seq<Frame>, f: Frame, notes: seq<Note>)
    requires NoteOf(f) == notes
    ensures NotesIn(frames + [f]) == NotesIn(frames) + notes
  {
    assert (frames + [f])[..|frames|] == frames;
  }

  lemma {:induction false} AssocNotes(a: seq<Note>, b: seq<Note>, c: seq<Note>)
    ensures (a + b) + c == a + (b + c)
  {
  }

  lemma {:induction false} NotesAppendNext(a: seq<Frame>, front: seq<Frame>, last: Frame, notes: seq<Note>)
    requires NotesIn(a + front) == NotesIn(a) + NotesIn(front)
    requires NotesIn((a + front) + [last]) == NotesIn(a + front) + notes && NotesIn(front + [last]) == NotesIn(front) + notes
    ensures NotesIn(a + (front + [last])) == NotesIn(a) + NotesIn(front + [last])
  {
    assert a + (front + [last]) == (a + front) + [last];
    AssocNotes(NotesIn(a), NotesIn(front), notes);
  }

  lemma {:induction false} NotesAppend(a: seq<Frame>, b: seq<Frame>)
    ensures NotesIn(a + b) == NotesIn(a) + NotesIn(b)
  {
    if b == [] {
      assert a + b == a;
    } else {
      var front, last := b[..|b| - 1], b[|b| - 1];
      NotesAppend(a, front);
      NotesSnoc(a + front, last, NoteOf(last));
      NotesSnoc(front, last, NoteOf(last));
      NotesAppendNext(a, front, last, NoteOf(last));
      assert b == front + [last];
    }
  }

  lemma {:induction false} NotesOne(f: Frame)
    ensures NotesIn([f]) == NoteOf(f)
  {
    assert [f][..0] == [];
  }

  // ---------- what the events call for ----------

  // Is the block being written, if any, a text block?
  function InText(events: seq<Event>): bool {
    if events == [] then false
    else
      var front, ev := events[..|events| - 1], events[|events| - 1];
      if ev.TextDelta? then true else if ev.ThinkingDelta? || StartsTool(ev) then false else InText(front)
  }

  // The citations of one search, numbered from 0.
  predicate AreCitations(cites: seq<Citation>, id: string, results: seq<WebResult>) {
    |cites| == |results| && forall i | 0 <= i < |cites| ::
      cites[i].toolCallId == id && cites[i].position == i && cites[i].result == results[i]
  }

  function CitationsOf(id: string, results: seq<WebResult>): (r: seq<Citation>)
    ensures AreCitations(r, id, results)
  {
    if results == [] then []
    else
      var n := |results| - 1;
      CitationsOf(id, results[..n]) + [Citation(id, n, results[n])]
  }

  // The citations that wait for the end of a text block: those of the last web
  // search, until a text block ends.
  function Pending(events: seq<Event>): seq<Citation> {
    if events == [] then []
    else
      var front, ev := events[..|events| - 1], events[|events| - 1];
      if ev.WebSearchResult? && !IsWebFetch(ev.name) then CitationsOf(ev.id, ev.results)
      else if (ev.ThinkingDelta? || StartsTool(ev)) && InText(front) then []
      else Pending(front)
  }

  function CiteAll(citations: seq<Citation>): (r: seq<Note>)
    ensures |r| == |citations| && forall i | 0 <= i < |r| :: r[i] == Cite(citations[i])
  {
    seq(|citations|, i requires 0 <= i < |citations| => Cite(citations[i]))
  }

  // The citations sent when a text block ends after `events`.
  function Due(events: seq<Event>): seq<Note> {
    if InText(events) then CiteAll(Pending(events)) else []
  }

  // The name with which an unanswered server tool was started.
  function ServerName(events: seq<Event>, id: string): string {
    if events == [] then ""
    else
      var front, ev := events[..|events| - 1], events[|events| - 1];
      if ev.ServerToolStarted? && ev.id == id && !Unanswered(front, id) then ev.name else ServerName(front, id)
  }

  function UnansweredIds(events: seq<Event>): set<string> {
    set ev | ev in events && ev.ServerToolStarted? && Unanswered(events, ev.id) :: ev.id
  }

  function ResultNote(name: string, id: string, results: seq<WebResult>, failed: bool): Note {
    Result(if IsWebFetch(name) then WebFetchToolResult(id, results, failed) else WebSearchToolResult(id, results, failed))
  }

  function OrphanNotes(events: seq<Event>, ids: seq<string>): (r: seq<Note>)
    ensures |r| == |ids| && forall i | 0 <= i < |ids| :: r[i] == ResultNote(ServerName(events, ids[i]), ids[i], [], true)
  {
    seq(|ids|, i requires 0 <= i < |ids| => ResultNote(ServerName(events, ids[i]), ids[i], [], true))
  }

  // What one event adds: a ping; a signature outside text; a server tool that is not
  // running; a result; the due citations where a text block ends, unless the
  // event starts a tool that is already running; and at the turn end a failed
  // result for every server tool without one.
  function NotesFor(cfg: Config, front: seq<Event>, ev: Event): seq<Note> {
    match ev
    case SignatureDelta(text) => if text != "" && !InText(front) then [Sign(text)] else []
    case ThinkingDelta(_) => Due(front)
    case ToolCallStarted(id, _, _) => if Running(cfg, front, ResolveClientToolID(cfg, id)) then [] else Due(front)
    case ServerToolStarted(id, name, _) => if Unanswered(front, id) then [] else Due(front) + [Started(id, name)]
    case WebSearchResult(id, name, results, error) => [ResultNote(name, id, results, error != "")]
    case TurnEnded(_, _) => Due(front) + OrphanNotes(front, cfg.order(UnansweredIds(front)))
    case Heartbeat => [Beat]
    case _ => []
  }

  function NotesOf(cfg: Config, events: seq<Event>): seq<Note> {
    if events == [] then []
    else NotesOf(cfg, events[..|events| - 1]) + NotesFor(cfg, events[..|events| - 1], events[|events| - 1])
  }

  function Searches(notes: seq<Note>): nat {
    if notes == [] then 0
    else
      var last := notes[|notes| - 1];
      Searches(notes[..|notes| - 1]) + if last.Result? && last.block.WebSearchToolResult? then 1 else 0
  }

  lemma {:induction false} SearchesAppend(a: seq<Note>, b: seq<Note>)
    ensures Searches(a + b) == Searches(a) + Searches(b)
  {
    if b == [] {
      assert a + b == a;
    } else {
      var n := |b| - 1;
      SearchesAppend(a, b[..n]);
      assert (a + b)[..|a + b| - 1] == a + b[..n];
    }
  }

  lemma {:induction false} SearchesOne(note: Note)
    ensures Searches([note]) == if note.Result? && note.block.WebSearchToolResult? then 1 else 0
  {
    assert [note][..0] == [];
  }

  lemma {:induction false} NoSearches(notes: seq<Note>)
    requires forall note | note in notes :: !note.Result?
    ensures Searches(notes) == 0
  {
    if notes != [] {
      assert notes[|notes| - 1] in notes;
      NoSearches(notes[..|notes| - 1]);
    }
  }

  // ---------- runs, event by event ----------

  function WriterFrom(cfg: Config, w: Writer, events: seq<Event>): Writer {
    if events == [] then w
    else Encode(cfg, WriterFrom(cfg, w, events[..|events| - 1]), events[|events| - 1]).0
  }

  lemma {:induction false} FromNew(cfg: Config, events: seq<Event>)
    ensures WriterFrom(cfg, NEW, events) == WriterAfter(cfg, events)
  {
    if events != [] { FromNew(cfg, events[..|events| - 1]); }
  }

  lemma {:induction false} FromNext(cfg: Config, w: Writer, events: seq<Event>)
    requires events != []
    ensures WriterFrom(cfg, w, events) == WriterFrom(cfg, Encode(cfg, w, events[0]).0, events[1..])
  {
    var n := |events| - 1;
    if n == 0 {
      assert events[..0] == [] && events[1..] == [];
    } else {
      FromNext(cfg, w, events[..n]);
      assert events[..n][1..] == events[1..][..n - 1] && events[..n][0] == events[0];
    }
  }

  lemma {:induction false} TraceNextEvent(cfg: Config, w: Writer, events: seq<Event>, ev: Event)
    ensures Trace(cfg, w, events + [ev]) == Trace(cfg, w, events) + Encode(cfg, WriterFrom(cfg, w, events), ev).1
    decreases |events|
  {
    if events == [] {
      assert events + [ev] == [ev] && [ev][1..] == [];
      assert Encode(cfg, w, ev).1 + [] == [] + Encode(cfg, w, ev).1;
    } else {
      var (w1, out) := Encode(cfg, w, events[0]);
      assert (events + [ev])[1..] == events[1..] + [ev];
      TraceNextEvent(cfg, w1, events[1..], ev);
      FromNext(cfg, w, events);
      var last := Encode(cfg, WriterFrom(cfg, w, events), ev).1;
      assert out + (Trace(cfg, w1, events[1..]) + last) == (out + Trace(cfg, w1, events[1..])) + last;
    }
  }

  // ---------- the writer keeps to it ----------

  ghost predicate NamesHold(w: Writer, events: seq<Event>) {
    && w.serverToolNames.Keys == w.serverToolBlocks.Keys
    && forall id | id in w.serverToolNames :: w.serverToolNames[id] == ServerName(events, id)
  }

  predicate CallsTool(events: seq<Event>) {
    exists ev :: ev in events && ev.ToolCallStarted?
  }

  // The fields that the events decide, but for what Tracks says.
  ghost predicate Fields(cfg: Config, w: Writer, events: seq<Event>) {
    && (w.blockOpen ==> w.blockType != NoType)
    && (InText(events) <==> TextOpen(w))
    && w.citations == Pending(events)
    && NamesHold(w, events)
    && w.text == Spoken(events)
    && (w.sawToolCall <==> CallsTool(events))
    && w.webSearchRequests == Searches(NotesOf(cfg, events))
  }

  predicate TextOpen(w: Writer) {
    w.blockOpen && w.blockType == TextType
  }

  ghost predicate Holds(cfg: Config, w: Writer, events: seq<Event>) {
    Tracks(cfg, events, w) && Fields(cfg, w, events)
  }

  // ---------- what one event does to the writer ----------

  function DueFrom(w: Writer): seq<Note> {
    if w.blockOpen && w.blockType == TextType then CiteAll(w.citations) else []
  }

  function CitationsLeft(w: Writer): seq<Citation> {
    if w.blockOpen && w.blockType == TextType then [] else w.citations
  }

  lemma {:induction false} CiteAllNext(front: seq<Citation>, last: Citation)
    ensures CiteAll(front + [last]) == CiteAll(front) + [Cite(last)]
  {
  }

  lemma {:induction false} CitationNotesNext(index: nat, front: seq<Citation>, last: Citation)
    ensures NotesIn(CitationFrames(index, front + [last])) == NotesIn(CitationFrames(index, front)) + [Cite(last)]
  {
    assert (front + [last])[..|front|] == front;
    NotesSnoc(CitationFrames(index, front), BlockDelta(index, Citing(last)), [Cite(last)]);
  }

  lemma {:induction false} CitationNotes(index: nat, citations: seq<Citation>)
    ensures NotesIn(CitationFrames(index, citations)) == CiteAll(citations)
  {
    if citations != [] {
      var front, last := citations[..|citations| - 1], citations[|citations| - 1];
      CitationNotes(index, front);
      assert citations == front + [last];
      CitationNotesNext(index, front, last);
      CiteAllNext(front, last);
    }
  }

  lemma {:induction false} CloseFields(w: Writer)
    ensures CloseCurrentBlock(w).0 == w.(citations := CitationsLeft(w))
  {
  }

  lemma {:induction false} CloseNotes(w: Writer)
    ensures NotesIn(CloseCurrentBlock(w).1) == DueFrom(w)
  {
    if w.blockOpen && w.blockType == TextType && w.citations != [] {
      CitationNotes(w.blockIndex, w.citations);
      NotesSnoc(CitationFrames(w.blockIndex, w.citations), BlockStop(w.blockIndex), []);
    } else if w.blockOpen {
      NotesSnoc([], BlockStop(w.blockIndex), []);
      assert CloseCurrentBlock(w).1 == [] + [BlockStop(w.blockIndex)];
    }
  }

  lemma {:induction false} CloseFx(w: Writer)
    ensures CloseCurrentBlock(w).0 == w.(citations := CitationsLeft(w))
    ensures NotesIn(CloseCurrentBlock(w).1) == DueFrom(w)
  {
    CloseFields(w);
    CloseNotes(w);
  }

  lemma {:induction false} AdvanceFx(w: Writer)
    ensures var (w', out) := CloseAndAdvance(w);
      w' == w.(blockOpen := false, blockIndex := w'.blockIndex, citations := CitationsLeft(w)) && NotesIn(out) == DueFrom(w)
  {
    CloseFx(w);
  }

  // Frames that a client notes nothing of.
  predicate Plain(frames: seq<Frame>) {
    forall f | f in frames :: NoteOf(f) == []
  }

  lemma {:induction false} PlainNotes(frames: seq<Frame>)
    requires Plain(frames)
    ensures NotesIn(frames) == []
  {
    if frames != [] {
      assert frames[|frames| - 1] in frames;
      PlainNotes(frames[..|frames| - 1]);
    }
  }

  // Plain frames around others change nothing.
  lemma {:induction false} PlainBefore(a: seq<Frame>, b: seq<Frame>)
    requires Plain(a)
    ensures NotesIn(a + b) == NotesIn(b)
  {
    NotesAppend(a, b);
    PlainNotes(a);
  }

  lemma {:induction false} PlainAfter(a: seq<Frame>, b: seq<Frame>)
    requires Plain(b)
    ensures NotesIn(a + b) == NotesIn(a)
  {
    NotesAppend(a, b);
    PlainNotes(b);
  }

  lemma {:induction false} StartIsPlain(w: Writer)
    ensures Plain(StartFrame(w).1) && StartFrame(w).0 == w.(sentStart := true)
  {
  }

  lemma {:induction false} OpenIsPlain(w: Writer, t: BlockType)
    ensures Plain(OpenBlock(w, t).1)
  {
  }

  // Three groups of frames, of which only the middle one is noted.
  lemma {:induction false} PlainAround(a: seq<Frame>, b: seq<Frame>, c: seq<Frame>)
    requires Plain(a) && Plain(c)
    ensures NotesIn(a + b + c) == NotesIn(b)
  {
    PlainBefore(a, b);
    PlainAfter(a + b, c);
  }

  lemma {:induction false} InBlockFx(w: Writer, t: BlockType, delta: Delta)
    requires t != NoType && (w.blockOpen ==> w.blockType != NoType) && NoteOf(BlockDelta(0, delta)) == []
    ensures var (w', out) := EncodeInBlock(w, t, delta);
      && w' == w.(sentStart := true, blockOpen := true, blockIndex := w'.blockIndex, blockType := t,
                  citations := if t == TextType then w.citations else CitationsLeft(w))
      && NotesIn(out) == if t == TextType then [] else DueFrom(w)
  {
    var (w1, f1) := StartFrame(w);
    StartIsPlain(w);
    AdvanceFx(w1);
    var (w2, f2) := if w1.blockType == t then (w1, []) else CloseAndAdvance(w1);
    var (w3, f3) := OpenBlock(w2, t);
    OpenIsPlain(w2, t);
    InBlockNotes(f1, f2, f3, w3.blockIndex, delta);
  }

  lemma {:induction false} InBlockNotes(f1: seq<Frame>, f2: seq<Frame>, f3: seq<Frame>, index: nat, delta: Delta)
    requires Plain(f1) && Plain(f3) && NoteOf(BlockDelta(0, delta)) == []
    ensures NotesIn(f1 + f2 + f3 + [BlockDelta(index, delta)]) == NotesIn(f2)
  {
    var last := [BlockDelta(index, delta)];
    assert NoteOf(last[0]) == [];
    assert f1 + f2 + f3 + last == f1 + f2 + (f3 + last);
    PlainAround(f1, f2, f3 + last);
  }

  lemma {:induction false} SignatureFields(w: Writer, text: string)
    requires w.blockOpen ==> w.blockType != NoType && w.sentStart
    ensures var w' := EncodeSignature(w, text).0;
      && w' == w.(sentStart := w'.sentStart, blockOpen := w'.blockOpen, blockType := w'.blockType)
      && (TextOpen(w') <==> TextOpen(w)) && (w'.blockOpen ==> w'.blockType != NoType)
  {
  }

  lemma {:induction false} SignatureNotes(w: Writer, text: string)
    requires w.blockOpen ==> w.blockType != NoType && w.sentStart
    ensures NotesIn(EncodeSignature(w, text).1) == if text != "" && !TextOpen(w) then [Sign(text)] else []
  {
    if text != "" && !TextOpen(w) {
      var (w1, f1) := StartFrame(w);
      var (w2, f2) := OpenBlock(w1, ThinkingType);
      StartIsPlain(w);
      OpenIsPlain(w1, ThinkingType);
      NotesSnoc(f1 + f2, BlockDelta(w2.blockIndex, Signature(text)), [Sign(text)]);
      PlainNotes(f1 + f2);
    }
  }

  lemma {:induction false} ToolStartFx(cfg: Config, w: Writer, id: string, name: string, args: string)
    ensures var (w', out) := EncodeToolStart(cfg, w, id, name, args);
      var known := ResolveClientToolID(cfg, id) in w.toolBlocks;
      && w' == w.(sentStart := true, blockOpen := false, blockIndex := w'.blockIndex, citations := CitationsLeft(w),
                  toolBlocks := w'.toolBlocks, sawToolCall := w.sawToolCall || !known)
      && NotesIn(out) == if known then [] else DueFrom(w)
  {
    var (w1, f1) := StartFrame(w);
    AdvanceFx(w1);
    var (w2, f2) := CloseAndAdvance(w1);
    var toolId := ResolveClientToolID(cfg, id);
    var more := [BlockStart(w2.blockIndex, ToolUse(toolId, name))] + ArgsFrames(w2.blockIndex, args);
    assert Plain(f1) && Plain(more);
    assert f1 + f2 + [BlockStart(w2.blockIndex, ToolUse(toolId, name))] + ArgsFrames(w2.blockIndex, args) == (f1 + f2) + more;
    PlainBefore(f1, f2);
    PlainAfter(f1 + f2, more);
  }

  lemma {:induction false} ServerStartFields(w: Writer, id: string, name: string, args: string)
    ensures var w' := EncodeServerToolStart(w, id, name, args).0;
      var known := id in w.serverToolBlocks;
      && w' == w.(sentStart := true, blockOpen := false, blockIndex := w'.blockIndex, citations := CitationsLeft(w),
                  serverToolBlocks := w'.serverToolBlocks,
                  serverToolNames := if known then w.serverToolNames else w.serverToolNames[id := name])
      && w'.serverToolBlocks.Keys == w.serverToolBlocks.Keys + {id}
  {
    var w1 := StartFrame(w).0;
    AdvanceFx(w1);
    assert w1 == w.(sentStart := true);
  }

  lemma {:induction false} ServerStartNotes(w: Writer, id: string, name: string, args: string)
    ensures NotesIn(EncodeServerToolStart(w, id, name, args).1) ==
      if id in w.serverToolBlocks then [] else DueFrom(w) + [Started(id, name)]
  {
    var (w1, f1) := StartFrame(w);
    StartIsPlain(w);
    AdvanceFx(w1);
    var (w2, f2) := CloseAndAdvance(w1);
    ServerNotes(f1, f2, w2.blockIndex, id, name, args);
  }

  lemma {:induction false} ArgsArePlain(index: nat, args: string)
    ensures Plain(ArgsFrames(index, args))
  {
    if args != "" { assert NoteOf(BlockDelta(index, InputJson(args))) == []; }
  }

  lemma {:induction false} ServerNotes(f1: seq<Frame>, f2: seq<Frame>, index: nat, id: string, name: string, args: string)
    requires Plain(f1)
    ensures NotesIn(f1 + f2 + [BlockStart(index, ServerToolUse(id, name))] + ArgsFrames(index, args)) == NotesIn(f2) + [Started(id, name)]
  {
    var start := BlockStart(index, ServerToolUse(id, name));
    ArgsArePlain(index, args);
    MiddleNote(f1, f2, start, NoteOf(start), ArgsFrames(index, args));
  }

  lemma {:induction false} MiddleNote(a: seq<Frame>, b: seq<Frame>, f: Frame, notes: seq<Note>, c: seq<Frame>)
    requires Plain(a) && Plain(c) && NoteOf(f) == notes
    ensures NotesIn(a + b + [f] + c) == NotesIn(b) + notes
  {
    PlainAfter(a + b + [f], c);
    NotesSnoc(a + b, f, notes);
    PlainBefore(a, b);
  }

  lemma {:induction false} SearchCites(id: string, results: seq<WebResult>)
    ensures Citations(id, results) == CitationsOf(id, results)
  {
    assert forall i | 0 <= i < |results| :: Citations(id, results)[i] == CitationsOf(id, results)[i];
  }

  lemma {:induction false} StopServerFx(w: Writer, id: string)
    requires w.serverToolNames.Keys == w.serverToolBlocks.Keys
    ensures var (w', out) := StopServerTool(w, id);
      && w' == w.(serverToolBlocks := w.serverToolBlocks - {id}, serverToolNames := w.serverToolNames - {id}) && Plain(out)
  {
    if id !in w.serverToolBlocks {
      assert w.serverToolBlocks - {id} == w.serverToolBlocks && w.serverToolNames - {id} == w.serverToolNames;
    }
  }

  lemma {:induction false} ResultBlockFx(w: Writer, before: seq<Frame>, block: Block)
    requires Plain(before) && (block.WebSearchToolResult? || block.WebFetchToolResult?)
    ensures var (w', out) := ResultBlock(w, block); w' == w.(blockIndex := w.blockIndex + 1) && NotesIn(before + out) == [Result(block)]
  {
    var start, stop := [BlockStart(w.blockIndex, block)], [BlockStop(w.blockIndex)];
    assert ResultBlock(w, block).1 == start + stop;
    PlainBefore(before, start + stop);
    PlainAfter(start, stop);
    NotesOne(start[0]);
  }

  // A result counts as one web search unless it is a fetch.
  function AfterResult(w: Writer, id: string, name: string, results: seq<WebResult>): Writer {
    w.(sentStart := true, serverToolBlocks := w.serverToolBlocks - {id}, serverToolNames := w.serverToolNames - {id},
       blockIndex := w.blockIndex + 1, citations := if IsWebFetch(name) then w.citations else CitationsOf(id, results),
       webSearchRequests := w.webSearchRequests + if IsWebFetch(name) then 0 else 1)
  }

  lemma {:induction false} BeforeResult(w: Writer, id: string)
    requires w.serverToolNames.Keys == w.serverToolBlocks.Keys
    ensures var (w1, f1) := StartFrame(w);
      var (w2, f2) := StopServerTool(w1, id);
      && w2 == w.(sentStart := true, serverToolBlocks := w.serverToolBlocks - {id}, serverToolNames := w.serverToolNames - {id})
      && Plain(f1 + f2)
  {
    StartIsPlain(w);
    StopServerFx(StartFrame(w).0, id);
  }

  lemma {:induction false} FetchFx(w: Writer, id: string, name: string, results: seq<WebResult>, error: string)
    requires w.serverToolNames.Keys == w.serverToolBlocks.Keys && IsWebFetch(name)
    ensures var (w', out) := EncodeWebResult(w, id, name, results, error);
      w' == AfterResult(w, id, name, results) && NotesIn(out) == [Result(WebFetchToolResult(id, results, error != ""))]
  {
    var (w1, f1) := StartFrame(w);
    var (w2, f2) := StopServerTool(w1, id);
    BeforeResult(w, id);
    ResultBlockFx(w2, f1 + f2, WebFetchToolResult(id, results, error != ""));
  }

  lemma {:induction false} SearchFx(w: Writer, id: string, name: string, results: seq<WebResult>, error: string)
    requires w.serverToolNames.Keys == w.serverToolBlocks.Keys && !IsWebFetch(name)
    ensures var (w', out) := EncodeWebResult(w, id, name, results, error);
      w' == AfterResult(w, id, name, results) && NotesIn(out) == [Result(WebSearchToolResult(id, results, error != ""))]
  {
    var (w1, f1) := StartFrame(w);
    var (w2, f2) := StopServerTool(w1, id);
    BeforeResult(w, id);
    SearchCites(id, results);
    ResultBlockFx(w2.(citations := Citations(id, results)), f1 + f2, WebSearchToolResult(id, results, error != ""));
  }

  lemma {:induction false} ResultFx(w: Writer, id: string, name: string, results: seq<WebResult>, error: string)
    requires w.serverToolNames.Keys == w.serverToolBlocks.Keys
    ensures var (w', out) := EncodeWebResult(w, id, name, results, error);
      w' == AfterResult(w, id, name, results) && NotesIn(out) == [ResultNote(name, id, results, error != "")]
  {
    if IsWebFetch(name) { FetchFx(w, id, name, results, error); } else { SearchFx(w, id, name, results, error); }
  }

  // ---------- one event before the turn end ----------

  lemma {:induction false} SpokenNext(events: seq<Event>, ev: Event)
    ensures Spoken(events + [ev]) == Spoken(events) + SpokenIn(ev)
    decreases |events|
  {
    if events == [] {
      assert events + [ev] == [ev] && [ev][1..] == [];
    } else {
      SpokenNext(events[1..], ev);
      assert (events + [ev])[1..] == events[1..] + [ev] && (events + [ev])[0] == events[0];
      Assoc(SpokenIn(events[0]), Spoken(events[1..]), SpokenIn(ev));
    }
  }

  // What the events say after one more.
  lemma {:induction false} ToldNext(cfg: Config, front: seq<Event>, ev: Event)
    ensures var events := front + [ev];
      && (InText(events) <==> ev.TextDelta? || (InText(front) && !ev.ThinkingDelta? && !StartsTool(ev)))
      && Pending(events) == (if ev.WebSearchResult? && !IsWebFetch(ev.name) then CitationsOf(ev.id, ev.results)
                             else if (ev.ThinkingDelta? || StartsTool(ev)) && InText(front) then [] else Pending(front))
      && NotesOf(cfg, events) == NotesOf(cfg, front) + NotesFor(cfg, front, ev)
      && Spoken(events) == Spoken(front) + SpokenIn(ev)
      && (CallsTool(events) <==> ev.ToolCallStarted? || CallsTool(front))
  {
    var events := front + [ev];
    assert events[..|events| - 1] == front;
    SpokenNext(front, ev);
    assert forall e :: e in events <==> e in front || e == ev;
  }

  lemma {:induction false} NameNext(front: seq<Event>, ev: Event, id: string)
    ensures ServerName(front + [ev], id) ==
      if ev.ServerToolStarted? && ev.id == id && !Unanswered(front, id) then ev.name else ServerName(front, id)
  {
    assert (front + [ev])[..|front|] == front;
  }

  // What the writer must do at an event.
  ghost predicate Moves(w: Writer, w': Writer, ev: Event, searches: nat) {
    && w'.text == w.text + SpokenIn(ev)
    && (w'.blockOpen ==> w'.blockType != NoType)
    && (TextOpen(w') <==> ev.TextDelta? || (TextOpen(w) && !ev.ThinkingDelta? && !StartsTool(ev)))
    && w'.citations == (if ev.WebSearchResult? && !IsWebFetch(ev.name) then CitationsOf(ev.id, ev.results)
                        else if (ev.ThinkingDelta? || StartsTool(ev)) && TextOpen(w) then [] else w.citations)
    && w'.sawToolCall == (w.sawToolCall || ev.ToolCallStarted?)
    && w'.webSearchRequests == w.webSearchRequests + searches
  }

  lemma {:induction false} FieldsNext(cfg: Config, w: Writer, w': Writer, front: seq<Event>, ev: Event, searches: nat)
    requires Fields(cfg, w, front) && Moves(w, w', ev, searches) && NamesHold(w', front + [ev])
    requires Searches(NotesFor(cfg, front, ev)) == searches
    ensures Fields(cfg, w', front + [ev])
  {
    ToldNext(cfg, front, ev);
    SearchesAppend(NotesOf(cfg, front), NotesFor(cfg, front, ev));
  }

  // Only results count as searches.
  lemma {:induction false} SearchesFor(cfg: Config, front: seq<Event>, ev: Event)
    requires !ev.TurnEnded?
    ensures Searches(NotesFor(cfg, front, ev)) == if ev.WebSearchResult? && !IsWebFetch(ev.name) then 1 else 0
  {
    if ev.WebSearchResult? {
      SearchesOne(ResultNote(ev.name, ev.id, ev.results, ev.error != ""));
    } else {
      NoResults(cfg, front, ev);
      NoSearches(NotesFor(cfg, front, ev));
    }
  }

  lemma {:induction false} NoResults(cfg: Config, front: seq<Event>, ev: Event)
    requires !ev.TurnEnded? && !ev.WebSearchResult?
    ensures forall note | note in NotesFor(cfg, front, ev) :: !note.Result?
  {
    assert forall note | note in Due(front) :: note.Cite?;
  }

  lemma {:induction false} DueMatches(cfg: Config, w: Writer, events: seq<Event>)
    requires Fields(cfg, w, events)
    ensures DueFrom(w) == Due(events) && Searches(Due(events)) == 0
  {
    NoSearches(Due(events));
  }

  // What is to be shown of every event.
  ghost predicate Kept(cfg: Config, step: Out, front: seq<Event>, ev: Event) {
    Fields(cfg, step.0, front + [ev]) && NotesIn(step.1) == NotesFor(cfg, front, ev)
  }

  lemma {:induction false} SameNames(w: Writer, w': Writer, front: seq<Event>, ev: Event)
    requires NamesHold(w, front) && !ev.ServerToolStarted?
    requires w'.serverToolNames == w.serverToolNames && w'.serverToolBlocks == w.serverToolBlocks
    ensures NamesHold(w', front + [ev])
  {
    forall id | id in w'.serverToolNames ensures w'.serverToolNames[id] == ServerName(front + [ev], id) { NameNext(front, ev, id); }
  }

  lemma {:induction false} TextHolds(cfg: Config, w: Writer, front: seq<Event>, text: string)
    requires Fields(cfg, w, front)
    ensures Kept(cfg, Encode(cfg, w, TextDelta(text)), front, TextDelta(text))
  {
    var ev := TextDelta(text);
    var w' := Encode(cfg, w, ev).0;
    InBlockFx(w.(text := w.text + text), TextType, Words(text));
    SameNames(w, w', front, ev);
    SearchesFor(cfg, front, ev);
    FieldsNext(cfg, w, w', front, ev, 0);
  }

  lemma {:induction false} ThinkingHolds(cfg: Config, w: Writer, front: seq<Event>, text: string)
    requires Fields(cfg, w, front)
    ensures Kept(cfg, Encode(cfg, w, ThinkingDelta(text)), front, ThinkingDelta(text))
  {
    var ev := ThinkingDelta(text);
    var w' := Encode(cfg, w, ev).0;
    InBlockFx(w, ThinkingType, Thought(text));
    DueMatches(cfg, w, front);
    SameNames(w, w', front, ev);
    assert w.text + "" == w.text;
    SearchesFor(cfg, front, ev);
    FieldsNext(cfg, w, w', front, ev, 0);
  }

  lemma {:induction false} SignatureHolds(cfg: Config, w: Writer, front: seq<Event>, text: string)
    requires Holds(cfg, w, front)
    ensures Kept(cfg, Encode(cfg, w, SignatureDelta(text)), front, SignatureDelta(text))
  {
    var ev := SignatureDelta(text);
    var w' := Encode(cfg, w, ev).0;
    SignatureFields(w, text);
    SignatureNotes(w, text);
    SameNames(w, w', front, ev);
    assert w.text + "" == w.text;
    SearchesFor(cfg, front, ev);
    FieldsNext(cfg, w, w', front, ev, 0);
  }

  lemma {:induction false} RunningWasStarted(cfg: Config, events: seq<Event>, toolId: string)
    requires Running(cfg, events, toolId)
    ensures CallsTool(events)
  {
    var i :| 0 <= i < |events| && Starts(cfg, events[i], toolId);
    assert events[i] in events && events[i].ToolCallStarted?;
  }

  lemma {:induction false} ToolStartNext(cfg: Config, w: Writer, w': Writer, front: seq<Event>, id: string, name: string, args: string)
    requires Holds(cfg, w, front)
    requires w' == w.(sentStart := true, blockOpen := false, blockIndex := w'.blockIndex, citations := CitationsLeft(w),
                      toolBlocks := w'.toolBlocks, sawToolCall := w.sawToolCall || ResolveClientToolID(cfg, id) !in w.toolBlocks)
    ensures Fields(cfg, w', front + [ToolCallStarted(id, name, args)])
  {
    var ev := ToolCallStarted(id, name, args);
    DueMatches(cfg, w, front);
    SameNames(w, w', front, ev);
    if Running(cfg, front, ResolveClientToolID(cfg, id)) { RunningWasStarted(cfg, front, ResolveClientToolID(cfg, id)); }
    assert w.text + "" == w.text;
    SearchesFor(cfg, front, ev);
    FieldsNext(cfg, w, w', front, ev, 0);
  }

  lemma {:induction false} ToolStartNotes(cfg: Config, w: Writer, front: seq<Event>, id: string, name: string, args: string)
    requires Holds(cfg, w, front)
    ensures NotesFor(cfg, front, ToolCallStarted(id, name, args)) ==
      if ResolveClientToolID(cfg, id) in w.toolBlocks then [] else DueFrom(w)
  {
    DueMatches(cfg, w, front);
  }

  lemma {:induction false} ToolStartHolds(cfg: Config, w: Writer, front: seq<Event>, id: string, name: string, args: string)
    requires Holds(cfg, w, front)
    ensures Kept(cfg, EncodeToolStart(cfg, w, id, name, args), front, ToolCallStarted(id, name, args))
  {
    var step := EncodeToolStart(cfg, w, id, name, args);
    ToolStartFx(cfg, w, id, name, args);
    ToolStartNotes(cfg, w, front, id, name, args);
    ToolStartNext(cfg, w, step.0, front, id, name, args);
  }

  lemma {:induction false} ServerNamesNext(w: Writer, w': Writer, front: seq<Event>, id: string, name: string, args: string)
    requires NamesHold(w, front) && (id in w.serverToolBlocks <==> Unanswered(front, id))
    requires w'.serverToolNames == if id in w.serverToolBlocks then w.serverToolNames else w.serverToolNames[id := name]
    requires w'.serverToolBlocks.Keys == w.serverToolBlocks.Keys + {id}
    ensures NamesHold(w', front + [ServerToolStarted(id, name, args)])
  {
    var ev := ServerToolStarted(id, name, args);
    forall x | x in w'.serverToolNames ensures w'.serverToolNames[x] == ServerName(front + [ev], x) { NameNext(front, ev, x); }
  }

  lemma {:induction false} ServerStartNext(cfg: Config, w: Writer, w': Writer, front: seq<Event>, id: string, name: string, args: string)
    requires Holds(cfg, w, front) && NamesHold(w', front + [ServerToolStarted(id, name, args)])
    requires w' == w.(sentStart := true, blockOpen := false, blockIndex := w'.blockIndex, citations := CitationsLeft(w),
                      serverToolBlocks := w'.serverToolBlocks, serverToolNames := w'.serverToolNames)
    ensures Fields(cfg, w', front + [ServerToolStarted(id, name, args)])
  {
    var ev := ServerToolStarted(id, name, args);
    assert w.text + "" == w.text;
    SearchesFor(cfg, front, ev);
    FieldsNext(cfg, w, w', front, ev, 0);
  }

  lemma {:induction false} ServerStartNotesFor(cfg: Config, w: Writer, front: seq<Event>, id: string, name: string, args: string)
    requires Holds(cfg, w, front)
    ensures NotesFor(cfg, front, ServerToolStarted(id, name, args)) ==
      if id in w.serverToolBlocks then [] else DueFrom(w) + [Started(id, name)]
  {
    DueMatches(cfg, w, front);
  }

  lemma {:induction false} ServerStartHolds(cfg: Config, w: Writer, front: seq<Event>, id: string, name: string, args: string)
    requires Holds(cfg, w, front)
    ensures Kept(cfg, EncodeServerToolStart(w, id, name, args), front, ServerToolStarted(id, name, args))
  {
    var step := EncodeServerToolStart(w, id, name, args);
    ServerStartFields(w, id, name, args);
    ServerStartNotes(w, id, name, args);
    ServerStartNotesFor(cfg, w, front, id, name, args);
    ServerNamesNext(w, step.0, front, id, name, args);
    ServerStartNext(cfg, w, step.0, front, id, name, args);
  }

  lemma {:induction false} ResultNext(cfg: Config, w: Writer, front: seq<Event>, id: string, name: string, results: seq<WebResult>, error: string)
    requires Fields(cfg, w, front)
    ensures Fields(cfg, AfterResult(w, id, name, results), front + [WebSearchResult(id, name, results, error)])
  {
    var ev := WebSearchResult(id, name, results, error);
    var w' := AfterResult(w, id, name, results);
    forall x | x in w'.serverToolNames ensures w'.serverToolNames[x] == ServerName(front + [ev], x) { NameNext(front, ev, x); }
    assert w.text + "" == w.text;
    SearchesFor(cfg, front, ev);
    FieldsNext(cfg, w, w', front, ev, if IsWebFetch(name) then 0 else 1);
  }

  lemma {:induction false} ResultNotes(cfg: Config, front: seq<Event>, id: string, name: string, results: seq<WebResult>, error: string)
    ensures NotesFor(cfg, front, WebSearchResult(id, name, results, error)) == [ResultNote(name, id, results, error != "")]
  {
  }

  lemma {:induction false} ResultHolds(cfg: Config, w: Writer, front: seq<Event>, id: string, name: string, results: seq<WebResult>, error: string)
    requires Fields(cfg, w, front)
    ensures Kept(cfg, EncodeWebResult(w, id, name, results, error), front, WebSearchResult(id, name, results, error))
  {
    ResultFx(w, id, name, results, error);
    ResultNext(cfg, w, front, id, name, results, error);
    ResultNotes(cfg, front, id, name, results, error);
  }

  lemma {:induction false} BeatHolds(cfg: Config, w: Writer, front: seq<Event>)
    requires Fields(cfg, w, front)
    ensures Kept(cfg, Encode(cfg, w, Heartbeat), front, Heartbeat)
  {
    var (w', out) := StartFrame(w);
    StartIsPlain(w);
    PlainBefore(out, [Ping]);
    NotesOne(Ping);
    SameNames(w, w', front, Heartbeat);
    assert w.text + "" == w.text;
    SearchesFor(cfg, front, Heartbeat);
    FieldsNext(cfg, w, w', front, Heartbeat, 0);
  }

  // Argument text and completions.
  predicate IsQuiet(ev: Event) {
    ev.ToolCallDelta? || ev.ToolCallCompleted? || ev.Other?
  }

  lemma {:induction false} QuietFx(cfg: Config, w: Writer, ev: Event)
    requires IsQuiet(ev)
    ensures var (w', out) := Encode(cfg, w, ev); w' == w.(toolBlocks := w'.toolBlocks) && Plain(out)
  {
  }

  lemma {:induction false} QuietHolds(cfg: Config, w: Writer, front: seq<Event>, ev: Event)
    requires Fields(cfg, w, front) && IsQuiet(ev)
    ensures Kept(cfg, Encode(cfg, w, ev), front, ev)
  {
    var (w', out) := Encode(cfg, w, ev);
    QuietFx(cfg, w, ev);
    PlainNotes(out);
    SameNames(w, w', front, ev);
    assert w.text + "" == w.text;
    SearchesFor(cfg, front, ev);
    FieldsNext(cfg, w, w', front, ev, 0);
  }

  lemma {:induction false} EventHolds(cfg: Config, w: Writer, front: seq<Event>, ev: Event)
    requires Holds(cfg, w, front) && !ev.TurnEnded?
    ensures Kept(cfg, Encode(cfg, w, ev), front, ev)
  {
    match ev
    case TextDelta(text) => TextHolds(cfg, w, front, text);
    case ThinkingDelta(text) => ThinkingHolds(cfg, w, front, text);
    case SignatureDelta(text) => SignatureHolds(cfg, w, front, text);
    case ToolCallStarted(id, name, args) => ToolStartHolds(cfg, w, front, id, name, args);
    case ServerToolStarted(id, name, args) => ServerStartHolds(cfg, w, front, id, name, args);
    case WebSearchResult(id, name, results, error) => ResultHolds(cfg, w, front, id, name, results, error);
    case Heartbeat => BeatHolds(cfg, w, front);
    case _ => QuietHolds(cfg, w, front, ev);
  }

  lemma {:induction false} RunHolds(cfg: Config, events: seq<Event>)
    requires forall ev | ev in events :: !ev.TurnEnded?
    ensures Holds(cfg, WriterFrom(cfg, NEW, events), events)
    ensures NotesIn(Trace(cfg, NEW, events)) == NotesOf(cfg, events)
  {
    if events == [] {
      TracksAll(cfg, []);
    } else {
      var n := |events| - 1;
      var front, ev := events[..n], events[n];
      assert events == front + [ev];
      RunHolds(cfg, front);
      EventHolds(cfg, WriterFrom(cfg, NEW, front), front, ev);
      TracksNext(cfg, front, WriterFrom(cfg, NEW, front), ev);
      TraceNextEvent(cfg, NEW, front, ev);
      NotesAppend(Trace(cfg, NEW, front), Encode(cfg, WriterFrom(cfg, NEW, front), ev).1);
    }
  }

  // ---------- the turn end ----------

  // A failed result for each server tool without one.
  function Failures(names: map<string, string>, ids: seq<string>): (r: seq<Note>)
    requires forall id | id in ids :: id in names
    ensures |r| == |ids| && forall i | 0 <= i < |ids| :: r[i] == ResultNote(names[ids[i]], ids[i], [], true)
  {
    seq(|ids|, i requires 0 <= i < |ids| => assert ids[i] in ids; ResultNote(names[ids[i]], ids[i], [], true))
  }

  function AfterOrphan(w: Writer, id: string): Writer
    requires id in w.serverToolNames
  {
    w.(serverToolBlocks := w.serverToolBlocks - {id}, serverToolNames := w.serverToolNames - {id},
       blockIndex := w.blockIndex + 1,
       webSearchRequests := w.webSearchRequests + if IsWebFetch(w.serverToolNames[id]) then 0 else 1)
  }

  lemma {:induction false} FetchName()
    ensures IsWebFetch("web_fetch")
  {
  }

  lemma {:induction false} OrphanFx(w: Writer, id: string)
    requires w.serverToolNames.Keys == w.serverToolBlocks.Keys && id in w.serverToolNames && w.sentStart
    ensures var (w', out) := EncodeOrphan(w, id);
      w' == AfterOrphan(w, id) && NotesIn(out) == [ResultNote(w.serverToolNames[id], id, [], true)]
  {
    FetchName();
    if IsWebFetch(w.serverToolNames[id]) {
      FetchFx(w, id, "web_fetch", [], "unavailable");
    } else {
      var (w1, f1) := StopServerTool(w, id);
      StopServerFx(w, id);
      ResultBlockFx(w1, f1, WebSearchToolResult(id, [], true));
    }
  }

  // What the loop over the orphans leaves, when `ids` are done.
  ghost predicate Answered(w: Writer, after: Writer, ids: seq<string>, notes: seq<Note>) {
    && after == w.(serverToolBlocks := after.serverToolBlocks, serverToolNames := after.serverToolNames,
                   blockIndex := after.blockIndex, webSearchRequests := after.webSearchRequests)
    && after.serverToolNames.Keys == after.serverToolBlocks.Keys
    && (forall id :: id in after.serverToolNames <==> id in w.serverToolNames && id !in ids)
    && (forall id | id in after.serverToolNames :: after.serverToolNames[id] == w.serverToolNames[id])
    && after.webSearchRequests == w.webSearchRequests + Searches(notes)
  }

  lemma {:induction false} FailuresNext(names: map<string, string>, front: seq<string>, id: string)
    requires id in names && forall x | x in front :: x in names
    ensures Failures(names, front + [id]) == Failures(names, front) + [ResultNote(names[id], id, [], true)]
  {
    assert (front + [id])[|front|] == id && forall i | 0 <= i < |front| :: (front + [id])[i] == front[i];
  }

  lemma {:induction false} OneMoreAnswered(w: Writer, w1: Writer, front: seq<string>, id: string, notes: seq<Note>)
    requires Answered(w, w1, front, notes) && id in w1.serverToolNames
    ensures Answered(w, AfterOrphan(w1, id), front + [id], notes + [ResultNote(w.serverToolNames[id], id, [], true)])
  {
    var note := ResultNote(w.serverToolNames[id], id, [], true);
    SearchesAppend(notes, [note]);
    SearchesOne(note);
    assert forall x :: x in front + [id] <==> x in front || x == id;
  }

  lemma {:induction false} OrphansFx(w: Writer, ids: seq<string>)
    requires w.serverToolNames.Keys == w.serverToolBlocks.Keys && w.sentStart
    requires (forall id | id in ids :: id in w.serverToolNames) && forall i, j | 0 <= i < j < |ids| :: ids[i] != ids[j]
    ensures var (w', out) := EncodeOrphans(w, ids);
      NotesIn(out) == Failures(w.serverToolNames, ids) && Answered(w, w', ids, Failures(w.serverToolNames, ids))
  {
    if ids == [] {
      assert Searches([]) == 0 && Failures(w.serverToolNames, ids) == [];
    } else {
      var n := |ids| - 1;
      var front, id := ids[..n], ids[n];
      assert ids == front + [id] && id !in front;
      OrphansFx(w, front);
      var (w1, f1) := EncodeOrphans(w, front);
      OrphanFx(w1, id);
      NotesAppend(f1, EncodeOrphan(w1, id).1);
      FailuresNext(w.serverToolNames, front, id);
      OneMoreAnswered(w, w1, front, id, Failures(w.serverToolNames, front));
    }
  }

  lemma {:induction false} StopsArePlain(blocks: map<string, nat>, ids: seq<string>)
    ensures Plain(StopFrames(blocks, ids))
  {
    if ids != [] { StopsArePlain(blocks, ids[..|ids| - 1]); }
  }

  lemma {:induction false} UnansweredKeys(cfg: Config, w: Writer, events: seq<Event>)
    requires Tracks(cfg, events, w)
    ensures UnansweredIds(events) == w.serverToolBlocks.Keys
  {
    forall id | id in w.serverToolBlocks ensures id in UnansweredIds(events) {
      assert Unanswered(events, id);
      var i :| 0 <= i < |events| && events[i].ServerToolStarted? && events[i].id == id;
      assert events[i] in events;
    }
  }

  lemma {:induction false} FailuresAreOrphans(w: Writer, events: seq<Event>, ids: seq<string>)
    requires NamesHold(w, events) && forall id | id in ids :: id in w.serverToolNames
    ensures Failures(w.serverToolNames, ids) == OrphanNotes(events, ids)
  {
    assert forall i | 0 <= i < |ids| :: ids[i] in ids;
  }

  // ---------- message_delta ----------

  // Why the turn stopped: as the caller says; else for a tool call; else by
  // whether the text is a refusal.
  function Reason(cfg: Config, events: seq<Event>, forced: string): string {
    if forced != "" then forced
    else if CallsTool(events) then "tool_use"
    else if cfg.isRefusal(Spoken(events)) then "refusal"
    else "end_turn"
  }

  predicate EndsMessage(f: Frame) {
    f.MessageDelta? || f.MessageStop?
  }

  predicate Unended(frames: seq<Frame>) {
    forall f | f in frames :: !EndsMessage(f)
  }

  lemma {:induction false} CitationsDoNotEnd(index: nat, citations: seq<Citation>)
    ensures Unended(CitationFrames(index, citations))
  {
    if citations != [] { CitationsDoNotEnd(index, citations[..|citations| - 1]); }
  }

  lemma {:induction false} StopsDoNotEnd(blocks: map<string, nat>, ids: seq<string>)
    ensures Unended(StopFrames(blocks, ids))
  {
    if ids != [] { StopsDoNotEnd(blocks, ids[..|ids| - 1]); }
  }

  lemma {:induction false} OrphanDoesNotEnd(w: Writer, id: string)
    ensures Unended(EncodeOrphan(w, id).1)
  {
  }

  lemma {:induction false} OrphansDoNotEnd(w: Writer, ids: seq<string>)
    ensures Unended(EncodeOrphans(w, ids).1)
  {
    if ids != [] {
      OrphansDoNotEnd(w, ids[..|ids| - 1]);
      OrphanDoesNotEnd(EncodeOrphans(w, ids[..|ids| - 1]).0, ids[|ids| - 1]);
    }
  }

  lemma {:induction false} ClosingDoesNotEnd(w: Writer)
    ensures Unended(StartFrame(w).1) && Unended(CloseAndAdvance(StartFrame(w).0).1) && Unended(CloseCurrentBlock(w).1)
  {
    CitationsDoNotEnd(w.blockIndex, w.citations);
  }

  lemma {:induction false} InBlockDoesNotEnd(w: Writer, t: BlockType, delta: Delta)
    ensures Unended(EncodeInBlock(w, t, delta).1)
  {
    ClosingDoesNotEnd(w);
  }

  lemma {:induction false} StartsDoNotEnd(cfg: Config, w: Writer, ev: Event)
    requires StartsTool(ev)
    ensures Unended(Encode(cfg, w, ev).1)
  {
    ClosingDoesNotEnd(w);
  }

  lemma {:induction false} OthersDoNotEnd(cfg: Config, w: Writer, ev: Event)
    requires ev.SignatureDelta? || ev.WebSearchResult? || ev.Heartbeat? || IsQuiet(ev)
    ensures Unended(Encode(cfg, w, ev).1)
  {
  }

  lemma {:induction false} EventDoesNotEnd(cfg: Config, w: Writer, ev: Event)
    requires !ev.TurnEnded?
    ensures Unended(Encode(cfg, w, ev).1)
  {
    match ev
    case TextDelta(text) => InBlockDoesNotEnd(w.(text := w.text + text), TextType, Words(text));
    case ThinkingDelta(text) => InBlockDoesNotEnd(w, ThinkingType, Thought(text));
    case ToolCallStarted(_, _, _) => StartsDoNotEnd(cfg, w, ev);
    case ServerToolStarted(_, _, _) => StartsDoNotEnd(cfg, w, ev);
    case _ => OthersDoNotEnd(cfg, w, ev);
  }

  lemma {:induction false} TraceDoesNotEnd(cfg: Config, events: seq<Event>)
    requires forall ev | ev in events :: !ev.TurnEnded?
    ensures Unended(Trace(cfg, NEW, events))
  {
    if events == [] {
    } else {
      var n := |events| - 1;
      TraceDoesNotEnd(cfg, events[..n]);
      assert events == events[..n] + [events[n]];
      TraceNextEvent(cfg, NEW, events[..n], events[n]);
      EventDoesNotEnd(cfg, WriterFrom(cfg, NEW, events[..n]), events[n]);
    }
  }

  // What the turn end sends: frames that do not end the message, with the
  // notes due; then the two that do.
  ghost predicate EndsWith(cfg: Config, out: seq<Frame>, events: seq<Event>, stopReason: string, stopSequence: string) {
    && |out| >= 2 && Unended(out[..|out| - 2])
    && NotesIn(out) == NotesFor(cfg, events, TurnEnded(stopReason, stopSequence))
    && out[|out| - 2] == MessageDelta(Reason(cfg, events, stopReason), stopSequence,
                                      Searches(NotesOf(cfg, events)) + Searches(NotesIn(out)))
    && out[|out| - 1] == MessageStop
  }

  lemma {:induction false} LastTwo(a: seq<Frame>, x: Frame, y: Frame)
    requires NoteOf(x) == [] && NoteOf(y) == []
    ensures var out := a + [x, y]; |out| >= 2 && out[..|out| - 2] == a && out[|out| - 2] == x && out[|out| - 1] == y && NotesIn(out) == NotesIn(a)
  {
    assert Plain([x, y]);
    PlainAfter(a, [x, y]);
  }

  lemma {:induction false} TurnEndNotes(cfg: Config, w: Writer, events: seq<Event>, f1: seq<Frame>, f2: seq<Frame>, f4: seq<Frame>, ids: seq<string>)
    requires Holds(cfg, w, events) && ids == cfg.order(UnansweredIds(events)) && (forall id | id in ids :: id in w.serverToolNames)
    requires NotesIn(f1) == DueFrom(w) && Plain(f2) && NotesIn(f4) == Failures(w.serverToolNames, ids)
    ensures NotesIn(f1 + f2 + f4) == Due(events) + OrphanNotes(events, ids)
    ensures Searches(NotesIn(f1 + f2 + f4)) == Searches(Failures(w.serverToolNames, ids))
  {
    DueMatches(cfg, w, events);
    FailuresAreOrphans(w, events, ids);
    PlainAfter(f1, f2);
    NotesAppend(f1 + f2, f4);
    SearchesAppend(Due(events), OrphanNotes(events, ids));
  }

  lemma {:induction false} ReasonMatches(cfg: Config, w: Writer, w4: Writer, events: seq<Event>, forced: string)
    requires Fields(cfg, w, events) && w4.text == w.text && w4.sawToolCall == w.sawToolCall
    ensures StopReasonOf(cfg, w4, forced) == Reason(cfg, events, forced)
  {
  }

  // The turn end up to its last two frames.
  function TurnBody(cfg: Config, w: Writer): Out {
    var (w1, f1) := CloseCurrentBlock(w);
    var f2 := StopFrames(w1.toolBlocks, cfg.order(w1.toolBlocks.Keys));
    var w3 := w1.(blockOpen := false, toolBlocks := map[]);
    var (w4, f4) := EncodeOrphans(w3, cfg.order(w3.serverToolBlocks.Keys));
    (w4, f1 + f2 + f4)
  }

  lemma {:induction false} TurnEndIsBody(cfg: Config, w: Writer, stopReason: string, stopSequence: string)
    ensures var (w4, body) := TurnBody(cfg, w);
      EncodeTurnEnded(cfg, w, stopReason, stopSequence).1 ==
        body + [MessageDelta(StopReasonOf(cfg, w4, stopReason), stopSequence, w4.webSearchRequests), MessageStop]
  {
  }

  lemma {:induction false} BodyDoesNotEnd(cfg: Config, w: Writer)
    ensures Unended(TurnBody(cfg, w).1)
  {
    var w1 := CloseCurrentBlock(w).0;
    var w3 := w1.(blockOpen := false, toolBlocks := map[]);
    ClosingDoesNotEnd(w);
    StopsDoNotEnd(w1.toolBlocks, cfg.order(w1.toolBlocks.Keys));
    OrphansDoNotEnd(w3, cfg.order(w3.serverToolBlocks.Keys));
  }

  lemma {:induction false} BodyFx(cfg: Config, w: Writer, events: seq<Event>)
    requires Fair(cfg) && Holds(cfg, w, events)
    ensures var (w4, body) := TurnBody(cfg, w);
      && NotesIn(body) == Due(events) + OrphanNotes(events, cfg.order(UnansweredIds(events)))
      && w4.text == w.text && w4.sawToolCall == w.sawToolCall
      && w4.webSearchRequests == w.webSearchRequests + Searches(NotesIn(body))
  {
    CloseFx(w);
    var (w1, f1) := CloseCurrentBlock(w);
    StopsArePlain(w1.toolBlocks, cfg.order(w1.toolBlocks.Keys));
    var w3 := w1.(blockOpen := false, toolBlocks := map[]);
    UnansweredKeys(cfg, w, events);
    var ids := cfg.order(UnansweredIds(events));
    assert Enumerates(ids, w.serverToolBlocks.Keys);
    OrphansOfNone(w3, ids);
    TurnEndNotes(cfg, w, events, f1, StopFrames(w1.toolBlocks, cfg.order(w1.toolBlocks.Keys)), EncodeOrphans(w3, ids).1, ids);
  }

  lemma {:induction false} EndsWithBody(cfg: Config, events: seq<Event>, body: seq<Frame>, searches: nat, stopReason: string, stopSequence: string)
    requires Unended(body) && NotesIn(body) == NotesFor(cfg, events, TurnEnded(stopReason, stopSequence))
    requires searches == Searches(NotesOf(cfg, events)) + Searches(NotesIn(body))
    ensures EndsWith(cfg, body + [MessageDelta(Reason(cfg, events, stopReason), stopSequence, searches), MessageStop],
                     events, stopReason, stopSequence)
  {
    LastTwo(body, MessageDelta(Reason(cfg, events, stopReason), stopSequence, searches), MessageStop);
  }

  lemma {:induction false} TurnEndSends(cfg: Config, w: Writer, events: seq<Event>, stopReason: string, stopSequence: string)
    requires Fair(cfg) && Holds(cfg, w, events)
    ensures EndsWith(cfg, EncodeTurnEnded(cfg, w, stopReason, stopSequence).1, events, stopReason, stopSequence)
  {
    var (w4, body) := TurnBody(cfg, w);
    TurnEndIsBody(cfg, w, stopReason, stopSequence);
    BodyDoesNotEnd(cfg, w);
    BodyFx(cfg, w, events);
    ReasonMatches(cfg, w, w4, events, stopReason);
    EndsWithBody(cfg, events, body, w4.webSearchRequests, stopReason, stopSequence);
  }

  lemma {:induction false} OrphansOfNone(w: Writer, ids: seq<string>)
    requires w.serverToolNames.Keys == w.serverToolBlocks.Keys && (w.serverToolBlocks != map[] ==> w.sentStart)
    requires Enumerates(ids, w.serverToolBlocks.Keys)
    ensures var (w', out) := EncodeOrphans(w, ids);
      && (forall id | id in ids :: id in w.serverToolNames)
      && NotesIn(out) == Failures(w.serverToolNames, ids)
      && w'.text == w.text && w'.sawToolCall == w.sawToolCall
      && w'.webSearchRequests == w.webSearchRequests + Searches(Failures(w.serverToolNames, ids))
  {
    if ids == [] {
      assert Searches([]) == 0 && Failures(w.serverToolNames, ids) == [];
    } else {
      assert ids[0] in ids;
      OrphansFx(w, ids);
    }
  }

  // ---------- whole runs ----------

  // Every run before its turn end: what a client notes is what the events call
  // for, in their order.
  lemma {:induction false} RunIsNoted(cfg: Config, events: seq<Event>)
    requires forall ev | ev in events :: !ev.TurnEnded?
    ensures NotesIn(Trace(cfg, NEW, events)) == NotesOf(cfg, events)
  {
    RunHolds(cfg, events);
  }

  // A whole message: exactly the last two frames end it, and message_delta
  // carries the reason, the stop sequence and the number of web-search results.
  ghost predicate IsMessage(cfg: Config, frames: seq<Frame>, events: seq<Event>, stopReason: string, stopSequence: string) {
    && |frames| >= 2 && Unended(frames[..|frames| - 2])
    && frames[|frames| - 2] == MessageDelta(Reason(cfg, events, stopReason), stopSequence, Searches(NotesIn(frames)))
    && frames[|frames| - 1] == MessageStop
  }

  lemma {:induction false} JoinNotes(front: seq<Frame>, out: seq<Frame>)
    ensures NotesIn(front + out) == NotesIn(front) + NotesIn(out)
    ensures Searches(NotesIn(front + out)) == Searches(NotesIn(front)) + Searches(NotesIn(out))
  {
    NotesAppend(front, out);
    SearchesAppend(NotesIn(front), NotesIn(out));
  }

  lemma {:induction false} JoinFrames(front: seq<Frame>, out: seq<Frame>)
    requires Unended(front) && |out| >= 2 && Unended(out[..|out| - 2])
    ensures var all := front + out;
      |all| >= 2 && Unended(all[..|all| - 2]) && all[|all| - 2] == out[|out| - 2] && all[|all| - 1] == out[|out| - 1]
  {
    assert (front + out)[..|front + out| - 2] == front + out[..|out| - 2];
  }

  lemma {:induction false} NotesOfNext(cfg: Config, events: seq<Event>, ev: Event)
    ensures NotesOf(cfg, events + [ev]) == NotesOf(cfg, events) + NotesFor(cfg, events, ev)
  {
    assert (events + [ev])[..|events|] == events;
  }

  lemma {:induction false} JoinMessage(cfg: Config, front: seq<Frame>, out: seq<Frame>, events: seq<Event>, stopReason: string, stopSequence: string)
    requires Unended(front) && NotesIn(front) == NotesOf(cfg, events) && EndsWith(cfg, out, events, stopReason, stopSequence)
    ensures IsMessage(cfg, front + out, events, stopReason, stopSequence)
    ensures NotesIn(front + out) == NotesOf(cfg, events) + NotesFor(cfg, events, TurnEnded(stopReason, stopSequence))
  {
    JoinNotes(front, out);
    JoinFrames(front, out);
  }

  // Every run through its first turn end, clean or not: the signatures, server
  // tools, results and citations are those the events call for, in their order,
  // and the message ends as the events say.
  lemma {:induction false} MessageEnd(cfg: Config, events: seq<Event>, stopReason: string, stopSequence: string)
    requires Fair(cfg) && forall ev | ev in events :: !ev.TurnEnded?
    ensures var all := events + [TurnEnded(stopReason, stopSequence)];
      NotesIn(Trace(cfg, NEW, all)) == NotesOf(cfg, all) && IsMessage(cfg, Trace(cfg, NEW, all), events, stopReason, stopSequence)
  {
    RunIsNoted(cfg, events);
    TraceDoesNotEnd(cfg, events);
    var out := TurnEndFrames(cfg, events, stopReason, stopSequence);
    JoinMessage(cfg, Trace(cfg, NEW, events), out, events, stopReason, stopSequence);
    NotesOfNext(cfg, events, TurnEnded(stopReason, stopSequence));
  }

  lemma {:induction false} TurnEndFrames(cfg: Config, events: seq<Event>, stopReason: string, stopSequence: string) returns (out: seq<Frame>)
    requires Fair(cfg) && forall ev | ev in events :: !ev.TurnEnded?
    ensures Trace(cfg, NEW, events + [TurnEnded(stopReason, stopSequence)]) == Trace(cfg, NEW, events) + out
    ensures EndsWith(cfg, out, events, stopReason, stopSequence)
  {
    RunHolds(cfg, events);
    out := LastFrames(cfg, WriterFrom(cfg, NEW, events), events, stopReason, stopSequence);
    TraceNextEvent(cfg, NEW, events, TurnEnded(stopReason, stopSequence));
  }

  lemma {:induction false} LastFrames(cfg: Config, w: Writer, events: seq<Event>, stopReason: string, stopSequence: string) returns (out: seq<Frame>)
    requires Fair(cfg) && Holds(cfg, w, events)
    ensures out == Encode(cfg, w, TurnEnded(stopReason, stopSequence)).1 && EndsWith(cfg, out, events, stopReason, stopSequence)
  {
    TurnEndSends(cfg, w, events, stopReason, stopSequence);
    out := EncodeTurnEnded(cfg, w, stopReason, stopSequence).1;
  }
}
