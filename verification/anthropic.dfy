// translator/anthropic.go: the Anthropic Messages stream, as a function from
// writer state and event to frames, and the grammar its traces must follow.
module AnthropicStream {
  import opened Text

  // ---------- tool ids ----------

  // sanitizeToolCallID (translator/events.go)
  function Sanitize(id: string): (r: string)
    ensures |r| == |id|
  {
    seq(|id|, i requires 0 <= i < |id| => if id[i] == '\r' || id[i] == '\n' then '-' else id[i])
  }

  function CanonicalToolID(id: string, server: bool): string {
    var clean := Sanitize(id);
    if clean == "" then ""
    else if server then
      if HasPrefix(clean, "srvtoolu_") then clean
      else if HasPrefix(clean, "toolu_") then "srvtoolu_" + clean[|"toolu_"|..]
      else "srvtoolu_" + clean
    else
      var bare := if HasPrefix(clean, "srvtoolu_") then "toolu_" + clean[|"srvtoolu_"|..] else clean;
      if HasPrefix(bare, "toolu_") then bare else "toolu_" + bare
  }

  lemma {:induction false} SanitizeClean(id: string)
    requires NoBreaks(id)
    ensures Sanitize(id) == id
  {
    assert forall i | 0 <= i < |id| :: id[i] in id;
  }

  predicate NoBreaks(id: string) {
    forall c | c in id :: c != '\r' && c != '\n'
  }

  // A canonical id has its kind's prefix and no line break; making it canonical
  // again changes nothing, so a later result can echo it.
  lemma {:induction false} CanonicalIsStable(id: string, server: bool)
    requires id != ""
    ensures var r := CanonicalToolID(id, server);
      HasPrefix(r, if server then "srvtoolu_" else "toolu_") && NoBreaks(r) && CanonicalToolID(r, server) == r
  {
    var r := CanonicalToolID(id, server);
    SanitizeClean(r);
    if !server { assert r[0] == "toolu_"[0]; assert !HasPrefix(r, "srvtoolu_"); }
  }

  // What follows the prefix of either kind.
  function Bare(id: string): string {
    if HasPrefix(id, "toolu_") then id[6..] else if HasPrefix(id, "srvtoolu_") then id[9..] else id
  }

  // Only the prefix changes, and line breaks become hyphens.
  lemma {:induction false} CanonicalKeepsId(id: string, server: bool)
    ensures var r := CanonicalToolID(id, server);
      && (r == "" <==> id == "")
      && Bare(r) == Bare(Sanitize(id))
    ensures forall i | 0 <= i < |id| :: Sanitize(id)[i] == if id[i] == '\r' || id[i] == '\n' then '-' else id[i]
  {
    var clean, r := Sanitize(id), CanonicalToolID(id, server);
    assert "toolu_"[0] == 't' && "srvtoolu_"[0] == 's';
    if id != "" {
      var prefix := if server then "srvtoolu_" else "toolu_";
      assert r == prefix + Bare(clean);
      assert r[|prefix|..] == Bare(clean);
      assert r[0] == prefix[0];
    }
  }

  // Going to the server shape and back gives the client shape directly.
  lemma {:induction false} CanonicalThroughServer(id: string)
    requires id != ""
    ensures CanonicalToolID(CanonicalToolID(id, true), false) == CanonicalToolID(id, false)
  {
    var clean := Sanitize(id);
    var s := CanonicalToolID(id, true);
    SanitizeClean(s);
    if HasPrefix(clean, "srvtoolu_") {
      assert s == clean;
    } else if HasPrefix(clean, "toolu_") {
      assert s[9..] == clean[6..];
      assert "toolu_" + clean[6..] == clean;
    } else {
      assert s[9..] == clean;
    }
  }

  // ---------- frames and events ----------

  datatype WebResult = WebResult(url: string, title: string, chunk: string)

  datatype Block =
    | TextBlock
    | ThinkingBlock
    | ToolUse(id: string, name: string)
    | ServerToolUse(id: string, name: string)
    | WebSearchToolResult(toolUseId: string, results: seq<WebResult>, failed: bool)
    | WebFetchToolResult(toolUseId: string, results: seq<WebResult>, failed: bool)

  datatype Citation = Citation(toolCallId: string, position: nat, result: WebResult)

  datatype Delta =
    | Words(text: string)
    | Thought(text: string)
    | Signature(text: string)
    | InputJson(json: string)
    | Citing(citation: Citation)

  datatype Frame =
    | MessageStart
    | Ping
    | BlockStart(index: nat, block: Block)
    | BlockDelta(index: nat, delta: Delta)
    | BlockStop(index: nat)
    | MessageDelta(stopReason: string, stopSequence: string, webSearchRequests: nat)
    | MessageStop

  datatype Event =
    | TextDelta(text: string)
    | ThinkingDelta(text: string)
    | SignatureDelta(text: string)
    | Heartbeat
    | ToolCallStarted(id: string, name: string, args: string)
    | ToolCallDelta(id: string, args: string)
    | ToolCallCompleted(id: string)
    | ServerToolStarted(id: string, name: string, args: string)
    | WebSearchResult(id: string, name: string, results: seq<WebResult>, error: string)
    | TurnEnded(stopReason: string, stopSequence: string)
    | Other

  // What the writer does not decide itself: the id minted for tool calls that
  // arrive without one (it mints at most one), the refusal test, and the order
  // in which Go happens to iterate a map.
  datatype Config = Config(
    anonymousToolId: string,
    isRefusal: string -> bool,
    order: set<string> -> seq<string>)

  ghost predicate Enumerates(order: seq<string>, keys: set<string>) {
    && |order| == |keys|
    && (forall k :: k in order <==> k in keys)
    && (forall i, j | 0 <= i < j < |order| :: order[i] != order[j])
  }

  // Map iteration visits every key once, in any order.
  ghost predicate Fair(cfg: Config) {
    forall keys :: Enumerates(cfg.order(keys), keys)
  }

  function ResolveClientToolID(cfg: Config, id: string): string {
    var canonical := CanonicalToolID(id, false);
    if canonical != "" then canonical else cfg.anonymousToolId
  }

  // ---------- the writer ----------

  datatype BlockType = NoType | TextType | ThinkingType

  datatype Writer = Writer(
    blockOpen: bool,
    blockIndex: nat,
    sentStart: bool,
    blockType: BlockType,
    toolBlocks: map<string, nat>,
    sawToolCall: bool,
    serverToolBlocks: map<string, nat>,
    serverToolNames: map<string, string>,
    webSearchRequests: nat,
    text: string,
    citations: seq<Citation>)

  const NEW := Writer(false, 0, false, NoType, map[], false, map[], map[], 0, "", [])

  type Out = (Writer, seq<Frame>)

  function StartFrame(w: Writer): Out {
    if w.sentStart then (w, []) else (w.(sentStart := true), [MessageStart])
  }

  function CitationFrames(index: nat, citations: seq<Citation>): seq<Frame> {
    if citations == [] then []
    else CitationFrames(index, citations[..|citations| - 1]) + [BlockDelta(index, Citing(citations[|citations| - 1]))]
  }

  // closeCurrentBlock: the frames, and the citations it consumed
  function CloseCurrentBlock(w: Writer): Out {
    if !w.blockOpen then (w, [])
    else if w.blockType == TextType && w.citations != [] then
      (w.(citations := []), CitationFrames(w.blockIndex, w.citations) + [BlockStop(w.blockIndex)])
    else (w, [BlockStop(w.blockIndex)])
  }

  // Closing a block on the way to the next one.
  function CloseAndAdvance(w: Writer): Out {
    if !w.blockOpen then (w, [])
    else
      var (w', out) := CloseCurrentBlock(w);
      (w'.(blockOpen := false, blockIndex := w.blockIndex + 1), out)
  }

  function OpenBlock(w: Writer, t: BlockType): Out {
    if w.blockOpen then (w, [])
    else (w.(blockOpen := true, blockType := t), [BlockStart(w.blockIndex, if t.TextType? then TextBlock else ThinkingBlock)])
  }

  // A delta of type `t`: message start, switch of block if needed, the delta.
  function EncodeInBlock(w: Writer, t: BlockType, delta: Delta): Out {
    var (w1, f1) := StartFrame(w);
    var (w2, f2) := if w1.blockType == t then (w1, []) else CloseAndAdvance(w1);
    var (w3, f3) := OpenBlock(w2, t);
    (w3, f1 + f2 + f3 + [BlockDelta(w3.blockIndex, delta)])
  }

  function EncodeSignature(w: Writer, text: string): Out {
    if text == "" then (w, [])
    else
      var (w1, f1) := StartFrame(w);
      if w1.blockOpen && w1.blockType != ThinkingType then (w1, [])
      else
        var (w2, f2) := OpenBlock(w1, ThinkingType);
        (w2, f1 + f2 + [BlockDelta(w2.blockIndex, Signature(text))])
  }

  function ArgsFrames(index: nat, args: string): seq<Frame> {
    if args == "" then [] else [BlockDelta(index, InputJson(args))]
  }

  // The frames gathered so far are dropped when the id is already in flight.
  function EncodeToolStart(cfg: Config, w: Writer, id: string, name: string, args: string): Out {
    var (w1, f1) := StartFrame(w);
    var (w2, f2) := CloseAndAdvance(w1);
    var toolId := ResolveClientToolID(cfg, id);
    if toolId in w2.toolBlocks then (w2, [])
    else
      var index := w2.blockIndex;
      (w2.(toolBlocks := w2.toolBlocks[toolId := index], blockIndex := index + 1, sawToolCall := true),
       f1 + f2 + [BlockStart(index, ToolUse(toolId, name))] + ArgsFrames(index, args))
  }

  function EncodeToolDelta(cfg: Config, w: Writer, id: string, args: string): Out {
    var toolId := ResolveClientToolID(cfg, id);
    if args == "" || toolId !in w.toolBlocks then (w, [])
    else (w, [BlockDelta(w.toolBlocks[toolId], InputJson(args))])
  }

  function EncodeToolCompleted(cfg: Config, w: Writer, id: string): Out {
    var toolId := ResolveClientToolID(cfg, id);
    if toolId !in w.toolBlocks then (w, [])
    else (w.(toolBlocks := w.toolBlocks - {toolId}), [BlockStop(w.toolBlocks[toolId])])
  }

  function EncodeServerToolStart(w: Writer, id: string, name: string, args: string): Out {
    var (w1, f1) := StartFrame(w);
    var (w2, f2) := CloseAndAdvance(w1);
    if id in w2.serverToolBlocks then (w2, [])
    else
      var index := w2.blockIndex;
      (w2.(serverToolBlocks := w2.serverToolBlocks[id := index], serverToolNames := w2.serverToolNames[id := name],
           blockIndex := index + 1),
       f1 + f2 + [BlockStart(index, ServerToolUse(id, name))] + ArgsFrames(index, args))
  }

  // Stop the server tool's own block, if it was announced.
  function StopServerTool(w: Writer, id: string): Out {
    if id !in w.serverToolBlocks then (w, [])
    else (w.(serverToolBlocks := w.serverToolBlocks - {id}, serverToolNames := w.serverToolNames - {id}),
          [BlockStop(w.serverToolBlocks[id])])
  }

  // A result is a block of its own, started and stopped at once.
  function ResultBlock(w: Writer, block: Block): Out {
    (w.(blockIndex := w.blockIndex + 1), [BlockStart(w.blockIndex, block), BlockStop(w.blockIndex)])
  }

  function IsWebFetch(name: string): bool {
    EqualFold(name, "web_fetch")
  }

  function Citations(id: string, results: seq<WebResult>): seq<Citation> {
    seq(|results|, i requires 0 <= i < |results| => Citation(id, i, results[i]))
  }

  function EncodeWebResult(w: Writer, id: string, name: string, results: seq<WebResult>, error: string): Out {
    var (w1, f1) := StartFrame(w);
    var (w2, f2) := StopServerTool(w1, id);
    if IsWebFetch(name) then
      var (w3, f3) := ResultBlock(w2, WebFetchToolResult(id, results, error != ""));
      (w3, f1 + f2 + f3)
    else
      var (w3, f3) := ResultBlock(w2.(citations := Citations(id, results)), WebSearchToolResult(id, results, error != ""));
      (w3.(webSearchRequests := w3.webSearchRequests + 1), f1 + f2 + f3)
  }

  // encodeWebSearchErrorResult, or encodeWebFetchResult with an error
  function EncodeOrphan(w: Writer, id: string): Out {
    if id in w.serverToolNames && IsWebFetch(w.serverToolNames[id]) then
      EncodeWebResult(w, id, "web_fetch", [], "unavailable")
    else
      var (w1, f1) := StopServerTool(w, id);
      var (w2, f2) := ResultBlock(w1, WebSearchToolResult(id, [], true));
      (w2.(webSearchRequests := w2.webSearchRequests + 1), f1 + f2)
  }

  function EncodeOrphans(w: Writer, ids: seq<string>): Out {
    if ids == [] then (w, [])
    else
      var (w1, f1) := EncodeOrphans(w, ids[..|ids| - 1]);
      var (w2, f2) := EncodeOrphan(w1, ids[|ids| - 1]);
      (w2, f1 + f2)
  }

  function StopFrames(blocks: map<string, nat>, ids: seq<string>): seq<Frame> {
    if ids == [] then []
    else
      var id := ids[|ids| - 1];
      StopFrames(blocks, ids[..|ids| - 1]) + if id in blocks then [BlockStop(blocks[id])] else []
  }

  function StopReasonOf(cfg: Config, w: Writer, forced: string): string {
    if forced != "" then forced
    else if w.sawToolCall then "tool_use"
    else if cfg.isRefusal(w.text) then "refusal"
    else "end_turn"
  }

  function EncodeTurnEnded(cfg: Config, w: Writer, stopReason: string, stopSequence: string): Out {
    var (w1, f1) := CloseCurrentBlock(w);
    var w2 := w1.(blockOpen := false);
    var f2 := StopFrames(w2.toolBlocks, cfg.order(w2.toolBlocks.Keys));
    var w3 := w2.(toolBlocks := map[]);
    var (w4, f4) := EncodeOrphans(w3, cfg.order(w3.serverToolBlocks.Keys));
    (w4, f1 + f2 + f4 + [MessageDelta(StopReasonOf(cfg, w4, stopReason), stopSequence, w4.webSearchRequests), MessageStop])
  }

  function Encode(cfg: Config, w: Writer, ev: Event): Out {
    match ev
    case TextDelta(text) => EncodeInBlock(w.(text := w.text + text), TextType, Words(text))
    case ThinkingDelta(text) => EncodeInBlock(w, ThinkingType, Thought(text))
    case SignatureDelta(text) => EncodeSignature(w, text)
    case Heartbeat => var (w', out) := StartFrame(w); (w', out + [Ping])
    case ToolCallStarted(id, name, args) => EncodeToolStart(cfg, w, id, name, args)
    case ToolCallDelta(id, args) => EncodeToolDelta(cfg, w, id, args)
    case ToolCallCompleted(id) => EncodeToolCompleted(cfg, w, id)
    case ServerToolStarted(id, name, args) => EncodeServerToolStart(w, id, name, args)
    case WebSearchResult(id, name, results, error) => EncodeWebResult(w, id, name, results, error)
    case TurnEnded(stopReason, stopSequence) => EncodeTurnEnded(cfg, w, stopReason, stopSequence)
    case Other => (w, [])
  }

  // All frames of a run.
  function Trace(cfg: Config, w: Writer, events: seq<Event>): seq<Frame>
    decreases |events|
  {
    if events == [] then []
    else
      var (w', out) := Encode(cfg, w, events[0]);
      out + Trace(cfg, w', events[1..])
  }
}
