// translator/anthropic.go: the stream writer as the source runs it, updating
// its fields event by event. Each method is proved equal to the function of
// AnthropicStream that the grammar and content theorems are about.
module AnthropicWriter {
  import A = AnthropicStream

  class AnthropicStreamWriter {
    const cfg: A.Config
    var blockOpen: bool
    var blockIndex: nat
    var sentStart: bool
    var blockType: A.BlockType
    var toolBlocks: map<string, nat>
    var sawToolCall: bool
    var serverToolBlocks: map<string, nat>
    var serverToolNames: map<string, string>
    var webSearchRequests: nat
    var text: string
    var citations: seq<A.Citation>

    function Value(): A.Writer
      reads this
    {
      A.Writer(blockOpen, blockIndex, sentStart, blockType, toolBlocks, sawToolCall, serverToolBlocks,
               serverToolNames, webSearchRequests, text, citations)
    }

    constructor (cfg: A.Config)
      ensures this.cfg == cfg && Value() == A.NEW
    {
      this.cfg := cfg;
      blockOpen, blockIndex, sentStart, blockType := false, 0, false, A.NoType;
      toolBlocks, sawToolCall, serverToolBlocks, serverToolNames := map[], false, map[], map[];
      webSearchRequests, text, citations := 0, "", [];
    }

    method StartFrame() returns (buf: seq<A.Frame>)
      modifies this`sentStart
      ensures (Value(), buf) == A.StartFrame(old(Value()))
    {
      if sentStart {
        return [];
      }
      sentStart := true;
      buf := [A.MessageStart];
    }

    method CloseCurrentBlock() returns (buf: seq<A.Frame>)
      modifies this`citations
      ensures (Value(), buf) == A.CloseCurrentBlock(old(Value()))
    {
      if !blockOpen {
        return [];
      }
      buf := [];
      if blockType == A.TextType && |citations| > 0 {
        for i := 0 to |citations|
          modifies {}
          invariant buf == A.CitationFrames(blockIndex, citations[..i])
        {
          assert citations[..i + 1][..i] == citations[..i];
          buf := buf + [A.BlockDelta(blockIndex, A.Citing(citations[i]))];
        }
        assert citations[..|citations|] == citations;
        citations := [];
      }
      assert [] + [A.BlockStop(blockIndex)] == [A.BlockStop(blockIndex)];
      buf := buf + [A.BlockStop(blockIndex)];
    }

    // The lines "if w.blockOpen { close; blockOpen = false; blockIndex++ }".
    method CloseAndAdvance() returns (buf: seq<A.Frame>)
      modifies this
      ensures (Value(), buf) == A.CloseAndAdvance(old(Value()))
    {
      buf := [];
      if blockOpen {
        buf := CloseCurrentBlock();
        blockOpen := false;
        blockIndex := blockIndex + 1;
      }
    }

    method EncodeInBlock(t: A.BlockType, delta: A.Delta) returns (buf: seq<A.Frame>)
      modifies this
      ensures (Value(), buf) == A.EncodeInBlock(old(Value()), t, delta)
    {
      buf := StartFrame();
      var closing, opening := [], [];
      if blockOpen && blockType != t {
        closing := CloseAndAdvance();
      }
      if !blockOpen {
        blockOpen := true;
        blockType := t;
        opening := [A.BlockStart(blockIndex, if t.TextType? then A.TextBlock else A.ThinkingBlock)];
      }
      buf := buf + closing + opening + [A.BlockDelta(blockIndex, delta)];
    }

    method EncodeSignature(signature: string) returns (buf: seq<A.Frame>)
      modifies this
      ensures (Value(), buf) == A.EncodeSignature(old(Value()), signature)
    {
      if signature == "" {
        return [];
      }
      buf := StartFrame();
      if blockOpen && blockType != A.ThinkingType {
        return [];
      }
      var opening := [];
      if !blockOpen {
        blockOpen := true;
        blockType := A.ThinkingType;
        opening := [A.BlockStart(blockIndex, A.ThinkingBlock)];
      }
      buf := buf + opening + [A.BlockDelta(blockIndex, A.Signature(signature))];
    }

    method EncodeToolStart(id: string, name: string, args: string) returns (buf: seq<A.Frame>)
      modifies this
      ensures (Value(), buf) == A.EncodeToolStart(cfg, old(Value()), id, name, args)
    {
      buf := StartFrame();
      var closing := CloseAndAdvance();
      buf := buf + closing;
      var toolId := A.ResolveClientToolID(cfg, id);
      if toolId in toolBlocks {
        return [];
      }
      var toolIdx := blockIndex;
      toolBlocks := toolBlocks[toolId := toolIdx];
      blockIndex := blockIndex + 1;
      sawToolCall := true;
      var argument := [];
      if args != "" {
        argument := [A.BlockDelta(toolIdx, A.InputJson(args))];
      }
      buf := buf + [A.BlockStart(toolIdx, A.ToolUse(toolId, name))] + argument;
    }

    method EncodeServerToolStart(id: string, name: string, args: string) returns (buf: seq<A.Frame>)
      modifies this
      ensures (Value(), buf) == A.EncodeServerToolStart(old(Value()), id, name, args)
    {
      buf := StartFrame();
      var closing := CloseAndAdvance();
      buf := buf + closing;
      if id in serverToolBlocks {
        return [];
      }
      var toolIndex := blockIndex;
      serverToolBlocks := serverToolBlocks[id := toolIndex];
      serverToolNames := serverToolNames[id := name];
      blockIndex := blockIndex + 1;
      var argument := [];
      if args != "" {
        argument := [A.BlockDelta(toolIndex, A.InputJson(args))];
      }
      buf := buf + [A.BlockStart(toolIndex, A.ServerToolUse(id, name))] + argument;
    }

    method StopServerTool(id: string) returns (buf: seq<A.Frame>)
      modifies this`serverToolBlocks, this`serverToolNames
      ensures (Value(), buf) == A.StopServerTool(old(Value()), id)
    {
      if id !in serverToolBlocks {
        return [];
      }
      buf := [A.BlockStop(serverToolBlocks[id])];
      serverToolBlocks := serverToolBlocks - {id};
      serverToolNames := serverToolNames - {id};
    }

    method EncodeWebResult(id: string, name: string, results: seq<A.WebResult>, error: string) returns (buf: seq<A.Frame>)
      modifies this
      ensures (Value(), buf) == A.EncodeWebResult(old(Value()), id, name, results, error)
    {
      buf := StartFrame();
      var stop := StopServerTool(id);
      buf := buf + stop;
      var resultIndex := blockIndex;
      if A.IsWebFetch(name) {
        blockIndex := blockIndex + 1;
        buf := buf + [A.BlockStart(resultIndex, A.WebFetchToolResult(id, results, error != "")), A.BlockStop(resultIndex)];
      } else {
        citations := A.Citations(id, results);
        blockIndex := blockIndex + 1;
        buf := buf + [A.BlockStart(resultIndex, A.WebSearchToolResult(id, results, error != "")), A.BlockStop(resultIndex)];
        webSearchRequests := webSearchRequests + 1;
      }
    }

    method EncodeOrphan(id: string) returns (buf: seq<A.Frame>)
      modifies this
      ensures (Value(), buf) == A.EncodeOrphan(old(Value()), id)
    {
      if id in serverToolNames && A.IsWebFetch(serverToolNames[id]) {
        buf := EncodeWebResult(id, "web_fetch", [], "unavailable");
      } else {
        buf := StopServerTool(id);
        var resultIndex := blockIndex;
        blockIndex := blockIndex + 1;
        buf := buf + [A.BlockStart(resultIndex, A.WebSearchToolResult(id, [], true)), A.BlockStop(resultIndex)];
        webSearchRequests := webSearchRequests + 1;
      }
    }

    method CloseOrphanServerTools() returns (buf: seq<A.Frame>)
      modifies this
      ensures (Value(), buf) == A.EncodeOrphans(old(Value()), cfg.order(old(serverToolBlocks).Keys))
    {
      var ids := cfg.order(serverToolBlocks.Keys);
      buf := [];
      for i := 0 to |ids|
        invariant (Value(), buf) == A.EncodeOrphans(old(Value()), ids[..i])
      {
        assert ids[..i + 1][..i] == ids[..i];
        var more := EncodeOrphan(ids[i]);
        buf := buf + more;
      }
      assert ids[..|ids|] == ids;
    }

    method EncodeTurnEnded(stopReason: string, stopSequence: string) returns (buf: seq<A.Frame>)
      modifies this
      ensures (Value(), buf) == A.EncodeTurnEnded(cfg, old(Value()), stopReason, stopSequence)
    {
      buf := [];
      if blockOpen {
        buf := CloseCurrentBlock();
        blockOpen := false;
      }
      var ids := cfg.order(toolBlocks.Keys);
      ghost var closed := buf;
      for i := 0 to |ids|
        modifies {}
        invariant buf == closed + A.StopFrames(toolBlocks, ids[..i])
      {
        assert ids[..i + 1][..i] == ids[..i];
        if ids[i] in toolBlocks {
          buf := buf + [A.BlockStop(toolBlocks[ids[i]])];
        }
      }
      assert ids[..|ids|] == ids;
      toolBlocks := map[];
      var orphans := CloseOrphanServerTools();
      buf := buf + orphans;
      var reason := if sawToolCall then "tool_use" else if cfg.isRefusal(text) then "refusal" else "end_turn";
      if stopReason != "" {
        reason := stopReason;
      }
      buf := buf + [A.MessageDelta(reason, stopSequence, webSearchRequests), A.MessageStop];
    }

    method Encode(ev: A.Event) returns (buf: seq<A.Frame>)
      modifies this
      ensures (Value(), buf) == A.Encode(cfg, old(Value()), ev)
    {
      buf := [];
      match ev {
        case TextDelta(t) =>
          text := text + t;
          buf := EncodeInBlock(A.TextType, A.Words(t));
        case ThinkingDelta(t) =>
          buf := EncodeInBlock(A.ThinkingType, A.Thought(t));
        case SignatureDelta(t) =>
          buf := EncodeSignature(t);
        case Heartbeat =>
          buf := StartFrame();
          buf := buf + [A.Ping];
        case ToolCallStarted(id, name, args) =>
          buf := EncodeToolStart(id, name, args);
        case ToolCallDelta(id, args) =>
          var toolId := A.ResolveClientToolID(cfg, id);
          if args != "" && toolId in toolBlocks {
            buf := [A.BlockDelta(toolBlocks[toolId], A.InputJson(args))];
          }
        case ToolCallCompleted(id) =>
          var toolId := A.ResolveClientToolID(cfg, id);
          if toolId in toolBlocks {
            buf := [A.BlockStop(toolBlocks[toolId])];
            toolBlocks := toolBlocks - {toolId};
          }
        case ServerToolStarted(id, name, args) =>
          buf := EncodeServerToolStart(id, name, args);
        case WebSearchResult(id, name, results, error) =>
          buf := EncodeWebResult(id, name, results, error);
        case TurnEnded(stopReason, stopSequence) =>
          buf := EncodeTurnEnded(stopReason, stopSequence);
        case Other =>
      }
    }
  }

  // A whole stream, event by event; its frames are the trace of the theorems.
  method Stream(cfg: A.Config, events: seq<A.Event>) returns (frames: seq<A.Frame>)
    ensures frames == A.Trace(cfg, A.NEW, events)
  {
    var writer := new AnthropicStreamWriter(cfg);
    frames := [];
    assert events[0..] == events;
    for i := 0 to |events|
      invariant fresh(writer) && writer.cfg == cfg
      invariant A.Trace(cfg, A.NEW, events) == frames + A.Trace(cfg, writer.Value(), events[i..])
    {
      assert events[i..][1..] == events[i + 1..];
      var more := writer.Encode(events[i]);
      frames := frames + more;
    }
  }
}
