// The two implementations of the tool-id repair: RepairClaudeMessagesJSON of
// executor/claude_tool_ids.go on the messages of a request, and
// fillEmptyHistoryToolIDs of executor/chat_build.go on a conversation history.
// A pointer into a message is modelled by its location.
module ToolIdRepair {
  import opened Text
  import opened ToolIds

  datatype Loc = Loc(msg: nat, part: nat)

  // ---------- blocks of items ----------

  // Both forms of a history are lists of blocks; flattened, they are a list of
  // items.
  type Blocks = seq<seq<Item>>

  function Offset(blocks: Blocks, m: nat): nat
    requires m <= |blocks|
  {
    |Flatten(blocks[..m])|
  }

  predicate InRange(blocks: Blocks, l: Loc) {
    l.msg < |blocks| && l.part < |blocks[l.msg]|
  }

  function Position(blocks: Blocks, l: Loc): nat
    requires InRange(blocks, l)
  {
    Offset(blocks, l.msg) + l.part
  }

  function Put(blocks: Blocks, l: Loc, x: Item): Blocks
    requires InRange(blocks, l)
  {
    blocks[l.msg := blocks[l.msg][l.part := x]]
  }

  predicate SameShape(a: Blocks, b: Blocks) {
    |a| == |b| && forall m | 0 <= m < |a| :: |a[m]| == |b[m]|
  }

  lemma {:induction false} OffsetNext(blocks: Blocks, m: nat)
    requires m < |blocks|
    ensures Offset(blocks, m + 1) == Offset(blocks, m) + |blocks[m]|
  {
    assert blocks[..m + 1][..m] == blocks[..m];
  }

  lemma {:induction false} OffsetInside(blocks: Blocks, m: nat)
    requires m <= |blocks|
    ensures Offset(blocks, m) <= |Flatten(blocks)|
  {
    FlattenAppend(blocks[..m], blocks[m..]);
    assert blocks[..m] + blocks[m..] == blocks;
  }

  lemma {:induction false} OffsetByShape(a: Blocks, b: Blocks, m: nat)
    requires SameShape(a, b) && m <= |a|
    ensures Offset(a, m) == Offset(b, m)
  {
    if m > 0 {
      OffsetByShape(a, b, m - 1);
      OffsetNext(a, m - 1);
      OffsetNext(b, m - 1);
    }
  }

  // The place of message m does not depend on the ids.
  lemma {:induction false} Boundary(shape: Blocks, blocks: Blocks, m: nat)
    requires SameShape(shape, blocks) && m < |shape|
    ensures Offset(blocks, m) == Offset(shape, m)
    ensures Offset(shape, m + 1) == Offset(shape, m) + |blocks[m]| <= |Flatten(shape)|
  {
    OffsetByShape(shape, blocks, m);
    OffsetNext(shape, m);
    OffsetInside(shape, m + 1);
  }

  lemma {:induction false} WholeOffset(blocks: Blocks)
    ensures Offset(blocks, |blocks|) == |Flatten(blocks)|
  {
    assert blocks[..|blocks|] == blocks;
  }

  lemma {:induction false} FlattenAt(blocks: Blocks, l: Loc)
    requires InRange(blocks, l)
    ensures Position(blocks, l) < |Flatten(blocks)| && Flatten(blocks)[Position(blocks, l)] == blocks[l.msg][l.part]
  {
    var a, b, c := blocks[..l.msg], blocks[l.msg], blocks[l.msg + 1..];
    assert blocks == (a + [b]) + c;
    FlattenAppend(a + [b], c);
    FlattenSnoc(a, b);
  }

  lemma {:induction false} FlattenPut(blocks: Blocks, l: Loc, x: Item)
    requires InRange(blocks, l)
    ensures Position(blocks, l) < |Flatten(blocks)|
    ensures Flatten(Put(blocks, l, x)) == Flatten(blocks)[Position(blocks, l) := x]
    ensures SameShape(blocks, Put(blocks, l, x))
  {
    var a, b, c := blocks[..l.msg], blocks[l.msg], blocks[l.msg + 1..];
    var b' := b[l.part := x];
    assert blocks == (a + [b]) + c && Put(blocks, l, x) == (a + [b']) + c;
    FlattenAppend(a + [b], c);
    FlattenSnoc(a, b);
    FlattenAppend(a + [b'], c);
    FlattenSnoc(a, b');
    var before, after := Flatten(a), Flatten(c);
    assert ((before + b) + after)[|before| + l.part := x] == (before + b') + after;
  }

  // ---------- the loops follow the algorithm ----------

  // The history so far, the queue and the supply against the state of the
  // algorithm.
  ghost predicate Follows(blocks: Blocks, pending: seq<Loc>, drawn: nat, st: State) {
    && st.items == Flatten(blocks)
    && st.drawn == drawn
    && Located(blocks, pending, st.pending)
  }

  // The queue of locations and the queue of positions name the same tool uses.
  ghost predicate Located(blocks: Blocks, pending: seq<Loc>, positions: seq<nat>) {
    && |positions| == |pending|
    && forall k | 0 <= k < |pending| ::
         InRange(blocks, pending[k]) && positions[k] == Position(blocks, pending[k]) && At(blocks, pending[k]).Use?
  }

  function At(blocks: Blocks, l: Loc): Item
    requires InRange(blocks, l)
  {
    blocks[l.msg][l.part]
  }

  lemma {:induction false} FollowsAtStart(blocks: Blocks, supply: nat -> string)
    ensures Follows(blocks, [], 0, RunTo(Flatten(blocks), Offset(blocks, 0), supply))
  {
  }

  lemma {:induction false} FollowsPut(blocks: Blocks, pending: seq<Loc>, drawn: nat, st: State, l: Loc, x: Item)
    requires Follows(blocks, pending, drawn, st) && InRange(blocks, l) && At(blocks, l).Use? == x.Use?
    ensures Position(blocks, l) < |st.items| && st.items[Position(blocks, l)] == At(blocks, l)
    ensures Follows(Put(blocks, l, x), pending, drawn, st.(items := st.items[Position(blocks, l) := x]))
    ensures SameShape(blocks, Put(blocks, l, x))
  {
    FlattenPut(blocks, l, x);
    FlattenAt(blocks, l);
    forall k | 0 <= k < |pending|
      ensures InRange(Put(blocks, l, x), pending[k]) && Position(Put(blocks, l, x), pending[k]) == Position(blocks, pending[k])
      ensures At(Put(blocks, l, x), pending[k]).Use?
    {
      OffsetByShape(blocks, Put(blocks, l, x), pending[k].msg);
    }
  }

  // The current part leaves everything as it is, or joins the queue.
  lemma {:induction false} Waits(blocks: Blocks, pending: seq<Loc>, drawn: nat, st: State, l: Loc, supply: nat -> string)
    requires Follows(blocks, pending, drawn, st) && InRange(blocks, l)
    requires At(blocks, l).Result? ==> pending == []
    ensures Position(blocks, l) < |st.items|
    ensures Follows(blocks, if NeedsId(At(blocks, l)) then pending + [l] else pending, drawn, Step(st, Position(blocks, l), supply))
  {
    FlattenAt(blocks, l);
  }

  // The current part is a result and serves the first in the queue with `id`.
  lemma {:induction false} Serves(blocks: Blocks, pending: seq<Loc>, drawn: nat, st: State, l: Loc, supply: nat -> string)
    requires Follows(blocks, pending, drawn, st) && InRange(blocks, l)
    requires At(blocks, l).Result? && pending != []
    ensures Position(blocks, l) < |st.items|
    ensures var own := At(blocks, l).id;
      var id := if Blank(own) then supply(drawn) else TrimSpace(own);
      var blocks' := if Blank(own) then Put(blocks, l, Result(id)) else blocks;
      InRange(blocks', pending[0]) && At(blocks', pending[0]).Use? &&
      SameShape(blocks, Put(blocks', pending[0], Use(At(blocks, pending[0]).assistant, id))) &&
      Follows(Put(blocks', pending[0], Use(At(blocks, pending[0]).assistant, id)), pending[1..],
              if Blank(own) then drawn + 1 else drawn, Step(st, Position(blocks, l), supply))
  {
    FlattenAt(blocks, l);
    var own := At(blocks, l).id;
    var id := if Blank(own) then supply(drawn) else TrimSpace(own);
    var use := At(blocks, pending[0]);
    FlattenAt(blocks, pending[0]);
    var blocks', st' := blocks, st;
    if Blank(own) {
      FollowsPut(blocks, pending, drawn, st, l, Result(id));
      blocks', st' := Put(blocks, l, Result(id)), st.(items := SetId(st.items, Position(blocks, l), id));
    }
    assert pending[0] != l && At(blocks', pending[0]) == use;
    FollowsPut(blocks', pending, drawn, st', pending[0], Use(use.assistant, id));
    var after := st'.(items := SetId(st'.items, st'.pending[0], id));
    Served(Put(blocks', pending[0], Use(use.assistant, id)), pending, drawn, after, if Blank(own) then drawn + 1 else drawn);
  }

  lemma {:induction false} Served(blocks: Blocks, pending: seq<Loc>, drawn: nat, st: State, drawn': nat)
    requires Follows(blocks, pending, drawn, st) && pending != []
    ensures Follows(blocks, pending[1..], drawn', State(st.items, st.pending[1..], drawn'))
  {
  }

  // The first in the queue gets a generated id.
  lemma {:induction false} Fills(blocks: Blocks, pending: seq<Loc>, drawn: nat, st: State, supply: nat -> string)
    requires Follows(blocks, pending, drawn, st) && pending != []
    ensures var use := At(blocks, pending[0]);
      var st' := State(SetId(st.items, st.pending[0], supply(drawn)), st.pending[1..], drawn + 1);
      Follows(Put(blocks, pending[0], Use(use.assistant, supply(drawn))), pending[1..], drawn + 1, st')
      && Fill(st.items, st.pending, st.drawn, supply) == Fill(st'.items, st'.pending, st'.drawn, supply)
  {
    var use := At(blocks, pending[0]);
    FollowsPut(blocks, pending, drawn, st, pending[0], Use(use.assistant, supply(drawn)));
    var after := st.(items := SetId(st.items, st.pending[0], supply(drawn)));
    Served(Put(blocks, pending[0], Use(use.assistant, supply(drawn))), pending, drawn, after, drawn + 1);
  }

  // A queue that is not empty means that some use had no id.
  predicate SomeBlank(items: seq<Item>) {
    Uses(items, |items|) != []
  }

  lemma {:induction false} QueueMeansBlank(items: seq<Item>, n: nat, supply: nat -> string)
    requires n <= |items| && RunTo(items, n, supply).pending != []
    ensures SomeBlank(items)
  {
    RunKeepsInv(items, n, supply);
    UsesGrow(items, n, |items|);
  }

  lemma {:induction false} RepairChanges(items: seq<Item>, supply: nat -> string)
    requires Supply(supply) && SomeBlank(items)
    ensures Repair(items, supply) != items
  {
    RankedUse(items, |items|, 0);
    NoBlankUse(items, supply, Uses(items, |items|)[0]);
  }

  // The first n items of the history that came in are done.
  ghost predicate Reached(shape: Blocks, n: nat, blocks: Blocks, pending: seq<Loc>, drawn: nat, supply: nat -> string) {
    && n <= |Flatten(shape)|
    && SameShape(shape, blocks)
    && Follows(blocks, pending, drawn, RunTo(Flatten(shape), n, supply))
  }

  // ---------- RepairClaudeMessagesJSON ----------

  datatype PartKind = ToolUse | ToolResult | OtherKind

  // A part that is a JSON object may hold both ids, whatever its type.
  datatype Part = Part(kind: PartKind, id: string, toolUseId: string) | NoObject

  // A message without a content list has no parts.
  datatype Message = Message(assistant: bool, parts: seq<Part>)

  function ItemOf(assistant: bool, p: Part): Item {
    if p.NoObject? then Other
    else match p.kind
      case ToolUse => Use(assistant, p.id)
      case ToolResult => Result(p.toolUseId)
      case OtherKind => Other
  }

  predicate IsKind(p: Part, kind: PartKind) {
    p.Part? && p.kind == kind
  }

  function BlockOf(m: Message): (r: seq<Item>)
    ensures |r| == |m.parts|
  {
    seq(|m.parts|, i requires 0 <= i < |m.parts| => ItemOf(m.assistant, m.parts[i]))
  }

  function BlocksOf(ms: seq<Message>): (r: Blocks)
    ensures |r| == |ms|
  {
    seq(|ms|, m requires 0 <= m < |ms| => BlockOf(ms[m]))
  }

  function WithPart(ms: seq<Message>, l: Loc, p: Part): seq<Message>
    requires l.msg < |ms| && l.part < |ms[l.msg].parts|
  {
    ms[l.msg := Message(ms[l.msg].assistant, ms[l.msg].parts[l.part := p])]
  }

  lemma {:induction false} WithPartPuts(ms: seq<Message>, l: Loc, p: Part)
    requires l.msg < |ms| && l.part < |ms[l.msg].parts|
    ensures BlocksOf(WithPart(ms, l, p)) == Put(BlocksOf(ms), l, ItemOf(ms[l.msg].assistant, p))
  {
    assert BlockOf(WithPart(ms, l, p)[l.msg]) == BlockOf(ms[l.msg])[l.part := ItemOf(ms[l.msg].assistant, p)];
  }

  predicate HoldsObject(ms: seq<Message>, l: Loc) {
    l.msg < |ms| && l.part < |ms[l.msg].parts| && ms[l.msg].parts[l.part].Part?
  }

  // setMessagePartID: any object gets the id; the history sees it if the object
  // is a tool use.
  method SetMessagePartID(ms: seq<Message>, l: Loc, id: string) returns (out: seq<Message>, ok: bool)
    ensures ok <==> HoldsObject(ms, l)
    ensures ok ==> out == WithPart(ms, l, ms[l.msg].parts[l.part].(id := id))
    ensures ok ==> var use := ms[l.msg].parts[l.part].kind.ToolUse?;
      BlocksOf(out) == if use then Put(BlocksOf(ms), l, Use(ms[l.msg].assistant, id)) else BlocksOf(ms)
    ensures !ok ==> out == ms
  {
    if l.msg >= |ms| || l.part >= |ms[l.msg].parts| || ms[l.msg].parts[l.part].NoObject? {
      return ms, false;
    }
    var part := ms[l.msg].parts[l.part].(id := id);
    out, ok := WithPart(ms, l, part), true;
    WithPartPuts(ms, l, part);
    if !part.kind.ToolUse? {
      PutSame(BlocksOf(ms), l);
    }
  }

  lemma {:induction false} PutSame(blocks: Blocks, l: Loc)
    requires InRange(blocks, l)
    ensures Put(blocks, l, At(blocks, l)) == blocks
  {
    assert blocks[l.msg][l.part := At(blocks, l)] == blocks[l.msg];
  }

  lemma {:induction false} SameShapeChain(a: Blocks, b: Blocks, c: Blocks)
    requires SameShape(a, b) && SameShape(b, c)
    ensures SameShape(a, c)
  {
  }

  // A result whose turn it is.
  method ServeFirst(ms: seq<Message>, l: Loc, queue: seq<Loc>, taken: nat, supply: nat -> string, ghost st: State)
    returns (out: seq<Message>, drawn: nat)
    requires Follows(BlocksOf(ms), queue, taken, st) && InRange(BlocksOf(ms), l)
    requires IsKind(ms[l.msg].parts[l.part], ToolResult) && queue != []
    ensures Position(BlocksOf(ms), l) < |st.items|
    ensures Follows(BlocksOf(out), queue[1..], drawn, Step(st, Position(BlocksOf(ms), l), supply))
    ensures SameShape(BlocksOf(ms), BlocksOf(out))
  {
    ghost var blocks := BlocksOf(ms);
    Serves(blocks, queue, taken, st, l, supply);
    out, drawn := ms, taken;
    var result := ms[l.msg].parts[l.part];
    var id := TrimSpace(result.toolUseId);
    if id == "" {
      id := supply(drawn);
      drawn := drawn + 1;
      WithPartPuts(ms, l, result.(toolUseId := id));
      out := WithPart(ms, l, result.(toolUseId := id));
    }
    var ok;
    out, ok := SetMessagePartID(out, queue[0], id);
  }

  // One turn of the inner loop.
  method RepairPart(ms: seq<Message>, l: Loc, queue: seq<Loc>, taken: nat, supply: nat -> string, ghost st: State)
    returns (out: seq<Message>, pending: seq<Loc>, drawn: nat, changed: bool)
    requires Follows(BlocksOf(ms), queue, taken, st) && InRange(BlocksOf(ms), l)
    ensures Position(BlocksOf(ms), l) < |st.items|
    ensures Follows(BlocksOf(out), pending, drawn, Step(st, Position(BlocksOf(ms), l), supply))
    ensures SameShape(BlocksOf(ms), BlocksOf(out))
    ensures if changed then queue != [] else out == ms
  {
    out, pending, drawn, changed := ms, queue, taken, false;
    var part := ms[l.msg].parts[l.part];
    if IsKind(part, ToolResult) && |pending| > 0 {
      out, drawn := ServeFirst(ms, l, queue, taken, supply, st);
      pending, changed := pending[1..], true;
    } else {
      Waits(BlocksOf(ms), queue, taken, st, l, supply);
      if IsKind(part, ToolUse) && ms[l.msg].assistant && TrimSpace(part.id) == "" {
        pending := pending + [l];
      }
    }
  }

  // The place of a part in the flattened history, now and when it came in.
  lemma {:induction false} ReachedAt(shape: Blocks, l: Loc, blocks: Blocks, pending: seq<Loc>, drawn: nat, supply: nat -> string)
    requires InRange(shape, l) && Reached(shape, Position(shape, l), blocks, pending, drawn, supply)
    ensures InRange(blocks, l) && Position(blocks, l) == Position(shape, l) < |Flatten(shape)|
    ensures pending != [] ==> SomeBlank(Flatten(shape))
  {
    Boundary(shape, blocks, l.msg);
    FlattenAt(shape, l);
    if pending != [] {
      assert RunTo(Flatten(shape), Position(shape, l), supply).pending != [];
      QueueMeansBlank(Flatten(shape), Position(shape, l), supply);
    }
  }

  lemma {:induction false} ReachedNext(shape: Blocks, n: nat, before: Blocks, after: Blocks, pending: seq<Loc>, drawn: nat, supply: nat -> string)
    requires n < |Flatten(shape)| && SameShape(shape, before) && SameShape(before, after)
    requires Follows(after, pending, drawn, Step(RunTo(Flatten(shape), n, supply), n, supply))
    ensures Reached(shape, n + 1, after, pending, drawn, supply)
  {
    SameShapeChain(shape, before, after);
    assert RunTo(Flatten(shape), n + 1, supply) == Step(RunTo(Flatten(shape), n, supply), n, supply);
  }

  lemma {:induction false} ReachedMessage(shape: Blocks, m: nat, before: Blocks, after: Blocks,
                                          pending: seq<Loc>, drawn: nat, supply: nat -> string)
    requires m < |shape| && SameShape(shape, before) && SameShape(before, after)
    requires Offset(shape, m) + |before[m]| <= |Flatten(shape)|
    requires Follows(after, pending, drawn, RunTo(Flatten(shape), Offset(shape, m) + |before[m]|, supply))
    ensures Reached(shape, Offset(shape, m + 1), after, pending, drawn, supply)
  {
    Boundary(shape, before, m);
    SameShapeChain(shape, before, after);
  }

  // The same turn, at its place in the flattened history.
  method RepairNext(ms: seq<Message>, l: Loc, queue: seq<Loc>, taken: nat, supply: nat -> string,
                    ghost shape: Blocks, ghost n: nat)
    returns (out: seq<Message>, pending: seq<Loc>, drawn: nat, changed: bool)
    requires InRange(shape, l) && n == Position(shape, l) && Reached(shape, n, BlocksOf(ms), queue, taken, supply)
    ensures Reached(shape, n + 1, BlocksOf(out), pending, drawn, supply)
    ensures if changed then SomeBlank(Flatten(shape)) else out == ms
  {
    ReachedAt(shape, l, BlocksOf(ms), queue, taken, supply);
    out, pending, drawn, changed := RepairPart(ms, l, queue, taken, supply, RunTo(Flatten(shape), n, supply));
    ReachedNext(shape, n, BlocksOf(ms), BlocksOf(out), pending, drawn, supply);
  }

  // The inner loop: the parts of one message.
  method RepairMessage(ms: seq<Message>, mi: nat, queue: seq<Loc>, taken: nat, supply: nat -> string,
                       ghost shape: Blocks, ghost start: nat)
    returns (out: seq<Message>, pending: seq<Loc>, drawn: nat, changed: bool)
    requires mi < |shape| == |ms| && start == Offset(shape, mi) && |ms[mi].parts| == |shape[mi]|
    requires Reached(shape, start, BlocksOf(ms), queue, taken, supply)
    ensures Reached(shape, start + |shape[mi]|, BlocksOf(out), pending, drawn, supply)
    ensures if changed then SomeBlank(Flatten(shape)) else out == ms
  {
    out, pending, drawn, changed := ms, queue, taken, false;
    ghost var n := start;
    for pi := 0 to |ms[mi].parts|
      invariant n == start + pi && Reached(shape, n, BlocksOf(out), pending, drawn, supply)
      invariant if changed then SomeBlank(Flatten(shape)) else out == ms
    {
      var repaired;
      out, pending, drawn, repaired := RepairNext(out, Loc(mi, pi), pending, drawn, supply, shape, n);
      if repaired {
        changed := true;
      }
      n := n + 1;
    }
  }

  // One turn of the last loop: a generated id for the first use that waits.
  method FillFirst(ms: seq<Message>, pending: seq<Loc>, drawn: nat, supply: nat -> string, ghost st: State)
    returns (out: seq<Message>, ok: bool, ghost next: State)
    requires Follows(BlocksOf(ms), pending, drawn, st) && pending != []
    ensures Follows(BlocksOf(out), pending[1..], drawn + 1, next)
    ensures Fill(next.items, next.pending, next.drawn, supply) == Fill(st.items, st.pending, st.drawn, supply)
    ensures SameShape(BlocksOf(ms), BlocksOf(out)) && ok
  {
    Fills(BlocksOf(ms), pending, drawn, st, supply);
    FlattenPut(BlocksOf(ms), pending[0], Use(At(BlocksOf(ms), pending[0]).assistant, supply(drawn)));
    next := State(SetId(st.items, st.pending[0], supply(drawn)), st.pending[1..], drawn + 1);
    out, ok := SetMessagePartID(ms, pending[0], supply(drawn));
  }

  // The last loop: generated ids for the uses that still wait.
  method FillPending(ms: seq<Message>, pending: seq<Loc>, taken: nat, supply: nat -> string, ghost start: State)
    returns (out: seq<Message>, changed: bool)
    requires Follows(BlocksOf(ms), pending, taken, start)
    ensures Flatten(BlocksOf(out)) == Fill(start.items, start.pending, start.drawn, supply)
    ensures SameShape(BlocksOf(ms), BlocksOf(out))
    ensures if changed then pending != [] else out == ms
  {
    out, changed := ms, false;
    ghost var st := start;
    for k := 0 to |pending|
      invariant SameShape(BlocksOf(ms), BlocksOf(out))
      invariant Follows(BlocksOf(out), pending[k..], taken + k, st)
      invariant Fill(st.items, st.pending, st.drawn, supply) == Fill(start.items, start.pending, start.drawn, supply)
      invariant if changed then pending != [] else out == ms
    {
      ghost var before := BlocksOf(out);
      assert pending[k..][0] == pending[k] && pending[k..][1..] == pending[k + 1..];
      var ok;
      out, ok, st := FillFirst(out, pending[k..], taken + k, supply, st);
      SameShapeChain(BlocksOf(ms), before, BlocksOf(out));
      if ok {
        changed := true;
      }
    }
  }

  // The repaired messages are the repair of the flattened history, and the
  // request is rebuilt only if something changed.
  method RepairClaudeMessages(messages: seq<Message>, supply: nat -> string) returns (out: seq<Message>, changed: bool)
    ensures Flatten(BlocksOf(out)) == Repair(Flatten(BlocksOf(messages)), supply)
    ensures SameShape(BlocksOf(messages), BlocksOf(out))
    ensures Supply(supply) ==> (changed <==> out != messages)
  {
    ghost var shape := BlocksOf(messages);
    out, changed := messages, false;
    var pending: seq<Loc>, drawn: nat := [], 0;
    FollowsAtStart(shape, supply);
    for mi := 0 to |messages|
      invariant Reached(shape, Offset(shape, mi), BlocksOf(out), pending, drawn, supply)
      invariant if changed then SomeBlank(Flatten(shape)) else out == messages
    {
      var repaired;
      Boundary(shape, BlocksOf(out), mi);
      out, pending, drawn, repaired := RepairMessage(out, mi, pending, drawn, supply, shape, Offset(shape, mi));
      if repaired {
        changed := true;
      }
    }
    WholeOffset(shape);
    ghost var items, before := Flatten(shape), BlocksOf(out);
    if pending != [] { QueueMeansBlank(items, |items|, supply); }
    var filled;
    out, filled := FillPending(out, pending, drawn, supply, RunTo(items, |items|, supply));
    SameShapeChain(shape, before, BlocksOf(out));
    changed := changed || filled;
    if changed && Supply(supply) { RepairChanges(items, supply); }
  }

  // ---------- fillEmptyHistoryToolIDs ----------

  datatype HistoryPart = ToolCall(id: string) | NoToolCall

  datatype HistoryMessage = Assistant(content: seq<HistoryPart>) | Tool(id: string) | OtherMessage

  function ItemOfPart(p: HistoryPart): Item {
    match p
    case ToolCall(id) => Use(true, id)
    case NoToolCall => Other
  }

  function HistoryBlock(m: HistoryMessage): (r: seq<Item>)
    ensures m.Assistant? ==> |r| == |m.content|
  {
    match m
    case Assistant(content) => seq(|content|, i requires 0 <= i < |content| => ItemOfPart(content[i]))
    case Tool(id) => [Result(id)]
    case OtherMessage => []
  }

  function HistoryBlocks(ms: seq<HistoryMessage>): (r: Blocks)
    ensures |r| == |ms|
  {
    seq(|ms|, m requires 0 <= m < |ms| => HistoryBlock(ms[m]))
  }

  predicate IsCall(ms: seq<HistoryMessage>, l: Loc) {
    l.msg < |ms| && ms[l.msg].Assistant? && l.part < |ms[l.msg].content| && ms[l.msg].content[l.part].ToolCall?
  }

  function CallId(ms: seq<HistoryMessage>, l: Loc): string
    requires IsCall(ms, l)
  {
    ms[l.msg].content[l.part].id
  }

  lemma {:induction false} UseIsCall(ms: seq<HistoryMessage>, l: Loc)
    requires InRange(HistoryBlocks(ms), l) && At(HistoryBlocks(ms), l).Use?
    ensures IsCall(ms, l) && At(HistoryBlocks(ms), l) == Use(true, CallId(ms, l))
  {
    assert HistoryBlocks(ms)[l.msg] == HistoryBlock(ms[l.msg]);
  }

  // tc.ToolCallId = id
  method SetCall(ms: seq<HistoryMessage>, l: Loc, id: string) returns (out: seq<HistoryMessage>)
    requires IsCall(ms, l)
    ensures out == ms[l.msg := Assistant(ms[l.msg].content[l.part := ToolCall(id)])]
    ensures InRange(HistoryBlocks(ms), l) && HistoryBlocks(out) == Put(HistoryBlocks(ms), l, Use(true, id))
  {
    var content := ms[l.msg].content[l.part := ToolCall(id)];
    out := ms[l.msg := Assistant(content)];
    assert HistoryBlock(Assistant(content)) == HistoryBlock(ms[l.msg])[l.part := Use(true, id)];
  }

  // tool.ToolCallId = id
  method SetTool(ms: seq<HistoryMessage>, mi: nat, id: string) returns (out: seq<HistoryMessage>)
    requires mi < |ms| && ms[mi].Tool?
    ensures HistoryBlocks(out) == Put(HistoryBlocks(ms), Loc(mi, 0), Result(id))
  {
    out := ms[mi := Tool(id)];
    assert HistoryBlock(Tool(id)) == HistoryBlock(ms[mi])[0 := Result(id)];
  }

  lemma {:induction false} WaitsNext(blocks: Blocks, pending: seq<Loc>, drawn: nat, items: seq<Item>, n: nat, l: Loc, supply: nat -> string)
    requires InRange(blocks, l) && n == Position(blocks, l) && n < |items|
    requires Follows(blocks, pending, drawn, RunTo(items, n, supply))
    requires At(blocks, l).Result? ==> pending == []
    ensures Follows(blocks, if NeedsId(At(blocks, l)) then pending + [l] else pending, drawn, RunTo(items, n + 1, supply))
  {
    Waits(blocks, pending, drawn, RunTo(items, n, supply), l, supply);
  }

  lemma {:induction false} PartItem(ms: seq<HistoryMessage>, l: Loc)
    requires l.msg < |ms| && ms[l.msg].Assistant? && l.part < |ms[l.msg].content|
    ensures InRange(HistoryBlocks(ms), l) && At(HistoryBlocks(ms), l) == ItemOfPart(ms[l.msg].content[l.part])
  {
    assert HistoryBlocks(ms)[l.msg] == HistoryBlock(ms[l.msg]);
  }

  function Queue(pending: seq<Loc>, l: Loc, part: HistoryPart): seq<Loc> {
    if part.ToolCall? && TrimSpace(part.id) == "" then pending + [l] else pending
  }

  lemma {:induction false} PartWaits(ms: seq<HistoryMessage>, l: Loc, pending: seq<Loc>, drawn: nat,
                                     supply: nat -> string, items: seq<Item>, n: nat)
    requires l.msg < |ms| && ms[l.msg].Assistant? && l.part < |ms[l.msg].content|
    requires n == Offset(HistoryBlocks(ms), l.msg) + l.part && n < |items|
    requires Follows(HistoryBlocks(ms), pending, drawn, RunTo(items, n, supply))
    ensures Follows(HistoryBlocks(ms), Queue(pending, l, ms[l.msg].content[l.part]), drawn, RunTo(items, n + 1, supply))
  {
    PartItem(ms, l);
    WaitsNext(HistoryBlocks(ms), pending, drawn, items, n, l, supply);
  }

  // The calls of one assistant message join the queue; nothing else happens.
  method QueueCalls(ms: seq<HistoryMessage>, mi: nat, queue: seq<Loc>, drawn: nat, supply: nat -> string,
                    ghost items: seq<Item>, ghost start: nat)
    returns (pending: seq<Loc>)
    requires mi < |ms| && ms[mi].Assistant?
    requires start == Offset(HistoryBlocks(ms), mi) && start + |ms[mi].content| <= |items|
    requires Follows(HistoryBlocks(ms), queue, drawn, RunTo(items, start, supply))
    ensures Follows(HistoryBlocks(ms), pending, drawn, RunTo(items, start + |ms[mi].content|, supply))
  {
    pending := queue;
    ghost var n := start;
    for pi := 0 to |ms[mi].content|
      invariant n == start + pi && n <= |items|
      invariant Follows(HistoryBlocks(ms), pending, drawn, RunTo(items, n, supply))
    {
      PartWaits(ms, Loc(mi, pi), pending, drawn, supply, items, n);
      ghost var queued := Queue(pending, Loc(mi, pi), ms[mi].content[pi]);
      var part := ms[mi].content[pi];
      if part.ToolCall? && TrimSpace(part.id) == "" {
        pending := pending + [Loc(mi, pi)];
      }
      assert pending == queued;
      n := n + 1;
    }
  }

  // A tool message serves the first call in the queue, which has no id yet.
  method ServeCall(ms: seq<HistoryMessage>, mi: nat, pending: seq<Loc>, taken: nat, supply: nat -> string, ghost st: State)
    returns (out: seq<HistoryMessage>, drawn: nat)
    requires mi < |ms| && ms[mi].Tool? && pending != []
    requires Follows(HistoryBlocks(ms), pending, taken, st)
    requires NeedsId(At(HistoryBlocks(ms), pending[0]))
    ensures Position(HistoryBlocks(ms), Loc(mi, 0)) < |st.items|
    ensures Follows(HistoryBlocks(out), pending[1..], drawn, Step(st, Position(HistoryBlocks(ms), Loc(mi, 0)), supply))
    ensures SameShape(HistoryBlocks(ms), HistoryBlocks(out))
  {
    Serves(HistoryBlocks(ms), pending, taken, st, Loc(mi, 0), supply);
    UseIsCall(ms, pending[0]);
    out, drawn := ms, taken;
    var tc := pending[0];
    var own := ms[mi].id;
    var id := TrimSpace(own);
    if id == "" {
      id := TrimSpace(CallId(ms, tc));
    }
    if id == "" {
      id := supply(drawn);
      drawn := drawn + 1;
    }
    if TrimSpace(CallId(ms, tc)) == "" {
      out := SetCall(out, tc, id);
    }
    if TrimSpace(own) == "" {
      out := SetTool(out, mi, id);
      PutTwice(HistoryBlocks(ms), Loc(mi, 0), Result(id), tc, Use(true, id));
    }
  }

  lemma {:induction false} PutTwice(blocks: Blocks, l: Loc, x: Item, k: Loc, y: Item)
    requires InRange(blocks, l) && InRange(blocks, k) && l.msg != k.msg
    ensures Put(Put(blocks, l, x), k, y) == Put(Put(blocks, k, y), l, x)
  {
  }

  // Every call in the queue still lacks its id, and the calls are distinct.
  ghost predicate AllWait(st: State) {
    Rising(st.pending, |st.items|) && forall k | 0 <= k < |st.pending| :: NeedsId(st.items[st.pending[k]])
  }

  lemma {:induction false} QueueWaits(items: seq<Item>, n: nat, supply: nat -> string)
    requires n <= |items|
    ensures AllWait(RunTo(items, n, supply))
  {
    var st := RunTo(items, n, supply);
    RunKeepsInv(items, n, supply);
    UsesRise(items, n);
    TailRises(Uses(items, n), |Takers(items, n)|, n);
    forall k | 0 <= k < |st.pending|
      ensures st.pending[k] < |items| && NeedsId(st.items[st.pending[k]])
    {
      var rank := |Takers(items, n)| + k;
      RankedUse(items, n, rank);
      assert st.pending[k] == Uses(items, n)[rank];
      assert st.items[st.pending[k]] == After(items, n, st.pending[k], supply);
    }
  }

  // A tool message, whether or not a call waits.
  method FillFromTool(ms: seq<HistoryMessage>, mi: nat, queue: seq<Loc>, taken: nat, supply: nat -> string,
                      ghost items: seq<Item>, ghost n: nat)
    returns (out: seq<HistoryMessage>, pending: seq<Loc>, drawn: nat)
    requires mi < |ms| && ms[mi].Tool? && n == Offset(HistoryBlocks(ms), mi) && n < |items|
    requires Follows(HistoryBlocks(ms), queue, taken, RunTo(items, n, supply))
    ensures Follows(HistoryBlocks(out), pending, drawn, RunTo(items, n + 1, supply))
    ensures SameShape(HistoryBlocks(ms), HistoryBlocks(out))
  {
    out, pending, drawn := ms, queue, taken;
    if |pending| > 0 {
      ghost var st := RunTo(items, n, supply);
      QueueWaits(items, n, supply);
      FlattenAt(HistoryBlocks(ms), pending[0]);
      assert st.pending[0] == Position(HistoryBlocks(ms), pending[0]);
      out, drawn := ServeCall(ms, mi, pending, taken, supply, st);
      pending := pending[1..];
    } else {
      WaitsNext(HistoryBlocks(ms), pending, drawn, items, n, Loc(mi, 0), supply);
    }
  }

  // One turn of the outer loop.
  method FillMessage(ms: seq<HistoryMessage>, mi: nat, queue: seq<Loc>, taken: nat, supply: nat -> string,
                     ghost items: seq<Item>, ghost start: nat)
    returns (out: seq<HistoryMessage>, pending: seq<Loc>, drawn: nat)
    requires mi < |ms| && start == Offset(HistoryBlocks(ms), mi) && start + |HistoryBlocks(ms)[mi]| <= |items|
    requires Follows(HistoryBlocks(ms), queue, taken, RunTo(items, start, supply))
    ensures Follows(HistoryBlocks(out), pending, drawn, RunTo(items, start + |HistoryBlocks(ms)[mi]|, supply))
    ensures SameShape(HistoryBlocks(ms), HistoryBlocks(out))
  {
    out, pending, drawn := ms, queue, taken;
    assert HistoryBlocks(ms)[mi] == HistoryBlock(ms[mi]);
    if ms[mi].Assistant? {
      pending := QueueCalls(ms, mi, queue, taken, supply, items, start);
    }
    if ms[mi].Tool? {
      out, pending, drawn := FillFromTool(ms, mi, queue, taken, supply, items, start);
    }
  }

  // One turn of the last loop.
  method FillCall(ms: seq<HistoryMessage>, pending: seq<Loc>, drawn: nat, supply: nat -> string, ghost st: State)
    returns (out: seq<HistoryMessage>, ghost next: State)
    requires Follows(HistoryBlocks(ms), pending, drawn, st) && pending != [] && AllWait(st)
    ensures Follows(HistoryBlocks(out), pending[1..], drawn + 1, next) && AllWait(next)
    ensures Fill(next.items, next.pending, next.drawn, supply) == Fill(st.items, st.pending, st.drawn, supply)
  {
    Fills(HistoryBlocks(ms), pending, drawn, st, supply);
    FlattenAt(HistoryBlocks(ms), pending[0]);
    UseIsCall(ms, pending[0]);
    FillKeepsWaiting(st, supply(drawn));
    next := State(SetId(st.items, st.pending[0], supply(drawn)), st.pending[1..], drawn + 1);
    out := ms;
    if TrimSpace(CallId(ms, pending[0])) == "" {
      out := SetCall(out, pending[0], supply(drawn));
    }
  }

  lemma {:induction false} FillKeepsWaiting(st: State, id: string)
    requires AllWait(st) && st.pending != []
    ensures AllWait(State(SetId(st.items, st.pending[0], id), st.pending[1..], st.drawn + 1))
  {
    forall k | 0 <= k < |st.pending[1..]|
      ensures st.pending[1..][k] == st.pending[k + 1] != st.pending[0]
    {
      assert st.pending[0] < st.pending[k + 1];
    }
  }

  // The last loop.
  method FillCalls(ms: seq<HistoryMessage>, pending: seq<Loc>, drawn: nat, supply: nat -> string, ghost start: State)
    returns (out: seq<HistoryMessage>)
    requires Follows(HistoryBlocks(ms), pending, drawn, start) && AllWait(start)
    ensures Flatten(HistoryBlocks(out)) == Fill(start.items, start.pending, start.drawn, supply)
  {
    out := ms;
    ghost var st := start;
    for k := 0 to |pending|
      invariant Follows(HistoryBlocks(out), pending[k..], drawn + k, st) && AllWait(st)
      invariant Fill(st.items, st.pending, st.drawn, supply) == Fill(start.items, start.pending, start.drawn, supply)
    {
      assert pending[k..][0] == pending[k] && pending[k..][1..] == pending[k + 1..];
      out, st := FillCall(out, pending[k..], drawn + k, supply, st);
    }
  }

  method FillNext(ms: seq<HistoryMessage>, mi: nat, queue: seq<Loc>, taken: nat, supply: nat -> string, ghost shape: Blocks)
    returns (out: seq<HistoryMessage>, pending: seq<Loc>, drawn: nat)
    requires mi < |shape| && Reached(shape, Offset(shape, mi), HistoryBlocks(ms), queue, taken, supply)
    ensures Reached(shape, Offset(shape, mi + 1), HistoryBlocks(out), pending, drawn, supply)
  {
    Boundary(shape, HistoryBlocks(ms), mi);
    out, pending, drawn := FillMessage(ms, mi, queue, taken, supply, Flatten(shape), Offset(shape, mi));
    ReachedMessage(shape, mi, HistoryBlocks(ms), HistoryBlocks(out), pending, drawn, supply);
  }

  // The first loop.
  method PairCalls(msgs: seq<HistoryMessage>, supply: nat -> string)
    returns (out: seq<HistoryMessage>, pending: seq<Loc>, drawn: nat)
    ensures var items := Flatten(HistoryBlocks(msgs));
      Follows(HistoryBlocks(out), pending, drawn, RunTo(items, |items|, supply))
  {
    ghost var shape := HistoryBlocks(msgs);
    out, pending, drawn := msgs, [], 0;
    FollowsAtStart(shape, supply);
    for mi := 0 to |msgs|
      invariant Reached(shape, Offset(shape, mi), HistoryBlocks(out), pending, drawn, supply)
    {
      out, pending, drawn := FillNext(out, mi, pending, drawn, supply, shape);
    }
    WholeOffset(shape);
  }

  // The same repair, in the form of a conversation history.
  method FillEmptyHistoryToolIDs(msgs: seq<HistoryMessage>, supply: nat -> string) returns (out: seq<HistoryMessage>)
    ensures Flatten(HistoryBlocks(out)) == Repair(Flatten(HistoryBlocks(msgs)), supply)
  {
    ghost var items := Flatten(HistoryBlocks(msgs));
    var paired, pending, drawn := PairCalls(msgs, supply);
    QueueWaits(items, |items|, supply);
    out := FillCalls(paired, pending, drawn, supply, RunTo(items, |items|, supply));
  }

  // On the same flattened history the two give the same ids.
  method RepairBoth(messages: seq<Message>, history: seq<HistoryMessage>, supply: nat -> string)
    returns (claude: seq<Message>, filled: seq<HistoryMessage>)
    requires Flatten(BlocksOf(messages)) == Flatten(HistoryBlocks(history))
    ensures Flatten(BlocksOf(claude)) == Flatten(HistoryBlocks(filled))
  {
    var changed;
    claude, changed := RepairClaudeMessages(messages, supply);
    filled := FillEmptyHistoryToolIDs(history, supply);
  }
}
