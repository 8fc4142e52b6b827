// translator/openai_responses.go: the Responses stream and its non-streaming
// accumulator, as functions on values.
module Responses {
  import opened Wrappers

  datatype Usage = Usage(input: int, output: int)

  datatype Event =
    | TextDelta(text: string)
    | ToolCallStarted(id: string, name: string, args: string)
    | ToolCallDelta(id: string, args: string)
    | ToolCallCompleted(id: string)
    | TurnEnded(usage: Option<Usage>)
    | Other

  // ---------- frames ----------

  datatype Item = Message(text: string) | FunctionCall(callId: string, name: string, arguments: string)

  datatype Body =
    | Created
    | InProgress
    | MessageAdded(outputIndex: nat)
    | FunctionAdded(outputIndex: nat, callId: string, name: string)
    | PartAdded(outputIndex: nat)
    | TextDeltaSent(outputIndex: nat, delta: string)
    | TextDone(outputIndex: nat, text: string)
    | PartDone(outputIndex: nat, text: string)
    | ArgumentsDelta(outputIndex: nat, delta: string)
    | ArgumentsDone(outputIndex: nat, arguments: string)
    | ItemDone(outputIndex: nat, item: Item)
    | Completed(output: seq<Option<Item>>, usage: Option<Usage>)

  datatype Frame = Frame(sequenceNumber: nat, body: Body)

  // ---------- the writer ----------

  datatype ToolCall = ToolCall(callId: string, name: string, outputIndex: nat, arguments: string, announced: bool, closed: bool)

  datatype Writer = Writer(
    seqNo: nat,
    messageOpen: bool,
    messageIndex: nat,
    partOpen: bool,
    textSoFar: string,
    toolCalls: map<string, ToolCall>,
    nextOutIndex: nat,
    completedItems: seq<Option<Item>>,
    lastUsage: Option<Usage>,
    completedEmitted: bool)

  const NEW := Writer(0, false, 0, false, "", map[], 0, [], None, false)

  type Out = (Writer, seq<Frame>)

  // One frame, numbered by nextSeq.
  function Put(o: Out, body: Body): Out {
    (o.0.(seqNo := o.0.seqNo + 1), o.1 + [Frame(o.0.seqNo, body)])
  }

  function InitialFrames(w: Writer): Out {
    Put(Put((w, []), Created), InProgress)
  }

  function EncodeTextDelta(w: Writer, text: string): Out {
    var o1 :=
      if w.messageOpen then (w, [])
      else Put((w.(messageOpen := true, messageIndex := w.nextOutIndex, nextOutIndex := w.nextOutIndex + 1), []),
               MessageAdded(w.nextOutIndex));
    var o2 := if w.partOpen then o1 else Put((o1.0.(partOpen := true), o1.1), PartAdded(o1.0.messageIndex));
    Put((o2.0.(textSoFar := w.textSoFar + text), o2.1), TextDeltaSent(o2.0.messageIndex, text))
  }

  // Arguments, from a start or a delta, for a call that is known.
  function AppendArguments(o: Out, id: string, args: string): Out {
    if args == "" || id !in o.0.toolCalls then o
    else
      var call := o.0.toolCalls[id];
      Put((o.0.(toolCalls := o.0.toolCalls[id := call.(arguments := call.arguments + args)]), o.1),
          ArgumentsDelta(call.outputIndex, args))
  }

  function EncodeToolCallStart(w: Writer, id: string, name: string, args: string): Out {
    var w1 :=
      if id in w.toolCalls then w
      else w.(toolCalls := w.toolCalls[id := ToolCall(id, name, w.nextOutIndex, "", false, false)],
              nextOutIndex := w.nextOutIndex + 1);
    var call := w1.toolCalls[id];
    var o :=
      if call.announced then (w1, [])
      else Put((w1.(toolCalls := w1.toolCalls[id := call.(announced := true)]), []),
               FunctionAdded(call.outputIndex, call.callId, call.name));
    AppendArguments(o, id, args)
  }

  function ItemOf(call: ToolCall): Item {
    FunctionCall(call.callId, call.name, call.arguments)
  }

  function CloseToolCall(o: Out, id: string): Out
    requires id in o.0.toolCalls
  {
    var call := o.0.toolCalls[id];
    var o1 := Put((o.0.(toolCalls := o.0.toolCalls[id := call.(closed := true)]), o.1),
                  ArgumentsDone(call.outputIndex, call.arguments));
    var o2 := Put(o1, ItemDone(call.outputIndex, ItemOf(call)));
    (o2.0.(completedItems := o2.0.completedItems + [Some(ItemOf(call))]), o2.1)
  }

  function EncodeToolCallCompleted(w: Writer, id: string): Out {
    if id !in w.toolCalls || w.toolCalls[id].closed then (w, []) else CloseToolCall((w, []), id)
  }

  // insertAtOutputIndex: pads with nil up to idx, then overwrites
  function InsertAt(items: seq<Option<Item>>, idx: nat, item: Item): (r: seq<Option<Item>>)
    ensures |r| == (if idx < |items| then |items| else idx + 1)
    decreases if idx < |items| then 0 else idx + 1 - |items|
  {
    if idx < |items| then items[idx := Some(item)] else InsertAt(items + [None], idx, item)
  }

  function CloseMessage(w: Writer): Out {
    if !w.messageOpen then (w, [])
    else
      var o1 :=
        if !w.partOpen then (w, [])
        else
          var o := Put(Put((w, []), TextDone(w.messageIndex, w.textSoFar)), PartDone(w.messageIndex, w.textSoFar));
          (o.0.(partOpen := false), o.1);
      var item := Message(w.textSoFar);
      var o2 := Put(o1, ItemDone(w.messageIndex, item));
      (o2.0.(completedItems := InsertAt(o2.0.completedItems, w.messageIndex, item), messageOpen := false), o2.1)
  }

  // The loop over the map of calls, in the order Go visits it.
  function CloseCalls(o: Out, ids: seq<string>): Out {
    if ids == [] then o
    else
      var o1 := CloseCalls(o, ids[..|ids| - 1]);
      var id := ids[|ids| - 1];
      if id !in o1.0.toolCalls || !o1.0.toolCalls[id].announced || o1.0.toolCalls[id].closed then o1
      else CloseToolCall(o1, id)
  }

  function CompletedFrame(o: Out): Out {
    var w := o.0.(completedEmitted := true);
    var output := if w.completedItems == [] && w.textSoFar != "" then [Some(Message(w.textSoFar))] else w.completedItems;
    Put((w, o.1), Completed(output, w.lastUsage))
  }

  // The order in which the map of calls is visited, whatever it is: every key once.
  type Visit = set<string> -> seq<string>

  ghost predicate VisitsAll(visit: Visit) {
    forall keys :: Enumerates(visit(keys), keys)
  }

  ghost predicate Enumerates(order: seq<string>, keys: set<string>) {
    (forall k :: k in order <==> k in keys) && forall i, j | 0 <= i < j < |order| :: order[i] != order[j]
  }

  function EncodeTurnEnded(visit: Visit, w: Writer, usage: Option<Usage>): Out {
    var w1 := if usage.Some? then w.(lastUsage := usage) else w;
    CompletedFrame(CloseCalls(CloseMessage(w1), visit(w1.toolCalls.Keys)))
  }

  function Encode(visit: Visit, w: Writer, ev: Event): Out {
    match ev
    case TextDelta(text) => if text == "" then (w, []) else EncodeTextDelta(w, text)
    case ToolCallStarted(id, name, args) => EncodeToolCallStart(w, id, name, args)
    case ToolCallDelta(id, args) => AppendArguments((w, []), id, args)
    case ToolCallCompleted(id) => EncodeToolCallCompleted(w, id)
    case TurnEnded(usage) => EncodeTurnEnded(visit, w, usage)
    case Other => (w, [])
  }

  // The writer and all frames after `events`.
  function Run(visit: Visit, o: Out, events: seq<Event>): Out {
    if events == [] then o
    else
      var before := Run(visit, o, events[..|events| - 1]);
      var (w, out) := Encode(visit, before.0, events[|events| - 1]);
      (w, before.1 + out)
  }

  function Stream(visit: Visit, events: seq<Event>): Out {
    Run(visit, InitialFrames(NEW), events)
  }

  // ---------- the non-streaming accumulator ----------

  datatype AccCall = AccCall(callId: string, name: string, arguments: string)

  datatype Accumulator = Accumulator(text: string, toolCalls: seq<AccCall>, usage: Option<Usage>)

  const EMPTY := Accumulator("", [], None)

  // The first call with this id, or the number of calls.
  function Find(calls: seq<AccCall>, id: string): (r: nat)
    ensures r <= |calls|
    ensures r < |calls| ==> calls[r].callId == id
    ensures forall k | 0 <= k < r :: calls[k].callId != id
  {
    if calls == [] then 0
    else
      var n := |calls| - 1;
      var r := Find(calls[..n], id);
      if r < n then r else if calls[n].callId == id then n else n + 1
  }

  function Consume(a: Accumulator, ev: Event): Accumulator {
    match ev
    case TextDelta(text) => a.(text := a.text + text)
    case ToolCallStarted(id, name, args) => a.(toolCalls := a.toolCalls + [AccCall(id, name, args)])
    case ToolCallDelta(id, args) =>
      var i := Find(a.toolCalls, id);
      if i == |a.toolCalls| then a
      else a.(toolCalls := a.toolCalls[i := a.toolCalls[i].(arguments := a.toolCalls[i].arguments + args)])
    case TurnEnded(usage) => a.(usage := usage)
    case _ => a
  }

  function ConsumeAll(events: seq<Event>): Accumulator {
    if events == [] then EMPTY
    else Consume(ConsumeAll(events[..|events| - 1]), events[|events| - 1])
  }
}
