// The item list of response.completed, entry by entry and from the events alone.
module ResponsesList {
  import opened Wrappers
  import opened Responses
  import opened ResponsesLaws
  import opened ResponsesOrder

  // ---------- what the events say ----------

  predicate IsCall(events: seq<Event>, id: string) {
    CallSlot(id) in Slots(events)
  }

  // All text.
  function TextOf(events: seq<Event>): string {
    if events == [] then ""
    else TextOf(events[..|events| - 1]) + match events[|events| - 1] case TextDelta(text) => text case _ => ""
  }

  // The name a call was first started with.
  function NameOf(events: seq<Event>, id: string): string {
    if events == [] then ""
    else
      var front, ev := events[..|events| - 1], events[|events| - 1];
      if ev.ToolCallStarted? && ev.id == id && !IsCall(front, id) then ev.name else NameOf(front, id)
  }

  // The argument text of its starts and deltas; deltas before the start count
  // for nothing.
  function ArgsOf(events: seq<Event>, id: string): string {
    if events == [] then ""
    else
      var front, ev := events[..|events| - 1], events[|events| - 1];
      if ev.ToolCallStarted? && ev.id == id then ArgsOf(front, id) + ev.args
      else if ev.ToolCallDelta? && ev.id == id && IsCall(front, id) then ArgsOf(front, id) + ev.args
      else ArgsOf(front, id)
  }

  function CallItem(events: seq<Event>, id: string): Item {
    FunctionCall(id, NameOf(events, id), ArgsOf(events, id))
  }

  // The items of the completed calls, as they stood at their completion.
  function ClosedItems(events: seq<Event>): seq<Item> {
    if events == [] then []
    else
      var front, ev := events[..|events| - 1], events[|events| - 1];
      if ev.ToolCallCompleted? && IsCall(front, ev.id) && ev.id !in Closed(front) then ClosedItems(front) + [CallItem(front, ev.id)]
      else ClosedItems(front)
  }

  // Those of `ids` that were not completed.
  function StillOpen(closed: seq<string>, ids: seq<string>): seq<string> {
    if ids == [] then []
    else StillOpen(closed, ids[..|ids| - 1]) + if ids[|ids| - 1] in closed then [] else [ids[|ids| - 1]]
  }

  // The ids of all calls.
  function CallIds(events: seq<Event>): set<string> {
    set i | 0 <= i < |Slots(events)| && Slots(events)[i].CallSlot? :: Slots(events)[i].id
  }

  // The message stands at index `m`, if there is one.
  predicate MessageAt(events: seq<Event>, m: int) {
    0 <= m < |Slots(events)| && Slots(events)[m] == MessageSlot
  }

  // The completed calls in the order of their completion; nothing in the places
  // between them and the message, which stands at its own index, also where a
  // completed call stood.
  ghost predicate IsBase(items: seq<Option<Item>>, events: seq<Event>) {
    var closed := ClosedItems(events);
    && |items| >= |closed|
    && (|items| > |closed| ==> MessageAt(events, |items| - 1))
    && (forall m | MessageAt(events, m) :: m < |items| && items[m] == Some(Message(TextOf(events))))
    && (forall k | 0 <= k < |closed| && !MessageAt(events, k) :: items[k] == Some(closed[k]))
    && (forall k | |closed| <= k < |items| && !MessageAt(events, k) :: items[k] == None)
  }

  // Then the calls still open, in the order visited.
  ghost predicate IsList(output: seq<Option<Item>>, events: seq<Event>, ids: seq<string>) {
    var left := StillOpen(Closed(events), ids);
    && |output| >= |left|
    && var base := |output| - |left|;
       && IsBase(output[..base], events)
       && forall k | 0 <= k < |left| :: output[base + k] == Some(CallItem(events, left[k]))
  }

  // ---------- the writer keeps to it ----------

  ghost predicate CallsHold(calls: map<string, ToolCall>, events: seq<Event>) {
    forall id | id in calls :: calls[id].name == NameOf(events, id) && calls[id].arguments == ArgsOf(events, id)
  }

  ghost predicate ItemsHold(items: seq<Option<Item>>, closed: seq<Item>) {
    |items| == |closed| && forall j | 0 <= j < |items| :: items[j] == Some(closed[j])
  }

  ghost predicate Holds(w: Writer, events: seq<Event>) {
    && Planned(w, Slots(events), Closed(events))
    && CallsHold(w.toolCalls, events)
    && ItemsHold(w.completedItems, ClosedItems(events))
    && w.textSoFar == TextOf(events)
    && w.lastUsage == None
  }

  lemma {:induction false} NoCallYet(events: seq<Event>, id: string)
    requires !IsCall(events, id)
    ensures ArgsOf(events, id) == ""
  {
    if events != [] {
      var front, ev := events[..|events| - 1], events[|events| - 1];
      assert events == front + [ev];
      PlanNext(front, ev);
      NoCallYet(front, id);
    }
  }

  lemma {:induction false} TextHolds(w: Writer, front: seq<Event>, text: string)
    requires Holds(w, front) && text != "" && Planned(EncodeTextDelta(w, text).0, Slots(front + [TextDelta(text)]), Closed(front + [TextDelta(text)]))
    ensures Holds(EncodeTextDelta(w, text).0, front + [TextDelta(text)])
  {
    assert (front + [TextDelta(text)])[..|front|] == front;
  }

  // What a start does to the fields.
  lemma {:induction false} StartFields(w: Writer, id: string, name: string, args: string)
    requires id in w.toolCalls ==> w.toolCalls[id].announced
    ensures var w' := EncodeToolCallStart(w, id, name, args).0;
      && w'.completedItems == w.completedItems && w'.textSoFar == w.textSoFar && w'.lastUsage == w.lastUsage
      && w'.toolCalls.Keys == w.toolCalls.Keys + {id}
      && (forall x | x in w.toolCalls && x != id :: w'.toolCalls[x] == w.toolCalls[x])
      && (if id in w.toolCalls then w'.toolCalls[id].name == w.toolCalls[id].name
                                    && w'.toolCalls[id].arguments == w.toolCalls[id].arguments + args
          else w'.toolCalls[id].name == name && w'.toolCalls[id].arguments == args)
  {
    StartIsAnnounce(w, id, name, args);
    if id in w.toolCalls { assert w.toolCalls[id].arguments + "" == w.toolCalls[id].arguments; }
    assert "" + args == args;
  }

  lemma {:induction false} StartTold(front: seq<Event>, id: string, name: string, args: string, x: string)
    ensures var events := front + [ToolCallStarted(id, name, args)];
      && NameOf(events, x) == (if x == id && !IsCall(front, id) then name else NameOf(front, x))
      && ArgsOf(events, x) == (if x == id then ArgsOf(front, id) + args else ArgsOf(front, x))
      && ClosedItems(events) == ClosedItems(front) && TextOf(events) == TextOf(front)
  {
    assert (front + [ToolCallStarted(id, name, args)])[..|front|] == front;
    assert TextOf(front) + "" == TextOf(front);
  }

  lemma {:induction false} StartHolds(w: Writer, front: seq<Event>, id: string, name: string, args: string)
    requires Holds(w, front)
    requires var events := front + [ToolCallStarted(id, name, args)];
      Planned(EncodeToolCallStart(w, id, name, args).0, Slots(events), Closed(events))
    ensures Holds(EncodeToolCallStart(w, id, name, args).0, front + [ToolCallStarted(id, name, args)])
  {
    var events := front + [ToolCallStarted(id, name, args)];
    var w' := EncodeToolCallStart(w, id, name, args).0;
    CallSlotIsCall(w, Slots(front), Closed(front), id);
    StartFields(w, id, name, args);
    if id !in w.toolCalls { NoCallYet(front, id); }
    assert "" + args == args;
    forall x | x in w'.toolCalls ensures w'.toolCalls[x].name == NameOf(events, x) && w'.toolCalls[x].arguments == ArgsOf(events, x) {
      StartTold(front, id, name, args, x);
    }
    StartTold(front, id, name, args, id);
  }

  lemma {:induction false} DeltaTold(front: seq<Event>, id: string, args: string, x: string)
    ensures var events := front + [ToolCallDelta(id, args)];
      && NameOf(events, x) == NameOf(front, x)
      && ArgsOf(events, x) == (if x == id && IsCall(front, id) then ArgsOf(front, id) + args else ArgsOf(front, x))
      && ClosedItems(events) == ClosedItems(front) && TextOf(events) == TextOf(front)
  {
    assert (front + [ToolCallDelta(id, args)])[..|front|] == front;
    assert TextOf(front) + "" == TextOf(front);
  }

  lemma {:induction false} DeltaFields(w: Writer, id: string, args: string)
    ensures var w' := AppendArguments((w, []), id, args).0;
      && w'.completedItems == w.completedItems && w'.textSoFar == w.textSoFar && w'.lastUsage == w.lastUsage
      && w'.toolCalls.Keys == w.toolCalls.Keys
      && (forall x | x in w.toolCalls :: w'.toolCalls[x].name == w.toolCalls[x].name
            && w'.toolCalls[x].arguments == w.toolCalls[x].arguments + if x == id then args else "")
  {
    assert forall x | x in w.toolCalls :: w.toolCalls[x].arguments + "" == w.toolCalls[x].arguments;
  }

  lemma {:induction false} DeltaHolds(w: Writer, front: seq<Event>, id: string, args: string)
    requires Holds(w, front)
    requires var events := front + [ToolCallDelta(id, args)];
      Planned(AppendArguments((w, []), id, args).0, Slots(events), Closed(events))
    ensures Holds(AppendArguments((w, []), id, args).0, front + [ToolCallDelta(id, args)])
  {
    var events := front + [ToolCallDelta(id, args)];
    var w' := AppendArguments((w, []), id, args).0;
    CallSlotIsCall(w, Slots(front), Closed(front), id);
    DeltaFields(w, id, args);
    forall x | x in w'.toolCalls ensures w'.toolCalls[x].name == NameOf(events, x) && w'.toolCalls[x].arguments == ArgsOf(events, x) {
      DeltaTold(front, id, args, x);
      assert w.toolCalls[x].arguments + "" == w.toolCalls[x].arguments;
    }
    DeltaTold(front, id, args, id);
  }

  lemma {:induction false} CompletedTold(front: seq<Event>, id: string, x: string)
    ensures var events := front + [ToolCallCompleted(id)];
      && NameOf(events, x) == NameOf(front, x) && ArgsOf(events, x) == ArgsOf(front, x) && TextOf(events) == TextOf(front)
      && ClosedItems(events) == ClosedItems(front) + if IsCall(front, id) && id !in Closed(front) then [CallItem(front, id)] else []
  {
    assert (front + [ToolCallCompleted(id)])[..|front|] == front;
    assert TextOf(front) + "" == TextOf(front) && ClosedItems(front) + [] == ClosedItems(front);
  }

  lemma {:induction false} CompletedHolds(w: Writer, front: seq<Event>, id: string)
    requires Holds(w, front)
    requires var events := front + [ToolCallCompleted(id)];
      Planned(EncodeToolCallCompleted(w, id).0, Slots(events), Closed(events))
    ensures Holds(EncodeToolCallCompleted(w, id).0, front + [ToolCallCompleted(id)])
  {
    var events := front + [ToolCallCompleted(id)];
    var w' := EncodeToolCallCompleted(w, id).0;
    CallSlotIsCall(w, Slots(front), Closed(front), id);
    forall x | x in w'.toolCalls ensures w'.toolCalls[x].name == NameOf(events, x) && w'.toolCalls[x].arguments == ArgsOf(events, x) {
      CompletedTold(front, id, x);
    }
    CompletedTold(front, id, id);
  }

  lemma {:induction false} EventHolds(visit: Visit, w: Writer, front: seq<Event>, ev: Event)
    requires Holds(w, front) && !ev.TurnEnded?
    requires Planned(Encode(visit, w, ev).0, Slots(front + [ev]), Closed(front + [ev]))
    ensures Holds(Encode(visit, w, ev).0, front + [ev])
  {
    match ev
    case TextDelta(text) => if text != "" { TextHolds(w, front, text); } else { QuietHolds(w, front, ev); }
    case ToolCallStarted(id, name, args) => StartHolds(w, front, id, name, args);
    case ToolCallDelta(id, args) => DeltaHolds(w, front, id, args);
    case ToolCallCompleted(id) => CompletedHolds(w, front, id);
    case Other => QuietHolds(w, front, ev);
  }

  lemma {:induction false} QuietHolds(w: Writer, front: seq<Event>, ev: Event)
    requires Holds(w, front) && (ev.Other? || (ev.TextDelta? && ev.text == ""))
    requires Planned(w, Slots(front + [ev]), Closed(front + [ev]))
    ensures Holds(w, front + [ev])
  {
    assert (front + [ev])[..|front|] == front;
    assert TextOf(front) + "" == TextOf(front);
  }

  lemma {:induction false} RunHolds(visit: Visit, events: seq<Event>)
    requires forall e | e in events :: !e.TurnEnded?
    ensures Holds(Stream(visit, events).0, events)
  {
    RunPlanned(visit, events);
    if events != [] {
      var n := |events| - 1;
      RunHolds(visit, events[..n]);
      assert events == events[..n] + [events[n]];
      EventHolds(visit, Stream(visit, events[..n]).0, events[..n], events[n]);
    }
  }

  // ---------- the turn end ----------

  lemma {:induction false} InsertedEntries(items: seq<Option<Item>>, idx: nat, item: Item)
    ensures var r := InsertAt(items, idx, item);
      && |r| == (if idx < |items| then |items| else idx + 1)
      && forall k | 0 <= k < |r| :: r[k] == if k == idx then Some(item) else if k < |items| then items[k] else None
    decreases if idx < |items| then 0 else idx + 1 - |items|
  {
    if idx >= |items| { InsertedEntries(items + [None], idx, item); }
  }

  lemma {:induction false} MessageFields(w: Writer)
    ensures var w' := CloseMessage(w).0;
      && w'.completedItems == (if w.messageOpen then InsertAt(w.completedItems, w.messageIndex, Message(w.textSoFar)) else w.completedItems)
      && w'.toolCalls == w.toolCalls && w'.textSoFar == w.textSoFar && w'.lastUsage == w.lastUsage
  {
  }

  lemma {:induction false} WithMessage(items: seq<Option<Item>>, m: nat, events: seq<Event>)
    requires ItemsHold(items, ClosedItems(events)) && MessageAt(events, m)
    ensures IsBase(InsertAt(items, m, Message(TextOf(events))), events)
  {
    InsertedEntries(items, m, Message(TextOf(events)));
    SlotsDiffer(events);
    assert forall k | MessageAt(events, k) :: k == m;
  }

  lemma {:induction false} WithoutMessage(items: seq<Option<Item>>, events: seq<Event>)
    requires ItemsHold(items, ClosedItems(events)) && MessageSlot !in Slots(events)
    ensures IsBase(items, events)
  {
    assert forall m | 0 <= m < |Slots(events)| :: Slots(events)[m] in Slots(events);
  }

  lemma {:induction false} MessageDone(w: Writer, events: seq<Event>)
    requires Holds(w, events)
    ensures IsBase(CloseMessage(w).0.completedItems, events)
    ensures CloseMessage(w).0.toolCalls == w.toolCalls
    ensures CloseMessage(w).0.textSoFar == w.textSoFar && CloseMessage(w).0.lastUsage == w.lastUsage
  {
    MessageFields(w);
    if w.messageOpen { WithMessage(w.completedItems, w.messageIndex, events); } else { WithoutMessage(w.completedItems, events); }
  }

  function Called(events: seq<Event>, ids: seq<string>): (r: seq<Option<Item>>)
    ensures |r| == |ids| && forall k | 0 <= k < |ids| :: r[k] == Some(CallItem(events, ids[k]))
  {
    seq(|ids|, k requires 0 <= k < |ids| => Some(CallItem(events, ids[k])))
  }

  // What the loop over the calls leaves, when `ids` are visited.
  ghost predicate Visited(w: Writer, after: Writer, events: seq<Event>, ids: seq<string>) {
    && after.completedItems == w.completedItems + Called(events, StillOpen(Closed(events), ids))
    && after.toolCalls.Keys == w.toolCalls.Keys
    && (forall id | id in w.toolCalls ::
          after.toolCalls[id] == w.toolCalls[id].(closed := w.toolCalls[id].closed || id in ids))
    && after.textSoFar == w.textSoFar && after.lastUsage == w.lastUsage
  }

  lemma {:induction false} CalledNext(events: seq<Event>, ids: seq<string>, id: string)
    ensures Called(events, ids + [id]) == Called(events, ids) + [Some(CallItem(events, id))]
  {
  }

  lemma {:induction false} CloseCallsVisit(o: Out, events: seq<Event>, ids: seq<string>)
    requires CallsPlanned(o.0.toolCalls, Slots(events), Closed(events)) && CallsHold(o.0.toolCalls, events)
    requires forall id | id in ids :: id in o.0.toolCalls
    requires forall i, j | 0 <= i < j < |ids| :: ids[i] != ids[j]
    ensures Visited(o.0, CloseCalls(o, ids).0, events, ids)
  {
    if ids == [] {
      assert o.0.completedItems + [] == o.0.completedItems;
    } else {
      var n := |ids| - 1;
      var front, id := ids[..n], ids[n];
      assert ids == front + [id] && id !in front;
      CloseCallsVisit(o, events, front);
      VisitOne(o, CloseCalls(o, front), events, front, id);
    }
  }

  lemma {:induction false} VisitClosed(o: Out, o1: Out, events: seq<Event>, front: seq<string>, id: string)
    requires CallsPlanned(o.0.toolCalls, Slots(events), Closed(events)) && CallsHold(o.0.toolCalls, events)
    requires Visited(o.0, o1.0, events, front) && id in o.0.toolCalls && id !in front && id in Closed(events)
    ensures o1.0.toolCalls[id].closed && Visited(o.0, o1.0, events, front + [id])
  {
    assert (front + [id])[..|front|] == front;
    assert forall x :: x in front + [id] <==> x in front || x == id;
    assert StillOpen(Closed(events), front + [id]) == StillOpen(Closed(events), front);
  }

  lemma {:induction false} VisitOpen(o: Out, o1: Out, events: seq<Event>, front: seq<string>, id: string)
    requires CallsPlanned(o.0.toolCalls, Slots(events), Closed(events)) && CallsHold(o.0.toolCalls, events)
    requires Visited(o.0, o1.0, events, front) && id in o.0.toolCalls && id !in front && id !in Closed(events)
    ensures !o1.0.toolCalls[id].closed && Visited(o.0, CloseToolCall(o1, id).0, events, front + [id])
  {
    assert (front + [id])[..|front|] == front;
    assert forall x :: x in front + [id] <==> x in front || x == id;
    assert StillOpen(Closed(events), front + [id]) == StillOpen(Closed(events), front) + [id];
    CalledNext(events, StillOpen(Closed(events), front), id);
  }

  lemma {:induction false} VisitOne(o: Out, o1: Out, events: seq<Event>, front: seq<string>, id: string)
    requires CallsPlanned(o.0.toolCalls, Slots(events), Closed(events)) && CallsHold(o.0.toolCalls, events)
    requires Visited(o.0, o1.0, events, front) && id in o.0.toolCalls && id !in front
    ensures var o2 := if o1.0.toolCalls[id].closed then o1 else CloseToolCall(o1, id);
      Visited(o.0, o2.0, events, front + [id])
    ensures o1.0.toolCalls[id].announced
  {
    if id in Closed(events) { VisitClosed(o, o1, events, front, id); } else { VisitOpen(o, o1, events, front, id); }
  }

  lemma {:induction false} CallIdsAreKeys(w: Writer, events: seq<Event>)
    requires Planned(w, Slots(events), Closed(events))
    ensures CallIds(events) == w.toolCalls.Keys
  {
    forall id | id in w.toolCalls ensures id in CallIds(events) {
      assert Slots(events)[w.toolCalls[id].outputIndex] == CallSlot(id);
    }
  }

  lemma {:induction false} BaseAndOpen(items: seq<Option<Item>>, output: seq<Option<Item>>, events: seq<Event>, ids: seq<string>)
    requires IsBase(items, events) && output == items + Called(events, StillOpen(Closed(events), ids))
    ensures IsList(output, events, ids)
  {
    var left := StillOpen(Closed(events), ids);
    var base := |output| - |left|;
    BehindBase(items, Called(events, left), output);
    assert IsBase(output[..base], events);
  }

  lemma {:induction false} BehindBase(items: seq<Option<Item>>, more: seq<Option<Item>>, output: seq<Option<Item>>)
    requires output == items + more
    ensures |output| - |more| == |items| && output[..|items|] == items
    ensures forall k | 0 <= k < |more| :: output[|items| + k] == more[k]
  {
  }

  // The frame response.completed shows the list, unless it is empty beside text.
  lemma {:induction false} LastIsCompleted(o: Out)
    requires o.0.completedItems != [] || o.0.textSoFar == ""
    ensures var out := CompletedFrame(o).1;
      out != [] && out[|out| - 1].body == Completed(o.0.completedItems, o.0.lastUsage)
  {
  }

  function WithUsage(w: Writer, usage: Option<Usage>): Writer {
    if usage.Some? then w.(lastUsage := usage) else w
  }

  lemma {:induction false} UsageHolds(w: Writer, events: seq<Event>, usage: Option<Usage>)
    requires Holds(w, events)
    ensures var w1 := WithUsage(w, usage); w1.lastUsage == usage && w1 == w.(lastUsage := usage)
  {
  }

  // The writer before that frame.
  lemma {:induction false} EndWriter(w: Writer, events: seq<Event>, usage: Option<Usage>, ids: seq<string>)
    requires Holds(w, events) && Enumerates(ids, w.toolCalls.Keys)
    ensures var w2 := CloseCalls(CloseMessage(WithUsage(w, usage)), ids).0;
      && IsList(w2.completedItems, events, ids) && w2.lastUsage == usage
      && (w2.completedItems != [] || w2.textSoFar == "")
  {
    var w1 := WithUsage(w, usage);
    UsageHolds(w, events, usage);
    MessageDone(w, events);
    MessageFields(w);
    MessageFields(w1);
    var o1 := CloseMessage(w1);
    CloseCallsVisit(o1, events, ids);
    BaseAndOpen(o1.0.completedItems, CloseCalls(o1, ids).0.completedItems, events, ids);
    if w.textSoFar != "" { MessageFirst(events); }
  }

  lemma {:induction false} EndListed(visit: Visit, w: Writer, events: seq<Event>, usage: Option<Usage>)
    requires VisitsAll(visit) && Holds(w, events)
    ensures var out := EncodeTurnEnded(visit, w, usage).1;
      && out != [] && out[|out| - 1].body.Completed?
      && IsList(out[|out| - 1].body.output, events, visit(CallIds(events))) && out[|out| - 1].body.usage == usage
  {
    CallIdsAreKeys(w, events);
    var ids := visit(CallIds(events));
    assert Enumerates(ids, w.toolCalls.Keys);
    EndWriter(w, events, usage, ids);
    LastIsCompleted(CloseCalls(CloseMessage(WithUsage(w, usage)), ids));
  }

  // Text means that there is a message.
  lemma {:induction false} MessageFirst(events: seq<Event>)
    requires TextOf(events) != ""
    ensures exists m :: MessageAt(events, m)
  {
    var front, ev := events[..|events| - 1], events[|events| - 1];
    assert events == front + [ev];
    PlanNext(front, ev);
    if TextOf(front) != "" {
      MessageFirst(front);
      var m :| MessageAt(front, m);
      assert MessageAt(events, m);
    } else {
      assert MessageSlot in Slots(events);
      var m :| 0 <= m < |Slots(events)| && Slots(events)[m] == MessageSlot;
      assert MessageAt(events, m);
    }
  }

  // The list of response.completed at the first turn end of any run, in full,
  // whatever the order in which the map of calls is visited; and the usage.
  lemma {:induction false} CompletedListExactly(visit: Visit, events: seq<Event>, usage: Option<Usage>)
    requires VisitsAll(visit) && forall e | e in events :: !e.TurnEnded?
    ensures var frames := Stream(visit, events + [TurnEnded(usage)]).1;
      && frames != [] && frames[|frames| - 1].body.Completed?
      && IsList(frames[|frames| - 1].body.output, events, visit(CallIds(events)))
      && frames[|frames| - 1].body.usage == usage
  {
    var (w, out) := Stream(visit, events);
    RunHolds(visit, events);
    EndListed(visit, w, events, usage);
    StreamSnoc(visit, events, TurnEnded(usage));
    var more := EncodeTurnEnded(visit, w, usage).1;
    assert (out + more)[|out + more| - 1] == more[|more| - 1];
  }

  const OPEN_CALL: seq<Event> := [ToolCallStarted("a", "f", "{}"), TextDelta("hi")]

  lemma {:induction false} OpenCallTold()
    ensures Slots(OPEN_CALL) == [CallSlot("a"), MessageSlot] && Closed(OPEN_CALL) == [] && ClosedItems(OPEN_CALL) == []
    ensures TextOf(OPEN_CALL) == "hi" && CallItem(OPEN_CALL, "a") == FunctionCall("a", "f", "{}")
  {
    var first := [OPEN_CALL[0]];
    assert OPEN_CALL == first + [OPEN_CALL[1]] && first == [] + first;
    assert OPEN_CALL[..1] == first && first[..0] == [];
    PlanNext([], OPEN_CALL[0]);
    PlanNext(first, OPEN_CALL[1]);
    assert NameOf(first, "a") == "f" && ArgsOf(first, "a") == "" + "{}" && TextOf(first) == "" + "";
    assert TextOf(OPEN_CALL) == "" + "hi";
  }

  lemma {:induction false} SamePlace(ids: seq<string>, i: nat, j: nat)
    requires Enumerates(ids, {"a"}) && i < |ids| && j < |ids|
    ensures i == j && ids[i] == "a"
  {
    assert ids[i] in ids && ids[j] in ids;
    assert ids[i] in {"a"} && ids[j] in {"a"};
  }

  lemma {:induction false} OnlyOne(ids: seq<string>)
    requires Enumerates(ids, {"a"})
    ensures ids == ["a"]
  {
    assert "a" in ids;
    SamePlace(ids, 0, |ids| - 1);
  }

  lemma {:induction false} OpenCallVisit(visit: Visit)
    requires VisitsAll(visit)
    ensures visit(CallIds(OPEN_CALL)) == ["a"] && StillOpen([], ["a"]) == ["a"]
  {
    OpenCallTold();
    assert Slots(OPEN_CALL)[0] == CallSlot("a") && Slots(OPEN_CALL)[1] == MessageSlot;
    assert "a" in CallIds(OPEN_CALL);
    assert CallIds(OPEN_CALL) == {"a"};
    OnlyOne(visit({"a"}));
    assert ["a"][..0] == [];
  }

  // A call left open before the message leaves an empty entry at its index and
  // stands behind the message.
  lemma {:induction false} GapBeforeMessage(visit: Visit)
    requires VisitsAll(visit)
    ensures var frames := Stream(visit, OPEN_CALL + [TurnEnded(None)]).1;
      && frames != []
      && frames[|frames| - 1].body == Completed([None, Some(Message("hi")), Some(FunctionCall("a", "f", "{}"))], None)
  {
    CompletedListExactly(visit, OPEN_CALL, None);
    OpenCallVisit(visit);
    var frames := Stream(visit, OPEN_CALL + [TurnEnded(None)]).1;
    GapLast(frames[|frames| - 1].body);
  }

  lemma {:induction false} GapLast(last: Body)
    requires StillOpen([], ["a"]) == ["a"]
    requires last.Completed? && IsList(last.output, OPEN_CALL, ["a"]) && last.usage == None
    ensures last == Completed([None, Some(Message("hi")), Some(FunctionCall("a", "f", "{}"))], None)
  {
    OpenCallTold();
    GapEntries(last.output);
  }

  lemma {:induction false} GapEntries(output: seq<Option<Item>>)
    requires Slots(OPEN_CALL) == [CallSlot("a"), MessageSlot] && Closed(OPEN_CALL) == [] && ClosedItems(OPEN_CALL) == []
    requires TextOf(OPEN_CALL) == "hi" && CallItem(OPEN_CALL, "a") == FunctionCall("a", "f", "{}")
    requires StillOpen([], ["a"]) == ["a"] && IsList(output, OPEN_CALL, ["a"])
    ensures output == [None, Some(Message("hi")), Some(FunctionCall("a", "f", "{}"))]
  {
    assert MessageAt(OPEN_CALL, 1) && !MessageAt(OPEN_CALL, 0);
    var base := output[..|output| - 1];
    assert IsBase(base, OPEN_CALL);
    assert base[0] == None && base[1] == Some(Message("hi"));
    assert output[|output| - 1 + 0] == Some(CallItem(OPEN_CALL, ["a"][0]));
  }
}
