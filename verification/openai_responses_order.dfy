// The Responses stream in terms of its events alone: which items a turn has and
// in which order, which calls were completed, and hence when response.completed
// lists the items in order, whatever order Go visits its map in.
module ResponsesOrder {
  import opened Wrappers
  import opened Responses
  import opened ResponsesLaws
  import opened ResponsesOutput

  // ---------- what the events say ----------

  datatype Slot = MessageSlot | CallSlot(id: string)

  // The slot that an event asks for.
  function SlotOf(ev: Event): Option<Slot> {
    match ev
    case TextDelta(text) => if text != "" then Some(MessageSlot) else None
    case ToolCallStarted(id, _, _) => Some(CallSlot(id))
    case _ => None
  }

  // The output items in order: each slot where it is first asked for.
  function Slots(events: seq<Event>): seq<Slot> {
    if events == [] then []
    else
      var before, slot := Slots(events[..|events| - 1]), SlotOf(events[|events| - 1]);
      if slot.Some? && slot.value !in before then before + [slot.value] else before
  }

  // The calls completed, in the order of their first completion after a start.
  function Closed(events: seq<Event>): seq<string> {
    if events == [] then []
    else
      var front, ev := events[..|events| - 1], events[|events| - 1];
      var before := Closed(front);
      if ev.ToolCallCompleted? && CallSlot(ev.id) in Slots(front) && ev.id !in before then before + [ev.id] else before
  }

  lemma {:induction false} PlanNext(front: seq<Event>, ev: Event)
    ensures Slots(front + [ev]) ==
      if SlotOf(ev).Some? && SlotOf(ev).value !in Slots(front) then Slots(front) + [SlotOf(ev).value] else Slots(front)
    ensures Closed(front + [ev]) ==
      if ev.ToolCallCompleted? && CallSlot(ev.id) in Slots(front) && ev.id !in Closed(front) then Closed(front) + [ev.id]
      else Closed(front)
  {
    assert (front + [ev])[..|front + [ev]| - 1] == front;
  }

  lemma {:induction false} SlotsDiffer(events: seq<Event>)
    ensures forall i, j | 0 <= i < j < |Slots(events)| :: Slots(events)[i] != Slots(events)[j]
  {
    if events != [] { SlotsDiffer(events[..|events| - 1]); }
  }

  // ---------- the writer keeps to it ----------

  ghost predicate CallsPlanned(calls: map<string, ToolCall>, slots: seq<Slot>, closed: seq<string>) {
    && (forall id | id in calls :: calls[id].outputIndex < |slots| && slots[calls[id].outputIndex] == CallSlot(id))
    && (forall id | id in calls :: calls[id].announced && calls[id].callId == id && (calls[id].closed <==> id in closed))
    && (forall i | 0 <= i < |slots| && slots[i].CallSlot? :: slots[i].id in calls)
    && (forall id | id in closed :: id in calls)
  }

  ghost predicate MessagePlanned(w: Writer, slots: seq<Slot>) {
    && (w.messageOpen ==> w.messageIndex < |slots| && slots[w.messageIndex] == MessageSlot)
    && (MessageSlot in slots ==> w.messageOpen)
  }

  ghost predicate DonePlanned(done: seq<(nat, Item)>, slots: seq<Slot>, closed: seq<string>) {
    |done| == |closed| && forall j | 0 <= j < |done| :: done[j].0 < |slots| && slots[done[j].0] == CallSlot(closed[j])
  }

  ghost predicate Planned(w: Writer, slots: seq<Slot>, closed: seq<string>) {
    && w.nextOutIndex == |slots|
    && CallsPlanned(w.toolCalls, slots, closed)
    && MessagePlanned(w, slots)
  }

  lemma {:induction false} TextPlanned(w: Writer, slots: seq<Slot>, closed: seq<string>, text: string)
    requires Planned(w, slots, closed)
    ensures Planned(EncodeTextDelta(w, text).0, if MessageSlot in slots then slots else slots + [MessageSlot], closed)
  {
  }

  lemma {:induction false} ArgumentsPlanned(o: Out, slots: seq<Slot>, closed: seq<string>, id: string, args: string)
    requires Planned(o.0, slots, closed)
    ensures Planned(AppendArguments(o, id, args).0, slots, closed)
  {
  }

  lemma {:induction false} AnnouncePlanned(w: Writer, slots: seq<Slot>, closed: seq<string>, id: string, name: string)
    requires Planned(w, slots, closed)
    ensures Planned(Announce(w, id, name).0, if CallSlot(id) in slots then slots else slots + [CallSlot(id)], closed)
  {
    if id in w.toolCalls {
      assert slots[w.toolCalls[id].outputIndex] == CallSlot(id);
    } else {
      assert CallSlot(id) !in slots;
      var w' := Announce(w, id, name).0;
      assert w'.toolCalls[id].outputIndex == |slots|;
    }
  }

  lemma {:induction false} ClosePlanned(o: Out, slots: seq<Slot>, closed: seq<string>, id: string)
    requires Planned(o.0, slots, closed) && id in o.0.toolCalls && id !in closed
    ensures Planned(CloseToolCall(o, id).0, slots, closed + [id])
  {
    assert forall x :: x in closed + [id] <==> x in closed || x == id;
  }

  lemma {:induction false} EventPlanned(visit: Visit, w: Writer, events: seq<Event>)
    requires events != [] && !events[|events| - 1].TurnEnded?
    requires Planned(w, Slots(events[..|events| - 1]), Closed(events[..|events| - 1]))
    ensures Planned(Encode(visit, w, events[|events| - 1]).0, Slots(events), Closed(events))
  {
    var front, ev := events[..|events| - 1], events[|events| - 1];
    var slots, closed := Slots(front), Closed(front);
    match ev
    case TextDelta(text) => if text != "" { TextPlanned(w, slots, closed, text); }
    case ToolCallStarted(id, name, args) =>
      StartIsAnnounce(w, id, name, args);
      AnnouncePlanned(w, slots, closed, id, name);
      ArgumentsPlanned(Announce(w, id, name), Slots(events), closed, id, args);
    case ToolCallDelta(id, args) => ArgumentsPlanned((w, []), slots, closed, id, args);
    case ToolCallCompleted(id) =>
      CallSlotIsCall(w, slots, closed, id);
      if id in w.toolCalls && id !in closed { ClosePlanned((w, []), slots, closed, id); }
    case Other =>
  }

  lemma {:induction false} CallSlotIsCall(w: Writer, slots: seq<Slot>, closed: seq<string>, id: string)
    requires Planned(w, slots, closed)
    ensures CallSlot(id) in slots <==> id in w.toolCalls
  {
    if id in w.toolCalls { assert slots[w.toolCalls[id].outputIndex] == CallSlot(id); }
  }

  lemma {:induction false} RunPlanned(visit: Visit, events: seq<Event>)
    requires forall e | e in events :: !e.TurnEnded?
    ensures Planned(Stream(visit, events).0, Slots(events), Closed(events))
  {
    if events != [] {
      var n := |events| - 1;
      RunPlanned(visit, events[..n]);
      EventPlanned(visit, Stream(visit, events[..n]).0, events);
    }
  }

  lemma {:induction false} OneMoreDone(done: seq<(nat, Item)>, w: Writer, slots: seq<Slot>, closed: seq<string>, id: string)
    requires Planned(w, slots, closed) && DonePlanned(done, slots, closed) && id in w.toolCalls
    ensures DonePlanned(done + DoneBy(CloseToolCall((w, []), id).1), slots, closed + [id])
  {
    CloseCallDone((w, []), id);
  }

  lemma {:induction false} SameDone(done: seq<(nat, Item)>, slots: seq<Slot>, more: seq<Slot>, closed: seq<string>)
    requires DonePlanned(done, slots, closed) && slots <= more
    ensures DonePlanned(done + [], more, closed)
  {
    assert done + [] == done;
  }

  lemma {:induction false} EventDone(visit: Visit, o: Out, events: seq<Event>)
    requires events != [] && !events[|events| - 1].TurnEnded?
    requires Planned(o.0, Slots(events[..|events| - 1]), Closed(events[..|events| - 1]))
    requires DonePlanned(DoneBy(o.1), Slots(events[..|events| - 1]), Closed(events[..|events| - 1]))
    ensures DonePlanned(DoneBy(o.1) + DoneBy(Encode(visit, o.0, events[|events| - 1]).1), Slots(events), Closed(events))
  {
    var front, ev := events[..|events| - 1], events[|events| - 1];
    var slots, closed := Slots(front), Closed(front);
    if ev.ToolCallCompleted? {
      CallSlotIsCall(o.0, slots, closed, ev.id);
      if ev.id in o.0.toolCalls && ev.id !in closed {
        OneMoreDone(DoneBy(o.1), o.0, slots, closed, ev.id);
      } else {
        SameDone(DoneBy(o.1), slots, slots, closed);
      }
    } else {
      OthersDoNothing(visit, o.0, ev);
      SameDone(DoneBy(o.1), slots, Slots(events), closed);
    }
  }

  // The done frames so far are those of the completed calls, in that order.
  lemma {:induction false} RunDone(visit: Visit, events: seq<Event>)
    requires forall e | e in events :: !e.TurnEnded?
    ensures DonePlanned(DoneBy(Stream(visit, events).1), Slots(events), Closed(events))
  {
    if events == [] {
      NoneDone(Stream(visit, events).1);
    } else {
      var n := |events| - 1;
      RunDone(visit, events[..n]);
      RunPlanned(visit, events[..n]);
      var o := Stream(visit, events[..n]);
      EventDone(visit, o, events);
      DoneByAppend(o.1, Encode(visit, o.0, events[n]).1);
    }
  }

  // ---------- late argument text ----------

  // An event brings argument text for a call that was completed before it.
  predicate LateAt(events: seq<Event>, k: nat)
    requires k < |events|
  {
    (events[k].ToolCallStarted? || events[k].ToolCallDelta?) && events[k].args != "" && events[k].id in Closed(events[..k])
  }

  predicate LateArguments(events: seq<Event>) {
    exists k | 0 <= k < |events| :: LateAt(events, k)
  }

  lemma {:induction false} LateIsContinuing(visit: Visit, events: seq<Event>)
    requires forall e | e in events :: !e.TurnEnded?
    ensures EverContinues(visit, events) <==> LateArguments(events)
  {
    forall k | 0 <= k < |events|
      ensures Continues(Stream(visit, events[..k]).0, events[k]) <==> LateAt(events, k)
    {
      RunPlanned(visit, events[..k]);
    }
  }

  // The life of the items, with its condition on the events: argument text
  // follows its own arguments.done if and only if a start or a delta brings text
  // for a call completed before it.
  lemma {:induction false} ItemLifecycleByEvents(visit: Visit, events: seq<Event>, usage: Option<Usage>)
    requires VisitsAll(visit) && forall e | e in events :: !e.TurnEnded?
    ensures LifeFrom(Before, Stream(visit, events + [TurnEnded(usage)]).1) == Over(LateArguments(events))
  {
    ItemLifecycle(visit, events, usage);
    LateIsContinuing(visit, events);
  }

  // A run with such an event.
  lemma {:induction false} LateTextExists()
    ensures LateArguments([ToolCallStarted("a", "f", ""), ToolCallCompleted("a"), ToolCallDelta("a", "x")])
  {
    var events := [ToolCallStarted("a", "f", ""), ToolCallCompleted("a"), ToolCallDelta("a", "x")];
    PlanNext([], events[0]);
    PlanNext([events[0]], events[1]);
    assert [] + [events[0]] == [events[0]] && [events[0]] + [events[1]] == events[..2];
    assert LateAt(events, 2);
  }

  // ---------- the list of response.completed ----------

  ghost predicate ListsInOrder(visit: Visit, events: seq<Event>, usage: Option<Usage>) {
    var frames := Stream(visit, events + [TurnEnded(usage)]).1;
    frames != [] && frames[|frames| - 1].body.Completed?
    && InIndexOrder(frames[|frames| - 1].body.output, DoneBy(frames))
  }

  // How many items are done when the loop over the open calls begins.
  function Rest(events: seq<Event>): nat {
    |Closed(events)| + if MessageSlot in Slots(events) then 1 else 0
  }

  // The calls completed before the turn end are the first items, completed in
  // their order; the message, if any, comes next.
  predicate PrefixInOrder(events: seq<Event>) {
    var slots, closed := Slots(events), Closed(events);
    && (forall j | 0 <= j < |closed| :: j < |slots| && slots[j] == CallSlot(closed[j]))
    && (MessageSlot in slots ==> |closed| < |slots| && slots[|closed|] == MessageSlot)
  }

  // And at most one call is left.
  predicate EventsInOrder(events: seq<Event>) {
    PrefixInOrder(events) && |Slots(events)| <= Rest(events) + 1
  }

  // What the turn end leaves done: the completed calls, the message, and the
  // calls that were still open in the order visited.
  ghost predicate TurnDone(done: seq<(nat, Item)>, slots: seq<Slot>, closed: seq<string>) {
    var m := if MessageSlot in slots then 1 else 0;
    && |closed| + m <= |done| <= |slots|
    && DonePlanned(done[..|closed|], slots, closed)
    && (m == 1 ==> done[|closed|].0 < |slots| && slots[done[|closed|].0] == MessageSlot)
    && (forall j | 0 <= j < |done| :: done[j].0 < |slots|)
    && (forall i, j | 0 <= i < j < |done| :: done[i].0 != done[j].0)
  }

  lemma {:induction false} InOrderPrefix(done: seq<(nat, Item)>, events: seq<Event>)
    requires TurnDone(done, Slots(events), Closed(events)) && DoneInOrder(done)
    ensures PrefixInOrder(events)
  {
    forall j | 0 <= j < |Closed(events)|
      ensures done[..|Closed(events)|][j].0 == j
    {
    }
  }

  lemma {:induction false} PrefixGivesOrder(done: seq<(nat, Item)>, events: seq<Event>)
    requires TurnDone(done, Slots(events), Closed(events)) && PrefixInOrder(events)
    ensures Rest(events) <= |done| && forall j | 0 <= j < Rest(events) :: done[j].0 == j
  {
    var slots, closed := Slots(events), Closed(events);
    SlotsDiffer(events);
    forall j | 0 <= j < |closed|
      ensures done[j].0 == j
    {
      assert done[..|closed|][j] == done[j];
      assert slots[done[j].0] == slots[j];
    }
    if MessageSlot in slots { assert slots[done[|closed|].0] == slots[|closed|]; }
  }

  lemma {:induction false} EventsGiveOrder(done: seq<(nat, Item)>, events: seq<Event>)
    requires TurnDone(done, Slots(events), Closed(events)) && EventsInOrder(events)
    ensures DoneInOrder(done)
  {
    PrefixGivesOrder(done, events);
    OneIndexLeft(done, Rest(events));
  }

  // All indices but the greatest are taken, so it is the last one's.
  lemma {:induction false} OneIndexLeft(done: seq<(nat, Item)>, rest: nat)
    requires rest <= |done| <= rest + 1
    requires forall j | 0 <= j < rest :: done[j].0 == j
    requires forall j | 0 <= j < |done| :: done[j].0 <= rest
    requires forall i, j | 0 <= i < j < |done| :: done[i].0 != done[j].0
    ensures DoneInOrder(done)
  {
    if |done| == rest + 1 {
      var x := done[rest].0;
      assert x < rest ==> done[x].0 == x;
    }
  }

  lemma {:induction false} DoneCountBound(items: seq<ItemLife>)
    ensures DoneCount(items) <= |items|
  {
    if items != [] { DoneCountBound(items[..|items| - 1]); }
  }

  predicate Adds(f: Frame) {
    f.body.MessageAdded? || f.body.FunctionAdded?
  }

  // Frames that add no item leave as many as there were.
  lemma {:induction false} FramesKeepSize(l: Life, frames: seq<Frame>)
    requires l.Live? && forall f | f in frames :: !Adds(f)
    ensures var l' := LifeFrom(l, frames); !l'.Before? && !l'.Announced? && (l'.Live? ==> |l'.items| == |l.items|)
  {
    if frames != [] {
      FramesKeepSize(l, frames[..|frames| - 1]);
      assert frames[|frames| - 1] in frames;
    }
  }

  lemma {:induction false} ClosingAddsNothing(w: Writer, ids: seq<string>)
    ensures forall f | f in CloseCalls(CloseMessage(w), ids).1 :: !Adds(f)
  {
    if ids != [] { ClosingAddsNothing(w, ids[..|ids| - 1]); }
  }

  // The done frames of a whole turn, up to the calls closed at its end.
  lemma {:induction false} TurnIsDone(visit: Visit, events: seq<Event>, ids: seq<string>)
    requires forall e | e in events :: !e.TurnEnded?
    ensures var (w, out) := Stream(visit, events);
      TurnDone(DoneBy(out + CloseCalls(CloseMessage(w), ids).1), Slots(events), Closed(events))
  {
    var (w, out) := Stream(visit, events);
    var slots, closed := Slots(events), Closed(events);
    RunKeeps(visit, events);
    RunPlanned(visit, events);
    RunDone(visit, events);
    var l := LifeFrom(Before, out);
    var o1 := CloseMessage(w);
    var o2 := CloseCalls(o1, ids);
    TurnEndFacts(w, out, ids);
    ClosingAddsNothing(w, ids);
    FramesKeepSize(l, o2.1);
    LifeAppend(Before, out, o2.1);
    DoneCountBound(LifeFrom(Before, out + o2.1).items);
    if w.messageOpen { CloseMessageDone(w); }
    CloseCallsAppend(o1, ids);
    var more :| Appends(o1, o2, more);
    var done := DoneBy(out + o2.1);
    assert done == DoneBy(out) + (DoneBy(o1.1) + more);
    assert done[..|closed|] == DoneBy(out);
    assert w.messageOpen ==> done[|closed|] == DoneBy(o1.1)[0];
    assert w.messageOpen <==> MessageSlot in slots;
  }

  // ---------- orders of visiting ----------

  ghost function Enum(keys: set<string>): seq<string> {
    if keys == {} then []
    else
      var k :| k in keys;
      [k] + Enum(keys - {k})
  }

  lemma {:induction false} EnumIsOnce(keys: set<string>)
    ensures Enumerates(Enum(keys), keys)
  {
    if keys != {} {
      var k := Enum(keys)[0];
      assert Enum(keys) == [k] + Enum(keys - {k});
      EnumIsOnce(keys - {k});
    }
  }

  // An order that visits this key first.
  ghost function VisitFirst(b: string): Visit {
    (keys: set<string>) => if b in keys then [b] + Enum(keys - {b}) else Enum(keys)
  }

  lemma {:induction false} VisitFirstVisitsAll(b: string)
    ensures VisitsAll(VisitFirst(b))
  {
    forall keys
      ensures Enumerates(VisitFirst(b)(keys), keys)
    {
      EnumIsOnce(keys);
      EnumIsOnce(keys - {b});
    }
  }

  lemma {:induction false} CloseCallsSplit(o: Out, a: seq<string>, b: seq<string>)
    ensures CloseCalls(o, a + b) == CloseCalls(CloseCalls(o, a), b)
  {
    if b == [] {
      assert a + b == a;
    } else {
      CloseCallsSplit(o, a, b[..|b| - 1]);
      assert (a + b)[..|a + b| - 1] == a + b[..|b| - 1];
    }
  }

  // The first call visited that is still open is done first.
  lemma {:induction false} FirstIsDone(o: Out, b: string, ids: seq<string>)
    requires b in o.0.toolCalls && o.0.toolCalls[b].announced && !o.0.toolCalls[b].closed
    ensures var done := DoneBy(CloseCalls(o, [b] + ids).1);
      |done| > |DoneBy(o.1)| && done[|DoneBy(o.1)|].0 == o.0.toolCalls[b].outputIndex
  {
    var o1 := CloseToolCall(o, b);
    assert [b][..0] == [];
    assert CloseCalls(o, [b]) == o1;
    CloseCallsSplit(o, [b], ids);
    CloseCallDone(o, b);
    CloseCallsAppend(o1, ids);
    var more :| Appends(o1, CloseCalls(o1, ids), more);
  }

  // The state of a turn that has ended, seen from its done frames.
  lemma {:induction false} TurnEndIsDone(visit: Visit, events: seq<Event>, usage: Option<Usage>)
    requires VisitsAll(visit) && forall e | e in events :: !e.TurnEnded?
    ensures var (w, out) := Stream(visit, events);
      var done := DoneBy(out + CloseCalls(CloseMessage(w), visit(w.toolCalls.Keys)).1);
      ListsInOrder(visit, events, usage) <==> DoneInOrder(done)
  {
    CompletedListsInOrder(visit, events, usage);
    StreamSnoc(visit, events, TurnEnded(usage));
    var (w, out) := Stream(visit, events);
    var w1 := if usage.Some? then w.(lastUsage := usage) else w;
    LastUsageAside(w, usage, visit(w.toolCalls.Keys));
    LastFrame(out, CloseCalls(CloseMessage(w1), visit(w.toolCalls.Keys)));
  }

  lemma {:induction false} LastUsageAside(w: Writer, usage: Option<Usage>, ids: seq<string>)
    ensures var o := CloseCalls(CloseMessage(w), ids);
      CloseCalls(CloseMessage(w.(lastUsage := usage)), ids) == (o.0.(lastUsage := usage), o.1)
  {
    if ids != [] {
      LastUsageAside(w, usage, ids[..|ids| - 1]);
      var o := CloseCalls(CloseMessage(w), ids[..|ids| - 1]);
      if ids[|ids| - 1] in o.0.toolCalls { CloseCallAside(o, usage, ids[|ids| - 1]); }
    }
  }

  lemma {:induction false} CloseCallAside(o: Out, usage: Option<Usage>, id: string)
    requires id in o.0.toolCalls
    ensures CloseToolCall((o.0.(lastUsage := usage), o.1), id) ==
      (CloseToolCall(o, id).0.(lastUsage := usage), CloseToolCall(o, id).1)
  {
  }

  // With two calls left open, some order of visiting lists out of order.
  lemma {:induction false} TwoOpenCalls(events: seq<Event>, usage: Option<Usage>) returns (visit: Visit)
    requires forall e | e in events :: !e.TurnEnded?
    requires PrefixInOrder(events) && |Slots(events)| > Rest(events) + 1
    ensures VisitsAll(visit) && !ListsInOrder(visit, events, usage)
  {
    var b := LastIsOpen(events);
    visit := VisitFirst(b);
    VisitFirstVisitsAll(b);
    LastVisitedFirst(events, usage, b);
  }

  lemma {:induction false} LastVisitedFirst(events: seq<Event>, usage: Option<Usage>, b: string)
    requires forall e | e in events :: !e.TurnEnded?
    requires |Slots(events)| > Rest(events) + 1 && Slots(events)[|Slots(events)| - 1] == CallSlot(b) && b !in Closed(events)
    requires VisitsAll(VisitFirst(b))
    ensures !ListsInOrder(VisitFirst(b), events, usage)
  {
    var visit := VisitFirst(b);
    var w := Stream(visit, events).0;
    TurnEndIsDone(visit, events, usage);
    VisitedIsDoneFirst(visit, events, b, |Slots(events)| - 1);
    NotInOrder(DoneBy(Stream(visit, events).1 + CloseCalls(CloseMessage(w), visit(w.toolCalls.Keys)).1), Rest(events));
  }

  lemma {:induction false} NotInOrder(done: seq<(nat, Item)>, j: nat)
    requires j < |done| && done[j].0 != j
    ensures !DoneInOrder(done)
  {
  }

  // How many items are done before the calls that were left open.
  lemma {:induction false} DoneBeforeTheRest(visit: Visit, events: seq<Event>)
    requires forall e | e in events :: !e.TurnEnded?
    ensures var (w, out) := Stream(visit, events);
      |DoneBy(out)| + |DoneBy(CloseMessage(w).1)| == Rest(events) && CloseMessage(w).0.toolCalls == w.toolCalls
  {
    var w := Stream(visit, events).0;
    RunPlanned(visit, events);
    RunDone(visit, events);
    if w.messageOpen { CloseMessageDone(w); }
    assert w.messageOpen <==> MessageSlot in Slots(events);
  }

  lemma {:induction false} OpenCall(visit: Visit, events: seq<Event>, b: string, i: nat)
    requires forall e | e in events :: !e.TurnEnded?
    requires i < |Slots(events)| && Slots(events)[i] == CallSlot(b) && b !in Closed(events)
    ensures var calls := Stream(visit, events).0.toolCalls;
      b in calls && calls[b].announced && !calls[b].closed && calls[b].outputIndex == i
  {
    RunPlanned(visit, events);
    var calls := Stream(visit, events).0.toolCalls;
    IndexOfSlot(events, calls[b].outputIndex, i);
  }

  // A call that is still open and visited first is done right after the message.
  lemma {:induction false} VisitedIsDoneFirst(visit: Visit, events: seq<Event>, b: string, i: nat)
    requires visit == VisitFirst(b) && forall e | e in events :: !e.TurnEnded?
    requires i < |Slots(events)| && Slots(events)[i] == CallSlot(b) && b !in Closed(events)
    ensures var (w, out) := Stream(visit, events);
      var done := DoneBy(out + CloseCalls(CloseMessage(w), visit(w.toolCalls.Keys)).1);
      Rest(events) < |done| && done[Rest(events)].0 == i
  {
    var (w, out) := Stream(visit, events);
    var o1 := CloseMessage(w);
    DoneBeforeTheRest(visit, events);
    OpenCall(visit, events, b, i);
    FirstIsDone(o1, b, Enum(w.toolCalls.Keys - {b}));
    DoneByAppend(out, CloseCalls(o1, visit(w.toolCalls.Keys)).1);
  }

  lemma {:induction false} IndexOfSlot(events: seq<Event>, i: nat, j: nat)
    requires i < |Slots(events)| && j < |Slots(events)| && Slots(events)[i] == Slots(events)[j]
    ensures i == j
  {
    SlotsDiffer(events);
  }

  lemma {:induction false} LastIsOpen(events: seq<Event>) returns (b: string)
    requires PrefixInOrder(events) && |Slots(events)| > Rest(events) + 1
    ensures Slots(events)[|Slots(events)| - 1] == CallSlot(b) && b !in Closed(events)
  {
    SlotsDiffer(events);
    var last := Slots(events)[|Slots(events)| - 1];
    assert last in Slots(events);
    assert last != MessageSlot;
    b := last.id;
  }

  // The list of response.completed, exactly, from the events: it holds every item
  // at its own output_index, in whatever order the map of calls is visited, if
  // and only if the calls completed before the turn end are the first items,
  // completed in their order, the message comes next, and at most one call is
  // left.
  lemma {:induction false} CompletedInOrderByEvents(events: seq<Event>, usage: Option<Usage>)
    requires forall e | e in events :: !e.TurnEnded?
    ensures (forall visit | VisitsAll(visit) :: ListsInOrder(visit, events, usage)) <==> EventsInOrder(events)
  {
    forall visit | VisitsAll(visit)
      ensures EventsInOrder(events) ==> ListsInOrder(visit, events, usage)
    {
      var w := Stream(visit, events).0;
      TurnEndIsDone(visit, events, usage);
      TurnIsDone(visit, events, visit(w.toolCalls.Keys));
      if EventsInOrder(events) {
        EventsGiveOrder(DoneBy(Stream(visit, events).1 + CloseCalls(CloseMessage(w), visit(w.toolCalls.Keys)).1), events);
      }
    }
    if !EventsInOrder(events) { SomeOrderFails(events, usage); }
  }

  lemma {:induction false} SomeOrderFails(events: seq<Event>, usage: Option<Usage>)
    requires (forall e | e in events :: !e.TurnEnded?) && !EventsInOrder(events)
    ensures exists visit :: VisitsAll(visit) && !ListsInOrder(visit, events, usage)
  {
    var any := VisitFirst("");
    VisitFirstVisitsAll("");
    var w := Stream(any, events).0;
    TurnEndIsDone(any, events, usage);
    TurnIsDone(any, events, any(w.toolCalls.Keys));
    if ListsInOrder(any, events, usage) {
      InOrderPrefix(DoneBy(Stream(any, events).1 + CloseCalls(CloseMessage(w), any(w.toolCalls.Keys)).1), events);
      var visit := TwoOpenCalls(events, usage);
      assert VisitsAll(visit) && !ListsInOrder(visit, events, usage);
    }
  }

  // A call completed out of its turn: the list is out of order whatever the
  // order of visiting.
  lemma {:induction false} CompletionOutOfTurn(visit: Visit, events: seq<Event>, usage: Option<Usage>, j: nat)
    requires VisitsAll(visit) && forall e | e in events :: !e.TurnEnded?
    requires j < |Closed(events)| && (j < |Slots(events)| ==> Slots(events)[j] != CallSlot(Closed(events)[j]))
    ensures !ListsInOrder(visit, events, usage)
  {
    var w := Stream(visit, events).0;
    TurnEndIsDone(visit, events, usage);
    TurnIsDone(visit, events, visit(w.toolCalls.Keys));
    if ListsInOrder(visit, events, usage) {
      InOrderPrefix(DoneBy(Stream(visit, events).1 + CloseCalls(CloseMessage(w), visit(w.toolCalls.Keys)).1), events);
    }
  }

  // Such a run: of two calls the second is completed first.
  lemma {:induction false} SecondDoneFirst(visit: Visit, usage: Option<Usage>)
    requires VisitsAll(visit)
    ensures !ListsInOrder(visit, TWO_STARTS + [ToolCallCompleted("b")], usage)
  {
    var events := TWO_STARTS + [ToolCallCompleted("b")];
    TwoStarts();
    PlanNext(TWO_STARTS, ToolCallCompleted("b"));
    assert Closed(events) == ["b"];
    CompletionOutOfTurn(visit, events, usage, 0);
  }

  const TWO_STARTS: seq<Event> := [ToolCallStarted("a", "f", ""), ToolCallStarted("b", "f", "")]

  lemma {:induction false} TwoStarts()
    ensures Slots(TWO_STARTS) == [CallSlot("a"), CallSlot("b")] && Closed(TWO_STARTS) == []
  {
    PlanNext([], TWO_STARTS[0]);
    PlanNext([TWO_STARTS[0]], TWO_STARTS[1]);
    assert [] + [TWO_STARTS[0]] == [TWO_STARTS[0]] && [TWO_STARTS[0]] + [TWO_STARTS[1]] == TWO_STARTS;
  }

  // With two calls left open, visiting the first of them first lists in order.
  lemma {:induction false} FirstVisitedInOrder(events: seq<Event>, usage: Option<Usage>, b: string)
    requires (forall e | e in events :: !e.TurnEnded?) && VisitsAll(VisitFirst(b))
    requires PrefixInOrder(events) && |Slots(events)| == Rest(events) + 2
    requires Slots(events)[Rest(events)] == CallSlot(b) && b !in Closed(events)
    ensures ListsInOrder(VisitFirst(b), events, usage)
  {
    var visit := VisitFirst(b);
    var (w, out) := Stream(visit, events);
    var done := DoneBy(out + CloseCalls(CloseMessage(w), visit(w.toolCalls.Keys)).1);
    TurnEndIsDone(visit, events, usage);
    TurnIsDone(visit, events, visit(w.toolCalls.Keys));
    PrefixGivesOrder(done, events);
    VisitedIsDoneFirst(visit, events, b, Rest(events));
    OneIndexLeft(done, Rest(events) + 1);
  }

  // Two calls left open: the order of the list is the order of visiting, so two
  // runs with the same events differ.
  lemma {:induction false} MapOrderShows(usage: Option<Usage>)
    ensures exists visit :: VisitsAll(visit) && !ListsInOrder(visit, TWO_STARTS, usage)
    ensures exists visit :: VisitsAll(visit) && ListsInOrder(visit, TWO_STARTS, usage)
  {
    TwoStarts();
    SomeOrderFails(TWO_STARTS, usage);
    VisitFirstVisitsAll("a");
    FirstVisitedInOrder(TWO_STARTS, usage, "a");
  }
}
