// The item list of response.completed: the source inserts the message by index
// but appends tool calls, so the list is in output_index order only for some
// runs. This file says exactly which.
module ResponsesOutput {
  import opened Responses
  import opened ResponsesLaws
  import opened Wrappers

  // The items done in a trace, in the order of their output_item.done frames.
  function DoneBy(frames: seq<Frame>): seq<(nat, Item)> {
    if frames == [] then []
    else
      DoneBy(frames[..|frames| - 1]) +
      match frames[|frames| - 1].body
      case ItemDone(i, item) => [(i, item)]
      case _ => []
  }

  lemma {:induction false} DoneByAppend(a: seq<Frame>, b: seq<Frame>)
    ensures DoneBy(a + b) == DoneBy(a) + DoneBy(b)
  {
    if b == [] {
      assert a + b == a;
    } else {
      var n := |b| - 1;
      DoneByAppend(a, b[..n]);
      assert (a + b)[..|a + b| - 1] == a + b[..n];
    }
  }

  lemma {:induction false} DoneByPut(o: Out, body: Body)
    ensures DoneBy(Put(o, body).1) == DoneBy(o.1) + if body.ItemDone? then [(body.outputIndex, body.item)] else []
  {
    var f := Frame(o.0.seqNo, body);
    assert (o.1 + [f])[..|o.1 + [f]| - 1] == o.1;
  }

  // ---------- what a live stream says about its done frames ----------

  function DoneCount(items: seq<ItemLife>): nat {
    if items == [] then 0
    else DoneCount(items[..|items| - 1]) + if items[|items| - 1].done then 1 else 0
  }

  lemma {:induction false} DoneCountUpdate(items: seq<ItemLife>, i: nat, item: ItemLife)
    requires i < |items|
    ensures DoneCount(items[i := item]) == DoneCount(items) - (if items[i].done then 1 else 0) + (if item.done then 1 else 0)
  {
    var n := |items| - 1;
    if i < n {
      DoneCountUpdate(items[..n], i, item);
      assert items[i := item][..n] == items[..n][i := item];
    } else {
      assert items[i := item][..n] == items[..n];
    }
  }

  lemma {:induction false} DoneCountSnoc(items: seq<ItemLife>, item: ItemLife)
    ensures DoneCount(items + [item]) == DoneCount(items) + if item.done then 1 else 0
  {
    assert (items + [item])[..|items + [item]| - 1] == items;
  }

  lemma {:induction false} AllDoneCount(items: seq<ItemLife>)
    requires forall i | 0 <= i < |items| :: items[i].done
    ensures DoneCount(items) == |items|
  {
    if items != [] { AllDoneCount(items[..|items| - 1]); }
  }

  predicate SameName(item: Item, life: ItemLife) {
    match life
    case MessageLife(_, _, _, _) => item.Message?
    case FunctionLife(id, _, _, _, _) => item.FunctionCall? && item.callId == id
  }

  // Each done frame names a different done item.
  ghost predicate DoneFacts(done: seq<(nat, Item)>, items: seq<ItemLife>) {
    && |done| == DoneCount(items)
    && (forall j | 0 <= j < |done| ::
          done[j].0 < |items| && items[done[j].0].done && SameName(done[j].1, items[done[j].0]))
    && (forall a, b | 0 <= a < b < |done| :: done[a].0 != done[b].0)
  }

  lemma {:induction false} FactsAdd(done: seq<(nat, Item)>, items: seq<ItemLife>, item: ItemLife)
    requires DoneFacts(done, items) && !item.done
    ensures DoneFacts(done, items + [item])
  {
    DoneCountSnoc(items, item);
  }

  // A change that keeps what an item is called and whether it is done.
  lemma {:induction false} FactsKeep(done: seq<(nat, Item)>, items: seq<ItemLife>, i: nat, item: ItemLife)
    requires DoneFacts(done, items) && i < |items|
    requires item.done == items[i].done && forall x: Item :: SameName(x, items[i]) ==> SameName(x, item)
    ensures DoneFacts(done, items[i := item])
  {
    DoneCountUpdate(items, i, item);
  }

  lemma {:induction false} FactsDone(done: seq<(nat, Item)>, items: seq<ItemLife>, i: nat)
    requires DoneFacts(done, items) && i < |items| && !items[i].done
    ensures DoneFacts(done + [(i, ItemShown(items[i]))], items[i := Done(items[i])])
  {
    DoneCountUpdate(items, i, Done(items[i]));
  }

  lemma {:induction false} StepFacts(l: Life, done: seq<(nat, Item)>, body: Body)
    requires l.Live? && DoneFacts(done, l.items) && LifeStep(l, body).Live?
    ensures DoneFacts(done + (if body.ItemDone? then [(body.outputIndex, body.item)] else []), LifeStep(l, body).items)
  {
    var l' := LifeStep(l, body);
    if body.MessageAdded? || body.FunctionAdded? {
      FactsAdd(done, l.items, l'.items[|l.items|]);
    } else if body.ItemDone? {
      FactsDone(done, l.items, body.outputIndex);
    } else {
      FactsKeep(done, l.items, body.outputIndex, l'.items[body.outputIndex]);
    }
    assert done + [] == done;
  }

  lemma {:induction false} LiveFacts(frames: seq<Frame>)
    requires LifeFrom(Before, frames).Live?
    ensures DoneFacts(DoneBy(frames), LifeFrom(Before, frames).items)
  {
    var n := |frames| - 1;
    var l := LifeFrom(Before, frames[..n]);
    if l.Live? {
      LiveFacts(frames[..n]);
      StepFacts(l, DoneBy(frames[..n]), frames[n].body);
    } else {
      NotYetDone(frames[..n]);
    }
  }

  lemma {:induction false} NotYetDone(frames: seq<Frame>)
    requires LifeFrom(Before, frames).Before? || LifeFrom(Before, frames).Announced?
    ensures DoneBy(frames) == []
  {
    if frames != [] { NotYetDone(frames[..|frames| - 1]); }
  }

  // ---------- the completed list ----------

  function Listing(done: seq<(nat, Item)>): (r: seq<Option<Item>>)
    ensures |r| == |done| && forall j | 0 <= j < |done| :: r[j] == Some(done[j].1)
  {
    if done == [] then [] else Listing(done[..|done| - 1]) + [Some(done[|done| - 1].1)]
  }

  lemma {:induction false} ListingAppend(a: seq<(nat, Item)>, b: seq<(nat, Item)>)
    ensures Listing(a + b) == Listing(a) + Listing(b)
  {
    assert forall j | 0 <= j < |a + b| :: Listing(a + b)[j] == (Listing(a) + Listing(b))[j];
  }

  // The writer's list follows its done frames.
  ghost predicate Lists(o: Out) {
    o.0.completedItems == Listing(DoneBy(o.1))
  }

  lemma {:induction false} PutLists(o: Out, body: Body)
    requires Lists(o) && !body.ItemDone?
    ensures Lists(Put(o, body))
  {
    DoneByPut(o, body);
    assert DoneBy(o.1) + [] == DoneBy(o.1);
  }

  // Closing a call adds one done frame, and its item to the list.
  lemma {:induction false} CloseCallDone(o: Out, id: string)
    requires id in o.0.toolCalls
    ensures var o' := CloseToolCall(o, id);
      var entry := (o.0.toolCalls[id].outputIndex, ItemOf(o.0.toolCalls[id]));
      DoneBy(o'.1) == DoneBy(o.1) + [entry] && o'.0.completedItems == o.0.completedItems + [Some(entry.1)]
  {
    var call := o.0.toolCalls[id];
    var w1 := o.0.(toolCalls := o.0.toolCalls[id := call.(closed := true)]);
    DoneByPut((w1, o.1), ArgumentsDone(call.outputIndex, call.arguments));
    DoneByPut(Put((w1, o.1), ArgumentsDone(call.outputIndex, call.arguments)), ItemDone(call.outputIndex, ItemOf(call)));
    assert DoneBy(o.1) + [] == DoneBy(o.1);
  }

  // Text and arguments touch neither.
  lemma {:induction false} OthersDoNothing(visit: Visit, w: Writer, ev: Event)
    requires !ev.TurnEnded? && !ev.ToolCallCompleted?
    ensures var (w', out) := Encode(visit, w, ev); w'.completedItems == w.completedItems && DoneBy(out) == []
  {
    var (w', out) := Encode(visit, w, ev);
    forall f | f in out ensures !f.body.ItemDone? {
    }
    NoneDone(out);
  }

  lemma {:induction false} NoneDone(frames: seq<Frame>)
    requires forall f | f in frames :: !f.body.ItemDone?
    ensures DoneBy(frames) == []
  {
    if frames != [] {
      NoneDone(frames[..|frames| - 1]);
      assert frames[|frames| - 1] in frames;
    }
  }

  lemma {:induction false} RunLists(visit: Visit, events: seq<Event>)
    requires forall e | e in events :: !e.TurnEnded?
    ensures Lists(Stream(visit, events))
  {
    if events == [] {
      PutLists((NEW, []), Created);
      PutLists(Put((NEW, []), Created), InProgress);
    } else {
      var n := |events| - 1;
      RunLists(visit, events[..n]);
      var o := Stream(visit, events[..n]);
      var (w', out) := Encode(visit, o.0, events[n]);
      DoneByAppend(o.1, out);
      if events[n].ToolCallCompleted? {
        var id := events[n].id;
        if id in o.0.toolCalls && !o.0.toolCalls[id].closed {
          CloseCallDone((o.0, []), id);
          ListingAppend(DoneBy(o.1), DoneBy(out));
        }
      } else {
        OthersDoNothing(visit, o.0, events[n]);
      }
      assert DoneBy(o.1) + [] == DoneBy(o.1);
    }
  }

  // Closing the remaining calls appends exactly their items.
  lemma {:induction false} CloseCallsAppend(o: Out, ids: seq<string>)
    ensures exists more :: Appends(o, CloseCalls(o, ids), more)
  {
    if ids == [] {
      var none: seq<(nat, Item)> := [];
      assert DoneBy(o.1) + none == DoneBy(o.1) && o.0.completedItems + Listing(none) == o.0.completedItems;
      assert Appends(o, CloseCalls(o, ids), none);
    } else {
      var n := |ids| - 1;
      CloseCallsAppend(o, ids[..n]);
      var o1 := CloseCalls(o, ids[..n]);
      var more :| Appends(o, o1, more);
      var id := ids[n];
      if id in o1.0.toolCalls && o1.0.toolCalls[id].announced && !o1.0.toolCalls[id].closed {
        AppendsOne(o, o1, more, id);
        assert Appends(o, CloseCalls(o, ids), more + [(o1.0.toolCalls[id].outputIndex, ItemOf(o1.0.toolCalls[id]))]);
      } else {
        assert Appends(o, CloseCalls(o, ids), more);
      }
    }
  }

  lemma {:induction false} AppendsOne(o: Out, o1: Out, more: seq<(nat, Item)>, id: string)
    requires Appends(o, o1, more) && id in o1.0.toolCalls
    ensures Appends(o, CloseToolCall(o1, id), more + [(o1.0.toolCalls[id].outputIndex, ItemOf(o1.0.toolCalls[id]))])
  {
    CloseCallDone(o1, id);
    var entry := (o1.0.toolCalls[id].outputIndex, ItemOf(o1.0.toolCalls[id]));
    ListingAppend(more, [entry]);
    assert DoneBy(o.1) + (more + [entry]) == (DoneBy(o.1) + more) + [entry];
    assert Listing([entry]) == [Some(entry.1)];
    assert o.0.completedItems + (Listing(more) + [Some(entry.1)]) == (o.0.completedItems + Listing(more)) + [Some(entry.1)];
  }

  ghost predicate Appends(o: Out, o': Out, more: seq<(nat, Item)>) {
    DoneBy(o'.1) == DoneBy(o.1) + more && o'.0.completedItems == o.0.completedItems + Listing(more)
  }

  lemma {:induction false} CloseMessageDone(w: Writer)
    requires w.messageOpen
    ensures var o := CloseMessage(w);
      DoneBy(o.1) == [(w.messageIndex, Message(w.textSoFar))]
      && o.0.completedItems == InsertAt(w.completedItems, w.messageIndex, Message(w.textSoFar))
  {
    var o1 :=
      if !w.partOpen then (w, [])
      else
        var o := Put(Put((w, []), TextDone(w.messageIndex, w.textSoFar)), PartDone(w.messageIndex, w.textSoFar));
        (o.0.(partOpen := false), o.1);
    NoneDone(o1.1);
    DoneByPut(o1, ItemDone(w.messageIndex, Message(w.textSoFar)));
  }

  lemma {:induction false} InsertAtEnd(items: seq<Option<Item>>, item: Item)
    ensures InsertAt(items, |items|, item) == items + [Some(item)]
  {
    assert InsertAt(items + [None], |items|, item) == (items + [None])[|items| := Some(item)];
  }

  // Every item stands in the list at its own output_index, and nothing else.
  ghost predicate InIndexOrder(output: seq<Option<Item>>, done: seq<(nat, Item)>) {
    |output| == |done| && forall j | 0 <= j < |done| :: done[j].0 < |output| && output[done[j].0] == Some(done[j].1)
  }

  predicate DoneInOrder(done: seq<(nat, Item)>) {
    forall j | 0 <= j < |done| :: done[j].0 == j
  }

  // Names tell items apart.
  ghost predicate Named(items: seq<ItemLife>) {
    forall i, j, item | 0 <= i < |items| && 0 <= j < |items| && SameName(item, items[i]) && SameName(item, items[j]) :: i == j
  }

  lemma {:induction false} ListingInOrder(done: seq<(nat, Item)>, items: seq<ItemLife>)
    requires DoneFacts(done, items) && Named(items)
    ensures InIndexOrder(Listing(done), done) <==> DoneInOrder(done)
  {
    if InIndexOrder(Listing(done), done) {
      forall j | 0 <= j < |done| ensures done[j].0 == j {
        var i := done[j].0;
        assert Listing(done)[i] == Some(done[i].1);
        assert SameName(done[i].1, items[done[i].0]) && SameName(done[j].1, items[done[j].0]);
        assert done[i].0 == done[j].0;
      }
    }
  }

  lemma {:induction false} ClosingNames(o: Out, l: Life)
    requires Closing(o, l)
    ensures Named(l.items)
  {
  }

  // The list when the message is inserted after `before` and calls appended.
  lemma {:induction false} InsertedList(before: seq<(nat, Item)>, m: nat, message: Item, more: seq<(nat, Item)>, items: seq<ItemLife>)
    requires DoneFacts(before + [(m, message)] + more, items) && Named(items)
    ensures var done := before + [(m, message)] + more;
      InIndexOrder(InsertAt(Listing(before), m, message) + Listing(more), done) <==> DoneInOrder(done)
  {
    var done := before + [(m, message)] + more;
    var k := |before|;
    assert done[k] == (m, message);
    if m == k {
      InsertAtEnd(Listing(before), message);
      ListingAppend(before + [(m, message)], more);
      ListingAppend(before, [(m, message)]);
      assert Listing([(m, message)]) == [Some(message)];
      ListingInOrder(done, items);
    }
  }

  // The state at the turn end: what was done before, and what the turn end adds.
  lemma {:induction false} TurnEndList(visit: Visit, w: Writer, out: seq<Frame>, usage: Option<Usage>)
    requires VisitsAll(visit) && InStep(w, LifeFrom(Before, out)) && Lists((w, out))
    ensures var frames := out + EncodeTurnEnded(visit, w, usage).1;
      && frames != [] && frames[|frames| - 1].body.Completed?
      && var done := DoneBy(frames);
         (InIndexOrder(frames[|frames| - 1].body.output, done) <==> DoneInOrder(done))
  {
    var w1 := if usage.Some? then w.(lastUsage := usage) else w;
    var ids := visit(w1.toolCalls.Keys);
    var o1 := CloseMessage(w1);
    var o2 := CloseCalls(o1, ids);
    TurnEndFacts(w1, out, ids);
    CloseCallsAppend(o1, ids);
    var more :| Appends(o1, o2, more);
    EndOutput(w1, DoneBy(out), o1, o2, more, LifeFrom(Before, out + o2.1).items);
    assert w1.textSoFar != "" ==> w1.messageOpen;
    ClosingKeepsAnswer(w1, o1, ids);
    LastFrame(out, o2);
  }

  lemma {:induction false} TurnEndFacts(w: Writer, out: seq<Frame>, ids: seq<string>)
    requires InStep(w, LifeFrom(Before, out))
    ensures var frames := out + CloseCalls(CloseMessage(w), ids).1;
      && LifeFrom(Before, frames).Live?
      && DoneBy(frames) == DoneBy(out) + DoneBy(CloseCalls(CloseMessage(w), ids).1)
      && DoneFacts(DoneBy(frames), LifeFrom(Before, frames).items) && Named(LifeFrom(Before, frames).items)
  {
    var l := LifeFrom(Before, out);
    var o1 := CloseMessage(w);
    var o2 := CloseCalls(o1, ids);
    CloseMessageKeeps(w, l);
    CloseCallsKeep(l, o1, ids);
    LifeAppend(Before, out, o2.1);
    DoneByAppend(out, o2.1);
    LiveFacts(out + o2.1);
    ClosingNames(o2, LifeFrom(Before, out + o2.1));
  }

  // response.completed comes last and does nothing else.
  lemma {:induction false} LastFrame(out: seq<Frame>, o: Out)
    ensures var frames := out + CompletedFrame(o).1;
      && frames != [] && frames[|frames| - 1].body.Completed? && DoneBy(frames) == DoneBy(out + o.1)
      && (o.0.completedItems != [] || o.0.textSoFar == "" ==> frames[|frames| - 1].body.output == o.0.completedItems)
  {
    var last := CompletedFrame(o).1[|o.1|];
    assert out + (o.1 + [last]) == (out + o.1) + [last];
    DoneByAppend(out + o.1, [last]);
    NoneDone([last]);
    assert DoneBy(out + o.1) + [] == DoneBy(out + o.1);
  }

  lemma {:induction false} EndOutput(w: Writer, before: seq<(nat, Item)>, o1: Out, o2: Out, more: seq<(nat, Item)>, items: seq<ItemLife>)
    requires o1 == CloseMessage(w) && Appends(o1, o2, more) && w.completedItems == Listing(before)
    requires DoneFacts(before + DoneBy(o2.1), items) && Named(items)
    ensures var done := before + DoneBy(o2.1);
      InIndexOrder(o2.0.completedItems, done) <==> DoneInOrder(done)
    ensures w.messageOpen ==> o2.0.completedItems != []
  {
    if w.messageOpen {
      var message := Message(w.textSoFar);
      CloseMessageDone(w);
      assert before + ([(w.messageIndex, message)] + more) == before + [(w.messageIndex, message)] + more;
      InsertedList(before, w.messageIndex, message, more, items);
    } else {
      assert [] + more == more;
      ListingAppend(before, more);
      ListingInOrder(before + more, items);
    }
  }

  // The list of response.completed, exactly: at the first turn end of any run
  // it holds every item at its own output_index, and nothing else, if and only
  // if the output_item.done frames were sent in output_index order.
  lemma {:induction false} CompletedListsInOrder(visit: Visit, events: seq<Event>, usage: Option<Usage>)
    requires VisitsAll(visit) && forall e | e in events :: !e.TurnEnded?
    ensures var frames := Stream(visit, events + [TurnEnded(usage)]).1;
      && frames != [] && frames[|frames| - 1].body.Completed?
      && (InIndexOrder(frames[|frames| - 1].body.output, DoneBy(frames)) <==> DoneInOrder(DoneBy(frames)))
  {
    var (w, out) := Stream(visit, events);
    RunKeeps(visit, events);
    RunLists(visit, events);
    TurnEndList(visit, w, out, usage);
    StreamSnoc(visit, events, TurnEnded(usage));
  }
}
