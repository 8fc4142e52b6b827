// Laws of the Responses stream: numbering, the life of every output item, and
// agreement with the non-streaming accumulator.
module ResponsesLaws {
  import opened Responses
  import opened Wrappers

  // ---------- sequence numbers ----------

  // Frames carry consecutive numbers, and the counter is the next one.
  ghost predicate Numbered(o: Out, from: nat) {
    o.0.seqNo == from + |o.1| && forall i | 0 <= i < |o.1| :: o.1[i].sequenceNumber == from + i
  }

  lemma {:induction false} PutNumbers(o: Out, body: Body, from: nat)
    requires Numbered(o, from)
    ensures Numbered(Put(o, body), from)
  {
  }

  lemma {:induction false} AppendNumbers(o: Out, id: string, args: string, from: nat)
    requires Numbered(o, from)
    ensures Numbered(AppendArguments(o, id, args), from)
  {
  }

  lemma {:induction false} CloseCallsNumber(o: Out, ids: seq<string>, from: nat)
    requires Numbered(o, from)
    ensures Numbered(CloseCalls(o, ids), from)
  {
    if ids != [] {
      var id := ids[|ids| - 1];
      var o1 := CloseCalls(o, ids[..|ids| - 1]);
      CloseCallsNumber(o, ids[..|ids| - 1], from);
    }
  }

  lemma {:induction false} TextNumbers(w: Writer, text: string)
    ensures Numbered(EncodeTextDelta(w, text), w.seqNo)
  {
  }

  lemma {:induction false} StartNumbers(w: Writer, id: string, name: string, args: string)
    ensures Numbered(EncodeToolCallStart(w, id, name, args), w.seqNo)
  {
    var w1 :=
      if id in w.toolCalls then w
      else w.(toolCalls := w.toolCalls[id := ToolCall(id, name, w.nextOutIndex, "", false, false)],
              nextOutIndex := w.nextOutIndex + 1);
    var call := w1.toolCalls[id];
    var o :=
      if call.announced then (w1, [])
      else Put((w1.(toolCalls := w1.toolCalls[id := call.(announced := true)]), []),
               FunctionAdded(call.outputIndex, call.callId, call.name));
    AppendNumbers(o, id, args, w.seqNo);
  }

  lemma {:induction false} CloseMessageNumbers(w: Writer)
    ensures Numbered(CloseMessage(w), w.seqNo)
  {
  }

  lemma {:induction false} EventNumbers(visit: Visit, w: Writer, ev: Event)
    ensures Numbered(Encode(visit, w, ev), w.seqNo)
  {
    match ev
    case TextDelta(text) => TextNumbers(w, text);
    case ToolCallStarted(id, name, args) => StartNumbers(w, id, name, args);
    case ToolCallDelta(id, args) => AppendNumbers((w, []), id, args, w.seqNo);
    case ToolCallCompleted(id) =>
    case TurnEnded(usage) =>
      var w1 := if usage.Some? then w.(lastUsage := usage) else w;
      CloseMessageNumbers(w1);
      CloseCallsNumber(CloseMessage(w1), visit(w1.toolCalls.Keys), w.seqNo);
    case _ =>
  }

  // Every run, also past a turn end, numbers its frames 0, 1, 2, ...
  lemma {:induction false} StreamIsNumbered(visit: Visit, events: seq<Event>)
    ensures Numbered(Stream(visit, events), 0)
  {
    if events == [] {
      PutNumbers((NEW, []), Created, 0);
      PutNumbers(Put((NEW, []), Created), InProgress, 0);
    } else {
      var n := |events| - 1;
      StreamIsNumbered(visit, events[..n]);
      EventNumbers(visit, Stream(visit, events[..n]).0, events[n]);
    }
  }

  // ---------- the life of an output item ----------

  // What a client knows of one output item.
  datatype ItemLife =
    | MessageLife(text: string, partOpen: bool, finished: bool, done: bool)
    | FunctionLife(callId: string, name: string, text: string, finished: bool, done: bool)

  function Extend(item: ItemLife, delta: string): ItemLife {
    match item
    case MessageLife(text, partOpen, finished, done) => MessageLife(text + delta, partOpen, finished, done)
    case FunctionLife(id, name, text, finished, done) => FunctionLife(id, name, text + delta, finished, done)
  }

  function Finish(item: ItemLife): ItemLife {
    match item
    case MessageLife(text, partOpen, _, done) => MessageLife(text, partOpen, true, done)
    case FunctionLife(id, name, text, _, done) => FunctionLife(id, name, text, true, done)
  }

  function Done(item: ItemLife): ItemLife {
    match item
    case MessageLife(text, partOpen, finished, _) => MessageLife(text, partOpen, finished, true)
    case FunctionLife(id, name, text, finished, _) => FunctionLife(id, name, text, finished, true)
  }

  // How far the stream has got: items are numbered as they are added; `late`
  // records argument text that arrived after its arguments.done.
  datatype Life =
    | Before
    | Announced
    | Live(items: seq<ItemLife>, late: bool)
    | Over(late: bool)
    | Broken

  function LiveStep(l: Life, body: Body): Life
    requires l.Live?
  {
    match body
    case Created => Broken
    case InProgress => Broken
    case MessageAdded(i) => if i == |l.items| then l.(items := l.items + [MessageLife("", false, false, false)]) else Broken
    case FunctionAdded(i, id, name) =>
      if i == |l.items| then l.(items := l.items + [FunctionLife(id, name, "", false, false)]) else Broken
    case PartAdded(i) =>
      if i < |l.items| && l.items[i].MessageLife? && !l.items[i].partOpen && !l.items[i].finished
      then l.(items := l.items[i := l.items[i].(partOpen := true)]) else Broken
    case TextDeltaSent(i, delta) =>
      if i < |l.items| && l.items[i].MessageLife? && l.items[i].partOpen && !l.items[i].finished
      then l.(items := l.items[i := Extend(l.items[i], delta)]) else Broken
    case TextDone(i, text) =>
      if i < |l.items| && l.items[i].MessageLife? && l.items[i].partOpen && !l.items[i].finished && text == l.items[i].text
      then l.(items := l.items[i := Finish(l.items[i])]) else Broken
    case PartDone(i, text) =>
      if i < |l.items| && l.items[i].MessageLife? && l.items[i].partOpen && l.items[i].finished && text == l.items[i].text
      then l.(items := l.items[i := l.items[i].(partOpen := false)]) else Broken
    case ArgumentsDelta(i, delta) =>
      if i < |l.items| && l.items[i].FunctionLife?
      then Live(l.items[i := Extend(l.items[i], delta)], l.late || l.items[i].finished) else Broken
    case ArgumentsDone(i, arguments) =>
      if i < |l.items| && l.items[i].FunctionLife? && !l.items[i].finished && arguments == l.items[i].text
      then l.(items := l.items[i := Finish(l.items[i])]) else Broken
    case ItemDone(i, item) =>
      if i < |l.items| && l.items[i].finished && !l.items[i].done && item == ItemShown(l.items[i]) && !PartStillOpen(l.items[i])
      then l.(items := l.items[i := Done(l.items[i])]) else Broken
    case Completed(_, _) => if forall i | 0 <= i < |l.items| :: l.items[i].done then Over(l.late) else Broken
  }

  function ItemShown(item: ItemLife): Item {
    match item
    case MessageLife(text, _, _, _) => Message(text)
    case FunctionLife(id, name, text, _, _) => FunctionCall(id, name, text)
  }

  predicate PartStillOpen(item: ItemLife) {
    item.MessageLife? && item.partOpen
  }

  function LifeStep(l: Life, body: Body): Life {
    match l
    case Before => if body.Created? then Announced else Broken
    case Announced => if body.InProgress? then Live([], false) else Broken
    case Live(_, _) => LiveStep(l, body)
    case _ => Broken
  }

  function LifeFrom(l: Life, frames: seq<Frame>): Life {
    if frames == [] then l else LifeStep(LifeFrom(l, frames[..|frames| - 1]), frames[|frames| - 1].body)
  }

  lemma {:induction false} LifeAppend(l: Life, a: seq<Frame>, b: seq<Frame>)
    ensures LifeFrom(l, a + b) == LifeFrom(LifeFrom(l, a), b)
  {
    if b == [] {
      assert a + b == a;
    } else {
      var n := |b| - 1;
      LifeAppend(l, a, b[..n]);
      assert (a + b)[..|a + b| - 1] == a + b[..n] && (a + b)[|a + b| - 1] == b[n];
    }
  }

  lemma {:induction false} LifePut(l: Life, o: Out, body: Body)
    ensures LifeFrom(l, Put(o, body).1) == LifeStep(LifeFrom(l, o.1), body)
  {
    var f := Frame(o.0.seqNo, body);
    assert (o.1 + [f])[..|o.1 + [f]| - 1] == o.1;
  }

  // ---------- writer and client in step ----------

  ghost predicate CallsInStep(calls: map<string, ToolCall>, items: seq<ItemLife>) {
    && (forall id | id in calls ::
          var c := calls[id];
          c.outputIndex < |items| && c.announced && c.callId == id
          && items[c.outputIndex] == FunctionLife(id, c.name, c.arguments, c.closed, c.closed))
    && (forall i | 0 <= i < |items| && items[i].FunctionLife? ::
          items[i].callId in calls && calls[items[i].callId].outputIndex == i)
  }

  // Before the turn end: the only message is the open one.
  ghost predicate MessageInStep(w: Writer, items: seq<ItemLife>) {
    && (forall i | 0 <= i < |items| && items[i].MessageLife? :: w.messageOpen && i == w.messageIndex)
    && (if w.messageOpen then
          w.messageIndex < |items| && items[w.messageIndex] == MessageLife(w.textSoFar, w.partOpen, false, false) && w.partOpen
        else w.textSoFar == "" && !w.partOpen)
  }

  ghost predicate InStep(w: Writer, l: Life) {
    l.Live? && |l.items| == w.nextOutIndex && CallsInStep(w.toolCalls, l.items) && MessageInStep(w, l.items)
  }

  // The event adds argument text to a call that is already completed.
  predicate Continues(w: Writer, ev: Event) {
    (ev.ToolCallStarted? || ev.ToolCallDelta?) && ev.args != "" && ev.id in w.toolCalls && w.toolCalls[ev.id].closed
  }

  lemma {:induction false} TextKeeps(w: Writer, l: Life, text: string)
    requires InStep(w, l)
    ensures var (w', out) := EncodeTextDelta(w, text);
      InStep(w', LifeFrom(l, out)) && LifeFrom(l, out).late == l.late
  {
    var o1 :=
      if w.messageOpen then (w, [])
      else Put((w.(messageOpen := true, messageIndex := w.nextOutIndex, nextOutIndex := w.nextOutIndex + 1), []),
               MessageAdded(w.nextOutIndex));
    if !w.messageOpen {
      LifePut(l, (w.(messageOpen := true, messageIndex := w.nextOutIndex, nextOutIndex := w.nextOutIndex + 1), []),
              MessageAdded(w.nextOutIndex));
    }
    var o2 := if w.partOpen then o1 else Put((o1.0.(partOpen := true), o1.1), PartAdded(o1.0.messageIndex));
    if !w.partOpen { LifePut(l, (o1.0.(partOpen := true), o1.1), PartAdded(o1.0.messageIndex)); }
    LifePut(l, (o2.0.(textSoFar := w.textSoFar + text), o2.1), TextDeltaSent(o2.0.messageIndex, text));
    assert "" + text == text;
  }

  lemma {:induction false} ArgumentsKeep(l: Life, o: Out, id: string, args: string)
    requires InStep(o.0, LifeFrom(l, o.1))
    ensures var o' := AppendArguments(o, id, args);
      var l1, l' := LifeFrom(l, o.1), LifeFrom(l, o'.1);
      InStep(o'.0, l')
      && (l'.late <==> l1.late || (args != "" && id in o.0.toolCalls && o.0.toolCalls[id].closed))
  {
    if args != "" && id in o.0.toolCalls {
      var call := o.0.toolCalls[id];
      LifePut(l, (o.0.(toolCalls := o.0.toolCalls[id := call.(arguments := call.arguments + args)]), o.1),
              ArgumentsDelta(call.outputIndex, args));
    }
  }

  // A call that is new is added as the next item.
  lemma {:induction false} AddedKeeps(w: Writer, l: Life, id: string, name: string)
    requires InStep(w, l) && id !in w.toolCalls
    ensures var w' := w.(toolCalls := w.toolCalls[id := ToolCall(id, name, w.nextOutIndex, "", true, false)],
                         nextOutIndex := w.nextOutIndex + 1);
      var l' := LifeStep(l, FunctionAdded(w.nextOutIndex, id, name));
      InStep(w', l') && l'.late == l.late
  {
  }

  lemma {:induction false} SetTwice(calls: map<string, ToolCall>, id: string, c: ToolCall, d: ToolCall)
    ensures calls[id := c][id := d] == calls[id := d]
  {
  }

  // What a start sends before the arguments.
  function Announce(w: Writer, id: string, name: string): Out {
    if id in w.toolCalls then (w, [])
    else
      var call := ToolCall(id, name, w.nextOutIndex, "", true, false);
      Put((w.(toolCalls := w.toolCalls[id := call], nextOutIndex := w.nextOutIndex + 1), []),
          FunctionAdded(call.outputIndex, id, name))
  }

  lemma {:induction false} StartIsAnnounce(w: Writer, id: string, name: string, args: string)
    requires id in w.toolCalls ==> w.toolCalls[id].announced
    ensures EncodeToolCallStart(w, id, name, args) == AppendArguments(Announce(w, id, name), id, args)
  {
    SetTwice(w.toolCalls, id, ToolCall(id, name, w.nextOutIndex, "", false, false),
             ToolCall(id, name, w.nextOutIndex, "", true, false));
  }

  lemma {:induction false} AnnounceKeeps(w: Writer, l: Life, id: string, name: string)
    requires InStep(w, l)
    ensures var o := Announce(w, id, name);
      && InStep(o.0, LifeFrom(l, o.1)) && LifeFrom(l, o.1).late == l.late
      && id in o.0.toolCalls && o.0.toolCalls[id].closed == (id in w.toolCalls && w.toolCalls[id].closed)
  {
    if id !in w.toolCalls {
      var call := ToolCall(id, name, w.nextOutIndex, "", true, false);
      AddedKeeps(w, l, id, name);
      LifePut(l, (w.(toolCalls := w.toolCalls[id := call], nextOutIndex := w.nextOutIndex + 1), []),
              FunctionAdded(w.nextOutIndex, id, name));
    }
  }

  lemma {:induction false} CloseCallKeeps(l: Life, o: Out, id: string)
    requires LifeFrom(l, o.1).Live? && CallsInStep(o.0.toolCalls, LifeFrom(l, o.1).items)
    requires id in o.0.toolCalls && !o.0.toolCalls[id].closed
    ensures var o' := CloseToolCall(o, id);
      var l1, l' := LifeFrom(l, o.1), LifeFrom(l, o'.1);
      && l'.Live? && l'.late == l1.late
      && o'.0.toolCalls == o.0.toolCalls[id := o.0.toolCalls[id].(closed := true)]
      && l'.items == l1.items[o.0.toolCalls[id].outputIndex := Done(Finish(l1.items[o.0.toolCalls[id].outputIndex]))]
      && CallsInStep(o'.0.toolCalls, l'.items)
  {
    var call := o.0.toolCalls[id];
    var w1 := o.0.(toolCalls := o.0.toolCalls[id := call.(closed := true)]);
    LifePut(l, (w1, o.1), ArgumentsDone(call.outputIndex, call.arguments));
    LifePut(l, Put((w1, o.1), ArgumentsDone(call.outputIndex, call.arguments)), ItemDone(call.outputIndex, ItemOf(call)));
  }

  // A change to a function item leaves the message alone.
  lemma {:induction false} OtherMessages(w: Writer, w': Writer, items: seq<ItemLife>, i: nat, item: ItemLife)
    requires MessageInStep(w, items) && i < |items| && items[i].FunctionLife? && item.FunctionLife?
    requires w'.messageOpen == w.messageOpen && w'.messageIndex == w.messageIndex
    requires w'.textSoFar == w.textSoFar && w'.partOpen == w.partOpen
    ensures MessageInStep(w', items[i := item])
  {
  }

  lemma {:induction false} CompletedKeeps(w: Writer, l: Life, id: string)
    requires InStep(w, l)
    ensures var (w', out) := EncodeToolCallCompleted(w, id); InStep(w', LifeFrom(l, out)) && LifeFrom(l, out).late == l.late
  {
    if id in w.toolCalls && !w.toolCalls[id].closed {
      CloseCallKeeps(l, (w, []), id);
      var i := w.toolCalls[id].outputIndex;
      OtherMessages(w, CloseToolCall((w, []), id).0, l.items, i, Done(Finish(l.items[i])));
    }
  }

  lemma {:induction false} EventKeeps(visit: Visit, w: Writer, l: Life, ev: Event)
    requires InStep(w, l) && !ev.TurnEnded?
    ensures var (w', out) := Encode(visit, w, ev);
      InStep(w', LifeFrom(l, out)) && (LifeFrom(l, out).late <==> l.late || Continues(w, ev))
  {
    match ev
    case TextDelta(text) => if text != "" { TextKeeps(w, l, text); }
    case ToolCallStarted(id, name, args) =>
      StartIsAnnounce(w, id, name, args);
      AnnounceKeeps(w, l, id, name);
      ArgumentsKeep(l, Announce(w, id, name), id, args);
    case ToolCallDelta(id, args) => ArgumentsKeep(l, (w, []), id, args);
    case ToolCallCompleted(id) => CompletedKeeps(w, l, id);
    case Other =>
  }

  // ---------- the turn end ----------

  // The message, if any, is done; calls are as the writer has them.
  ghost predicate Closing(o: Out, l: Life) {
    && l.Live? && CallsInStep(o.0.toolCalls, l.items)
    && (forall i | 0 <= i < |l.items| && l.items[i].MessageLife? :: l.items[i].done && i == o.0.messageIndex)
  }

  lemma {:induction false} CloseMessageKeeps(w: Writer, l: Life)
    requires InStep(w, l)
    ensures var o := CloseMessage(w);
      Closing(o, LifeFrom(l, o.1)) && LifeFrom(l, o.1).late == l.late && o.0.toolCalls == w.toolCalls
  {
    if w.messageOpen {
      var o1 := Put((w, []), TextDone(w.messageIndex, w.textSoFar));
      var o2 := Put(o1, PartDone(w.messageIndex, w.textSoFar));
      LifePut(l, (w, []), TextDone(w.messageIndex, w.textSoFar));
      LifePut(l, o1, PartDone(w.messageIndex, w.textSoFar));
      LifePut(l, (o2.0.(partOpen := false), o2.1), ItemDone(w.messageIndex, Message(w.textSoFar)));
    }
  }

  // One more call of the loop.
  lemma {:induction false} CloseNextKeeps(l: Life, o: Out, id: string)
    requires Closing(o, LifeFrom(l, o.1))
    ensures var o' := if id in o.0.toolCalls && !o.0.toolCalls[id].closed then CloseToolCall(o, id) else o;
      && Closing(o', LifeFrom(l, o'.1)) && LifeFrom(l, o'.1).late == LifeFrom(l, o.1).late
      && o'.0.toolCalls == (if id in o.0.toolCalls then o.0.toolCalls[id := o.0.toolCalls[id].(closed := true)] else o.0.toolCalls)
  {
    if id in o.0.toolCalls {
      if o.0.toolCalls[id].closed {
        assert o.0.toolCalls[id := o.0.toolCalls[id].(closed := true)] == o.0.toolCalls;
      } else {
        CloseCallKeeps(l, o, id);
      }
    }
  }

  ghost predicate ClosedBy(calls: map<string, ToolCall>, before: map<string, ToolCall>, ids: seq<string>) {
    calls.Keys == before.Keys && forall id | id in calls && (id in ids || before[id].closed) :: calls[id].closed
  }

  lemma {:induction false} ClosedByNext(calls: map<string, ToolCall>, before: map<string, ToolCall>, ids: seq<string>, id: string)
    requires ClosedBy(calls, before, ids)
    ensures ClosedBy(if id in calls then calls[id := calls[id].(closed := true)] else calls, before, ids + [id])
  {
    assert forall x :: x in ids + [id] <==> x in ids || x == id;
  }

  lemma {:induction false} CloseCallsKeep(l: Life, o: Out, ids: seq<string>)
    requires Closing(o, LifeFrom(l, o.1))
    ensures var o' := CloseCalls(o, ids);
      && Closing(o', LifeFrom(l, o'.1)) && LifeFrom(l, o'.1).late == LifeFrom(l, o.1).late
      && ClosedBy(o'.0.toolCalls, o.0.toolCalls, ids)
  {
    if ids != [] {
      var n := |ids| - 1;
      var o1 := CloseCalls(o, ids[..n]);
      CloseCallsKeep(l, o, ids[..n]);
      CloseNextKeeps(l, o1, ids[n]);
      ClosedByNext(o1.0.toolCalls, o.0.toolCalls, ids[..n], ids[n]);
      assert ids == ids[..n] + [ids[n]];
    }
  }

  lemma {:induction false} TurnEndCompletes(visit: Visit, w: Writer, l: Life, usage: Option<Usage>)
    requires VisitsAll(visit) && InStep(w, l)
    ensures LifeFrom(l, EncodeTurnEnded(visit, w, usage).1) == Over(l.late)
  {
    var w1 := if usage.Some? then w.(lastUsage := usage) else w;
    var ids := visit(w1.toolCalls.Keys);
    CloseMessageKeeps(w1, l);
    var o := CloseMessage(w1);
    var o' := CloseCalls(o, ids);
    CloseCallsKeep(l, o, ids);
    assert Enumerates(ids, w1.toolCalls.Keys);
    assert forall id | id in o'.0.toolCalls :: id in ids;
    AllDone(o', LifeFrom(l, o'.1));
    CompletedEnds(l, o');
  }

  lemma {:induction false} CompletedEnds(l: Life, o: Out)
    requires var l' := LifeFrom(l, o.1); l'.Live? && forall i | 0 <= i < |l'.items| :: l'.items[i].done
    ensures LifeFrom(l, CompletedFrame(o).1) == Over(LifeFrom(l, o.1).late)
  {
    var w := o.0.(completedEmitted := true);
    var output := if w.completedItems == [] && w.textSoFar != "" then [Some(Message(w.textSoFar))] else w.completedItems;
    LifePut(l, (w, o.1), Completed(output, w.lastUsage));
  }

  lemma {:induction false} AllDone(o: Out, l: Life)
    requires Closing(o, l) && forall id | id in o.0.toolCalls :: o.0.toolCalls[id].closed
    ensures forall i | 0 <= i < |l.items| :: l.items[i].done
  {
    forall i | 0 <= i < |l.items| && l.items[i].FunctionLife? ensures l.items[i].done {
      var id := l.items[i].callId;
      assert id in o.0.toolCalls && l.items[o.0.toolCalls[id].outputIndex].done;
    }
  }

  // Some event continues a completed call, in a run from the start.
  predicate EverContinues(visit: Visit, events: seq<Event>) {
    exists k | 0 <= k < |events| :: Continues(Stream(visit, events[..k]).0, events[k])
  }

  lemma {:induction false} EverContinuesSnoc(visit: Visit, events: seq<Event>)
    requires events != []
    ensures var n := |events| - 1;
      EverContinues(visit, events) <==> EverContinues(visit, events[..n]) || Continues(Stream(visit, events[..n]).0, events[n])
  {
    var n := |events| - 1;
    assert forall k | 0 <= k < n :: events[..n][..k] == events[..k] && events[..n][k] == events[k];
    if EverContinues(visit, events[..n]) {
      var k :| 0 <= k < n && Continues(Stream(visit, events[..n][..k]).0, events[..n][k]);
      assert Continues(Stream(visit, events[..k]).0, events[k]);
    }
    if EverContinues(visit, events) {
      var k :| 0 <= k < |events| && Continues(Stream(visit, events[..k]).0, events[k]);
      if k < n { assert Continues(Stream(visit, events[..n][..k]).0, events[..n][k]); }
    }
  }

  lemma {:induction false} RunKeeps(visit: Visit, events: seq<Event>)
    requires forall e | e in events :: !e.TurnEnded?
    ensures var (w, out) := Stream(visit, events);
      InStep(w, LifeFrom(Before, out)) && (LifeFrom(Before, out).late <==> EverContinues(visit, events))
  {
    if events == [] {
      LifePut(Before, (NEW, []), Created);
      LifePut(Before, Put((NEW, []), Created), InProgress);
    } else {
      var n := |events| - 1;
      RunKeeps(visit, events[..n]);
      var (w, out) := Stream(visit, events[..n]);
      EventKeeps(visit, w, LifeFrom(Before, out), events[n]);
      LifeAppend(Before, out, Encode(visit, w, events[n]).1);
      EverContinuesSnoc(visit, events);
    }
  }

  // Every run through its first turn end gives a complete stream: items added
  // at indices 0, 1, 2, ..., each done once, every done text the deltas before
  // it. Argument text follows its own arguments.done if and only if an event
  // continues a call that was completed.
  lemma {:induction false} ItemLifecycle(visit: Visit, events: seq<Event>, usage: Option<Usage>)
    requires VisitsAll(visit) && forall e | e in events :: !e.TurnEnded?
    ensures LifeFrom(Before, Stream(visit, events + [TurnEnded(usage)]).1) == Over(EverContinues(visit, events))
  {
    RunKeeps(visit, events);
    var (w, out) := Stream(visit, events);
    TurnEndCompletes(visit, w, LifeFrom(Before, out), usage);
    LifeAppend(Before, out, EncodeTurnEnded(visit, w, usage).1);
    StreamSnoc(visit, events, TurnEnded(usage));
  }

  lemma {:induction false} StreamSnoc(visit: Visit, events: seq<Event>, ev: Event)
    ensures Stream(visit, events + [ev]).1 == Stream(visit, events).1 + Encode(visit, Stream(visit, events).0, ev).1
  {
    assert (events + [ev])[..|events + [ev]| - 1] == events;
  }

  // ---------- streaming and non-streaming ----------

  predicate Listed(list: seq<AccCall>, id: string) {
    exists k | 0 <= k < |list| :: list[k].callId == id
  }

  // The listed call is the stream's call of that id.
  predicate SameCall(calls: map<string, ToolCall>, c: AccCall) {
    c.callId in calls && c == AccCall(c.callId, calls[c.callId].name, calls[c.callId].arguments)
  }

  // The stream's calls in output_index order are the listed calls in order.
  ghost predicate SameList(calls: map<string, ToolCall>, list: seq<AccCall>) {
    && (forall id | id in calls :: Listed(list, id))
    && (forall k | 0 <= k < |list| :: SameCall(calls, list[k]))
    && (forall i, j | 0 <= i < j < |list| :: calls[list[i].callId].outputIndex < calls[list[j].callId].outputIndex)
  }

  // Same accumulated text, same calls in the same order.
  ghost predicate SameAnswer(w: Writer, a: Accumulator) {
    w.textSoFar == a.text && SameList(w.toolCalls, a.toolCalls)
  }

  predicate DistinctStarts(events: seq<Event>) {
    forall i, j | 0 <= i < j < |events| && events[i].ToolCallStarted? && events[j].ToolCallStarted? :: events[i].id != events[j].id
  }

  ghost predicate IndicesBelow(w: Writer) {
    forall id | id in w.toolCalls :: w.toolCalls[id].outputIndex < w.nextOutIndex
  }

  lemma {:induction false} OutIndicesBelow(visit: Visit, w: Writer, ev: Event)
    requires IndicesBelow(w)
    ensures IndicesBelow(Encode(visit, w, ev).0)
  {
    match ev
    case TurnEnded(usage) => TurnEndSameCalls(visit, w, usage);
    case ToolCallCompleted(id) => CompletedSameCalls(w, id);
    case ToolCallStarted(id, name, args) => StartIndices(w, id, name, args);
    case _ =>
  }

  lemma {:induction false} StartIndices(w: Writer, id: string, name: string, args: string)
    requires IndicesBelow(w)
    ensures IndicesBelow(EncodeToolCallStart(w, id, name, args).0)
  {
  }

  // Closing calls and messages leaves text, names, arguments and indices alone.
  ghost predicate SameCalls(w: Writer, w': Writer) {
    && w'.textSoFar == w.textSoFar && w'.nextOutIndex == w.nextOutIndex
    && w'.toolCalls.Keys == w.toolCalls.Keys
    && forall id | id in w.toolCalls :: w'.toolCalls[id] == w.toolCalls[id].(closed := w'.toolCalls[id].closed)
  }

  lemma {:induction false} ClosingKeepsAnswer(w: Writer, o: Out, ids: seq<string>)
    requires SameCalls(w, o.0)
    ensures SameCalls(w, CloseCalls(o, ids).0)
  {
    if ids != [] { ClosingKeepsAnswer(w, o, ids[..|ids| - 1]); }
  }

  lemma {:induction false} SameAnswerKept(w: Writer, w': Writer, a: Accumulator)
    requires SameAnswer(w, a) && SameCalls(w, w')
    ensures SameAnswer(w', a)
  {
    assert forall k | 0 <= k < |a.toolCalls| :: SameCall(w.toolCalls, a.toolCalls[k]);
  }

  // More argument text for the call listed at i.
  lemma {:induction false} ListGrows(calls: map<string, ToolCall>, list: seq<AccCall>, i: nat, args: string)
    requires SameList(calls, list) && i < |list|
    ensures var id := list[i].callId;
      SameList(calls[id := calls[id].(arguments := calls[id].arguments + args)],
               list[i := list[i].(arguments := list[i].arguments + args)])
  {
    var id := list[i].callId;
    assert SameCall(calls, list[i]);
    var calls' := calls[id := calls[id].(arguments := calls[id].arguments + args)];
    var list' := list[i := list[i].(arguments := list[i].arguments + args)];
    forall k | 0 <= k < |list'| ensures SameCall(calls', list'[k]) && list'[k].callId == list[k].callId {
      assert SameCall(calls, list[k]);
      assert k < i ==> calls[list[k].callId].outputIndex < calls[id].outputIndex;
      assert i < k ==> calls[id].outputIndex < calls[list[k].callId].outputIndex;
    }
    forall id' | id' in calls' ensures Listed(list', id') {
      assert Listed(list, id');
      var k :| 0 <= k < |list| && list[k].callId == id';
      assert list'[k].callId == id';
    }
  }

  // A new call, at an index above all others.
  lemma {:induction false} ListAdds(calls: map<string, ToolCall>, list: seq<AccCall>, c: ToolCall)
    requires SameList(calls, list) && c.callId !in calls
    requires forall id | id in calls :: calls[id].outputIndex < c.outputIndex
    ensures SameList(calls[c.callId := c], list + [AccCall(c.callId, c.name, c.arguments)])
  {
    var calls' := calls[c.callId := c];
    var list' := list + [AccCall(c.callId, c.name, c.arguments)];
    forall k | 0 <= k < |list'| ensures SameCall(calls', list'[k]) {
      if k < |list| { assert SameCall(calls, list[k]); }
    }
    forall id | id in calls' ensures Listed(list', id) {
      if id == c.callId {
        assert list'[|list|].callId == id;
      } else {
        assert Listed(list, id);
        var k :| 0 <= k < |list| && list[k].callId == id;
        assert list'[k].callId == id;
      }
    }
    forall i, j | 0 <= i < j < |list'| ensures calls'[list'[i].callId].outputIndex < calls'[list'[j].callId].outputIndex {
      assert SameCall(calls, list[i]);
      if j < |list| { assert SameCall(calls, list[j]); }
    }
  }

  lemma {:induction false} DeltaSame(w: Writer, a: Accumulator, id: string, args: string)
    requires SameAnswer(w, a)
    ensures SameAnswer(AppendArguments((w, []), id, args).0, Consume(a, ToolCallDelta(id, args)))
  {
    var i := Find(a.toolCalls, id);
    if i < |a.toolCalls| {
      assert SameCall(w.toolCalls, a.toolCalls[i]);
      ListGrows(w.toolCalls, a.toolCalls, i, args);
      if args == "" {
        assert a.toolCalls[i].arguments + "" == a.toolCalls[i].arguments;
        assert Consume(a, ToolCallDelta(id, args)) == a;
      }
    } else {
      assert !Listed(a.toolCalls, id);
    }
  }

  lemma {:induction false} NewStartSame(w: Writer, a: Accumulator, id: string, name: string, args: string)
    requires SameAnswer(w, a) && IndicesBelow(w) && id !in w.toolCalls
    ensures SameAnswer(EncodeToolCallStart(w, id, name, args).0, Consume(a, ToolCallStarted(id, name, args)))
  {
    var call := ToolCall(id, name, w.nextOutIndex, args, true, false);
    assert "" + args == args;
    assert EncodeToolCallStart(w, id, name, args).0.toolCalls == w.toolCalls[id := call];
    ListAdds(w.toolCalls, a.toolCalls, call);
  }

  // A repeated start gives the list the same id twice, for good.
  ghost predicate ListedTwice(list: seq<AccCall>) {
    exists i, j :: 0 <= i < j < |list| && list[i].callId == list[j].callId
  }

  lemma {:induction false} TwiceIsDifferent(w: Writer, a: Accumulator)
    requires ListedTwice(a.toolCalls)
    ensures !SameAnswer(w, a)
  {
    var i, j :| 0 <= i < j < |a.toolCalls| && a.toolCalls[i].callId == a.toolCalls[j].callId;
    assert a.toolCalls[i].callId in w.toolCalls ==>
      !(w.toolCalls[a.toolCalls[i].callId].outputIndex < w.toolCalls[a.toolCalls[j].callId].outputIndex);
    assert SameCall(w.toolCalls, a.toolCalls[i]) ==> a.toolCalls[i].callId in w.toolCalls;
  }

  lemma {:induction false} TwiceStays(a: Accumulator, ev: Event)
    requires ListedTwice(a.toolCalls)
    ensures ListedTwice(Consume(a, ev).toolCalls)
  {
    var i, j :| 0 <= i < j < |a.toolCalls| && a.toolCalls[i].callId == a.toolCalls[j].callId;
    var a' := Consume(a, ev);
    assert a'.toolCalls[i].callId == a.toolCalls[i].callId && a'.toolCalls[j].callId == a.toolCalls[j].callId;
  }

  predicate Started(events: seq<Event>, id: string) {
    exists k | 0 <= k < |events| :: events[k].ToolCallStarted? && events[k].id == id
  }

  lemma {:induction false} StartedSnoc(events: seq<Event>, id: string)
    requires events != []
    ensures var n := |events| - 1;
      Started(events, id) <==> Started(events[..n], id) || (events[n].ToolCallStarted? && events[n].id == id)
  {
    var n := |events| - 1;
    assert forall k | 0 <= k < n :: events[..n][k] == events[k];
    if Started(events[..n], id) {
      var k :| 0 <= k < n && events[..n][k].ToolCallStarted? && events[..n][k].id == id;
      assert events[k].ToolCallStarted? && events[k].id == id;
    }
  }

  // The accumulator lists exactly the ids that were started.
  lemma {:induction false} ListedIsStarted(events: seq<Event>, id: string)
    ensures Listed(ConsumeAll(events).toolCalls, id) <==> Started(events, id)
  {
    if events != [] {
      var n := |events| - 1;
      ListedIsStarted(events[..n], id);
      StartedSnoc(events, id);
      ConsumeLists(ConsumeAll(events[..n]), events[n], id);
    }
  }

  lemma {:induction false} ConsumeLists(a: Accumulator, ev: Event, id: string)
    ensures Listed(Consume(a, ev).toolCalls, id) <==> Listed(a.toolCalls, id) || (ev.ToolCallStarted? && ev.id == id)
  {
    var a' := Consume(a, ev);
    assert forall k | 0 <= k < |a.toolCalls| :: a'.toolCalls[k].callId == a.toolCalls[k].callId;
    if Listed(a.toolCalls, id) {
      var k :| 0 <= k < |a.toolCalls| && a.toolCalls[k].callId == id;
      assert a'.toolCalls[k].callId == id;
    }
    if ev.ToolCallStarted? { assert a'.toolCalls[|a.toolCalls|].callId == ev.id; }
  }

  lemma {:induction false} DistinctSnoc(events: seq<Event>)
    requires events != []
    ensures var n := |events| - 1;
      DistinctStarts(events) <==>
        DistinctStarts(events[..n]) && !(events[n].ToolCallStarted? && Started(events[..n], events[n].id))
  {
    var n := |events| - 1;
    assert forall k | 0 <= k < n :: events[..n][k] == events[k];
    if events[n].ToolCallStarted? && Started(events[..n], events[n].id) {
      var k :| 0 <= k < n && events[..n][k].ToolCallStarted? && events[..n][k].id == events[n].id;
      assert events[k].id == events[n].id;
    }
    if DistinctStarts(events) {
      forall i, j | 0 <= i < j < n && events[..n][i].ToolCallStarted? && events[..n][j].ToolCallStarted?
        ensures events[..n][i].id != events[..n][j].id
      {
        assert events[i].id != events[j].id;
      }
    }
  }

  lemma {:induction false} SecondStartLists(a: Accumulator, id: string, name: string, args: string)
    requires Listed(a.toolCalls, id)
    ensures ListedTwice(Consume(a, ToolCallStarted(id, name, args)).toolCalls)
  {
    var k :| 0 <= k < |a.toolCalls| && a.toolCalls[k].callId == id;
    var a' := Consume(a, ToolCallStarted(id, name, args));
    assert a'.toolCalls[k].callId == a'.toolCalls[|a.toolCalls|].callId;
  }

  lemma {:induction false} CompletedSameCalls(w: Writer, id: string)
    ensures SameCalls(w, EncodeToolCallCompleted(w, id).0)
  {
  }

  lemma {:induction false} TurnEndSameCalls(visit: Visit, w: Writer, usage: Option<Usage>)
    ensures SameCalls(w, EncodeTurnEnded(visit, w, usage).0)
  {
    var w1 := if usage.Some? then w.(lastUsage := usage) else w;
    ClosingKeepsAnswer(w, CloseMessage(w1), visit(w1.toolCalls.Keys));
  }

  // One event keeps the two in agreement, unless it starts a listed id again.
  lemma {:induction false} EventSame(visit: Visit, w: Writer, a: Accumulator, ev: Event)
    requires SameAnswer(w, a) && IndicesBelow(w)
    ensures if ev.ToolCallStarted? && Listed(a.toolCalls, ev.id) then ListedTwice(Consume(a, ev).toolCalls)
            else SameAnswer(Encode(visit, w, ev).0, Consume(a, ev))
  {
    match ev
    case TextDelta(text) => if text == "" { assert a.text + "" == a.text; }
    case ToolCallStarted(id, name, args) =>
      if Listed(a.toolCalls, id) {
        SecondStartLists(a, id, name, args);
      } else {
        NewStartSame(w, a, id, name, args);
      }
    case ToolCallDelta(id, args) => DeltaSame(w, a, id, args);
    case ToolCallCompleted(id) =>
      CompletedSameCalls(w, id);
      SameAnswerKept(w, EncodeToolCallCompleted(w, id).0, a);
    case TurnEnded(usage) =>
      TurnEndSameCalls(visit, w, usage);
      SameAnswerKept(w, EncodeTurnEnded(visit, w, usage).0, a);
    case Other =>
  }

  // Streaming agrees with non-streaming, exactly: after any events, turn ends
  // included, the text and the calls are the same if and only if no tool-call
  // id was started twice.
  lemma {:induction false} StreamAgreesExactly(visit: Visit, events: seq<Event>)
    ensures SameAnswer(Stream(visit, events).0, ConsumeAll(events)) <==> DistinctStarts(events)
  {
    StreamAgrees(visit, events);
    if !DistinctStarts(events) { TwiceIsDifferent(Stream(visit, events).0, ConsumeAll(events)); }
  }

  lemma {:induction false} StreamAgrees(visit: Visit, events: seq<Event>)
    ensures var w, a := Stream(visit, events).0, ConsumeAll(events);
      IndicesBelow(w) && if DistinctStarts(events) then SameAnswer(w, a) else ListedTwice(a.toolCalls)
  {
    if events != [] {
      var n := |events| - 1;
      StreamAgrees(visit, events[..n]);
      var w, a := Stream(visit, events[..n]).0, ConsumeAll(events[..n]);
      OutIndicesBelow(visit, w, events[n]);
      DistinctSnoc(events);
      if DistinctStarts(events[..n]) {
        EventSame(visit, w, a, events[n]);
        if events[n].ToolCallStarted? { ListedIsStarted(events[..n], events[n].id); }
      } else {
        TwiceStays(a, events[n]);
      }
    }
  }

  // A run where they differ: one id started twice.
  lemma {:induction false} RepeatedStartDiffers(visit: Visit)
    ensures var events := [ToolCallStarted("a", "f", ""), ToolCallStarted("a", "f", "")];
      !SameAnswer(Stream(visit, events).0, ConsumeAll(events))
  {
    StreamAgreesExactly(visit, [ToolCallStarted("a", "f", ""), ToolCallStarted("a", "f", "")]);
  }
}
