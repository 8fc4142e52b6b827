// Which runs of translator/anthropic.go follow the grammar, said of the events
// alone: no writer field appears in the condition.
module AnthropicEvents {
  import opened AnthropicStream
  import opened AnthropicGrammar

  // ---------- what the events so far amount to ----------

  // An event that sends message_start if none was sent.
  predicate Begins(ev: Event) {
    match ev
    case SignatureDelta(text) => text != ""
    case ToolCallDelta(_, _) => false
    case ToolCallCompleted(_) => false
    case TurnEnded(_, _) => false
    case Other => false
    case _ => true
  }

  predicate HasBegun(events: seq<Event>) {
    exists ev | ev in events :: Begins(ev)
  }

  // Text, thinking and signatures open a block or write in the open one.
  predicate Writes(ev: Event) {
    ev.TextDelta? || ev.ThinkingDelta? || (ev.SignatureDelta? && ev.text != "")
  }

  predicate StartsTool(ev: Event) {
    ev.ToolCallStarted? || ev.ServerToolStarted?
  }

  // Was something written since the last start of a tool?
  predicate InBlock(events: seq<Event>) {
    exists i | 0 <= i < |events| :: Writes(events[i]) && forall j | i < j < |events| :: !StartsTool(events[j])
  }

  predicate Starts(cfg: Config, ev: Event, toolId: string) {
    ev.ToolCallStarted? && ResolveClientToolID(cfg, ev.id) == toolId
  }

  predicate Completes(cfg: Config, ev: Event, toolId: string) {
    ev.ToolCallCompleted? && ResolveClientToolID(cfg, ev.id) == toolId
  }

  // The call was started and not completed since.
  predicate Running(cfg: Config, events: seq<Event>, toolId: string) {
    exists i | 0 <= i < |events| ::
      Starts(cfg, events[i], toolId) && forall j | i < j < |events| :: !Completes(cfg, events[j], toolId)
  }

  predicate Answers(ev: Event, id: string) {
    ev.WebSearchResult? && ev.id == id
  }

  // The server tool was started and has no result since.
  predicate Unanswered(events: seq<Event>, id: string) {
    exists i | 0 <= i < |events| ::
      events[i].ServerToolStarted? && events[i].id == id && forall j | i < j < |events| :: !Answers(events[j], id)
  }

  predicate Waiting(events: seq<Event>) {
    exists ev | ev in events :: ev.ServerToolStarted? && Unanswered(events, ev.id)
  }

  // ---------- the condition ----------

  // May `ev` come after `before`, in a turn that has not ended?
  predicate Fine(cfg: Config, before: seq<Event>, ev: Event) {
    match ev
    case ToolCallStarted(id, _, _) => !(InBlock(before) && Running(cfg, before, ResolveClientToolID(cfg, id)))
    case ServerToolStarted(id, _, _) => !(InBlock(before) && Unanswered(before, id))
    case WebSearchResult(_, _, _, _) => !InBlock(before)
    case TurnEnded(_, _) => HasBegun(before) && !(InBlock(before) && Waiting(before))
    case _ => true
  }

  // The turn ends at `n`, the first time; everything up to there is fine and
  // everything behind is silent.
  predicate EndsCleanlyAt(cfg: Config, events: seq<Event>, n: nat)
    requires n < |events|
  {
    && events[n].TurnEnded?
    && (forall i | 0 <= i < n :: !events[i].TurnEnded?)
    && (forall i | 0 <= i <= n :: Fine(cfg, events[..i], events[i]))
    && (forall i | n < i < |events| :: Silent(events[i]))
  }

  predicate CleanByEvents(cfg: Config, events: seq<Event>) {
    exists n | 0 <= n < |events| :: EndsCleanlyAt(cfg, events, n)
  }

  // ---------- writer and events in step ----------

  function WriterAfter(cfg: Config, events: seq<Event>): Writer {
    if events == [] then NEW
    else Encode(cfg, WriterAfter(cfg, events[..|events| - 1]), events[|events| - 1]).0
  }

  // The fields that decide, in terms of the events.
  ghost predicate Tracks(cfg: Config, events: seq<Event>, w: Writer) {
    && (w.sentStart <==> HasBegun(events))
    && (w.blockOpen <==> InBlock(events))
    && (forall id :: id in w.toolBlocks <==> Running(cfg, events, id))
    && (forall id :: id in w.serverToolBlocks <==> Unanswered(events, id))
    && (w.blockOpen || w.toolBlocks != map[] || w.serverToolBlocks != map[] ==> w.sentStart)
  }

  lemma {:induction false} BegunNext(events: seq<Event>, ev: Event)
    ensures HasBegun(events + [ev]) <==> HasBegun(events) || Begins(ev)
  {
    forall x ensures x in events + [ev] <==> x in events || x == ev { }
  }

  lemma {:induction false} InBlockNext(events: seq<Event>, ev: Event)
    ensures InBlock(events + [ev]) <==> Writes(ev) || (InBlock(events) && !StartsTool(ev))
  {
    var more := events + [ev];
    assert more[|events|] == ev && forall i | 0 <= i < |events| :: more[i] == events[i];
    if InBlock(events) && !StartsTool(ev) {
      var i :| 0 <= i < |events| && Writes(events[i]) && forall j | i < j < |events| :: !StartsTool(events[j]);
      assert Writes(more[i]);
    }
    if Writes(ev) { assert Writes(more[|events|]); }
  }

  lemma {:induction false} RunningNext(cfg: Config, events: seq<Event>, ev: Event, id: string)
    ensures Running(cfg, events + [ev], id) <==> Starts(cfg, ev, id) || (Running(cfg, events, id) && !Completes(cfg, ev, id))
  {
    var more := events + [ev];
    assert more[|events|] == ev && forall i | 0 <= i < |events| :: more[i] == events[i];
    if Running(cfg, events, id) && !Completes(cfg, ev, id) {
      var i :| 0 <= i < |events| && Starts(cfg, events[i], id) && forall j | i < j < |events| :: !Completes(cfg, events[j], id);
      assert Starts(cfg, more[i], id);
    }
    if Starts(cfg, ev, id) { assert Starts(cfg, more[|events|], id); }
  }

  lemma {:induction false} UnansweredNext(events: seq<Event>, ev: Event, id: string)
    ensures Unanswered(events + [ev], id) <==>
      (ev.ServerToolStarted? && ev.id == id) || (Unanswered(events, id) && !Answers(ev, id))
  {
    var more := events + [ev];
    assert more[|events|] == ev && forall i | 0 <= i < |events| :: more[i] == events[i];
    if Unanswered(events, id) && !Answers(ev, id) {
      var i :| 0 <= i < |events| && events[i].ServerToolStarted? && events[i].id == id
        && forall j | i < j < |events| :: !Answers(events[j], id);
      assert more[i].ServerToolStarted?;
    }
    if ev.ServerToolStarted? && ev.id == id { assert more[|events|].ServerToolStarted?; }
  }

  // What one event before the turn end does to those fields.
  lemma {:induction false} EncodeFlags(cfg: Config, w: Writer, ev: Event)
    requires !ev.TurnEnded?
    requires w.blockOpen || w.toolBlocks != map[] || w.serverToolBlocks != map[] ==> w.sentStart
    ensures var w' := Encode(cfg, w, ev).0;
      && (w'.sentStart <==> w.sentStart || Begins(ev))
      && (w'.blockOpen <==> Writes(ev) || (w.blockOpen && !StartsTool(ev)))
  {
  }

  predicate KnowsTool(cfg: Config, w: Writer, ev: Event, id: string) {
    Starts(cfg, ev, id) || (id in w.toolBlocks && !Completes(cfg, ev, id))
  }

  predicate KnowsServer(w: Writer, ev: Event, id: string) {
    (ev.ServerToolStarted? && ev.id == id) || (id in w.serverToolBlocks && !Answers(ev, id))
  }

  lemma {:induction false} CloseIds(w: Writer)
    ensures var closed := CloseAndAdvance(StartFrame(w).0).0;
      closed.toolBlocks == w.toolBlocks && closed.serverToolBlocks == w.serverToolBlocks
  {
  }

  lemma {:induction false} ToolStartIds(cfg: Config, w: Writer, ev: Event, id: string)
    requires ev.ToolCallStarted?
    ensures var w' := Encode(cfg, w, ev).0;
      (id in w'.toolBlocks <==> KnowsTool(cfg, w, ev, id)) && (id in w'.serverToolBlocks <==> KnowsServer(w, ev, id))
  {
    CloseIds(w);
    assert Encode(cfg, w, ev) == EncodeToolStart(cfg, w, ev.id, ev.name, ev.args);
  }

  lemma {:induction false} ServerStartIds(cfg: Config, w: Writer, ev: Event, id: string)
    requires ev.ServerToolStarted?
    ensures var w' := Encode(cfg, w, ev).0;
      (id in w'.toolBlocks <==> KnowsTool(cfg, w, ev, id)) && (id in w'.serverToolBlocks <==> KnowsServer(w, ev, id))
  {
    CloseIds(w);
    assert Encode(cfg, w, ev) == EncodeServerToolStart(w, ev.id, ev.name, ev.args);
  }

  lemma {:induction false} StopIds(w: Writer, id: string)
    ensures var w' := StopServerTool(w, id).0;
      w'.toolBlocks == w.toolBlocks && w'.serverToolBlocks.Keys == w.serverToolBlocks.Keys - {id}
  {
  }

  lemma {:induction false} ResultIds(cfg: Config, w: Writer, ev: Event, id: string)
    requires ev.WebSearchResult?
    ensures var w' := Encode(cfg, w, ev).0;
      (id in w'.toolBlocks <==> KnowsTool(cfg, w, ev, id)) && (id in w'.serverToolBlocks <==> KnowsServer(w, ev, id))
  {
    var w1 := StartFrame(w).0;
    StopIds(w1, ev.id);
    assert w1.toolBlocks == w.toolBlocks && w1.serverToolBlocks == w.serverToolBlocks;
    assert Encode(cfg, w, ev).0.serverToolBlocks == StopServerTool(w1, ev.id).0.serverToolBlocks;
  }

  lemma {:induction false} InBlockIds(w: Writer, t: BlockType, delta: Delta)
    ensures var w' := EncodeInBlock(w, t, delta).0; w'.toolBlocks == w.toolBlocks && w'.serverToolBlocks == w.serverToolBlocks
  {
    CloseIds(w);
  }

  lemma {:induction false} DeltaIds(cfg: Config, w: Writer, ev: Event)
    requires ev.TextDelta? || ev.ThinkingDelta?
    ensures var w' := Encode(cfg, w, ev).0; w'.toolBlocks == w.toolBlocks && w'.serverToolBlocks == w.serverToolBlocks
  {
    match ev
    case TextDelta(text) => InBlockIds(w.(text := w.text + text), TextType, Words(text));
    case ThinkingDelta(text) => InBlockIds(w, ThinkingType, Thought(text));
  }

  lemma {:induction false} OtherIds(cfg: Config, w: Writer, ev: Event, id: string)
    requires !ev.TurnEnded? && !StartsTool(ev) && !ev.WebSearchResult? && !ev.TextDelta? && !ev.ThinkingDelta?
    ensures var w' := Encode(cfg, w, ev).0;
      (id in w'.toolBlocks <==> KnowsTool(cfg, w, ev, id)) && (id in w'.serverToolBlocks <==> KnowsServer(w, ev, id))
  {
  }

  lemma {:induction false} EncodeIds(cfg: Config, w: Writer, ev: Event, id: string)
    requires !ev.TurnEnded?
    ensures var w' := Encode(cfg, w, ev).0;
      (id in w'.toolBlocks <==> KnowsTool(cfg, w, ev, id)) && (id in w'.serverToolBlocks <==> KnowsServer(w, ev, id))
  {
    if ev.ToolCallStarted? {
      ToolStartIds(cfg, w, ev, id);
    } else if ev.ServerToolStarted? {
      ServerStartIds(cfg, w, ev, id);
    } else if ev.TextDelta? || ev.ThinkingDelta? {
      DeltaIds(cfg, w, ev);
    } else if ev.WebSearchResult? {
      ResultIds(cfg, w, ev, id);
    } else {
      OtherIds(cfg, w, ev, id);
    }
  }

  lemma {:induction false} TracksNext(cfg: Config, events: seq<Event>, w: Writer, ev: Event)
    requires Tracks(cfg, events, w) && !ev.TurnEnded?
    ensures Tracks(cfg, events + [ev], Encode(cfg, w, ev).0)
  {
    var w' := Encode(cfg, w, ev).0;
    EncodeFlags(cfg, w, ev);
    BegunNext(events, ev);
    InBlockNext(events, ev);
    forall id ensures id in w'.toolBlocks <==> Running(cfg, events + [ev], id) {
      RunningNext(cfg, events, ev, id);
      EncodeIds(cfg, w, ev, id);
    }
    forall id ensures id in w'.serverToolBlocks <==> Unanswered(events + [ev], id) {
      UnansweredNext(events, ev, id);
      EncodeIds(cfg, w, ev, id);
    }
    StartedFirst(cfg, w, ev);
  }

  // An open block or a recorded id implies that message_start was sent.
  lemma {:induction false} StartedFirst(cfg: Config, w: Writer, ev: Event)
    requires !ev.TurnEnded?
    requires w.blockOpen || w.toolBlocks != map[] || w.serverToolBlocks != map[] ==> w.sentStart
    ensures var w' := Encode(cfg, w, ev).0;
      w'.blockOpen || w'.toolBlocks != map[] || w'.serverToolBlocks != map[] ==> w'.sentStart
  {
  }

  lemma {:induction false} TracksAll(cfg: Config, events: seq<Event>)
    requires forall ev | ev in events :: !ev.TurnEnded?
    ensures Tracks(cfg, events, WriterAfter(cfg, events))
  {
    if events != [] {
      var n := |events| - 1;
      TracksAll(cfg, events[..n]);
      assert events == events[..n] + [events[n]];
      TracksNext(cfg, events[..n], WriterAfter(cfg, events[..n]), events[n]);
    }
  }

  lemma {:induction false} WaitingTracks(cfg: Config, events: seq<Event>, w: Writer)
    requires Tracks(cfg, events, w)
    ensures Waiting(events) <==> w.serverToolBlocks != map[]
  {
    if w.serverToolBlocks != map[] {
      var id :| id in w.serverToolBlocks;
      assert Unanswered(events, id);
      var i :| 0 <= i < |events| && events[i].ServerToolStarted? && events[i].id == id;
      assert events[i] in events;
    }
  }

  lemma {:induction false} FineIsAllowed(cfg: Config, events: seq<Event>, w: Writer, ev: Event)
    requires Tracks(cfg, events, w)
    ensures Fine(cfg, events, ev) <==> Allowed(cfg, w, false, ev)
  {
    WaitingTracks(cfg, events, w);
  }

  lemma {:induction false} CleanAfterTheEnd(cfg: Config, w: Writer, events: seq<Event>)
    ensures Clean(cfg, w, true, events) <==> forall i | 0 <= i < |events| :: Silent(events[i])
    decreases |events|
  {
    if events != [] {
      CleanAfterTheEnd(cfg, Encode(cfg, w, events[0]).0, events[1..]);
      assert forall i | 1 <= i < |events| :: events[1..][i - 1] == events[i];
    }
  }

  // From the k-th event on, all before being fine and not the end.
  lemma {:induction false} CleanFrom(cfg: Config, events: seq<Event>, k: nat)
    requires k <= |events|
    requires forall i | 0 <= i < k :: !events[i].TurnEnded? && Fine(cfg, events[..i], events[i])
    ensures Clean(cfg, WriterAfter(cfg, events[..k]), false, events[k..]) <==> CleanByEvents(cfg, events)
    decreases |events| - k
  {
    if k == |events| {
    } else {
      var w, ev, rest := WriterAfter(cfg, events[..k]), events[k], events[k..][1..];
      TracksAll(cfg, events[..k]);
      FineIsAllowed(cfg, events[..k], w, ev);
      assert rest == events[k + 1..];
      assert events[..k + 1][..k] == events[..k];
      if !Fine(cfg, events[..k], ev) {
        assert !CleanByEvents(cfg, events);
      } else if ev.TurnEnded? {
        CleanAfterTheEnd(cfg, Encode(cfg, w, ev).0, rest);
        EndedHere(cfg, events, k);
      } else {
        CleanFrom(cfg, events, k + 1);
      }
    }
  }

  lemma {:induction false} EndedHere(cfg: Config, events: seq<Event>, k: nat)
    requires k < |events| && events[k].TurnEnded? && Fine(cfg, events[..k], events[k])
    requires forall i | 0 <= i < k :: !events[i].TurnEnded? && Fine(cfg, events[..i], events[i])
    ensures var rest := events[k + 1..]; CleanByEvents(cfg, events) <==> forall i | 0 <= i < |rest| :: Silent(rest[i])
  {
    var rest := events[k + 1..];
    assert forall i | 0 <= i < |rest| :: rest[i] == events[k + 1 + i];
    if CleanByEvents(cfg, events) {
      var n :| 0 <= n < |events| && EndsCleanlyAt(cfg, events, n);
      assert n == k;
    }
    if forall i | 0 <= i < |rest| :: Silent(rest[i]) {
      assert forall i | k < i < |events| :: events[i] == rest[i - k - 1];
      assert EndsCleanlyAt(cfg, events, k);
    }
  }

  // The trace grammar in terms of the events: the frames form a complete message
  // if and only if
  // - some event opens the message before the turn ends, once;
  // - no tool is started again, unfinished, after something was written since
  //   the last tool start, and no web result arrives in that case;
  // - nor does the turn end in that case with a server tool unanswered.
  lemma {:induction false} TraceGrammarByEvents(cfg: Config, events: seq<Event>)
    requires Fair(cfg)
    ensures AcceptAll(BEGIN, Trace(cfg, NEW, events)) == Done <==> CleanByEvents(cfg, events)
  {
    TraceGrammar(cfg, events);
    CleanFrom(cfg, events, 0);
    assert events[0..] == events;
  }
}
