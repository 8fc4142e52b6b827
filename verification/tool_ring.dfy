// cmd/cursor-proxy/introspect.go: the ring of tool observations. Times are
// integers; the mutex makes every method one atomic step.
module ToolRingBuffer {
  import opened Text

  datatype Kind = Custom | Mcp

  datatype Observation = Observation(name: string, kind: Kind, server: string, seenAt: int)

  // ---------- classification ----------

  // classifyTool
  function Classify(name: string): (Kind, string) {
    if HasPrefix(name, "mcp__") then
      var rest := name[5..];
      var i := Index(rest, "__");
      (Mcp, if i > 0 then rest[..i] else rest)
    else if HasPrefix(name, "mcp_") then
      var rest := name[4..];
      var i := Index(rest, "_");
      if i > 0 && (forall c | c in rest[..i] :: c !in "./\\") then (Mcp, rest[..i]) else (Custom, "")
    else (Custom, "")
  }

  // A name in the canonical form gives back the server it was built from exactly
  // when the server is not empty and neither contains the separator nor runs
  // into it.
  lemma {:induction false} CanonicalNameClassifies(server: string, tool: string)
    ensures Classify("mcp__" + server + "__" + tool) == (Mcp, server) <==>
      server != "" && !Occurs(server + "_", "__")
  {
    var name := "mcp__" + server + "__" + tool;
    var rest := server + "__" + tool;
    assert name == "mcp__" + rest;
    assert name[..5] == "mcp__" && name[5..] == rest;
    var i := Index(rest, "__");
    IndexIsFirst(rest, "__");
    assert OccursAt(rest, "__", |server|) by { assert rest[|server|..|server| + 2] == "__"; }
    forall k | 0 <= k < |server|
      ensures OccursAt(rest, "__", k) <==> OccursAt(server + "_", "__", k)
    {
      assert rest[..|server| + 1] == server + "_";
      OccursAtPrefix(rest, |server| + 1, "__", k);
    }
    assert i <= |server|;
    if i < |server| {
      assert OccursAt(server + "_", "__", i);
      assert |rest| > |server|;
    } else {
      assert rest[..i] == server;
    }
  }

  // ---------- what is recorded ----------

  function Observe(name: string, at: int): Observation {
    Observation(TrimSpace(name), Classify(TrimSpace(name)).0, Classify(TrimSpace(name)).1, at)
  }

  // One call of record, in order, without blank names.
  function Observations(names: seq<string>, at: int): seq<Observation> {
    if names == [] then []
    else
      var before, last := Observations(names[..|names| - 1], at), names[|names| - 1];
      if Blank(last) then before else before + [Observe(last, at)]
  }

  datatype Batch = Batch(names: seq<string>, at: int)

  // Everything a run of record calls has written.
  function LogOf(run: seq<Batch>): seq<Observation> {
    if run == [] then []
    else LogOf(run[..|run| - 1]) + Observations(run[|run| - 1].names, run[|run| - 1].at)
  }

  // ---------- what a snapshot shows ----------

  function Min(a: nat, b: nat): nat {
    if a <= b then a else b
  }

  // The last entries a ring of this capacity keeps, newest first.
  function Retained(log: seq<Observation>, capacity: nat): (r: seq<Observation>)
    ensures |r| == Min(capacity, |log|)
  {
    seq(Min(capacity, |log|), i requires 0 <= i < Min(capacity, |log|) => log[|log| - 1 - i])
  }

  // Up to the first entry older than the cutoff.
  function UpTo(entries: seq<Observation>, cutoff: int): seq<Observation> {
    if entries == [] || entries[0].seenAt < cutoff then []
    else [entries[0]] + UpTo(entries[1..], cutoff)
  }

  lemma {:induction false} UpToIsPrefix(entries: seq<Observation>, i: nat, cutoff: int)
    requires i <= |entries|
    requires forall k | 0 <= k < i :: entries[k].seenAt >= cutoff
    requires i < |entries| ==> entries[i].seenAt < cutoff
    ensures UpTo(entries, cutoff) == entries[..i]
  {
    if i > 0 {
      UpToIsPrefix(entries[1..], i - 1, cutoff);
      assert entries[..i] == [entries[0]] + entries[1..][..i - 1];
    }
  }

  function Since(entries: seq<Observation>, cutoff: int): seq<Observation> {
    if entries == [] then []
    else if entries[0].seenAt < cutoff then Since(entries[1..], cutoff)
    else [entries[0]] + Since(entries[1..], cutoff)
  }

  // Cutting loses nothing exactly when no recent entry stands behind an old one.
  ghost predicate OldOnesLast(entries: seq<Observation>, cutoff: int) {
    forall i, j | 0 <= i < j < |entries| :: entries[i].seenAt < cutoff ==> entries[j].seenAt < cutoff
  }

  lemma {:induction false} SinceIsEmpty(entries: seq<Observation>, cutoff: int)
    ensures Since(entries, cutoff) == [] <==> forall k | 0 <= k < |entries| :: entries[k].seenAt < cutoff
  {
    if entries != [] {
      SinceIsEmpty(entries[1..], cutoff);
      assert forall k | 1 <= k < |entries| :: entries[k] == entries[1..][k - 1];
      assert forall k | 0 <= k < |entries| - 1 :: entries[1..][k] == entries[k + 1];
    }
  }

  lemma {:induction false} CutIsFilter(entries: seq<Observation>, cutoff: int)
    ensures UpTo(entries, cutoff) == Since(entries, cutoff) <==> OldOnesLast(entries, cutoff)
  {
    if entries == [] {
    } else if entries[0].seenAt < cutoff {
      SinceIsEmpty(entries[1..], cutoff);
      assert forall k | 0 <= k < |entries| - 1 :: entries[1..][k] == entries[k + 1];
      assert forall k | 1 <= k < |entries| :: entries[k] == entries[1..][k - 1];
      assert OldOnesLast(entries, cutoff) ==> forall k | 1 <= k < |entries| :: entries[k].seenAt < cutoff;
    } else {
      CutIsFilter(entries[1..], cutoff);
      TailOldOnesLast(entries, cutoff);
      var t, u := UpTo(entries[1..], cutoff), Since(entries[1..], cutoff);
      assert ([entries[0]] + t)[1..] == t && ([entries[0]] + u)[1..] == u;
    }
  }

  lemma {:induction false} TailOldOnesLast(entries: seq<Observation>, cutoff: int)
    requires entries != [] && entries[0].seenAt >= cutoff
    ensures OldOnesLast(entries, cutoff) <==> OldOnesLast(entries[1..], cutoff)
  {
    if OldOnesLast(entries[1..], cutoff) {
      forall i, j | 0 <= i < j < |entries|
        ensures entries[i].seenAt < cutoff ==> entries[j].seenAt < cutoff
      {
        if i > 0 { assert entries[1..][i - 1] == entries[i] && entries[1..][j - 1] == entries[j]; }
      }
    }
  }

  predicate InOrder(run: seq<Batch>) {
    forall i, j | 0 <= i < j < |run| :: run[i].at <= run[j].at
  }

  lemma {:induction false} ObservedAt(names: seq<string>, at: int)
    ensures forall o | o in Observations(names, at) :: o.seenAt == at
  {
    if names != [] { ObservedAt(names[..|names| - 1], at); }
  }

  lemma {:induction false} LogInOrder(run: seq<Batch>)
    requires InOrder(run)
    ensures forall i, j | 0 <= i < j < |LogOf(run)| :: LogOf(run)[i].seenAt <= LogOf(run)[j].seenAt
    ensures forall o | o in LogOf(run) :: o.seenAt <= if run == [] then o.seenAt else run[|run| - 1].at
  {
    if run != [] {
      var n := |run| - 1;
      var before, last := LogOf(run[..n]), Observations(run[n].names, run[n].at);
      LogInOrder(run[..n]);
      ObservedAt(run[n].names, run[n].at);
      assert forall o | o in before :: o.seenAt <= run[n].at;
      assert forall i | 0 <= i < |before| :: before[i] in before;
      assert forall i | 0 <= i < |last| :: last[i] in last;
    }
  }

  // With non-decreasing times a snapshot is exactly the retained entries at or
  // after the cutoff.
  lemma {:induction false} SnapshotIsExact(run: seq<Batch>, capacity: nat, cutoff: int)
    requires InOrder(run)
    ensures UpTo(Retained(LogOf(run), capacity), cutoff) == Since(Retained(LogOf(run), capacity), cutoff)
  {
    LogInOrder(run);
    CutIsFilter(Retained(LogOf(run), capacity), cutoff);
  }

  // Without that order a snapshot can miss entries that are still in the ring.
  lemma {:induction false} LateClockHidesEntries(first: Observation, second: Observation)
    requires second.seenAt < first.seenAt
    ensures UpTo(Retained([first, second], 2), first.seenAt) == []
    ensures Since(Retained([first, second], 2), first.seenAt) == [first]
  {
    var r := Retained([first, second], 2);
    assert r == [second, first] && r[1..] == [first];
    assert Since([first], first.seenAt) == [first] + Since([first][1..], first.seenAt);
    assert Since(r, first.seenAt) == Since([first], first.seenAt);
  }

  // ---------- the ring ----------

  class ToolRing {
    var buf: array<Observation>
    var head: nat
    var full: bool
    ghost var log: seq<Observation>

    // The slot of the entry written i writes ago.
    function Slot(i: nat): int
      reads this
    {
      if i < head then head - 1 - i else head - 1 - i + buf.Length
    }

    function Count(): nat
      reads this
    {
      if full then buf.Length else head
    }

    ghost predicate Valid()
      reads this, buf
    {
      && head < buf.Length
      && Count() == Min(buf.Length, |log|)
      && forall i | 0 <= i < Count() :: buf[Slot(i)] == log[|log| - 1 - i]
    }

    // newToolRing
    constructor (size: int)
      ensures Valid() && log == [] && fresh(buf)
      ensures buf.Length == if size <= 0 then 4096 else size
    {
      buf := new Observation[if size <= 0 then 4096 else size](_ => Observation("", Custom, "", 0));
      head := 0;
      full := false;
      log := [];
    }

    method Put(o: Observation)
      requires Valid()
      modifies this, buf
      ensures Valid() && buf == old(buf)
      ensures log == old(log) + [o]
    {
      buf[head] := o;
      head := head + 1;
      if head >= buf.Length {
        head := 0;
        full := true;
      }
      log := log + [o];
      forall i | 0 <= i < Count()
        ensures buf[Slot(i)] == log[|log| - 1 - i]
      {
        if i > 0 {
          assert Slot(i) == old(Slot(i - 1)) != old(head);
        }
      }
    }

    method Record(names: seq<string>, at: int)
      requires Valid()
      modifies this, buf
      ensures Valid() && buf == old(buf)
      ensures log == old(log) + Observations(names, at)
    {
      if |names| == 0 {
        return;
      }
      for k := 0 to |names|
        invariant Valid() && buf == old(buf)
        invariant log == old(log) + Observations(names[..k], at)
      {
        assert names[..k + 1][..k] == names[..k];
        var n := TrimSpace(names[k]);
        if n == "" {
          continue;
        }
        var c := Classify(n);
        Put(Observation(n, c.0, c.1, at));
      }
      assert names[..|names|] == names;
    }

    method SnapshotSince(cutoff: int) returns (out: seq<Observation>)
      requires Valid()
      ensures out == UpTo(Retained(log, buf.Length), cutoff)
    {
      var n := buf.Length;
      var count := head;
      if full {
        count := n;
      }
      out := [];
      var idx := head - 1;
      if idx < 0 {
        idx := idx + n;
      }
      ghost var kept := Retained(log, n);
      for i := 0 to count
        invariant i < count ==> idx == Slot(i)
        invariant out == kept[..i] && forall k | 0 <= k < i :: kept[k].seenAt >= cutoff
      {
        var obs := buf[idx];
        assert obs == kept[i];
        if obs.seenAt < cutoff {
          UpToIsPrefix(kept, i, cutoff);
          return;
        }
        out := out + [obs];
        idx := idx - 1;
        if idx < 0 {
          idx := idx + n;
        }
      }
      UpToIsPrefix(kept, count, cutoff);
    }
  }

  // A whole run: the ring's log is the log of its record calls.
  method Replay(size: int, run: seq<Batch>, cutoff: int) returns (out: seq<Observation>)
    ensures out == UpTo(Retained(LogOf(run), if size <= 0 then 4096 else size), cutoff)
    ensures InOrder(run) ==> out == Since(Retained(LogOf(run), if size <= 0 then 4096 else size), cutoff)
  {
    var ring := new ToolRing(size);
    for k := 0 to |run|
      invariant ring.Valid() && fresh(ring) && fresh(ring.buf)
      invariant ring.buf.Length == if size <= 0 then 4096 else size
      invariant ring.log == LogOf(run[..k])
    {
      ring.Record(run[k].names, run[k].at);
      assert run[..k + 1][..k] == run[..k];
    }
    assert run[..|run|] == run;
    out := ring.SnapshotSince(cutoff);
    if InOrder(run) { SnapshotIsExact(run, ring.buf.Length, cutoff); }
  }
}
