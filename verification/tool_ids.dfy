// The repair of histories whose tool uses arrived without an id, on the
// flattened history: executor/claude_tool_ids.go and fillEmptyHistoryToolIDs of
// executor/chat_build.go follow this one algorithm. Random ids are a supply
// `supply`; `drawn` counts the ids taken from it.
module ToolIds {
  import opened Text

  datatype Item = Use(assistant: bool, id: string) | Result(id: string) | Other

  // Generated ids are not blank and carry no white space around them.
  ghost predicate Supply(supply: nat -> string) {
    forall n :: supply(n) != "" && TrimSpace(supply(n)) == supply(n)
  }

  predicate NeedsId(x: Item) {
    x.Use? && x.assistant && Blank(x.id)
  }

  // ---------- the algorithm ----------

  // `pending` holds the positions of uses that wait for an id.
  datatype State = State(items: seq<Item>, pending: seq<nat>, drawn: nat)

  // setMessagePartID
  function SetId(items: seq<Item>, p: nat, id: string): (r: seq<Item>)
    ensures |r| == |items|
  {
    if p >= |items| then items
    else match items[p]
      case Use(assistant, _) => items[p := Use(assistant, id)]
      case Result(_) => items[p := Result(id)]
      case Other => items
  }

  function Step(st: State, i: nat, supply: nat -> string): (r: State)
    requires i < |st.items|
    ensures |r.items| == |st.items|
  {
    var x := st.items[i];
    if NeedsId(x) then st.(pending := st.pending + [i])
    else if x.Result? && st.pending != [] then
      if Blank(x.id) then
        var id := supply(st.drawn);
        State(SetId(SetId(st.items, i, id), st.pending[0], id), st.pending[1..], st.drawn + 1)
      else
        State(SetId(st.items, st.pending[0], TrimSpace(x.id)), st.pending[1..], st.drawn)
    else st
  }

  function RunTo(items: seq<Item>, n: nat, supply: nat -> string): (r: State)
    requires n <= |items|
    ensures |r.items| == |items|
  {
    if n == 0 then State(items, [], 0) else Step(RunTo(items, n - 1, supply), n - 1, supply)
  }

  // Uses that no result served get generated ids.
  function Fill(items: seq<Item>, pending: seq<nat>, drawn: nat, supply: nat -> string): (r: seq<Item>)
    ensures |r| == |items|
    decreases |pending|
  {
    if pending == [] then items else Fill(SetId(items, pending[0], supply(drawn)), pending[1..], drawn + 1, supply)
  }

  function Repair(items: seq<Item>, supply: nat -> string): (r: seq<Item>)
    ensures |r| == |items|
  {
    var st := RunTo(items, |items|, supply);
    Fill(st.items, st.pending, st.drawn, supply)
  }

  // ---------- who is paired with whom ----------

  // The uses among the first n items that need an id, in order.
  function Uses(items: seq<Item>, n: nat): (r: seq<nat>)
    requires n <= |items|
  {
    if n == 0 then [] else Uses(items, n - 1) + if NeedsId(items[n - 1]) then [n - 1] else []
  }

  // The results among them that arrived while uses waited, in order.
  function Takers(items: seq<Item>, n: nat): (r: seq<nat>)
    requires n <= |items|
    decreases n, 0
  {
    if n == 0 then [] else Takers(items, n - 1) + if Takes(items, n - 1) then [n - 1] else []
  }

  predicate Takes(items: seq<Item>, i: nat)
    requires i < |items|
    decreases i, 1
  {
    items[i].Result? && |Takers(items, i)| < |Uses(items, i)|
  }

  // How many of them came without an id themselves.
  function Draws(items: seq<Item>, n: nat): nat
    requires n <= |items|
  {
    if n == 0 then 0 else Draws(items, n - 1) + if Takes(items, n - 1) && HasBlankId(items[n - 1]) then 1 else 0
  }

  predicate HasBlankId(x: Item) {
    x.Result? && Blank(x.id)
  }

  // The id that the result at t hands on.
  function Given(items: seq<Item>, t: nat, supply: nat -> string): string {
    if t < |items| && items[t].Result? then
      if Blank(items[t].id) then supply(Draws(items, t)) else TrimSpace(items[t].id)
    else ""
  }

  // First in, first out, said position by position: a use without an id that has
  // k such uses before it gets the id of the k-th taker; if there are not so
  // many takers, the next generated id. A taker without an id keeps the one
  // generated for it. Nothing else changes.
  function Paired(items: seq<Item>, j: nat, supply: nat -> string): Item
    requires j < |items|
  {
    var takers, rank := Takers(items, |items|), |Uses(items, j)|;
    if NeedsId(items[j]) then
      Use(true, if rank < |takers| then Given(items, takers[rank], supply)
                else supply(Draws(items, |items|) + rank - |takers|))
    else if Takes(items, j) && HasBlankId(items[j]) then Result(Given(items, j, supply))
    else items[j]
  }

  lemma {:induction false} UseRank(items: seq<Item>, n: nat, j: nat)
    requires j < n <= |items| && NeedsId(items[j])
    ensures |Uses(items, j)| < |Uses(items, n)| && Uses(items, n)[|Uses(items, j)|] == j
  {
    if j < n - 1 { UseRank(items, n - 1, j); }
  }

  lemma {:induction false} RankedUse(items: seq<Item>, n: nat, k: nat)
    requires n <= |items| && k < |Uses(items, n)|
    ensures var u := Uses(items, n)[k]; u < n && NeedsId(items[u]) && |Uses(items, u)| == k
  {
    if k < |Uses(items, n - 1)| { RankedUse(items, n - 1, k); }
  }

  lemma {:induction false} RankedTaker(items: seq<Item>, n: nat, k: nat)
    requires n <= |items| && k < |Takers(items, n)|
    ensures var t := Takers(items, n)[k]; t < n && Takes(items, t) && |Takers(items, t)| == k
  {
    if k < |Takers(items, n - 1)| { RankedTaker(items, n - 1, k); }
  }

  lemma {:induction false} FewerTakers(items: seq<Item>, n: nat)
    requires n <= |items|
    ensures |Takers(items, n)| <= |Uses(items, n)|
  {
    if n > 0 { FewerTakers(items, n - 1); }
  }

  lemma {:induction false} UsesGrow(items: seq<Item>, m: nat, n: nat)
    requires m <= n <= |items|
    ensures Uses(items, m) <= Uses(items, n)
  {
    if m < n { UsesGrow(items, m, n - 1); }
  }

  // ---------- the state after n items ----------

  // The item at j by then.
  function After(items: seq<Item>, n: nat, j: nat, supply: nat -> string): Item
    requires n <= |items| && j < |items|
  {
    var takers, rank := Takers(items, n), |Uses(items, j)|;
    if j >= n then items[j]
    else if NeedsId(items[j]) then
      if rank < |takers| then Use(true, Given(items, takers[rank], supply)) else items[j]
    else if Takes(items, j) && HasBlankId(items[j]) then Result(Given(items, j, supply))
    else items[j]
  }

  ghost predicate AllAfter(items: seq<Item>, n: nat, now: seq<Item>, supply: nat -> string)
    requires n <= |items| && |now| == |items|
  {
    forall j | 0 <= j < |items| :: now[j] == After(items, n, j, supply)
  }

  ghost predicate Inv(items: seq<Item>, n: nat, st: State, supply: nat -> string)
    requires n <= |items| && |st.items| == |items|
  {
    && |Takers(items, n)| <= |Uses(items, n)|
    && st.pending == Uses(items, n)[|Takers(items, n)|..]
    && st.drawn == Draws(items, n)
    && AllAfter(items, n, st.items, supply)
  }

  // Only a taker changes what an earlier item looks like, and only the first
  // use that still waits.
  lemma {:induction false} AfterNext(items: seq<Item>, n: nat, j: nat, supply: nat -> string)
    requires n < |items| && j < |items| && j != n
    requires Takes(items, n) ==> j != Uses(items, n)[|Takers(items, n)|]
    ensures After(items, n + 1, j, supply) == After(items, n, j, supply)
  {
    if j < n && NeedsId(items[j]) { UseRank(items, n, j); }
  }

  lemma {:induction false} AfterTaken(items: seq<Item>, n: nat, supply: nat -> string)
    requires n < |items| && Takes(items, n)
    ensures var u := Uses(items, n)[|Takers(items, n)|];
      u < n && After(items, n + 1, u, supply) == Use(true, Given(items, n, supply)) && After(items, n, u, supply) == items[u]
      && NeedsId(items[u])
  {
    RankedUse(items, n, |Takers(items, n)|);
  }

  lemma {:induction false} StepAt(items: seq<Item>, n: nat, st: State, supply: nat -> string, j: nat)
    requires n < |items| && |st.items| == |items| && Inv(items, n, st, supply) && j < |items|
    ensures Step(st, n, supply).items[j] == After(items, n + 1, j, supply)
  {
    assert st.items[n] == After(items, n, n, supply) == items[n];
    assert st.items[j] == After(items, n, j, supply);
    if Takes(items, n) {
      AfterTaken(items, n, supply);
      var u := Uses(items, n)[|Takers(items, n)|];
      assert st.pending[0] == u;
      assert st.items[u] == After(items, n, u, supply);
    }
    if j != n && !(Takes(items, n) && j == Uses(items, n)[|Takers(items, n)|]) {
      AfterNext(items, n, j, supply);
    }
  }

  lemma {:induction false} StepQueue(items: seq<Item>, n: nat, st: State, supply: nat -> string)
    requires n < |items| && |st.items| == |items| && Inv(items, n, st, supply)
    ensures |Takers(items, n + 1)| <= |Uses(items, n + 1)|
    ensures var st' := Step(st, n, supply);
      st'.pending == Uses(items, n + 1)[|Takers(items, n + 1)|..] && st'.drawn == Draws(items, n + 1)
  {
    FewerTakers(items, n + 1);
    assert st.items[n] == After(items, n, n, supply) == items[n];
    var uses, t := Uses(items, n), |Takers(items, n)|;
    assert (uses + [n])[t..] == uses[t..] + [n];
    if t < |uses| { assert uses[t..][1..] == uses[t + 1..]; }
  }

  lemma {:induction false} RunKeepsInv(items: seq<Item>, n: nat, supply: nat -> string)
    requires n <= |items|
    ensures Inv(items, n, RunTo(items, n, supply), supply)
  {
    if n > 0 {
      var st := RunTo(items, n - 1, supply);
      RunKeepsInv(items, n - 1, supply);
      FewerTakers(items, n);
      StepQueue(items, n - 1, st, supply);
      forall j | 0 <= j < |items|
        ensures RunTo(items, n, supply).items[j] == After(items, n, j, supply)
      {
        StepAt(items, n - 1, st, supply, j);
      }
    }
  }

  // ---------- the whole repair ----------

  ghost predicate Rising(s: seq<nat>, n: nat) {
    (forall k | 0 <= k < |s| :: s[k] < n) && forall i, k | 0 <= i < k < |s| :: s[i] < s[k]
  }

  lemma {:induction false} UsesRise(items: seq<Item>, n: nat)
    requires n <= |items|
    ensures Rising(Uses(items, n), n)
  {
    if n > 0 { UsesRise(items, n - 1); }
  }

  lemma {:induction false} FillKeeps(items: seq<Item>, pending: seq<nat>, drawn: nat, supply: nat -> string, j: nat)
    requires j < |items| && j !in pending
    ensures Fill(items, pending, drawn, supply)[j] == items[j]
    decreases |pending|
  {
    if pending != [] {
      FillKeeps(SetId(items, pending[0], supply(drawn)), pending[1..], drawn + 1, supply, j);
    }
  }

  lemma {:induction false} FillSets(items: seq<Item>, pending: seq<nat>, drawn: nat, supply: nat -> string, k: nat)
    requires Rising(pending, |items|) && k < |pending| && items[pending[k]].Use?
    ensures Fill(items, pending, drawn, supply)[pending[k]] == Use(items[pending[k]].assistant, supply(drawn + k))
    decreases |pending|
  {
    var next, rest := SetId(items, pending[0], supply(drawn)), pending[1..];
    if k == 0 {
      assert pending[0] !in rest;
      FillKeeps(next, rest, drawn + 1, supply, pending[0]);
    } else {
      assert rest[k - 1] == pending[k] && pending[0] < pending[k];
      assert next[pending[k]] == items[pending[k]];
      FillSets(next, rest, drawn + 1, supply, k - 1);
    }
  }

  lemma {:induction false} StillWaiting(items: seq<Item>, j: nat)
    requires j < |items| && NeedsId(items[j]) && |Takers(items, |items|)| <= |Uses(items, j)|
    ensures var uses, t, rank := Uses(items, |items|), |Takers(items, |items|)|, |Uses(items, j)|;
      t <= rank < |uses| && rank - t < |uses[t..]| && uses[t..][rank - t] == j
  {
    UseRank(items, |items|, j);
  }

  lemma {:induction false} NotWaiting(items: seq<Item>, j: nat)
    requires j < |items| && (NeedsId(items[j]) ==> |Uses(items, j)| < |Takers(items, |items|)|)
    ensures |Takers(items, |items|)| <= |Uses(items, |items|)|
    ensures j !in Uses(items, |items|)[|Takers(items, |items|)|..]
  {
    var n := |items|;
    FewerTakers(items, n);
    var uses, t := Uses(items, n), |Takers(items, n)|;
    forall k | t <= k < |uses|
      ensures uses[k] != j
    {
      RankedUse(items, n, k);
    }
  }

  lemma {:induction false} TailRises(s: seq<nat>, t: nat, n: nat)
    requires Rising(s, n) && t <= |s|
    ensures Rising(s[t..], n)
  {
  }

  lemma {:induction false} FilledAt(items: seq<Item>, now: seq<Item>, drawn: nat, supply: nat -> string, j: nat)
    requires j < |items| == |now| && NeedsId(items[j]) && now[j] == items[j]
    requires |Takers(items, |items|)| <= |Uses(items, j)|
    ensures var t, rank := |Takers(items, |items|)|, |Uses(items, j)|;
      t <= |Uses(items, |items|)| && Fill(now, Uses(items, |items|)[t..], drawn, supply)[j] == Use(true, supply(drawn + (rank - t)))
  {
    var n := |items|;
    var t, rank := |Takers(items, n)|, |Uses(items, j)|;
    StillWaiting(items, j);
    UsesRise(items, n);
    TailRises(Uses(items, n), t, n);
    FillSets(now, Uses(items, n)[t..], drawn, supply, rank - t);
  }

  lemma {:induction false} KeptAt(items: seq<Item>, now: seq<Item>, drawn: nat, supply: nat -> string, j: nat)
    requires j < |items| == |now| && (NeedsId(items[j]) ==> |Uses(items, j)| < |Takers(items, |items|)|)
    ensures |Takers(items, |items|)| <= |Uses(items, |items|)|
    ensures Fill(now, Uses(items, |items|)[|Takers(items, |items|)|..], drawn, supply)[j] == now[j]
  {
    NotWaiting(items, j);
    FillKeeps(now, Uses(items, |items|)[|Takers(items, |items|)|..], drawn, supply, j);
  }

  lemma {:induction false} RunAt(items: seq<Item>, supply: nat -> string, j: nat)
    requires j < |items|
    ensures var n, st := |items|, RunTo(items, |items|, supply);
      && |Takers(items, n)| <= |Uses(items, n)|
      && st.pending == Uses(items, n)[|Takers(items, n)|..]
      && st.drawn == Draws(items, n)
      && st.items[j] == After(items, n, j, supply)
  {
    RunKeepsInv(items, |items|, supply);
  }

  lemma {:induction false} WaitingAt(items: seq<Item>, j: nat, supply: nat -> string)
    requires j < |items| && NeedsId(items[j]) && |Takers(items, |items|)| <= |Uses(items, j)|
    ensures After(items, |items|, j, supply) == items[j]
    ensures Paired(items, j, supply) ==
      Use(true, supply(Draws(items, |items|) + (|Uses(items, j)| - |Takers(items, |items|)|)))
  {
  }

  lemma {:induction false} ServedAt(items: seq<Item>, j: nat, supply: nat -> string)
    requires j < |items| && (NeedsId(items[j]) ==> |Uses(items, j)| < |Takers(items, |items|)|)
    ensures Paired(items, j, supply) == After(items, |items|, j, supply)
  {
  }

  // The repair is the first-in-first-out pairing.
  lemma {:induction false} RepairIsFifo(items: seq<Item>, supply: nat -> string, j: nat)
    requires j < |items|
    ensures Repair(items, supply)[j] == Paired(items, j, supply)
  {
    var st := RunTo(items, |items|, supply);
    RunAt(items, supply, j);
    if NeedsId(items[j]) && |Takers(items, |items|)| <= |Uses(items, j)| {
      WaitingAt(items, j, supply);
      FilledAt(items, st.items, st.drawn, supply, j);
    } else {
      ServedAt(items, j, supply);
      KeptAt(items, st.items, st.drawn, supply, j);
    }
  }

  // After the repair no assistant tool use has a blank id.
  lemma {:induction false} NoBlankUse(items: seq<Item>, supply: nat -> string, j: nat)
    requires Supply(supply) && j < |items|
    ensures !NeedsId(Repair(items, supply)[j])
  {
    RepairIsFifo(items, supply, j);
    var takers, rank := Takers(items, |items|), |Uses(items, j)|;
    if NeedsId(items[j]) && rank < |takers| {
      RankedTaker(items, |items|, rank);
      TrimSpaceIdempotent(items[takers[rank]].id);
    }
  }

  // An id that was there stays as it was, whatever carries it.
  lemma {:induction false} IdsAreKept(items: seq<Item>, supply: nat -> string, j: nat)
    requires j < |items| && !NeedsId(items[j]) && !HasBlankId(items[j])
    ensures Repair(items, supply)[j] == items[j]
  {
    RepairIsFifo(items, supply, j);
  }

  // The k-th use without an id and the k-th taker: the use comes first and gets
  // the id that the result has after the repair.
  lemma {:induction false} PairsAgree(items: seq<Item>, supply: nat -> string, k: nat)
    requires Supply(supply) && k < |Takers(items, |items|)|
    ensures k < |Uses(items, |items|)|
    ensures var r, u, t := Repair(items, supply), Uses(items, |items|)[k], Takers(items, |items|)[k];
      u < t < |items| && r[u].Use? && r[t].Result? && r[u].id == TrimSpace(r[t].id)
  {
    var n := |items|;
    FewerTakers(items, n);
    var u, t := Uses(items, n)[k], Takers(items, n)[k];
    RankedUse(items, n, k);
    RankedTaker(items, n, k);
    RepairIsFifo(items, supply, u);
    RepairIsFifo(items, supply, t);
    UsesGrow(items, t, n);
    RankedUse(items, t, k);
  }

  lemma {:induction false} NothingToDo(items: seq<Item>, n: nat, supply: nat -> string)
    requires n <= |items| && forall j | 0 <= j < |items| :: !NeedsId(items[j])
    ensures RunTo(items, n, supply) == State(items, [], 0)
  {
    if n > 0 { NothingToDo(items, n - 1, supply); }
  }

  lemma {:induction false} RepairIsIdempotent(items: seq<Item>, supply: nat -> string, again: nat -> string)
    requires Supply(supply)
    ensures Repair(Repair(items, supply), again) == Repair(items, supply)
  {
    var r := Repair(items, supply);
    forall j | 0 <= j < |r|
      ensures !NeedsId(r[j])
    {
      NoBlankUse(items, supply, j);
    }
    NothingToDo(r, |r|, again);
  }

  // ---------- lost ids restored ----------

  // The history as it was sent, and as it arrives without some ids of uses.
  ghost predicate Strips(sent: seq<Item>, got: seq<Item>) {
    |got| == |sent| && forall j | 0 <= j < |sent| ::
      && !NeedsId(sent[j]) && !HasBlankId(sent[j])
      && (got[j] == sent[j] || (sent[j].Use? && sent[j].assistant && got[j] == Use(true, "")))
  }

  // The k-th use that lost its id meets a result with that id.
  ghost predicate Meets(sent: seq<Item>, got: seq<Item>, k: nat)
    requires |got| == |sent|
  {
    var uses, takers := Uses(got, |got|), Takers(got, |got|);
    k < |uses| && k < |takers| && uses[k] < |sent| && takers[k] < |sent| && sent[takers[k]].Result? &&
    sent[uses[k]] == Use(true, TrimSpace(sent[takers[k]].id))
  }

  lemma {:induction false} RestoredAt(sent: seq<Item>, got: seq<Item>, supply: nat -> string, k: nat)
    requires Strips(sent, got) && k < |Uses(got, |got|)|
    requires forall j, n: nat | 0 <= j < |sent| :: sent[j] != Use(true, supply(n))
    ensures var u := Uses(got, |got|)[k]; u < |sent| && (Repair(got, supply)[u] == sent[u] <==> Meets(sent, got, k))
  {
    var n := |got|;
    var u := Uses(got, n)[k];
    RankedUse(got, n, k);
    RepairIsFifo(got, supply, u);
    if k < |Takers(got, n)| {
      RankedTaker(got, n, k);
      var t := Takers(got, n)[k];
      assert got[t] == sent[t];
    }
  }

  // The lost ids come back exactly when every use that lost one meets, in turn,
  // a result that carries it.
  lemma {:induction false} RestoresExactly(sent: seq<Item>, got: seq<Item>, supply: nat -> string)
    requires Strips(sent, got)
    requires forall j, n: nat | 0 <= j < |sent| :: sent[j] != Use(true, supply(n))
    ensures Repair(got, supply) == sent <==> forall k | 0 <= k < |Uses(got, |got|)| :: Meets(sent, got, k)
  {
    var n := |got|;
    forall k | 0 <= k < |Uses(got, n)|
      ensures var u := Uses(got, n)[k]; u < |sent| && (Repair(got, supply)[u] == sent[u] <==> Meets(sent, got, k))
    {
      RestoredAt(sent, got, supply, k);
    }
    forall j | 0 <= j < n
      ensures NeedsId(got[j]) ==> j in Uses(got, n)
      ensures !NeedsId(got[j]) ==> Repair(got, supply)[j] == sent[j]
    {
      BlankIsBlank();
      if NeedsId(got[j]) { UseRank(got, n, j); } else { IdsAreKept(got, supply, j); }
    }
  }

  lemma {:induction false} BlankIsBlank()
    ensures Blank("")
  {
  }

  // It is not restored when the result of another use arrives first: that
  // result serves the waiting use although its own use has an id.
  lemma {:induction false} StolenId(a: string, b: string, supply: nat -> string)
    requires !Blank(a) && !Blank(b) && TrimSpace(a) == a && TrimSpace(b) == b
    ensures Repair([Use(true, ""), Use(true, b), Result(b), Result(a)], supply) ==
      [Use(true, b), Use(true, b), Result(b), Result(a)]
  {
    var items := [Use(true, ""), Use(true, b), Result(b), Result(a)];
    BlankIsBlank();
    assert RunTo(items, 0, supply) == State(items, [], 0);
    assert RunTo(items, 1, supply) == State(items, [0], 0);
    assert RunTo(items, 2, supply) == State(items, [0], 0);
    var after := [Use(true, b), Use(true, b), Result(b), Result(a)];
    assert items[0 := Use(true, b)] == after;
    assert RunTo(items, 3, supply) == State(after, [], 0);
    assert RunTo(items, 4, supply) == State(after, [], 0);
  }
}
