// A token ceiling together with stop sequences: for which texts the split into
// deltas does not matter, exactly (translator/output_limit.go).
module OutputLimitCeiling {
  import opened Text
  import opened OutputLimit
  import opened OutputLimitLaws

  // How much of the first `j` characters is not held back.
  function Cleared(text: string, stops: seq<string>, j: nat): (r: nat)
    requires j <= |text|
    ensures r <= j
  {
    j - Hold(text[..j], stops)
  }

  // The first `j` characters show no stop sequence.
  predicate Unstopped(text: string, stops: seq<string>, j: int) {
    0 <= j <= |text| && FirstStop(text[..j], stops).0 < 0
  }

  // A delta may end after `j` characters: what is cleared there does not meet
  // the ceiling before the one-call result ends, nor pass it ahead of a stop.
  predicate MayEndAt(maxTokens: int, stops: seq<string>, text: string, j: int)
    requires Unstopped(text, stops, j)
  {
    var cleared := text[..Cleared(text, stops, j)];
    && (EstimateTokens(cleared) == maxTokens ==> |cleared| >= |Truncated(maxTokens, stops, text).text|)
    && (FirstStop(text, stops).0 >= 0 ==> EstimateTokens(cleared) <= maxTokens)
  }

  predicate MayEndAnywhere(maxTokens: int, stops: seq<string>, text: string) {
    forall j | 0 <= j <= |text| && Unstopped(text, stops, j) :: MayEndAt(maxTokens, stops, text, j)
  }

  // ---------- how a run stops at the ceiling ----------

  // One more character would be too many.
  predicate Tight(maxTokens: int, text: string, n: nat) {
    n < |text| && EstimateTokens(text[..n + 1]) > maxTokens
  }

  // The first `n` characters are those cleared at some point before a stop.
  predicate IsCleared(stops: seq<string>, text: string, n: nat) {
    exists j | 0 <= j <= |text| && Unstopped(text, stops, j) :: n == Cleared(text, stops, j)
  }

  // More than `n` characters are cleared at some point before a stop.
  predicate IsPassed(stops: seq<string>, text: string, n: nat) {
    exists j | 0 <= j <= |text| && Unstopped(text, stops, j) :: n < Cleared(text, stops, j)
  }

  predicate IsSeen(stops: seq<string>, text: string, sequence: string) {
    exists k | 0 <= k <= |text| :: FirstStop(text[..k], stops).0 >= 0 && FirstStop(text[..k], stops).1 == sequence
  }

  // What is known of a limiter that has received `received`: it stops at the
  // ceiling because no more fits, or because what was cleared meets it; the
  // sequence it holds then is one it saw, or none since more was cleared.
  predicate Ceased(l: Limiter, received: string) {
    if l.stopReason == "max_tokens" then
      && (Tight(l.maxTokens, received, |l.emitted|) || IsCleared(l.stops, received, |l.emitted|))
      && (if l.stopSequence == "" then IsPassed(l.stops, received, |l.emitted|) else IsSeen(l.stops, received, l.stopSequence))
    else !l.stopped ==> l.stopSequence == ""
  }

  lemma {:induction false} LongerText(maxTokens: int, stops: seq<string>, text: string, more: string, n: nat, sequence: string)
    ensures Tight(maxTokens, text, n) ==> Tight(maxTokens, text + more, n)
    ensures IsCleared(stops, text, n) ==> IsCleared(stops, text + more, n)
    ensures IsPassed(stops, text, n) ==> IsPassed(stops, text + more, n)
    ensures IsSeen(stops, text, sequence) ==> IsSeen(stops, text + more, sequence)
  {
    forall j | 0 <= j <= |text| ensures (text + more)[..j] == text[..j] { }
    forall j: nat | j <= |text| && Unstopped(text, stops, j)
      ensures Unstopped(text + more, stops, j) && Cleared(text + more, stops, j) == Cleared(text, stops, j)
    {
    }
    if IsSeen(stops, text, sequence) {
      var k :| 0 <= k <= |text| && FirstStop(text[..k], stops).0 >= 0 && FirstStop(text[..k], stops).1 == sequence;
      assert FirstStop((text + more)[..k], stops).1 == sequence;
    }
  }

  lemma {:induction false} AdmitCeases(l: Limiter, text: string)
    requires l.maxTokens > 0 && EstimateTokens(l.emitted) <= l.maxTokens && l.stopReason != "max_tokens"
    ensures var (l', out) := Admit(l, text);
      l'.stopReason == "max_tokens" ==>
        |out| < |text| && (if EstimateTokens(l.emitted) == l.maxTokens then out == ""
                           else EstimateTokens(l.emitted + text[..|out| + 1]) > l.maxTokens)
  {
    ClipReaches(l.emitted, text, l.maxTokens);
  }

  // Stopping while `received` is extended: tight, or nothing more was admitted.
  lemma {:induction false} StoppedShort(l: Limiter, received: string, delta: string, n: nat, m: Limiter)
    requires l.maxTokens > 0 && Inv(l, received) && !l.stopped && n <= |l.pending + delta|
    requires m.maxTokens == l.maxTokens && m.emitted == l.emitted && m.stopReason != "max_tokens"
    ensures var l' := Admit(m, (l.pending + delta)[..n]).0;
      l'.stopReason == "max_tokens" ==>
        |l'.emitted| < |l.emitted| + n
        && (Tight(l.maxTokens, received + delta, |l'.emitted|) || IsCleared(l.stops, received + delta, |l'.emitted|))
  {
    var text := (l.pending + delta)[..n];
    var (l', out) := Admit(m, text);
    AdmitCeases(m, text);
    AdmitKeeps(m, text);
    if l'.stopReason == "max_tokens" {
      if EstimateTokens(l.emitted) == l.maxTokens {
        ClearedNow(l, received);
        LongerText(l.maxTokens, l.stops, received, delta, |l.emitted|, "");
      } else {
        EstimateGrows(l.emitted + text[..|out| + 1], (received + delta)[..|l'.emitted| + 1]);
      }
    }
  }

  lemma {:induction false} ClearedNow(l: Limiter, received: string)
    requires Inv(l, received) && !l.stopped
    ensures IsCleared(l.stops, received, |l.emitted|)
  {
    assert received[..|received|] == received;
    NoStopIsNoMatch(received, l.stops);
    assert Unstopped(received, l.stops, |received|) && |l.emitted| == Cleared(received, l.stops, |received|);
  }

  lemma {:induction false} FindCeases(l: Limiter, received: string, delta: string)
    requires l.maxTokens > 0 && Inv(l, received) && !l.stopped && FirstStop(l.pending + delta, l.stops).0 >= 0
    ensures Ceased(Feed(l, delta).0, received + delta)
  {
    var all := received + delta;
    var (index, sequence) := FirstStop(l.pending + delta, l.stops);
    var found := l.(pending := "", stopped := true, stopReason := "stop_sequence", stopSequence := sequence);
    var l' := Admit(found, (l.pending + delta)[..index]).0;
    assert Feed(l, delta).0 == l';
    StoppedShort(l, received, delta, index, found);
    AdmitKeeps(found, (l.pending + delta)[..index]);
    SearchFromHeld(received, delta, l.stops);
    FoundStandsThere(received, delta, l.stops);
    assert all[..|all|] == all;
    assert IsSeen(l.stops, all, sequence);
  }

  lemma {:induction false} HoldCeases(l: Limiter, received: string, delta: string)
    requires l.maxTokens > 0 && Inv(l, received) && !l.stopped && l.stopSequence == ""
    requires FirstStop(l.pending + delta, l.stops).0 < 0
    ensures Ceased(Feed(l, delta).0, received + delta)
  {
    var all, buffered := received + delta, l.pending + delta;
    var cut := |buffered| - Hold(buffered, l.stops);
    var rest := l.(pending := buffered[cut..]);
    var l' := Admit(rest, buffered[..cut]).0;
    assert Feed(l, delta).0 == l';
    StoppedShort(l, received, delta, cut, rest);
    AdmitKeeps(rest, buffered[..cut]);
    SearchFromHeld(received, delta, l.stops);
    HoldFromHeld(received, delta, l.stops, buffered);
    assert all[..|all|] == all;
    assert Unstopped(all, l.stops, |all|) && Cleared(all, l.stops, |all|) == |l.emitted| + cut;
  }

  lemma {:induction false} FedCeases(maxTokens: int, stops: seq<string>, deltas: seq<string>)
    requires maxTokens > 0
    ensures Ceased(Fed(Fresh(maxTokens, stops), deltas).0, Flatten(deltas))
  {
    if deltas != [] {
      var front, last := deltas[..|deltas| - 1], deltas[|deltas| - 1];
      FedCeases(maxTokens, stops, front);
      FedKeepsInv(maxTokens, stops, front);
      var l := Fed(Fresh(maxTokens, stops), front).0;
      if l.stopped {
        LongerText(maxTokens, stops, Flatten(front), last, |l.emitted|, l.stopSequence);
      } else if FirstStop(l.pending + last, l.stops).0 >= 0 {
        FindCeases(l, Flatten(front), last);
      } else {
        HoldCeases(l, Flatten(front), last);
      }
    }
  }

  // The outcome of a run that ended at the ceiling.
  lemma {:induction false} StreamedCeases(maxTokens: int, stops: seq<string>, deltas: seq<string>)
    requires maxTokens > 0
    ensures var r, text := Streamed(maxTokens, stops, deltas), Flatten(deltas);
      r.stop.0 == "max_tokens" ==>
        && (Tight(maxTokens, text, |r.text|) || IsCleared(stops, text, |r.text|))
        && (if r.stop.1 == "" then FirstStop(text, stops).0 < 0 || IsPassed(stops, text, |r.text|) else IsSeen(stops, text, r.stop.1))
  {
    var text := Flatten(deltas);
    FedCeases(maxTokens, stops, deltas);
    FedKeepsInv(maxTokens, stops, deltas);
    var (l, out) := Fed(Fresh(maxTokens, stops), deltas);
    if l.stopped {
      assert out + "" == out;
    } else {
      var m := l.(pending := "");
      assert text + "" == text && (l.pending + "")[..|l.pending|] == l.pending;
      StoppedShort(l, text, "", |l.pending|, m);
      AdmitKeeps(m, l.pending);
      NoStopIsNoMatch(text, stops);
    }
  }

  // A single call starts with nothing sent, so only the text cleared at its end
  // can meet the ceiling.
  lemma {:induction false} TruncatedCeases(maxTokens: int, stops: seq<string>, text: string)
    requires maxTokens > 0
    ensures var r := Truncated(maxTokens, stops, text);
      r.stop.0 == "max_tokens" ==>
        Tight(maxTokens, text, |r.text|) || (FirstStop(text, stops).0 < 0 && |r.text| == Cleared(text, stops, |text|))
  {
    var l := Fresh(maxTokens, stops);
    assert "" + text == text && text[..|text|] == text;
    var (index, sequence) := FirstStop(text, stops);
    if index >= 0 {
      var found := l.(stopped := true, stopReason := "stop_sequence", stopSequence := sequence);
      TightFromNothing(found, text, index);
      var (l1, out) := Admit(found, text[..index]);
      AdmitKeeps(found, text[..index]);
      assert Feed(l, text) == (l1, out, true);
      assert out + "" == out && "" + out == out;
    } else {
      var cut := |text| - Hold(text, stops);
      TruncatedInTwo(l, text, cut);
      var rest := l.(pending := text[cut..]);
      TightFromNothing(rest, text, cut);
      var (l1, out1) := Admit(rest, text[..cut]);
      AdmitKeeps(rest, text[..cut]);
      assert "" + out1 == out1 && out1 + "" == out1;
      if !l1.stopped {
        var m := l1.(pending := "");
        AdmitCeases(m, text[cut..]);
        var out2 := Admit(m, text[cut..]).1;
        EstimateGrows(out1 + text[cut..][..|out2| + (if |out2| < |text[cut..]| then 1 else 0)],
                      text[..|out1 + out2| + (if |out2| < |text[cut..]| then 1 else 0)]);
      }
    }
  }

  lemma {:induction false} TightFromNothing(l: Limiter, text: string, n: nat)
    requires l.maxTokens > 0 && l.emitted == "" && l.stopReason != "max_tokens" && n <= |text|
    ensures var (l', out) := Admit(l, text[..n]); l'.stopReason == "max_tokens" ==> Tight(l.maxTokens, text, |out|)
  {
    AdmitCeases(l, text[..n]);
    var (l', out) := Admit(l, text[..n]);
    if l'.stopReason == "max_tokens" {
      assert "" + text[..n][..|out| + 1] == text[..|out| + 1];
    }
  }

  // ---------- the longest possible result ----------

  lemma {:induction false} HoldGrows(received: string, delta: string, stops: seq<string>)
    ensures |received| - Hold(received, stops) <= |received + delta| - Hold(received + delta, stops)
  {
    var k := Hold(received + delta, stops);
    HoldIsLongest(received + delta, stops);
    if k > 0 { PartialReachesHeld(received, delta, stops, k); }
  }

  // Before a stop, nothing held back is ever sent.
  lemma {:induction false} FedBound(maxTokens: int, stops: seq<string>, deltas: seq<string>)
    requires maxTokens > 0 && FirstStop(Flatten(deltas), stops).0 < 0
    ensures |Fed(Fresh(maxTokens, stops), deltas).0.emitted| <= |Flatten(deltas)| - Hold(Flatten(deltas), stops)
  {
    if deltas != [] {
      var front, last := deltas[..|deltas| - 1], deltas[|deltas| - 1];
      var received := Flatten(front);
      NoStopIsNoMatch(received + last, stops);
      NoStopIsNoMatch(received, stops);
      MatchesPrefix(received + last, stops, |received|);
      assert (received + last)[..|received|] == received;
      FedBound(maxTokens, stops, front);
      FedKeepsInv(maxTokens, stops, front);
      var l := Fed(Fresh(maxTokens, stops), front).0;
      if l.stopped {
        HoldGrows(received, last, stops);
      } else {
        HoldBound(l, received, last);
      }
    }
  }

  lemma {:induction false} HoldBound(l: Limiter, received: string, delta: string)
    requires Inv(l, received) && !l.stopped && NoMatch(received + delta, l.stops)
    ensures |Feed(l, delta).0.emitted| <= |received + delta| - Hold(received + delta, l.stops)
  {
    var buffered := l.pending + delta;
    SearchFromHeld(received, delta, l.stops);
    NoStopIsNoMatch(received + delta, l.stops);
    var cut := |buffered| - Hold(buffered, l.stops);
    var rest := l.(pending := buffered[cut..]);
    assert Feed(l, delta).0 == Admit(rest, buffered[..cut]).0;
    AdmitKeeps(rest, buffered[..cut]);
    HoldFromHeld(received, delta, l.stops, buffered);
  }

  // What was sent meets the ceiling, so nothing more is.
  lemma {:induction false} Exhausted(l: Limiter, delta: string)
    requires l.maxTokens > 0 && EstimateTokens(l.emitted) >= l.maxTokens
    ensures Feed(l, delta).1 == "" && Feed(l, delta).0.emitted == l.emitted && Feed(l, delta).0.maxTokens == l.maxTokens
    ensures Flush(l).1 == ""
  {
  }

  lemma {:induction false} StreamedBound(maxTokens: int, stops: seq<string>, deltas: seq<string>)
    requires maxTokens > 0
    requires var text := Flatten(deltas);
      FirstStop(text, stops).0 < 0 && EstimateTokens(text[..Cleared(text, stops, |text|)]) == maxTokens
    ensures var text := Flatten(deltas); |Streamed(maxTokens, stops, deltas).text| <= Cleared(text, stops, |text|)
  {
    var text := Flatten(deltas);
    assert text[..|text|] == text;
    FedBound(maxTokens, stops, deltas);
    FedKeepsInv(maxTokens, stops, deltas);
    var l := Fed(Fresh(maxTokens, stops), deltas).0;
    if !l.stopped {
      assert l.emitted == text[..Cleared(text, stops, |text|)];
      Exhausted(l, "");
    }
  }

  // ---------- enough ----------

  lemma {:induction false} TightIsLongest(maxTokens: int, text: string, n: nat, other: string)
    requires Tight(maxTokens, text, n) && EstimateTokens(other) <= maxTokens
    ensures |other| <= n
  {
    if |other| > n { EstimateGrows(text[..n + 1], other); }
  }

  lemma {:induction false} NotShorter(maxTokens: int, stops: seq<string>, deltas: seq<string>)
    requires maxTokens > 0 && Unnested(stops) && MayEndAnywhere(maxTokens, stops, Flatten(deltas))
    ensures |Truncated(maxTokens, stops, Flatten(deltas)).text| <= |Streamed(maxTokens, stops, deltas).text|
  {
    var text := Flatten(deltas);
    var r, whole := Streamed(maxTokens, stops, deltas), Truncated(maxTokens, stops, text);
    OneCallFacts(maxTokens, stops, text);
    StreamIsSafe(maxTokens, stops, deltas);
    CeilingOnlyCuts(maxTokens, stops, deltas);
    StreamedIsCut(0, stops, deltas);
    if r != Cut(stops, text) {
      StreamedCeases(maxTokens, stops, deltas);
      if Tight(maxTokens, text, |r.text|) {
        TightIsLongest(maxTokens, text, |r.text|, whole.text);
      } else {
        var j :| 0 <= j <= |text| && Unstopped(text, stops, j) && |r.text| == Cleared(text, stops, j);
        assert MayEndAt(maxTokens, stops, text, j);
        assert r.text == text[..Cleared(text, stops, j)];
      }
    }
  }

  // What the laws of whole runs say of a single call.
  lemma {:induction false} OneCallFacts(maxTokens: int, stops: seq<string>, text: string)
    requires maxTokens > 0 && Unnested(stops)
    ensures var whole, cut := Truncated(maxTokens, stops, text), Cut(stops, text);
      && whole.text <= text && EstimateTokens(whole.text) <= maxTokens
      && (whole == cut || (whole.stop.0 == "max_tokens" && whole.stop.2 && |whole.text| < |cut.text|
                           && EstimateTokens(whole.text) == maxTokens))
      && |whole.text| <= |cut.text|
  {
    FlattenOne(text);
    TruncatedIsStreamed(maxTokens, stops, text);
    StreamIsSafe(maxTokens, stops, [text]);
    CeilingOnlyCuts(maxTokens, stops, [text]);
    StreamedIsCut(0, stops, [text]);
  }

  lemma {:induction false} NotLonger(maxTokens: int, stops: seq<string>, deltas: seq<string>)
    requires maxTokens > 0 && Unnested(stops)
    ensures |Streamed(maxTokens, stops, deltas).text| <= |Truncated(maxTokens, stops, Flatten(deltas)).text|
  {
    var text := Flatten(deltas);
    var r, whole := Streamed(maxTokens, stops, deltas), Truncated(maxTokens, stops, text);
    OneCallFacts(maxTokens, stops, text);
    StreamIsSafe(maxTokens, stops, deltas);
    CeilingOnlyCuts(maxTokens, stops, deltas);
    StreamedIsCut(0, stops, deltas);
    if whole != Cut(stops, text) {
      TruncatedCeases(maxTokens, stops, text);
      if Tight(maxTokens, text, |whole.text|) {
        TightIsLongest(maxTokens, text, |whole.text|, r.text);
      } else {
        assert whole.text == text[..Cleared(text, stops, |text|)];
        StreamedBound(maxTokens, stops, deltas);
      }
    }
  }

  lemma {:induction false} SeenIsFirst(stops: seq<string>, text: string, sequence: string)
    requires Unnested(stops) && IsSeen(stops, text, sequence)
    ensures FirstStop(text, stops).0 >= 0 && FirstStop(text, stops).1 == sequence
  {
    var k :| 0 <= k <= |text| && FirstStop(text[..k], stops).0 >= 0 && FirstStop(text[..k], stops).1 == sequence;
    FirstStopIsStable(stops, text, k);
  }

  lemma {:induction false} NeverPassed(maxTokens: int, stops: seq<string>, text: string, n: nat)
    requires MayEndAnywhere(maxTokens, stops, text) && FirstStop(text, stops).0 >= 0 && Tight(maxTokens, text, n)
    ensures !IsPassed(stops, text, n)
  {
    forall j | 0 <= j <= |text| && Unstopped(text, stops, j)
      ensures Cleared(text, stops, j) <= n
    {
      assert MayEndAt(maxTokens, stops, text, j);
      TightIsLongest(maxTokens, text, n, text[..Cleared(text, stops, j)]);
    }
  }

  // The sequence reported with the ceiling is that of the one call.
  lemma {:induction false} SameSequence(maxTokens: int, stops: seq<string>, deltas: seq<string>)
    requires maxTokens > 0 && Unnested(stops) && MayEndAnywhere(maxTokens, stops, Flatten(deltas))
    requires var r, whole := Streamed(maxTokens, stops, deltas), Truncated(maxTokens, stops, Flatten(deltas));
      |r.text| == |whole.text| && r.stop.0 == "max_tokens" && whole.stop.0 == "max_tokens"
    ensures Streamed(maxTokens, stops, deltas).stop.1 == Truncated(maxTokens, stops, Flatten(deltas)).stop.1
  {
    var text := Flatten(deltas);
    var r := Streamed(maxTokens, stops, deltas);
    TruncatedReport(maxTokens, stops, text);
    StreamedCeases(maxTokens, stops, deltas);
    if r.stop.1 != "" {
      SeenIsFirst(stops, text, r.stop.1);
    } else if FirstStop(text, stops).0 >= 0 {
      TruncatedCeases(maxTokens, stops, text);
      NeverPassed(maxTokens, stops, text, |r.text|);
    }
  }

  lemma {:induction false} SplitAgrees(maxTokens: int, stops: seq<string>, deltas: seq<string>)
    requires maxTokens > 0 && Unnested(stops) && MayEndAnywhere(maxTokens, stops, Flatten(deltas))
    ensures Streamed(maxTokens, stops, deltas) == Truncated(maxTokens, stops, Flatten(deltas))
  {
    var text := Flatten(deltas);
    var r, whole := Streamed(maxTokens, stops, deltas), Truncated(maxTokens, stops, text);
    NotShorter(maxTokens, stops, deltas);
    NotLonger(maxTokens, stops, deltas);
    OneCallFacts(maxTokens, stops, text);
    StreamIsSafe(maxTokens, stops, deltas);
    CeilingOnlyCuts(maxTokens, stops, deltas);
    StreamedIsCut(0, stops, deltas);
    assert r.text == text[..|r.text|] == whole.text;
    if whole != Cut(stops, text) {
      SameSequence(maxTokens, stops, deltas);
    }
  }

  // ---------- needed ----------

  // After `j` characters what is cleared meets the ceiling: nothing more is sent.
  lemma {:induction false} StopsThere(maxTokens: int, stops: seq<string>, text: string, j: nat)
    requires maxTokens > 0 && Unstopped(text, stops, j)
    requires EstimateTokens(text[..Cleared(text, stops, j)]) == maxTokens
    ensures Streamed(maxTokens, stops, [text[..j], text[j..]]).text == text[..Cleared(text, stops, j)]
  {
    var a, b, l, c := text[..j], text[j..], Fresh(maxTokens, stops), Cleared(text, stops, j);
    FedTwo(l, a, b);
    FeedClear(l, a, c);
    assert a[..c] == text[..c] && "" + a[..c] == a[..c];
    var l1 := Feed(l, a).0;
    assert l1.emitted == text[..c];
    Exhausted(l1, b);
    Exhausted(Feed(l1, b).0, "");
    assert text[..c] + "" == text[..c];
  }

  // After `j` characters what is cleared exceeds the ceiling: no sequence is seen.
  lemma {:induction false} StopsBefore(maxTokens: int, stops: seq<string>, text: string, j: nat)
    requires maxTokens > 0 && Unstopped(text, stops, j)
    requires EstimateTokens(text[..Cleared(text, stops, j)]) > maxTokens
    ensures Streamed(maxTokens, stops, [text[..j], text[j..]]).stop == ("max_tokens", "", true)
  {
    var a, b, l, c := text[..j], text[j..], Fresh(maxTokens, stops), Cleared(text, stops, j);
    FedTwo(l, a, b);
    FeedClear(l, a, c);
    assert a[..c] == text[..c] && "" + a[..c] == a[..c];
    AdmitKeeps(l.(pending := a[c..]), a[..c]);
  }

  lemma {:induction false} SplitDiffers(maxTokens: int, stops: seq<string>, text: string, j: nat)
    requires maxTokens > 0 && Unstopped(text, stops, j) && !MayEndAt(maxTokens, stops, text, j)
    ensures Streamed(maxTokens, stops, [text[..j], text[j..]]) != Truncated(maxTokens, stops, text)
    ensures Flatten([text[..j], text[j..]]) == text
  {
    FlattenTwo(text[..j], text[j..]);
    assert text[..j] + text[j..] == text;
    if EstimateTokens(text[..Cleared(text, stops, j)]) == maxTokens {
      StopsThere(maxTokens, stops, text, j);
    } else {
      StopsBefore(maxTokens, stops, text, j);
      TruncatedReport(maxTokens, stops, text);
      FirstStopIsFirst(text, stops);
    }
  }

  // Chunk invariance under a ceiling, exactly, for one text and any unnested
  // stop sequences: every split gives the one-call result if and only if
  // wherever a delta may end before the stop, what is cleared there does not
  // meet the ceiling short of that result, nor pass it with a stop to come.
  lemma {:induction false} CeilingInvariance(maxTokens: int, stops: seq<string>, text: string)
    requires maxTokens > 0 && Unnested(stops)
    ensures MayEndAnywhere(maxTokens, stops, text) <==>
            forall deltas | Flatten(deltas) == text :: Streamed(maxTokens, stops, deltas) == Truncated(maxTokens, stops, text)
  {
    if MayEndAnywhere(maxTokens, stops, text) {
      forall deltas | Flatten(deltas) == text
        ensures Streamed(maxTokens, stops, deltas) == Truncated(maxTokens, stops, text)
      {
        SplitAgrees(maxTokens, stops, deltas);
      }
    } else {
      var j :| 0 <= j <= |text| && Unstopped(text, stops, j) && !MayEndAt(maxTokens, stops, text, j);
      SplitDiffers(maxTokens, stops, text, j);
    }
  }

  // Enough, with no run to look at: the text to be sent, without its last
  // character, estimates below the ceiling.
  lemma {:induction false} ReachableCut(maxTokens: int, stops: seq<string>, deltas: seq<string>)
    requires maxTokens > 0 && Unnested(stops)
    requires var cut := Cut(stops, Flatten(deltas)).text; cut == "" || EstimateTokens(cut[..|cut| - 1]) < maxTokens
    ensures Streamed(maxTokens, stops, deltas) == Cut(stops, Flatten(deltas))
  {
    StreamedIsCut(0, stops, deltas);
    CeilingOutOfReach(maxTokens, stops, deltas);
  }
}
