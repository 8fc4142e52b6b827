// Laws of translator/output_limit.go over whole runs: when the split of a text
// into deltas matters, and by how much.
module OutputLimitLaws {
  import opened Text
  import opened OutputLimit

  // ---------- without a token ceiling ----------

  // What an unlimited turn should produce for the whole text.
  function Cut(stops: seq<string>, text: string): Outcome {
    var (index, sequence) := FirstStop(text, stops);
    if 0 <= index <= |text| then Outcome(text[..index], ("stop_sequence", sequence, true))
    else Outcome(text, ("", "", false))
  }

  // The stop was found when the first k characters had arrived.
  ghost predicate StoppedWithin(l: Limiter, out: string, text: string, k: nat) {
    && k <= |text|
    && var (index, sequence) := FirstStop(text[..k], l.stops);
    && 0 <= index <= k && out == text[..index]
    && l.stopReason == "stop_sequence" && l.stopSequence == sequence
  }

  lemma {:induction false} UnlimitedRun(maxTokens: int, stops: seq<string>, deltas: seq<string>)
    requires maxTokens <= 0 && stops != []
    ensures var (l, out) := Fed(Fresh(maxTokens, stops), deltas);
            l.stops == stops && (l.stopped ==> exists k: nat :: StoppedWithin(l, out, Flatten(deltas), k))
  {
    FedKeepsInv(maxTokens, stops, deltas);
    if deltas != [] {
      var front, last := deltas[..|deltas| - 1], deltas[|deltas| - 1];
      UnlimitedRun(maxTokens, stops, front);
      FedKeepsInv(maxTokens, stops, front);
      var (l, out) := Fed(Fresh(maxTokens, stops), front);
      UnlimitedStep(l, Flatten(front), last);
    }
  }

  lemma {:induction false} UnlimitedStep(l: Limiter, received: string, delta: string)
    requires l.maxTokens <= 0 && Inv(l, received)
    requires l.stopped ==> exists k: nat :: StoppedWithin(l, l.emitted, received, k)
    ensures var (l', out, _) := Feed(l, delta);
            l'.stopped ==> exists k: nat :: StoppedWithin(l', l.emitted + out, received + delta, k)
  {
    if l.stopped {
      var k: nat :| StoppedWithin(l, l.emitted, received, k);
      assert (received + delta)[..k] == received[..k];
      assert l.emitted + "" == l.emitted;
      assert StoppedWithin(l, l.emitted, received + delta, k);
    } else if FirstStop(l.pending + delta, l.stops).0 >= 0 {
      UnlimitedFinds(l, received, delta);
    }
  }

  lemma {:induction false} UnlimitedFinds(l: Limiter, received: string, delta: string)
    requires l.maxTokens <= 0 && Inv(l, received) && !l.stopped
    requires FirstStop(l.pending + delta, l.stops).0 >= 0
    ensures var (l', out, _) := Feed(l, delta);
            StoppedWithin(l', l.emitted + out, received + delta, |received + delta|)
  {
    var buffered, all := l.pending + delta, received + delta;
    var (index, sequence) := FirstStop(buffered, l.stops);
    assert all[..|all|] == all;
    assert FirstStop(all, l.stops) == (|l.emitted| + index, sequence) by {
      SearchFromHeld(received, delta, l.stops);
    }
    var out := buffered[..index];
    assert |out| == index;
    PrefixOfAll(l.emitted, l.pending, received, delta, out);
    assert Feed(l, delta).1 == out;
  }

  // The p-th sequence can be reported: no earlier-listed one is a prefix of it.
  predicate Reportable(stops: seq<string>, p: nat)
    requires p < |stops|
  {
    stops[p] != "" && forall q | 0 <= q < p :: stops[q] == "" || !HasPrefix(stops[p], stops[q])
  }

  // No stop sequence ends inside one that can be reported.
  predicate Unnested(stops: seq<string>) {
    forall p, q | 0 <= p < |stops| && 0 <= q < |stops| :: !EndsInside(stops, p, q)
  }

  // The q-th sequence stands in the p-th and ends before its last character.
  predicate EndsInside(stops: seq<string>, p: nat, q: nat)
    requires p < |stops| && q < |stops|
  {
    Reportable(stops, p) && stops[q] != "" && Occurs(stops[p][..|stops[p]| - 1], stops[q])
  }

  // A simpler sufficient test: no non-empty sequence occurs in a different one.
  lemma {:induction false} IndependentIsUnnested(stops: seq<string>)
    requires forall p, q | 0 <= p < |stops| && 0 <= q < |stops| ::
               stops[p] == "" || stops[q] == "" || stops[p] == stops[q] || !Occurs(stops[p], stops[q])
    ensures Unnested(stops)
  {
    forall p, q | 0 <= p < |stops| && 0 <= q < |stops|
      ensures EndsInside(stops, p, q) ==> stops[p] != "" && stops[q] != "" && stops[p] != stops[q] && Occurs(stops[p], stops[q])
    {
      InsideOccurs(stops, p, q);
    }
  }

  lemma {:induction false} InsideOccurs(stops: seq<string>, p: nat, q: nat)
    requires p < |stops| && q < |stops|
    ensures EndsInside(stops, p, q) ==> stops[p] != "" && stops[q] != "" && stops[p] != stops[q] && Occurs(stops[p], stops[q])
  {
    if EndsInside(stops, p, q) {
      var shorter := stops[p][..|stops[p]| - 1];
      var i :| 0 <= i <= |shorter| && OccursAt(shorter, stops[q], i);
      OccursAtPrefix(stops[p], |shorter|, stops[q], i);
    }
  }

  // Once part of the text shows a stop, the whole text shows the same one.
  lemma {:induction false} FirstStopIsStable(stops: seq<string>, text: string, k: nat)
    requires Unnested(stops) && k <= |text| && FirstStop(text[..k], stops).0 >= 0
    ensures FirstStop(text, stops) == FirstStop(text[..k], stops)
  {
    var (j, s) := FirstStop(text[..k], stops);
    FirstStopIsFirst(text[..k], stops);
    FirstStopIsFirst(text, stops);
    var q :| Matches(text[..k], stops, q, j) && s == stops[q] && Beats(text[..k], stops, q, j);
    MatchesPrefix(text, stops, k);
    assert Matches(text, stops, q, j);
    var (i, t) := FirstStop(text, stops);
    assert i >= 0;
    var p :| Matches(text, stops, p, i) && t == stops[p] && Beats(text, stops, p, i);
    if i + |t| <= k {
      assert Matches(text[..k], stops, p, i);
      assert p == q && i == j;
    } else {
      NestedPair(stops, text, p, i, q, j);
    }
  }

  // A winner that ends after another match does has that match inside it.
  lemma {:induction false} NestedPair(stops: seq<string>, text: string, p: int, i: int, q: int, j: int)
    requires Matches(text, stops, p, i) && Beats(text, stops, p, i) && Matches(text, stops, q, j)
    requires j + |stops[q]| < i + |stops[p]|
    ensures EndsInside(stops, p, q)
  {
    WinnerIsReportable(stops, text, p, i);
    var t, s := stops[p], stops[q];
    assert text == text[..i] + t + text[i + |t|..];
    assert t[..|t| - 1][j - i..j - i + |s|] == text[j..j + |s|];
    assert OccursAt(t[..|t| - 1], s, j - i);
  }

  lemma {:induction false} WinnerIsReportable(stops: seq<string>, text: string, p: int, i: int)
    requires Matches(text, stops, p, i) && Beats(text, stops, p, i)
    ensures Reportable(stops, p)
  {
    forall q | 0 <= q < p
      ensures stops[q] == "" || !HasPrefix(stops[p], stops[q])
    {
      PrefixOccurs(text, stops[p], stops[q], i);
      assert stops[q] != "" && HasPrefix(stops[p], stops[q]) ==> Matches(text, stops, q, i);
    }
  }

  lemma {:induction false} PrefixOccurs(text: string, t: string, s: string, i: int)
    requires OccursAt(text, t, i)
    ensures HasPrefix(t, s) ==> OccursAt(text, s, i)
  {
    if HasPrefix(t, s) {
      assert text[i..i + |s|] == text[i..i + |t|][..|s|];
    }
  }

  lemma {:induction false} StreamedIsCut(maxTokens: int, stops: seq<string>, deltas: seq<string>)
    requires maxTokens <= 0 && Unnested(stops)
    ensures Streamed(maxTokens, stops, deltas) == Cut(stops, Flatten(deltas))
  {
    var text := Flatten(deltas);
    var (l, out) := Fed(Fresh(maxTokens, stops), deltas);
    if stops == [] {
      InactivePasses(maxTokens, stops, deltas);
      assert text + "" == text;
    } else {
      FedKeepsInv(maxTokens, stops, deltas);
      UnlimitedRun(maxTokens, stops, deltas);
      if l.stopped {
        var k: nat :| StoppedWithin(l, out, text, k);
        FirstStopIsStable(stops, text, k);
        assert out + "" == out;
      } else {
        NoStopIsNoMatch(text, stops);
      }
    }
  }

  // One call on the whole text cuts at the first stop, for every stop list.
  lemma {:induction false} TruncatedIsCut(maxTokens: int, stops: seq<string>, text: string)
    requires maxTokens <= 0
    ensures Truncated(maxTokens, stops, text) == Cut(stops, text)
  {
    if stops != [] {
      var l := Fresh(maxTokens, stops);
      assert "" + text == text;
      if FirstStop(text, stops).0 >= 0 {
        var cut := text[..FirstStop(text, stops).0];
        assert cut + "" == cut;
      } else {
        var cut := |text| - Hold(text, stops);
        assert Feed(l, text).0.pending == text[cut..];
        assert text[..cut] + text[cut..] == text;
      }
    }
  }

  // Chunk invariance, exactly: without a ceiling, every split of every text
  // gives the result of one call on the whole text if and only if no stop
  // sequence ends inside one that can be reported.
  lemma {:induction false} ChunkInvariance(maxTokens: int, stops: seq<string>)
    requires maxTokens <= 0
    ensures Unnested(stops) <==>
            forall deltas :: Streamed(maxTokens, stops, deltas) == Truncated(maxTokens, stops, Flatten(deltas))
  {
    if Unnested(stops) {
      forall deltas
        ensures Streamed(maxTokens, stops, deltas) == Truncated(maxTokens, stops, Flatten(deltas))
      {
        StreamedIsCut(maxTokens, stops, deltas);
        TruncatedIsCut(maxTokens, stops, Flatten(deltas));
      }
    } else {
      var deltas := BreakingSplit(maxTokens, stops);
      assert Streamed(maxTokens, stops, deltas) != Truncated(maxTokens, stops, Flatten(deltas));
    }
  }

  lemma {:induction false} BreakingSplit(maxTokens: int, stops: seq<string>) returns (deltas: seq<string>)
    requires maxTokens <= 0 && !Unnested(stops)
    ensures Streamed(maxTokens, stops, deltas).stop.1 != Truncated(maxTokens, stops, Flatten(deltas)).stop.1
  {
    var p, q :| 0 <= p < |stops| && 0 <= q < |stops| && EndsInside(stops, p, q);
    NestedBreaks(maxTokens, stops, p, q);
    deltas := [stops[p][..|stops[p]| - 1], stops[p][|stops[p]| - 1..]];
  }

  // The witness: the outer sequence itself, its last character arriving late.
  lemma {:induction false} NestedBreaks(maxTokens: int, stops: seq<string>, p: nat, q: nat)
    requires maxTokens <= 0 && p < |stops| && q < |stops| && EndsInside(stops, p, q)
    ensures var t := stops[p];
            var deltas := [t[..|t| - 1], t[|t| - 1..]];
            Streamed(maxTokens, stops, deltas).stop.1 != Truncated(maxTokens, stops, Flatten(deltas)).stop.1
  {
    var t := stops[p];
    var a, b := t[..|t| - 1], t[|t| - 1..];
    FlattenTwo(a, b);
    assert a + b == t;
    TruncatedIsCut(maxTokens, stops, t);
    OuterIsFirst(stops, p);

    var l := Fresh(maxTokens, stops);
    FedTwo(l, a, b);
    assert "" + a == a;
    var i :| 0 <= i <= |a| && OccursAt(a, stops[q], i);
    assert Matches(a, stops, q, i);
    var (index, sequence) := FirstStop(a, stops);
    FirstStopIsFirst(a, stops);
    assert index >= 0;
    assert |sequence| <= |a|;
  }

  // Such a list: "abc" whole is reported as "abc", but "ab" alone as "b".
  lemma {:induction false} NestedList(maxTokens: int)
    requires maxTokens <= 0
    ensures !Unnested(["abc", "b"])
    ensures Streamed(maxTokens, ["abc", "b"], ["ab", "c"]).stop.1 != Truncated(maxTokens, ["abc", "b"], "abc").stop.1
  {
    var stops := ["abc", "b"];
    assert stops[0][..2] == "ab" && stops[0][2..] == "c";
    assert OccursAt("ab", "b", 1);
    assert EndsInside(stops, 0, 1);
    NestedBreaks(maxTokens, stops, 0, 1);
    FlattenTwo("ab", "c");
    assert "ab" + "c" == "abc";
  }

  lemma {:induction false} OuterIsFirst(stops: seq<string>, p: nat)
    requires p < |stops| && Reportable(stops, p)
    ensures FirstStop(stops[p], stops) == (0, stops[p])
  {
    var t := stops[p];
    assert Matches(t, stops, p, 0);
    forall q, i | Matches(t, stops, q, i) ensures 0 < i || (0 == i && p <= q) {
      if i == 0 { assert t[0..0 + |stops[q]|] == t[..|stops[q]|]; }
    }
    assert Beats(t, stops, p, 0);
    FirstStopIs(t, stops, 0, t);
  }

  lemma {:induction false} FedTwo(l: Limiter, a: string, b: string)
    ensures Fed(l, [a, b]) == (Feed(Feed(l, a).0, b).0, Feed(l, a).1 + Feed(Feed(l, a).0, b).1)
  {
    assert [a, b][..|[a, b]| - 1] == [a];
    assert [a][..|[a]| - 1] == [];
    assert "" + Feed(l, a).1 == Feed(l, a).1;
    assert Fed(l, []) == (l, "");
    assert Fed(l, [a]) == (Feed(l, a).0, Feed(l, a).1);
  }

  // ---------- with a token ceiling ----------

  // A limiter with a ceiling follows the one without it, until it stops short.
  ghost predicate Follows(a: Limiter, outA: string, b: Limiter, outB: string) {
    if a.stopReason == "max_tokens" then a.stopped && outA <= outB && |outA| < |outB|
    else outA == outB && a.stopped == b.stopped && a.stopReason == b.stopReason
         && a.stopSequence == b.stopSequence && (!a.stopped ==> a.pending == b.pending)
  }

  lemma {:induction false} AdmitFollows(a: Limiter, outA: string, b: Limiter, outB: string, text: string)
    requires a.maxTokens > 0 && b.maxTokens <= 0 && EstimateTokens(a.emitted) <= a.maxTokens
    requires Follows(a, outA, b, outB) && a.stopReason != "max_tokens"
    ensures var (a', moreA) := Admit(a, text);
            var (b', moreB) := Admit(b, text);
            Follows(a', outA + moreA, b', outB + moreB) && moreB == text
  {
    AdmitKeeps(a, text);
    assert outA + "" == outA;
  }

  lemma {:induction false} FeedFollows(a: Limiter, outA: string, b: Limiter, outB: string, delta: string)
    requires a.maxTokens > 0 && b.maxTokens <= 0 && a.stops == b.stops
    requires EstimateTokens(a.emitted) <= a.maxTokens
    requires Follows(a, outA, b, outB)
    requires b.stops == [] ==> !b.stopped && b.pending == ""
    ensures var (a', moreA, _) := Feed(a, delta);
            var (b', moreB, _) := Feed(b, delta);
            Follows(a', outA + moreA, b', outB + moreB) && (b.stops == [] ==> !b'.stopped && b'.pending == "")
            && b'.maxTokens == b.maxTokens && b'.stops == b.stops
  {
    if a.stopped {
      assert outA + "" == outA;
      assert outA <= outB ==> outA <= outB + Feed(b, delta).1;
    } else {
      var buffered := a.pending + delta;
      var cut := |buffered| - Hold(buffered, a.stops);
      if b.stops == [] {
        HoldIs(buffered, [], 0);
        assert buffered[..cut] == buffered && buffered[cut..] == "" && "" + delta == delta;
        AdmitFollows(a.(pending := ""), outA, b.(pending := ""), outB, delta);
        assert Feed(b, delta) == (b, delta, false);
      } else {
        ExamineFollows(a, outA, b, outB, buffered);
      }
    }
  }

  lemma {:induction false} ExamineFollows(a: Limiter, outA: string, b: Limiter, outB: string, buffered: string)
    requires a.maxTokens > 0 && b.maxTokens <= 0 && a.stops == b.stops
    requires EstimateTokens(a.emitted) <= a.maxTokens
    requires Follows(a, outA, b, outB) && !a.stopped && a.stopReason != "max_tokens"
    ensures var (a', moreA, _) := Examine(a, buffered);
            var (b', moreB, _) := Examine(b, buffered);
            Follows(a', outA + moreA, b', outB + moreB) && b'.maxTokens == b.maxTokens && b'.stops == b.stops
  {
    var (index, sequence) := FirstStop(buffered, a.stops);
    if index >= 0 {
      AdmitFollows(a.(pending := "", stopped := true, stopReason := "stop_sequence", stopSequence := sequence), outA,
                   b.(pending := "", stopped := true, stopReason := "stop_sequence", stopSequence := sequence), outB,
                   buffered[..index]);
    } else {
      var cut := |buffered| - Hold(buffered, a.stops);
      AdmitFollows(a.(pending := buffered[cut..]), outA, b.(pending := buffered[cut..]), outB, buffered[..cut]);
    }
  }

  lemma {:induction false} FedFollows(maxTokens: int, stops: seq<string>, deltas: seq<string>)
    requires maxTokens > 0
    ensures var (a, outA) := Fed(Fresh(maxTokens, stops), deltas);
            var (b, outB) := Fed(Fresh(0, stops), deltas);
            Follows(a, outA, b, outB) && (stops == [] ==> !b.stopped && b.pending == "")
            && b.maxTokens == 0 && b.stops == stops
  {
    if deltas != [] {
      var front, last := deltas[..|deltas| - 1], deltas[|deltas| - 1];
      FedFollows(maxTokens, stops, front);
      FedKeepsInv(maxTokens, stops, front);
      var (a, outA) := Fed(Fresh(maxTokens, stops), front);
      var (b, outB) := Fed(Fresh(0, stops), front);
      FeedFollows(a, outA, b, outB, last);
    }
  }

  // The ceiling only cuts: for the same deltas, either the outcome is that of
  // the limiter without a ceiling, or it is a shorter prefix whose estimate
  // meets the ceiling exactly, reported as max_tokens.
  lemma {:induction false} CeilingOnlyCuts(maxTokens: int, stops: seq<string>, deltas: seq<string>)
    requires maxTokens > 0
    ensures var r, free := Streamed(maxTokens, stops, deltas), Streamed(0, stops, deltas);
            r == free ||
            (r.stop.0 == "max_tokens" && r.stop.2 && r.text <= free.text && |r.text| < |free.text|
             && EstimateTokens(r.text) == maxTokens)
  {
    FedFollows(maxTokens, stops, deltas);
    FedKeepsInv(maxTokens, stops, deltas);
    StreamIsSafe(maxTokens, stops, deltas);
    var (a, outA) := Fed(Fresh(maxTokens, stops), deltas);
    var (b, outB) := Fed(Fresh(0, stops), deltas);
    if a.stopped {
      assert outA + "" == outA;
    } else {
      AdmitFollows(a.(pending := ""), outA, b.(pending := ""), outB, a.pending);
      assert outB + "" == outB;
    }
  }

  // Truncate under a ceiling, case by case. A stop found too late for the
  // ceiling is reported as max_tokens with the sequence still attached; and a
  // suffix held back when the ceiling is already met is dropped, although the
  // whole text may estimate at the ceiling and not above it.
  lemma {:induction false} TruncatedReport(maxTokens: int, stops: seq<string>, text: string)
    requires maxTokens > 0
    ensures var r := Truncated(maxTokens, stops, text);
            var (index, sequence) := FirstStop(text, stops);
            var ready := text[..|text| - Hold(text, stops)];
            && 0 <= |text| && index <= |text|
            && (index >= 0 && EstimateTokens(text[..index]) <= maxTokens ==>
                  r == Outcome(text[..index], ("stop_sequence", sequence, true)))
            && (index >= 0 && EstimateTokens(text[..index]) > maxTokens ==>
                  r.stop == ("max_tokens", sequence, true) && EstimateTokens(r.text) == maxTokens)
            && (index < 0 && EstimateTokens(text) <= maxTokens && (EstimateTokens(ready) < maxTokens || ready == text) ==>
                  r == Outcome(text, ("", "", false)))
            && (index < 0 && (EstimateTokens(text) > maxTokens || (EstimateTokens(ready) == maxTokens && ready != text)) ==>
                  r.stop == ("max_tokens", "", true) && EstimateTokens(r.text) == maxTokens)
  {
    var l := Fresh(maxTokens, stops);
    var (index, sequence) := FirstStop(text, stops);
    assert "" + text == text;
    if index >= 0 {
      var out := text[..index];
      var m := l.(stopped := true, stopReason := "stop_sequence", stopSequence := sequence);
      assert "" + out == out && out + "" == out;
      AdmitKeeps(m, out);
      var (l', sent) := Admit(m, out);
      assert Feed(l, text) == (l', sent, true);
      assert "" + sent == sent && sent + "" == sent;
    } else {
      TruncatedHolds(l, text);
    }
  }

  lemma {:induction false} FirstCharacter(text: string, s: string, i: int)
    requires s != ""
    ensures OccursAt(text, s, i) ==> text[i] == s[0]
  {
    if OccursAt(text, s, i) { assert text[i..i + |s|][0] == text[i]; }
  }

  // A stop too late for the ceiling: max_tokens, with the sequence still attached.
  lemma {:induction false} StaleSequence()
    ensures Truncated(1, ["x"], "abcdx").stop == ("max_tokens", "x", true)
  {
    var text := "abcdx";
    assert OccursAt(text, "x", 4);
    assert Matches(text, ["x"], 0, 4);
    forall q, i
      ensures Matches(text, ["x"], q, i) ==> q == 0 && i == 4
    {
      FirstCharacter(text, "x", i);
    }
    FirstStopIs(text, ["x"], 4, "x");
    TruncatedReport(1, ["x"], text);
  }

  lemma {:induction false} HeldBack()
    ensures FirstStop("abc", ["cd"]) == (-1, "") && Hold("abc", ["cd"]) == 1
  {
    var text, stops := "abc", ["cd"];
    forall q, i
      ensures !Matches(text, stops, q, i)
    {
      FirstCharacter(text, "cd", i);
    }
    FirstStopIs(text, stops, -1, "");
    assert text[2..] == "c" && "cd"[..1] == "c";
    assert PartialOf(text, stops[0], 1);
    HoldIs(text, stops, 1);
  }

  // A text that fits the ceiling, cut because part of it was held back when the
  // ceiling was met.
  lemma {:induction false} DroppedSuffix()
    ensures EstimateTokens("abc") == 1 && Truncated(1, ["cd"], "abc") == Outcome("ab", ("max_tokens", "", true))
  {
    HeldBack();
    FeedClear(Fresh(1, ["cd"]), "abc", 2);
    assert "abc"[..2] == "ab" && "" + "ab" == "ab" && "ab" + "" == "ab";
  }

  lemma {:induction false} TruncatedHolds(l: Limiter, text: string)
    requires l == Fresh(l.maxTokens, l.stops) && l.maxTokens > 0 && FirstStop(text, l.stops).0 < 0
    ensures var r := Truncated(l.maxTokens, l.stops, text);
            var ready := text[..|text| - Hold(text, l.stops)];
            if EstimateTokens(text) <= l.maxTokens && (EstimateTokens(ready) < l.maxTokens || ready == text) then
              r == Outcome(text, ("", "", false))
            else
              r.stop == ("max_tokens", "", true) && EstimateTokens(r.text) == l.maxTokens
  {
    var cut := |text| - Hold(text, l.stops);
    assert text[..cut] + text[cut..] == text;
    TruncatedInTwo(l, text, cut);
    AdmitInTwo(l, text[..cut], text[cut..]);
  }

  lemma {:induction false} TruncatedInTwo(l: Limiter, text: string, cut: nat)
    requires l == Fresh(l.maxTokens, l.stops) && l.maxTokens > 0 && FirstStop(text, l.stops).0 < 0
    requires cut == |text| - Hold(text, l.stops)
    ensures var (l1, out1) := Admit(l.(pending := text[cut..]), text[..cut]);
            var (l2, out2) := if l1.stopped then (l1, "") else Admit(l1.(pending := ""), l1.pending);
            Truncated(l.maxTokens, l.stops, text) == Outcome(out1 + out2, StopReason(l2))
  {
    FeedClear(l, text, cut);
    var m := l.(pending := text[cut..]);
    var (l1, out1) := Admit(m, text[..cut]);
    AdmitKeeps(m, text[..cut]);
    assert Active(l1);
  }

  lemma {:induction false} FeedClear(l: Limiter, delta: string, cut: nat)
    requires Active(l) && !l.stopped && l.pending == "" && FirstStop(delta, l.stops).0 < 0
    requires cut == |delta| - Hold(delta, l.stops)
    ensures Feed(l, delta) == var (l', out) := Admit(l.(pending := delta[cut..]), delta[..cut]); (l', out, l'.stopped)
  {
    assert l.pending + delta == delta;
  }

  lemma {:induction false} AdmitInTwo(l: Limiter, ready: string, rest: string)
    requires l == Fresh(l.maxTokens, l.stops) && l.maxTokens > 0
    ensures var (l1, out1) := Admit(l.(pending := rest), ready);
            var (l2, out2) := if l1.stopped then (l1, "") else Admit(l1.(pending := ""), l1.pending);
            if EstimateTokens(ready + rest) <= l.maxTokens && (EstimateTokens(ready) < l.maxTokens || rest == "") then
              out1 + out2 == ready + rest && StopReason(l2) == ("", "", false)
            else
              StopReason(l2) == ("max_tokens", "", true) && EstimateTokens(out1 + out2) == l.maxTokens
  {
    var m := l.(pending := rest);
    EstimateGrows(ready, ready + rest);
    AdmitKeeps(m, ready);
    var (l1, out1) := Admit(m, ready);
    assert "" + out1 == out1 && "" + ready == ready;
    if l1.stopped {
      assert out1 + "" == out1;
    } else {
      assert out1 == ready && l1.emitted == ready;
      AdmitKeeps(l1.(pending := ""), rest);
      assert rest == "" ==> ready + rest == ready;
    }
  }

  // Two splits of one text may stop at different points, but never by more
  // than three characters, and one result is always a prefix of the other.
  lemma {:induction false} SplitsStayClose(maxTokens: int, stops: seq<string>, d1: seq<string>, d2: seq<string>)
    requires maxTokens > 0 && Unnested(stops) && Flatten(d1) == Flatten(d2)
    ensures var r1, r2 := Streamed(maxTokens, stops, d1), Streamed(maxTokens, stops, d2);
            (r1.text <= r2.text || r2.text <= r1.text) && -3 <= |r1.text| - |r2.text| <= 3
  {
    var r1, r2 := Streamed(maxTokens, stops, d1), Streamed(maxTokens, stops, d2);
    CeilingOnlyCuts(maxTokens, stops, d1);
    CeilingOnlyCuts(maxTokens, stops, d2);
    StreamedIsCut(0, stops, d1);
    StreamedIsCut(0, stops, d2);
    StreamIsSafe(maxTokens, stops, d1);
    StreamIsSafe(maxTokens, stops, d2);
    var whole := Cut(stops, Flatten(d1)).text;
    assert r1.text == whole[..|r1.text|] && r2.text == whole[..|r2.text|];
    if |r1.text| <= |r2.text| {
      assert r1.text == r2.text[..|r1.text|];
      EstimateGrows(r1.text, r2.text);
    } else {
      assert r2.text == r1.text[..|r2.text|];
      EstimateGrows(r2.text, r1.text);
    }
    if r1.text != r2.text { EstimatePlateau(r1.text, r2.text); }
  }

  // The ceiling leaves a run alone when it is first met by the last character
  // that would be sent, or not at all.
  lemma {:induction false} CeilingOutOfReach(maxTokens: int, stops: seq<string>, deltas: seq<string>)
    requires maxTokens > 0
    requires var free := Streamed(0, stops, deltas).text;
             free == "" || EstimateTokens(free[..|free| - 1]) < maxTokens
    ensures Streamed(maxTokens, stops, deltas) == Streamed(0, stops, deltas)
  {
    var r, free := Streamed(maxTokens, stops, deltas).text, Streamed(0, stops, deltas).text;
    if |r| < |free| { EstimateGrows(r, free[..|free| - 1]); }
    CeilingOnlyCuts(maxTokens, stops, deltas);
  }

  // Chunk invariance under a ceiling, exactly, for one text and no stop
  // sequence: every split gives the one-call result if and only if the text
  // without its last character estimates below the ceiling.
  lemma {:induction false} CeilingChunkInvariance(maxTokens: int, text: string)
    requires maxTokens > 0
    ensures (text == "" || EstimateTokens(text[..|text| - 1]) < maxTokens) <==>
            forall deltas | Flatten(deltas) == text :: Streamed(maxTokens, [], deltas) == Truncated(maxTokens, [], text)
  {
    TruncatedIsStreamed(maxTokens, [], text);
    FlattenOne(text);
    if text == "" || EstimateTokens(text[..|text| - 1]) < maxTokens {
      forall deltas | Flatten(deltas) == text
        ensures Streamed(maxTokens, [], deltas) == Truncated(maxTokens, [], text)
      {
        OutOfReachInvariance(maxTokens, deltas);
      }
    } else {
      var deltas := SplitAtCeiling(maxTokens, text);
      assert Flatten(deltas) == text && Streamed(maxTokens, [], deltas) != Truncated(maxTokens, [], text);
    }
  }

  lemma {:induction false} OutOfReachInvariance(maxTokens: int, deltas: seq<string>)
    requires maxTokens > 0
    requires var text := Flatten(deltas); text == "" || EstimateTokens(text[..|text| - 1]) < maxTokens
    ensures Streamed(maxTokens, [], deltas) == Truncated(maxTokens, [], Flatten(deltas))
  {
    var text := Flatten(deltas);
    FlattenOne(text);
    StreamedIsCut(0, [], deltas);
    StreamedIsCut(0, [], [text]);
    CeilingOutOfReach(maxTokens, [], deltas);
    CeilingOutOfReach(maxTokens, [], [text]);
    TruncatedIsStreamed(maxTokens, [], text);
  }

  lemma {:induction false} SplitAtCeiling(maxTokens: int, text: string) returns (deltas: seq<string>)
    requires maxTokens > 0 && text != "" && EstimateTokens(text[..|text| - 1]) >= maxTokens
    ensures Flatten(deltas) == text && Streamed(maxTokens, [], deltas) != Truncated(maxTokens, [], text)
  {
    var n := 18 * (maxTokens - 1) / 5 + 1;
    EarlyStop(maxTokens, text, n);
    deltas := [text[..n], text[n..]];
    FlattenTwo(text[..n], text[n..]);
    assert text[..n] + text[n..] == text;
  }

  // Delivering exactly the first text that meets the ceiling stops there;
  // one call would have sent more.
  lemma {:induction false} EarlyStop(maxTokens: int, text: string, n: nat)
    requires maxTokens > 0 && n == 18 * (maxTokens - 1) / 5 + 1
    requires text != "" && EstimateTokens(text[..|text| - 1]) >= maxTokens
    ensures n < |text|
    ensures |Streamed(maxTokens, [], [text[..n], text[n..]]).text| == n < |Truncated(maxTokens, [], text).text|
  {
    assert n < |text|;
    var a, b := text[..n], text[n..];
    assert EstimateTokens(a) == maxTokens;
    var l := Fresh(maxTokens, []);
    FedTwo(l, a, b);
    FeedAllClear(l, a);
    var l1 := Feed(l, a).0;
    assert "" + a == a;
    assert l1.emitted == a && !l1.stopped && l1.pending == "";
    FeedAllClear(l1, b);
    assert a + "" == a;
    FeedAllClear(l, text);
    assert "" + text == text;
    if EstimateTokens(text) > maxTokens {
      var clipped := Clip("", text, maxTokens);
      ClipReaches("", text, maxTokens);
      assert "" + clipped == clipped && "" + text[..|clipped| + 1] == text[..|clipped| + 1];
      assert |clipped| >= n;
      assert EstimateTokens(text[..n + 1]) == maxTokens;
      assert clipped + "" == clipped;
    } else {
      assert text + "" == text;
    }
  }

  // With no stop sequence a delta goes straight to the ceiling check.
  lemma {:induction false} FeedAllClear(l: Limiter, delta: string)
    requires l.maxTokens > 0 && l.stops == [] && !l.stopped && l.pending == ""
    ensures Feed(l, delta) == (Admit(l, delta).0, Admit(l, delta).1, Admit(l, delta).0.stopped)
  {
    HoldIs(delta, [], 0);
    FeedClear(l, delta, |delta|);
    assert delta[..|delta|] == delta && delta[|delta|..] == "";
    assert l.(pending := "") == l;
  }
}
