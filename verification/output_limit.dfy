// translator/output_limit.go: local enforcement of stop_sequences and
// max_tokens on a stream of text deltas.
//
// The limiter is written twice: as pure functions on the value `Limiter`, about
// which the laws are proved, and as the class `OutputLimiter`, whose methods
// update fields in place like the source and are proved equal to the functions.
module OutputLimit {
  import opened Text

  // ---------- the token estimate ----------

  // ceil(runes / 3.6), at least 1 for a non-empty text
  function EstimateTokens(text: string): (r: int)
    ensures r == 0 <==> text == ""
    ensures 0 <= r
  {
    if text == "" then 0
    else
      var estimate := (5 * |text| + 17) / 18;
      if estimate < 1 then 1 else estimate
  }

  // The estimate is monotone and moves by at most one per character, so a text
  // growing one character at a time cannot skip a value.
  lemma {:induction false} EstimateGrows(shorter: string, longer: string)
    requires |shorter| <= |longer|
    ensures EstimateTokens(shorter) <= EstimateTokens(longer) <= EstimateTokens(shorter) + (|longer| - |shorter|)
  {
  }

  // At most four consecutive lengths share an estimate.
  lemma {:induction false} EstimatePlateau(a: string, b: string)
    requires EstimateTokens(a) == EstimateTokens(b)
    ensures -3 <= |a| - |b| <= 3
  {
  }

  // ---------- stop sequences: what is searched for ----------

  // The q-th stop sequence is usable and stands in `text` at position `i`.
  predicate Matches(text: string, stops: seq<string>, q: int, i: int) {
    0 <= q < |stops| && stops[q] != "" && OccursAt(text, stops[q], i)
  }

  ghost predicate NoMatch(text: string, stops: seq<string>) {
    forall q, i :: !Matches(text, stops, q, i)
  }

  // `best` is the leftmost match position and `match` the earliest-listed stop
  // sequence standing there.
  ghost predicate IsFirst(text: string, stops: seq<string>, best: int, match_: string) {
    if best < 0 then best == -1 && match_ == "" && NoMatch(text, stops)
    else exists p :: Matches(text, stops, p, best) && match_ == stops[p] && Beats(text, stops, p, best)
  }

  ghost predicate Beats(text: string, stops: seq<string>, p: int, best: int) {
    forall q, i :: Matches(text, stops, q, i) ==> best < i || (best == i && p <= q)
  }

  lemma {:induction false} IsFirstUnique(text: string, stops: seq<string>, b1: int, m1: string, b2: int, m2: string)
    requires IsFirst(text, stops, b1, m1) && IsFirst(text, stops, b2, m2)
    ensures b1 == b2 && m1 == m2
  {
    if b1 >= 0 {
      var p :| Matches(text, stops, p, b1) && m1 == stops[p] && Beats(text, stops, p, b1);
      if b2 >= 0 {
        var q :| Matches(text, stops, q, b2) && m2 == stops[q] && Beats(text, stops, q, b2);
        assert p == q;
      }
    }
  }

  function FirstStop(text: string, stops: seq<string>): (r: (int, string))
    ensures -1 <= r.0 <= |text|
  {
    if stops == [] then (-1, "")
    else
      var (best, match_) := FirstStop(text, stops[..|stops| - 1]);
      WithStop(text, best, match_, stops[|stops| - 1])
  }

  // One round of the search loop.
  function WithStop(text: string, best: int, match_: string, sequence: string): (r: (int, string))
    ensures r.0 == best || 0 <= r.0 <= |text|
  {
    if sequence == "" then (best, match_)
    else
      var index := Index(text, sequence);
      if index >= 0 && (best < 0 || index < best) then (index, sequence) else (best, match_)
  }

  // The search is correct: what it returns is the first match.
  lemma {:induction false} FirstStopIsFirst(text: string, stops: seq<string>)
    ensures IsFirst(text, stops, FirstStop(text, stops).0, FirstStop(text, stops).1)
  {
    if stops != [] {
      var front := stops[..|stops| - 1];
      FirstStopIsFirst(text, front);
      FirstStopStep(text, stops, FirstStop(text, front).0, FirstStop(text, front).1);
    }
  }

  lemma {:induction false} FirstStopIs(text: string, stops: seq<string>, best: int, match_: string)
    requires IsFirst(text, stops, best, match_)
    ensures FirstStop(text, stops) == (best, match_)
  {
    FirstStopIsFirst(text, stops);
    IsFirstUnique(text, stops, best, match_, FirstStop(text, stops).0, FirstStop(text, stops).1);
  }

  lemma {:induction false} NoStopIsNoMatch(text: string, stops: seq<string>)
    ensures FirstStop(text, stops).0 < 0 <==> NoMatch(text, stops)
  {
    FirstStopIsFirst(text, stops);
  }

  lemma {:induction false} FirstStopStep(text: string, stops: seq<string>, best: int, match_: string)
    requires stops != []
    requires IsFirst(text, stops[..|stops| - 1], best, match_)
    ensures var r := WithStop(text, best, match_, stops[|stops| - 1]); IsFirst(text, stops, r.0, r.1)
  {
    var n := |stops| - 1;
    var front, last := stops[..n], stops[n];
    assert forall q, i :: Matches(text, front, q, i) ==> Matches(text, stops, q, i);
    assert forall q, i :: Matches(text, stops, q, i) && q < n ==> Matches(text, front, q, i);
    var index := Index(text, last);
    IndexIsFirst(text, last);
    if last != "" && index >= 0 {
      assert Matches(text, stops, n, index);
      if best < 0 || index < best {
        assert Beats(text, stops, n, index);
      } else {
        var p :| Matches(text, front, p, best) && match_ == front[p] && Beats(text, front, p, best);
        assert Beats(text, stops, p, best);
        assert Matches(text, stops, p, best);
      }
    } else if best >= 0 {
      var p :| Matches(text, front, p, best) && match_ == front[p] && Beats(text, front, p, best);
      assert forall i :: !Matches(text, stops, n, i);
      assert Beats(text, stops, p, best);
      assert Matches(text, stops, p, best);
    }
  }

  // ---------- the held-back suffix ----------

  // The last `k` characters of `text` are a proper prefix of a stop sequence.
  predicate Partial(text: string, stops: seq<string>, k: int) {
    0 < k <= |text| && exists q | 0 <= q < |stops| :: PartialOf(text, stops[q], k)
  }

  predicate PartialOf(text: string, sequence: string, k: nat)
    requires k <= |text|
  {
    k < |sequence| && sequence[..k] == text[|text| - k..]
  }

  // The length of the longest suffix that is a proper prefix of a stop sequence.
  function Hold(text: string, stops: seq<string>): (r: nat)
    ensures r <= |text|
  {
    HoldFrom(text, stops, |text|)
  }

  function HoldFrom(text: string, stops: seq<string>, k: nat): (r: nat)
    requires k <= |text|
    ensures r <= k
  {
    if k == 0 || Partial(text, stops, k) then k else HoldFrom(text, stops, k - 1)
  }

  ghost predicate IsLongestPartial(text: string, stops: seq<string>, r: nat) {
    && (r == 0 || Partial(text, stops, r))
    && forall k | r < k :: !Partial(text, stops, k)
  }

  lemma {:induction false} HoldFromIsLongest(text: string, stops: seq<string>, k: nat)
    requires k <= |text| && forall j | k < j :: !Partial(text, stops, j)
    ensures IsLongestPartial(text, stops, HoldFrom(text, stops, k))
  {
    if k != 0 && !Partial(text, stops, k) { HoldFromIsLongest(text, stops, k - 1); }
  }

  lemma {:induction false} HoldIsLongest(text: string, stops: seq<string>)
    ensures IsLongestPartial(text, stops, Hold(text, stops))
  {
    HoldFromIsLongest(text, stops, |text|);
  }

  lemma {:induction false} HoldIs(text: string, stops: seq<string>, r: nat)
    requires IsLongestPartial(text, stops, r)
    ensures Hold(text, stops) == r
  {
    HoldIsLongest(text, stops);
    var h := Hold(text, stops);
    assert h < r ==> !Partial(text, stops, r);
    assert r < h ==> !Partial(text, stops, h);
  }

  function Held(text: string, stops: seq<string>): string {
    text[|text| - Hold(text, stops)..]
  }

  // A stream only keeps the held-back suffix of what it received; that is
  // enough. Searching the suffix plus the new delta finds what a search of
  // everything received would find, shifted, and holds back the same suffix.
  lemma {:induction false} SearchFromHeld(received: string, delta: string, stops: seq<string>)
    requires NoMatch(received, stops)
    ensures var cleared := |received| - Hold(received, stops);
            var near, far := FirstStop(Held(received, stops) + delta, stops), FirstStop(received + delta, stops);
            far == if near.0 < 0 then near else (cleared + near.0, near.1)
  {
    var held := Held(received, stops);
    var cleared := |received| - |held|;
    var near, all := held + delta, received + delta;
    assert all == received[..cleared] + near;
    forall q, i | Matches(all, stops, q, i)
      ensures cleared <= i && Matches(near, stops, q, i - cleared)
    {
      MatchReachesPast(received, delta, stops, q, i);
      OccursAtShift(received[..cleared], near, "", stops[q], i - cleared);
    }
    forall q, i | Matches(near, stops, q, i)
      ensures Matches(all, stops, q, cleared + i)
    {
      OccursAtShift(received[..cleared], near, "", stops[q], i);
      assert received[..cleared] + near + "" == all;
    }
    var r := FirstStop(near, stops);
    FirstStopIsFirst(near, stops);
    if r.0 >= 0 {
      var p :| Matches(near, stops, p, r.0) && r.1 == stops[p] && Beats(near, stops, p, r.0);
      assert Matches(all, stops, p, cleared + r.0);
      assert Beats(all, stops, p, cleared + r.0);
      FirstStopIs(all, stops, cleared + r.0, r.1);
    } else {
      FirstStopIs(all, stops, -1, "");
    }
  }

  // A match that was not complete before the delta starts in the held-back part.
  lemma {:induction false} MatchReachesPast(received: string, delta: string, stops: seq<string>, q: int, i: int)
    requires NoMatch(received, stops)
    requires Matches(received + delta, stops, q, i)
    ensures |received| - Hold(received, stops) <= i
  {
    var all := received + delta;
    assert received == all[..|received|];
    OccursAtPrefix(all, |received|, stops[q], i);
    assert !Matches(received, stops, q, i);
    if i < |received| {
      var k := |received| - i;
      assert stops[q][..k] == all[i..i + |stops[q]|][..k] == received[i..];
      assert PartialOf(received, stops[q], k);
      assert Partial(received, stops, k);
      HoldIsLongest(received, stops);
    }
  }

  // The last k characters of two texts agree, so they hold back alike.
  lemma {:induction false} PartialOfSuffix(a: string, b: string, stops: seq<string>, k: nat)
    requires k <= |a| && k <= |b| && a[|a| - k..] == b[|b| - k..]
    ensures Partial(a, stops, k) <==> Partial(b, stops, k)
  {
    assert forall q | 0 <= q < |stops| :: PartialOf(a, stops[q], k) <==> PartialOf(b, stops[q], k);
  }

  lemma {:induction false} PartialReachesHeld(received: string, delta: string, stops: seq<string>, k: nat)
    requires Partial(received + delta, stops, k)
    ensures k <= |Held(received, stops) + delta|
  {
    var all := received + delta;
    var q :| 0 <= q < |stops| && PartialOf(all, stops[q], k);
    if k > |delta| {
      var j := k - |delta|;
      assert stops[q][..j] == all[|all| - k..][..j] == received[|received| - j..];
      assert PartialOf(received, stops[q], j);
      assert Partial(received, stops, j);
      HoldIsLongest(received, stops);
    }
  }

  lemma {:induction false} HoldFromHeld(received: string, delta: string, stops: seq<string>, near: string)
    requires near == Held(received, stops) + delta
    ensures Hold(received + delta, stops) == Hold(near, stops)
  {
    var all := received + delta;
    var h := Hold(near, stops);
    HoldIsLongest(near, stops);
    forall k: nat | k <= |near| ensures Partial(all, stops, k) <==> Partial(near, stops, k) {
      assert all[|all| - k..] == near[|near| - k..];
      PartialOfSuffix(all, near, stops, k);
    }
    forall k: nat | h < k ensures !Partial(all, stops, k) {
      if Partial(all, stops, k) { PartialReachesHeld(received, delta, stops, k); }
    }
    HoldIs(all, stops, h);
  }

  // ---------- the limiter on values ----------

  datatype Limiter = Limiter(
    maxTokens: int,
    stops: seq<string>,
    emitted: string,
    pending: string,
    stopped: bool,
    stopReason: string,
    stopSequence: string)

  function Fresh(maxTokens: int, stops: seq<string>): Limiter {
    Limiter(maxTokens, stops, "", "", false, "", "")
  }

  predicate Active(l: Limiter) {
    l.maxTokens > 0 || |l.stops| > 0
  }

  function Feed(l: Limiter, delta: string): (r: (Limiter, string, bool)) {
    if !Active(l) then (l, delta, false)
    else if l.stopped then (l, "", true)
    else Examine(l, l.pending + delta)
  }

  // The text not yet cleared: cut it at a stop sequence, or hold back what
  // could still become one.
  function Examine(l: Limiter, buffered: string): (r: (Limiter, string, bool)) {
    var (index, sequence) := FirstStop(buffered, l.stops);
    if index >= 0 then
      var (l', out) := Admit(l.(pending := "", stopped := true, stopReason := "stop_sequence",
                                stopSequence := sequence), buffered[..index]);
      (l', out, true)
    else
      var cut := |buffered| - Hold(buffered, l.stops);
      var (l', out) := Admit(l.(pending := buffered[cut..]), buffered[..cut]);
      (l', out, l'.stopped)
  }

  function Flush(l: Limiter): (r: (Limiter, string)) {
    if !Active(l) || l.stopped then (l, "")
    else Admit(l.(pending := ""), l.pending)
  }

  function Admit(l: Limiter, text: string): (r: (Limiter, string))
  {
    if text == "" then (l, "")
    else if l.maxTokens <= 0 then (l.(emitted := l.emitted + text), text)
    else if l.maxTokens - EstimateTokens(l.emitted) <= 0 then (l.(stopped := true, stopReason := "max_tokens"), "")
    else if EstimateTokens(l.emitted + text) <= l.maxTokens then (l.(emitted := l.emitted + text), text)
    else
      var clipped := Clip(l.emitted, text, l.maxTokens);
      (l.(stopped := true, stopReason := "max_tokens", emitted := l.emitted + clipped), clipped)
  }

  // The longest proper prefix of `addition` that keeps the estimate within
  // `maxTokens`, or all of it when that has one character and fits.
  function Clip(existing: string, addition: string, maxTokens: int): (r: string) {
    var accepted := Accepted(existing, addition, maxTokens, 1);
    if accepted == 0 && EstimateTokens(existing + addition) <= maxTokens then addition else addition[..accepted]
  }

  function Accepted(existing: string, addition: string, maxTokens: int, from: nat): (r: nat)
    requires 1 <= from <= |addition| + 1
    ensures r <= |addition|
    decreases |addition| - from
  {
    if from >= |addition| || EstimateTokens(existing + addition[..from]) > maxTokens then from - 1
    else Accepted(existing, addition, maxTokens, from + 1)
  }

  lemma {:induction false} AcceptedIsLongest(existing: string, addition: string, maxTokens: int, from: nat)
    requires 1 <= from <= |addition| + 1
    ensures var r := Accepted(existing, addition, maxTokens, from);
      && from - 1 <= r
      && (r == from - 1 || (r < |addition| && EstimateTokens(existing + addition[..r]) <= maxTokens))
      && (r + 1 < |addition| ==> EstimateTokens(existing + addition[..r + 1]) > maxTokens)
    decreases |addition| - from
  {
    if from < |addition| && EstimateTokens(existing + addition[..from]) <= maxTokens {
      AcceptedIsLongest(existing, addition, maxTokens, from + 1);
    }
  }

  // The clipped text is a prefix, and it reaches the ceiling exactly when the
  // whole addition would exceed it: one more character would be too many.
  lemma {:induction false} ClipReaches(existing: string, addition: string, maxTokens: int)
    ensures var r := Clip(existing, addition, maxTokens);
      && r <= addition
      && (EstimateTokens(existing) <= maxTokens < EstimateTokens(existing + addition) ==>
            EstimateTokens(existing + r) == maxTokens && |r| < |addition|
            && EstimateTokens(existing + addition[..|r| + 1]) > maxTokens)
  {
    if EstimateTokens(existing) <= maxTokens < EstimateTokens(existing + addition) {
      assert existing + "" == existing;
      var accepted := Accepted(existing, addition, maxTokens, 1);
      AcceptedIsLongest(existing, addition, maxTokens, 1);
      assert addition[..0] == "";
      if accepted + 1 >= |addition| {
        assert addition[..|addition|] == addition;
      }
      EstimateGrows(existing + addition[..accepted], existing + addition[..accepted + 1]);
    }
  }

  // StopReason: the reason, the sequence, and whether a limit was reached
  function StopReason(l: Limiter): (string, string, bool) {
    if !l.stopped || l.stopReason == "" then ("", "", false) else (l.stopReason, l.stopSequence, true)
  }

  // ---------- whole runs ----------

  // The limiter and all text released after feeding `deltas` in order.
  function Fed(l: Limiter, deltas: seq<string>): (r: (Limiter, string)) {
    if deltas == [] then (l, "")
    else
      var (before, out) := Fed(l, deltas[..|deltas| - 1]);
      var (after, more, _) := Feed(before, deltas[|deltas| - 1]);
      (after, out + more)
  }

  datatype Outcome = Outcome(text: string, stop: (string, string, bool))

  // Feed every delta, then Flush.
  function Streamed(maxTokens: int, stops: seq<string>, deltas: seq<string>): Outcome {
    var (l, out) := Fed(Fresh(maxTokens, stops), deltas);
    var (l', tail) := Flush(l);
    Outcome(out + tail, StopReason(l'))
  }

  // Truncate: one Feed and one Flush, on whatever was fed before.
  function Truncate(l: Limiter, text: string): (Limiter, string) {
    if !Active(l) then (l, text)
    else
      var (l', out, _) := Feed(l, text);
      var (l'', tail) := Flush(l');
      (l'', out + tail)
  }

  // The whole text at once.
  function Truncated(maxTokens: int, stops: seq<string>, text: string): Outcome {
    var (l, out) := Truncate(Fresh(maxTokens, stops), text);
    Outcome(out, StopReason(l))
  }

  lemma {:induction false} TruncatedIsStreamed(maxTokens: int, stops: seq<string>, text: string)
    ensures Truncated(maxTokens, stops, text) == Streamed(maxTokens, stops, [text])
  {
    var l := Fresh(maxTokens, stops);
    assert [text][..0] == [];
    assert Fed(l, []) == (l, "");
    assert Fed(l, [text]) == (Feed(l, text).0, "" + Feed(l, text).1);
    assert forall s: string :: "" + s == s;
    if !Active(l) {
      assert text + "" == text;
    }
  }

  // ---------- what holds after every step ----------

  // Invariant of an active limiter that has received the text `received`.
  ghost predicate Inv(l: Limiter, received: string) {
    && Active(l)
    && l.emitted <= received
    && NoMatch(l.emitted, l.stops)
    && (!l.stopped ==> l.emitted + l.pending == received && NoMatch(received, l.stops)
                       && l.pending == Held(received, l.stops) && l.stopReason == "")
    && (l.stopReason in {"", "stop_sequence", "max_tokens"})
    && (l.stopped ==> l.stopReason != "")
    && (l.maxTokens > 0 ==> EstimateTokens(l.emitted) <= l.maxTokens)
    && (l.stopReason == "max_tokens" ==> EstimateTokens(l.emitted) == l.maxTokens)
  }

  // The matches of a prefix are the matches of the text that end inside it.
  lemma {:induction false} MatchesPrefix(text: string, stops: seq<string>, k: nat)
    requires k <= |text|
    ensures forall q, i :: Matches(text[..k], stops, q, i) ==> Matches(text, stops, q, i) && i + |stops[q]| <= k
    ensures forall q, i :: Matches(text, stops, q, i) && i + |stops[q]| <= k ==> Matches(text[..k], stops, q, i)
  {
    forall q, i | 0 <= q < |stops|
      ensures OccursAt(text[..k], stops[q], i) <==> OccursAt(text, stops[q], i) && i + |stops[q]| <= k
    {
      OccursAtPrefix(text, k, stops[q], i);
    }
  }

  // Nothing matches before the first match.
  lemma {:induction false} NoMatchBefore(text: string, stops: seq<string>, k: nat)
    requires FirstStop(text, stops).0 >= 0 && k <= FirstStop(text, stops).0
    ensures k <= |text| && NoMatch(text[..k], stops)
  {
    FirstStopIsFirst(text, stops);
    MatchesPrefix(text, stops, k);
  }

  // What Admit does to the bookkeeping, for any text.
  lemma {:induction false} AdmitKeeps(l: Limiter, text: string)
    requires l.maxTokens > 0 ==> EstimateTokens(l.emitted) <= l.maxTokens
    ensures var (l', out) := Admit(l, text);
      && l'.emitted == l.emitted + out && out <= text
      && l' == l.(emitted := l'.emitted, stopped := l'.stopped, stopReason := l'.stopReason)
      && (l.maxTokens > 0 ==> EstimateTokens(l'.emitted) <= l.maxTokens)
      && (if l'.stopReason == l.stopReason && l'.stopped == l.stopped then true
          else l'.stopped && l'.stopReason == "max_tokens")
      && (out == text || (l'.stopped && l'.stopReason == "max_tokens" && EstimateTokens(l'.emitted) == l.maxTokens))
      && (l'.stopReason == "max_tokens" && l.stopReason != "max_tokens" ==>
            EstimateTokens(l'.emitted) == l.maxTokens && l.maxTokens > 0)
  {
    assert l.emitted + "" == l.emitted;
    if text != "" { ClipReaches(l.emitted, text, l.maxTokens); }
  }

  lemma {:induction false} FeedKeepsInv(l: Limiter, received: string, delta: string)
    requires Inv(l, received)
    ensures var (l', out, done) := Feed(l, delta);
            Inv(l', received + delta) && l'.emitted == l.emitted + out && done == l'.stopped
            && l'.maxTokens == l.maxTokens && l'.stops == l.stops
  {
    if l.stopped {
      assert l.emitted + "" == l.emitted;
    } else if FirstStop(l.pending + delta, l.stops).0 >= 0 {
      FeedFinds(l, received, delta);
    } else {
      FeedHolds(l, received, delta);
    }
  }

  lemma {:induction false} FoundPrefixClean(received: string, delta: string, stops: seq<string>, k: nat)
    requires NoMatch(received, stops)
    requires var index := FirstStop(Held(received, stops) + delta, stops).0;
             index >= 0 && k <= |received| - Hold(received, stops) + index
    ensures k <= |received + delta| && NoMatch((received + delta)[..k], stops)
  {
    SearchFromHeld(received, delta, stops);
    NoMatchBefore(received + delta, stops, k);
  }

  lemma {:induction false} HeldFromHeld(received: string, delta: string, stops: seq<string>)
    ensures Held(received + delta, stops) == Held(Held(received, stops) + delta, stops)
  {
    var all, near, hold := received + delta, Held(received, stops) + delta, Hold(received + delta, stops);
    HoldFromHeld(received, delta, stops, near);
    assert all[|all| - hold..] == near[|near| - hold..];
  }

  lemma {:induction false} NotFoundClean(received: string, delta: string, stops: seq<string>, k: nat)
    requires NoMatch(received, stops) && FirstStop(Held(received, stops) + delta, stops).0 < 0
    requires k <= |received + delta|
    ensures NoMatch(received + delta, stops) && NoMatch((received + delta)[..k], stops)
  {
    SearchFromHeld(received, delta, stops);
    NoStopIsNoMatch(received + delta, stops);
    MatchesPrefix(received + delta, stops, k);
  }

  lemma {:induction false} FeedFinds(l: Limiter, received: string, delta: string)
    requires Inv(l, received) && !l.stopped && FirstStop(l.pending + delta, l.stops).0 >= 0
    ensures var (l', out, done) := Feed(l, delta);
            Inv(l', received + delta) && l'.emitted == l.emitted + out && done && l'.stopped
            && l'.maxTokens == l.maxTokens && l'.stops == l.stops
  {
    var all, buffered := received + delta, l.pending + delta;
    var (index, sequence) := FirstStop(buffered, l.stops);
    var m := l.(pending := "", stopped := true, stopReason := "stop_sequence", stopSequence := sequence);
    var (l', out) := Admit(m, buffered[..index]);
    AdmitKeeps(m, buffered[..index]);
    PrefixOfAll(l.emitted, l.pending, received, delta, out);
    FoundPrefixClean(received, delta, l.stops, |l'.emitted|);
    assert Feed(l, delta) == (l', out, true);
  }

  lemma {:induction false} PrefixOfAll(emitted: string, pending: string, received: string, delta: string, out: string)
    requires emitted + pending == received && out <= pending + delta
    ensures emitted + out == (received + delta)[..|emitted + out|]
  {
    assert emitted + (pending + delta) == received + delta;
  }

  lemma {:induction false} AllIsSplit(emitted: string, pending: string, received: string, delta: string, k: nat)
    requires emitted + pending == received && k <= |pending + delta|
    ensures emitted + (pending + delta)[..k] + (pending + delta)[k..] == received + delta
  {
  }

  lemma {:induction false} FeedHolds(l: Limiter, received: string, delta: string)
    requires Inv(l, received) && !l.stopped && FirstStop(l.pending + delta, l.stops).0 < 0
    ensures var (l', out, done) := Feed(l, delta);
            Inv(l', received + delta) && l'.emitted == l.emitted + out && done == l'.stopped
            && l'.maxTokens == l.maxTokens && l'.stops == l.stops
  {
    var all, buffered := received + delta, l.pending + delta;
    var cut := |buffered| - Hold(buffered, l.stops);
    var ready := buffered[..cut];
    var m := l.(pending := buffered[cut..]);
    var (l', out) := Admit(m, ready);
    AdmitKeeps(m, ready);
    assert Feed(l, delta) == (l', out, l'.stopped);
    PrefixOfAll(l.emitted, l.pending, received, delta, out);
    assert NoMatch(all, l.stops) && NoMatch(l'.emitted, l.stops) by {
      NotFoundClean(received, delta, l.stops, |l'.emitted|);
    }
    HeldFromHeld(received, delta, l.stops);
    AllIsSplit(l.emitted, l.pending, received, delta, cut);
  }

  lemma {:induction false} FreshInv(maxTokens: int, stops: seq<string>)
    requires Active(Fresh(maxTokens, stops))
    ensures Inv(Fresh(maxTokens, stops), "")
  {
    assert NoMatch("", stops);
  }

  lemma {:induction false} FedKeepsInv(maxTokens: int, stops: seq<string>, deltas: seq<string>)
    requires Active(Fresh(maxTokens, stops))
    ensures var (l, out) := Fed(Fresh(maxTokens, stops), deltas);
            Inv(l, Flatten(deltas)) && l.emitted == out && l.maxTokens == maxTokens && l.stops == stops
  {
    if deltas == [] {
      FreshInv(maxTokens, stops);
    } else {
      var front, last := deltas[..|deltas| - 1], deltas[|deltas| - 1];
      FedKeepsInv(maxTokens, stops, front);
      FeedKeepsInv(Fed(Fresh(maxTokens, stops), front).0, Flatten(front), last);
    }
  }

  lemma {:induction false} FlushKeepsInv(l: Limiter, received: string)
    requires Inv(l, received)
    ensures var (l', out) := Flush(l);
      && l'.emitted == l.emitted + out <= received
      && NoMatch(l'.emitted, l.stops)
      && (l.maxTokens > 0 ==> EstimateTokens(l'.emitted) <= l.maxTokens)
      && (l'.stopReason == "max_tokens" ==> EstimateTokens(l'.emitted) == l.maxTokens)
      && (!l'.stopped ==> l'.emitted == received)
  {
    if l.stopped {
      assert l.emitted + "" == l.emitted;
    } else {
      AdmitKeeps(l.(pending := ""), l.pending);
      var l' := Flush(l).0;
      assert l'.emitted == received[..|l'.emitted|];
      MatchesPrefix(received, l.stops, |l'.emitted|);
    }
  }

  // Safety of a whole run, for every ceiling, every stop list and every split:
  // what is sent is a prefix of the text, holds no stop sequence, never
  // estimates above the ceiling, and meets it exactly when it is the reason.
  lemma {:induction false} StreamIsSafe(maxTokens: int, stops: seq<string>, deltas: seq<string>)
    ensures var r := Streamed(maxTokens, stops, deltas);
      && r.text <= Flatten(deltas)
      && NoMatch(r.text, stops)
      && (maxTokens > 0 ==> EstimateTokens(r.text) <= maxTokens)
      && (r.stop.0 == "max_tokens" ==> EstimateTokens(r.text) == maxTokens)
      && (!r.stop.2 ==> r.text == Flatten(deltas))
  {
    if Active(Fresh(maxTokens, stops)) {
      FedKeepsInv(maxTokens, stops, deltas);
      var l := Fed(Fresh(maxTokens, stops), deltas).0;
      FlushKeepsInv(l, Flatten(deltas));
      assert Flush(l).0.stopped ==> Flush(l).0.stopReason != "" by {
        if !l.stopped { AdmitKeeps(l.(pending := ""), l.pending); }
      }
    } else {
      InactivePasses(maxTokens, stops, deltas);
      assert Flatten(deltas) + "" == Flatten(deltas);
    }
  }

  // A stop cuts the text short; a stop sequence stands where the text was cut.
  ghost predicate Reported(l: Limiter, received: string) {
    l.stopped ==>
      && |l.emitted| < |received|
      && (l.stopReason == "stop_sequence" ==>
            l.stopSequence in l.stops && l.stopSequence != "" && OccursAt(received, l.stopSequence, |l.emitted|))
  }

  lemma {:induction false} AdmitCutsShort(l: Limiter, text: string)
    requires !l.stopped && EstimateTokens(l.emitted) <= l.maxTokens
    ensures Admit(l, text).0.stopped ==> |Admit(l, text).1| < |text|
  {
    ClipReaches(l.emitted, text, l.maxTokens);
  }

  lemma {:induction false} FoundStandsThere(received: string, delta: string, stops: seq<string>)
    requires NoMatch(received, stops) && FirstStop(Held(received, stops) + delta, stops).0 >= 0
    ensures var (index, sequence) := FirstStop(Held(received, stops) + delta, stops);
      sequence in stops && sequence != "" && OccursAt(received + delta, sequence, |received| - Hold(received, stops) + index)
  {
    SearchFromHeld(received, delta, stops);
    FirstStopIsFirst(received + delta, stops);
  }

  lemma {:induction false} FindReports(l: Limiter, received: string, delta: string)
    requires Inv(l, received) && !l.stopped && FirstStop(l.pending + delta, l.stops).0 >= 0
    ensures Reported(Feed(l, delta).0, received + delta)
  {
    var (index, sequence) := FirstStop(l.pending + delta, l.stops);
    var found := l.(pending := "", stopped := true, stopReason := "stop_sequence", stopSequence := sequence);
    var text := (l.pending + delta)[..index];
    assert Feed(l, delta).0 == Admit(found, text).0;
    FoundStandsThere(received, delta, l.stops);
    AdmitKeeps(found, text);
  }

  lemma {:induction false} HoldReports(l: Limiter, received: string, delta: string)
    requires Inv(l, received) && !l.stopped && FirstStop(l.pending + delta, l.stops).0 < 0
    ensures Reported(Feed(l, delta).0, received + delta)
  {
    var buffered := l.pending + delta;
    var cut := |buffered| - Hold(buffered, l.stops);
    var rest := l.(pending := buffered[cut..]);
    assert buffered[..|buffered|] == buffered && buffered[|buffered|..] == "";
    assert Feed(l, delta).0 == Admit(rest, buffered[..cut]).0;
    if l.maxTokens > 0 { AdmitCutsShort(rest, buffered[..cut]); }
    AdmitKeeps(rest, buffered[..cut]);
  }

  lemma {:induction false} FeedReports(l: Limiter, received: string, delta: string)
    requires Inv(l, received) && Reported(l, received)
    ensures Reported(Feed(l, delta).0, received + delta)
  {
    if l.stopped {
      OccursAtShift("", received, delta, l.stopSequence, |l.emitted|);
      assert "" + received + delta == received + delta;
    } else if FirstStop(l.pending + delta, l.stops).0 >= 0 {
      FindReports(l, received, delta);
    } else {
      HoldReports(l, received, delta);
    }
  }

  lemma {:induction false} FedReports(maxTokens: int, stops: seq<string>, deltas: seq<string>)
    requires Active(Fresh(maxTokens, stops))
    ensures Reported(Fed(Fresh(maxTokens, stops), deltas).0, Flatten(deltas))
  {
    if deltas != [] {
      var n := |deltas| - 1;
      FedReports(maxTokens, stops, deltas[..n]);
      FedKeepsInv(maxTokens, stops, deltas[..n]);
      FeedReports(Fed(Fresh(maxTokens, stops), deltas[..n]).0, Flatten(deltas[..n]), deltas[n]);
    }
  }

  // What a run reports: a limit was reached exactly if text was cut off; it is
  // one of two; a reported stop sequence is a listed one and stands in the text
  // right where the output ends.
  lemma {:induction false} StopReport(maxTokens: int, stops: seq<string>, deltas: seq<string>)
    ensures var r, text := Streamed(maxTokens, stops, deltas), Flatten(deltas);
      var (reason, sequence, ok) := r.stop;
      && (ok <==> r.text != text)
      && reason in (if ok then {"stop_sequence", "max_tokens"} else {""})
      && (reason == "stop_sequence" ==> sequence in stops && sequence != "" && OccursAt(text, sequence, |r.text|))
  {
    var (l, out) := Fed(Fresh(maxTokens, stops), deltas);
    if Active(Fresh(maxTokens, stops)) {
      FedKeepsInv(maxTokens, stops, deltas);
      FedReports(maxTokens, stops, deltas);
      FlushKeepsInv(l, Flatten(deltas));
      if l.stopped {
        assert out + "" == out;
      } else {
        if l.maxTokens > 0 { AdmitCutsShort(l.(pending := ""), l.pending); }
        AdmitKeeps(l.(pending := ""), l.pending);
      }
    } else {
      InactivePasses(maxTokens, stops, deltas);
      assert out + "" == out;
    }
  }

  lemma {:induction false} InactivePasses(maxTokens: int, stops: seq<string>, deltas: seq<string>)
    requires !Active(Fresh(maxTokens, stops))
    ensures Fed(Fresh(maxTokens, stops), deltas) == (Fresh(maxTokens, stops), Flatten(deltas))
  {
    if deltas != [] {
      InactivePasses(maxTokens, stops, deltas[..|deltas| - 1]);
    }
  }

  // While running, what was sent plus what is held back is all that was
  // received, and the held-back part is exactly the longest suffix of
  // everything received that is a proper prefix of a stop sequence.
  lemma {:induction false} RunningHoldsLongestSuffix(maxTokens: int, stops: seq<string>, deltas: seq<string>)
    requires Active(Fresh(maxTokens, stops)) && !Fed(Fresh(maxTokens, stops), deltas).0.stopped
    ensures var (l, out) := Fed(Fresh(maxTokens, stops), deltas);
      && out + l.pending == Flatten(deltas)
      && (l.pending == "" || Partial(Flatten(deltas), stops, |l.pending|))
      && forall k | |l.pending| < k :: !Partial(Flatten(deltas), stops, k)
  {
    FedKeepsInv(maxTokens, stops, deltas);
    HoldIsLongest(Flatten(deltas), stops);
  }
}
