// translator/output_limit.go: the limiter object as the source writes it, its
// fields updated in place and its searches done by loops. Every method is
// proved equal to the function of OutputLimit with the same role.
module OutputLimiterObject {
  import opened Text
  import L = OutputLimit

  method FirstStopSequence(text: string, sequences: seq<string>) returns (best: int, match_: string)
    ensures L.IsFirst(text, sequences, best, match_)
    ensures (best, match_) == L.FirstStop(text, sequences)
  {
    best, match_ := -1, "";
    for n := 0 to |sequences|
      invariant (best, match_) == L.FirstStop(text, sequences[..n])
    {
      assert sequences[..n + 1][..n] == sequences[..n];
      var sequence := sequences[n];
      if sequence == "" {
        continue;
      }
      var index := Index(text, sequence);
      if index >= 0 && (best < 0 || index < best) {
        best, match_ := index, sequence;
      }
    }
    assert sequences[..|sequences|] == sequences;
    L.FirstStopIsFirst(text, sequences);
  }

  method PartialStopSuffix(text: string, sequences: seq<string>) returns (longest: nat)
    ensures longest == L.Hold(text, sequences)
  {
    longest := 0;
    for n := 0 to |sequences|
      invariant longest <= |text|
      invariant longest > 0 ==> L.Partial(text, sequences, longest)
      invariant forall q, k | 0 <= q < n && longest < k <= |text| :: !L.PartialOf(text, sequences[q], k)
    {
      var sequence := sequences[n];
      if sequence == "" {
        continue;
      }
      var limit := |sequence| - 1;
      if limit > |text| {
        limit := |text|;
      }
      var size := limit;
      while size > longest
        invariant 0 <= size <= limit
        invariant longest <= |text|
        invariant longest > 0 ==> L.Partial(text, sequences, longest)
        invariant forall q, k | 0 <= q < n && longest < k <= |text| :: !L.PartialOf(text, sequences[q], k)
        invariant forall k | size < k <= limit :: !L.PartialOf(text, sequence, k)
      {
        if HasPrefix(sequence, text[|text| - size..]) {
          assert L.PartialOf(text, sequence, size);
          longest := size;
          break;
        }
        size := size - 1;
      }
    }
    L.HoldIs(text, sequences, longest);
  }

  method ClipToTokenBudget(existing: string, addition: string, maxTokens: int) returns (r: string)
    ensures r == L.Clip(existing, addition, maxTokens)
  {
    var accepted := 0;
    var index := 0;
    while index < |addition|
      invariant 0 <= accepted <= |addition|
      invariant index == 0 ==> accepted == 0
      invariant index > 0 ==> accepted == index - 1
      invariant index <= |addition| || addition == ""
      invariant L.Accepted(existing, addition, maxTokens, 1) == L.Accepted(existing, addition, maxTokens, if index == 0 then 1 else index)
    {
      if index == 0 {
        index := index + 1;
        continue;
      }
      if L.EstimateTokens(existing + addition[..index]) > maxTokens {
        break;
      }
      accepted := index;
      index := index + 1;
    }
    assert accepted == L.Accepted(existing, addition, maxTokens, 1);
    if accepted == 0 && L.EstimateTokens(existing + addition) <= maxTokens {
      return addition;
    }
    r := addition[..accepted];
  }

  class OutputLimiter {
    const MaxTokens: int
    const StopSequences: seq<string>
    var emitted: string
    var pending: string
    var stopped: bool
    var stopReason: string
    var stopSequence: string

    function State(): L.Limiter
      reads this
    {
      L.Limiter(MaxTokens, StopSequences, emitted, pending, stopped, stopReason, stopSequence)
    }

    constructor (maxTokens: int, stopSequences: seq<string>)
      ensures State() == L.Fresh(maxTokens, stopSequences)
    {
      MaxTokens, StopSequences := maxTokens, stopSequences;
      emitted, pending, stopped, stopReason, stopSequence := "", "", false, "", "";
    }

    predicate Active() {
      MaxTokens > 0 || |StopSequences| > 0
    }

    method Feed(delta: string) returns (out: string, done: bool)
      modifies this
      ensures (State(), out, done) == L.Feed(old(State()), delta)
    {
      if !Active() {
        return delta, false;
      }
      if stopped {
        return "", true;
      }
      var buffered := pending + delta;
      ghost var whole := buffered;
      pending := "";
      var index, sequence := FirstStopSequence(buffered, StopSequences);
      if index >= 0 {
        stopped := true;
        stopReason := "stop_sequence";
        stopSequence := sequence;
        out := Admit(buffered[..index]);
        return out, true;
      }
      var hold := PartialStopSuffix(buffered, StopSequences);
      if hold > 0 {
        pending := buffered[|buffered| - hold..];
        buffered := buffered[..|buffered| - hold];
      }
      assert pending == whole[|whole| - hold..] && buffered == whole[..|whole| - hold];
      out := Admit(buffered);
      done := stopped;
    }

    method Flush() returns (out: string)
      modifies this
      ensures (State(), out) == L.Flush(old(State()))
    {
      if !Active() || stopped {
        return "";
      }
      var rest := pending;
      pending := "";
      out := Admit(rest);
    }

    method Admit(text: string) returns (out: string)
      modifies this
      ensures (State(), out) == L.Admit(old(State()), text)
    {
      if text == "" {
        return "";
      }
      if MaxTokens <= 0 {
        emitted := emitted + text;
        return text;
      }
      var remaining := MaxTokens - L.EstimateTokens(emitted);
      if remaining <= 0 {
        stopped := true;
        stopReason := "max_tokens";
        return "";
      }
      if L.EstimateTokens(emitted + text) <= MaxTokens {
        emitted := emitted + text;
        return text;
      }
      var clipped := ClipToTokenBudget(emitted, text, MaxTokens);
      stopped := true;
      stopReason := "max_tokens";
      emitted := emitted + clipped;
      out := clipped;
    }

    method Truncate(text: string) returns (out: string)
      modifies this
      ensures (State(), out) == L.Truncate(old(State()), text)
    {
      if !Active() {
        return text;
      }
      var first, _ := Feed(text);
      var rest := Flush();
      out := first + rest;
    }

    method StopReason() returns (reason: string, sequence: string, ok: bool)
      ensures (reason, sequence, ok) == L.StopReason(State())
      ensures forall received | L.Inv(State(), received) ::
        && (ok <==> stopped)
        && reason in (if ok then {"stop_sequence", "max_tokens"} else {""})
        && (reason == "max_tokens" ==> L.EstimateTokens(emitted) == MaxTokens)
    {
      if !stopped || stopReason == "" {
        return "", "", false;
      }
      return stopReason, stopSequence, true;
    }

    method EmittedTokens() returns (n: int)
      ensures n == L.EstimateTokens(emitted)
      ensures forall received | L.Inv(State(), received) && MaxTokens > 0 :: n <= MaxTokens
    {
      n := L.EstimateTokens(emitted);
    }
  }
}
