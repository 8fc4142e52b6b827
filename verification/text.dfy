// The operations of Go's `strings` and `strconv` packages that the modelled code
// relies on, over strings as sequences of characters.
module Text {
  import opened Wrappers

  // ---------- concatenation ----------

  // The concatenation of a list of chunks; it peels the last chunk, as a
  // stream appends one.
  function Flatten<T>(parts: seq<seq<T>>): (r: seq<T>)
  {
    if parts == [] then [] else Flatten(parts[..|parts| - 1]) + parts[|parts| - 1]
  }

  lemma {:induction false} FlattenSnoc<T>(parts: seq<seq<T>>, last: seq<T>)
    ensures Flatten(parts + [last]) == Flatten(parts) + last
  {
    assert (parts + [last])[..|parts|] == parts;
  }

  lemma {:induction false} FlattenAppend<T>(a: seq<seq<T>>, b: seq<seq<T>>)
    ensures Flatten(a + b) == Flatten(a) + Flatten(b)
  {
    if b == [] {
      assert a + b == a;
    } else {
      var b', last := b[..|b| - 1], b[|b| - 1];
      FlattenAppend(a, b');
      assert (a + b)[..|a + b| - 1] == a + b';
      assert Flatten(a) + (Flatten(b') + last) == (Flatten(a) + Flatten(b')) + last;
    }
  }

  lemma {:induction false} FlattenOne<T>(part: seq<T>)
    ensures Flatten([part]) == part
  {
    FlattenSnoc([], part);
  }

  lemma {:induction false} FlattenTwo<T>(a: seq<T>, b: seq<T>)
    ensures Flatten([a, b]) == a + b
  {
    FlattenSnoc([a], b);
    FlattenOne(a);
    assert [a] + [b] == [a, b];
  }

  // ---------- search ----------

  // `s` stands in `text` at position `i`.
  predicate OccursAt(text: string, s: string, i: int) {
    0 <= i && i + |s| <= |text| && text[i..i + |s|] == s
  }

  predicate Occurs(text: string, s: string) {
    exists i | 0 <= i <= |text| :: OccursAt(text, s, i)
  }

  // strings.Index: the first position of `s`, or -1.
  function Index(text: string, s: string): (r: int)
    ensures r == -1 || 0 <= r <= |text| - |s|
  {
    IndexFrom(text, s, 0)
  }

  function IndexFrom(text: string, s: string, from: nat): (r: int)
    ensures r == -1 || from <= r <= |text| - |s|
    decreases |text| + 1 - from
  {
    if from > |text| then -1
    else if OccursAt(text, s, from) then from
    else IndexFrom(text, s, from + 1)
  }

  lemma {:induction false} IndexFromIsFirst(text: string, s: string, from: nat)
    ensures var r := IndexFrom(text, s, from);
            if r == -1 then forall i | from <= i :: !OccursAt(text, s, i)
            else OccursAt(text, s, r) && forall i | from <= i < r :: !OccursAt(text, s, i)
    decreases |text| + 1 - from
  {
    if from <= |text| && !OccursAt(text, s, from) { IndexFromIsFirst(text, s, from + 1); }
  }

  lemma {:induction false} IndexIsFirst(text: string, s: string)
    ensures var r := Index(text, s);
            if r == -1 then forall i :: !OccursAt(text, s, i)
            else OccursAt(text, s, r) && forall i | 0 <= i < r :: !OccursAt(text, s, i)
  {
    IndexFromIsFirst(text, s, 0);
  }

  predicate HasPrefix(s: string, prefix: string) {
    |prefix| <= |s| && s[..|prefix|] == prefix
  }

  // An occurrence survives when the text is extended on either side.
  lemma {:induction false} OccursAtShift(before: string, text: string, after: string, s: string, i: int)
    requires 0 <= i
    ensures OccursAt(text, s, i) ==> OccursAt(before + text + after, s, |before| + i)
    ensures OccursAt(before + text, s, |before| + i) ==> OccursAt(text, s, i)
  {
    if OccursAt(text, s, i) {
      assert (before + text + after)[|before| + i..|before| + i + |s|] == text[i..i + |s|];
    }
    if OccursAt(before + text, s, |before| + i) {
      assert (before + text)[|before| + i..|before| + i + |s|] == text[i..i + |s|];
    }
  }

  // An occurrence inside a prefix is an occurrence in the whole, and back.
  lemma {:induction false} OccursAtPrefix(text: string, k: nat, s: string, i: int)
    requires k <= |text|
    ensures OccursAt(text[..k], s, i) <==> OccursAt(text, s, i) && i + |s| <= k
  {
    if 0 <= i && i + |s| <= k {
      assert text[..k][i..i + |s|] == text[i..i + |s|];
    }
  }

  // ---------- white space and letter case ----------

  // unicode.IsSpace
  predicate IsSpace(c: char) {
    c in {'\t', '\n', '\U{B}', '\U{C}', '\r', ' ', '\U{85}', '\U{A0}', '\U{1680}',
          '\U{2028}', '\U{2029}', '\U{202F}', '\U{205F}', '\U{3000}'}
    || '\U{2000}' <= c <= '\U{200A}'
  }

  function TrimLeft(s: string): string {
    if s == "" || !IsSpace(s[0]) then s else TrimLeft(s[1..])
  }

  function TrimRight(s: string): string {
    if s == "" || !IsSpace(s[|s| - 1]) then s else TrimRight(s[..|s| - 1])
  }

  // strings.TrimSpace
  function TrimSpace(s: string): string {
    TrimRight(TrimLeft(s))
  }

  predicate Blank(s: string) {
    TrimSpace(s) == ""
  }

  lemma {:induction false} TrimLeftStart(s: string)
    ensures TrimLeft(s) == "" || !IsSpace(TrimLeft(s)[0])
  {
    if s != "" && IsSpace(s[0]) { TrimLeftStart(s[1..]); }
  }

  lemma {:induction false} TrimRightEnd(s: string)
    ensures TrimRight(s) <= s
    ensures TrimRight(s) == "" || !IsSpace(TrimRight(s)[|TrimRight(s)| - 1])
  {
    if s != "" && IsSpace(s[|s| - 1]) { TrimRightEnd(s[..|s| - 1]); }
  }

  // Trimmed text starts and ends with a visible character, so trimming it
  // again changes nothing.
  lemma {:induction false} TrimSpaceIdempotent(s: string)
    ensures TrimSpace(TrimSpace(s)) == TrimSpace(s)
  {
    var left := TrimLeft(s);
    var t := TrimRight(left);
    TrimLeftStart(s);
    TrimRightEnd(left);
    if t != "" {
      assert t[0] == left[0];
      assert TrimLeft(t) == t && TrimRight(t) == t;
    }
  }

  // strings.ToLower, on the letters A to Z
  function LowerChar(c: char): char {
    if 'A' <= c <= 'Z' then c - 'A' + 'a' else c
  }

  function ToLower(s: string): (r: string)
    ensures |r| == |s|
    ensures forall i | 0 <= i < |s| :: r[i] == LowerChar(s[i])
  {
    seq(|s|, i requires 0 <= i < |s| => LowerChar(s[i]))
  }

  // strings.EqualFold, on the letters A to Z
  predicate EqualFold(a: string, b: string) {
    ToLower(a) == ToLower(b)
  }

  // ---------- numbers ----------

  predicate IsDigit(c: char) {
    '0' <= c <= '9'
  }

  function Digits(s: string): nat
    requires forall c | c in s :: IsDigit(c)
  {
    if s == "" then 0
    else
      assert IsDigit(s[|s| - 1]);
      10 * Digits(s[..|s| - 1]) + (s[|s| - 1] as int - '0' as int)
  }

  // strconv.Atoi on a 64-bit int
  function Atoi(s: string): Option<int> {
    var negative := s != "" && s[0] == '-';
    var body := if s != "" && (s[0] == '-' || s[0] == '+') then s[1..] else s;
    if body == "" || exists c | c in body :: !IsDigit(c) then None
    else
      var n := (if negative then -1 else 1) * Digits(body);
      if -0x8000_0000_0000_0000 <= n < 0x8000_0000_0000_0000 then Some(n) else None
  }

  // The decimal text of a number.
  function Decimal(n: nat): (r: string)
    ensures r != "" && forall c | c in r :: IsDigit(c)
  {
    var last := ['0' + (n % 10) as char];
    if n < 10 then last else Decimal(n / 10) + last
  }

  lemma {:induction false} DigitsOfDecimal(n: nat)
    ensures Digits(Decimal(n)) == n
  {
    var last := '0' + (n % 10) as char;
    var d := Decimal(n);
    assert d[|d| - 1] == last;
    assert last as int - '0' as int == n % 10;
    if n < 10 {
      assert d[..|d| - 1] == "";
    } else {
      DigitsOfDecimal(n / 10);
      assert d[..|d| - 1] == Decimal(n / 10);
    }
  }

  // Atoi reads decimal numbers with or without a sign, within 64 bits.
  lemma {:induction false} AtoiReads(n: nat)
    ensures Atoi(Decimal(n)) == Atoi("+" + Decimal(n)) == if n < 0x8000_0000_0000_0000 then Some(n) else None
    ensures Atoi("-" + Decimal(n)) == if n <= 0x8000_0000_0000_0000 then Some(-(n as int)) else None
  {
    var d := Decimal(n);
    DigitsOfDecimal(n);
    assert d[0] in d;
    assert ("+" + d)[1..] == d && ("-" + d)[1..] == d;
  }

  // It reads nothing else: a character that is no digit, other than a leading
  // sign, spoils the text, and a sign alone is no number.
  lemma {:induction false} AtoiRejects(s: string)
    requires s == "" || s == "-" || s == "+" || (exists i | 1 <= i < |s| :: !IsDigit(s[i])) || !(IsDigit(s[0]) || s[0] == '-' || s[0] == '+')
    ensures Atoi(s) == None
  {
    if exists i | 1 <= i < |s| :: !IsDigit(s[i]) {
      var i :| 1 <= i < |s| && !IsDigit(s[i]);
      assert s[1..][i - 1] == s[i] && s[i] in s && s[i] in s[1..];
    } else if s != "" && s != "-" && s != "+" {
      assert s[0] in s;
    }
  }
}
