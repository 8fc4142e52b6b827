// The protobuf wire format as this repository writes and reads it: the printers
// of executor/chat.go and the parsers of executor/trailer.go and
// executor/sandbox.go. The format is that of "Base 128 Varints" and "Message
// Structure" in the Protocol Buffers Encoding specification.
module ProtoWire {
  import opened ConnectFrames

  // ---------- 64-bit words ----------

  const WORD := 0x1_0000_0000_0000_0000

  function Pow2(n: nat): (r: nat)
    ensures r > 0
  {
    if n == 0 then 1 else 2 * Pow2(n - 1)
  }

  lemma {:induction false} Pow2Plus7(n: nat)
    ensures Pow2(n + 7) == 128 * Pow2(n)
  {
    assert Pow2(n + 7) == 2 * Pow2(n + 6) == 4 * Pow2(n + 5) == 8 * Pow2(n + 4) == 16 * Pow2(n + 3);
    assert Pow2(n + 3) == 2 * Pow2(n + 2) == 4 * Pow2(n + 1);
  }

  lemma {:induction false} Pow2Word()
    ensures Pow2(63) == 0x8000_0000_0000_0000 && Pow2(64) == WORD
  {
    Pow2Plus7(0); Pow2Plus7(7); Pow2Plus7(14); Pow2Plus7(21); Pow2Plus7(28);
    Pow2Plus7(35); Pow2Plus7(42); Pow2Plus7(49); Pow2Plus7(56);
  }

  // x << s on a uint64
  function Shl(x: nat, s: nat): (r: nat)
    ensures r < WORD
  {
    x * Pow2(s) % WORD
  }

  // a | b
  function Or(a: nat, b: nat): nat
    decreases a + b
  {
    if a == 0 then b
    else if b == 0 then a
    else 2 * Or(a / 2, b / 2) + (if a % 2 == 1 || b % 2 == 1 then 1 else 0)
  }

  // Words without a common bit: the low s bits of one, multiples of 2^s in the
  // other.
  lemma {:induction false} OrIsSum(a: nat, m: nat, s: nat)
    requires a < Pow2(s)
    ensures Or(a, m * Pow2(s)) == a + m * Pow2(s)
    decreases s
  {
    if a != 0 && m * Pow2(s) != 0 {
      var half := m * Pow2(s - 1);
      assert m * Pow2(s) == 2 * half by { assert Pow2(s) == 2 * Pow2(s - 1); }
      OrIsSum(a / 2, m, s - 1);
    }
  }

  // ---------- varints ----------

  // appendVarint
  function VarintBytes(v: nat): (r: bytes)
    ensures r != []
    decreases v
  {
    if v >= 0x80 then [v % 0x80 + 0x80] + VarintBytes(v / 0x80) else [v]
  }

  // The loop of readVarint from byte k on: value and bytes consumed, or (0, 0).
  function ReadVarintFrom(buf: bytes, k: nat, v: nat): (nat, nat)
    decreases |buf| - k
  {
    if k >= |buf| then (0, 0)
    else
      var v' := Or(v, Shl(buf[k] % 0x80, 7 * k));
      if buf[k] < 0x80 then (v', k + 1)
      else if 7 * (k + 1) >= 64 then (0, 0)
      else ReadVarintFrom(buf, k + 1, v')
  }

  function ReadVarint(buf: bytes): (nat, nat) {
    ReadVarintFrom(buf, 0, 0)
  }

  // The loop of readProtoVarint: value, next offset, ok.
  function ReadProtoVarintFrom(buf: bytes, offset: nat, shift: nat, value: nat): (nat, nat, bool)
    decreases |buf| - offset
  {
    if offset >= |buf| then (0, offset, false)
    else
      var value' := Or(value, Shl(buf[offset] % 0x80, shift));
      if buf[offset] < 0x80 then (value', offset + 1, true)
      else if shift + 7 > 63 then (0, offset + 1, false)
      else ReadProtoVarintFrom(buf, offset + 1, shift + 7, value')
  }

  function ReadProtoVarint(buf: bytes, offset: nat): (nat, nat, bool) {
    ReadProtoVarintFrom(buf, offset, 0, 0)
  }

  // ---------- what a varint means ----------

  // Little-endian groups of seven bits.
  function Groups(b: bytes): nat {
    if b == [] then 0 else b[0] % 0x80 + 0x80 * Groups(b[1..])
  }

  // The position of the first byte without a continuation bit, or |b|.
  function LastByte(b: bytes): (r: nat)
    ensures r <= |b|
    ensures r < |b| ==> b[r] < 0x80
    ensures forall i | 0 <= i < r :: b[i] >= 0x80
  {
    if b == [] || b[0] < 0x80 then 0 else 1 + LastByte(b[1..])
  }

  lemma {:induction false} GroupsCons(x: nat, b: bytes)
    requires x < 0x80
    ensures Groups([x + 0x80] + b) == x + 0x80 * Groups(b)
    ensures LastByte([x + 0x80] + b) == 1 + LastByte(b)
  {
    assert ([x + 0x80] + b)[1..] == b;
    assert (x + 0x80) % 0x80 == x;
  }

  lemma {:induction false} LowAndHigh(v: nat)
    ensures v % 0x80 + 0x80 * (v / 0x80) == v
  {
  }

  lemma {:induction false} GroupsOfVarint(v: nat)
    ensures Groups(VarintBytes(v)) == v
    ensures LastByte(VarintBytes(v)) == |VarintBytes(v)| - 1
    decreases v
  {
    if v >= 0x80 {
      var low, high := v % 0x80, v / 0x80;
      GroupsOfVarint(high);
      GroupsCons(low, VarintBytes(high));
      assert VarintBytes(v) == [low + 0x80] + VarintBytes(high);
      LowAndHigh(v);
    } else {
      assert VarintBytes(v) == [v] && [v][1..] == [];
    }
  }

  lemma {:induction false} VarintIsShort(v: nat, s: nat)
    requires v < Pow2(s)
    ensures |VarintBytes(v)| <= s / 7 + 1
    decreases v
  {
    if v >= 0x80 {
      assert s >= 8 by { if s < 8 { assert Pow2(7) == 128; SmallPow(s); } }
      Pow2Plus7(s - 7);
      VarintIsShort(v / 0x80, s - 7);
    }
  }

  lemma {:induction false} SmallPow(s: nat)
    requires s < 8
    ensures Pow2(s) <= 128
  {
    Pow2Plus7(0);
    if s == 7 {} else { Grow(s, 7); }
  }

  lemma {:induction false} Grow(a: nat, b: nat)
    requires a <= b
    ensures Pow2(a) <= Pow2(b)
  {
    if a < b { Grow(a, b - 1); }
  }

  lemma {:induction false} Scaled(a: nat, b: nat, p: nat)
    requires a <= b
    ensures a * p <= b * p
  {
    if a < b { Scaled(a, b - 1, p); }
  }

  // The tenth group is cut to its lowest bit by the 64-bit word.
  lemma {:induction false} TopBit(group: nat, p: nat)
    requires p == 0x8000_0000_0000_0000
    ensures group * p % WORD == (group % 2) * p
    ensures group * p == (group / 2) * WORD + (group % 2) * p
  {
    assert group == 2 * (group / 2) + group % 2;
    assert group * p == (group / 2) * (2 * p) + (group % 2) * p;
    assert group % 2 == 0 || group % 2 == 1;
    Wraps(group / 2, (group % 2) * p);
  }

  lemma {:induction false} Wraps(q: nat, r: nat)
    ensures (q * WORD + r) % WORD == r % WORD
  {
  }

  lemma {:induction false} Fits(v: nat, group: nat, p: nat)
    requires v < p && group < 0x80
    ensures group * p <= v + group * p < 128 * p
  {
    Scaled(group, 127, p);
  }

  lemma {:induction false} ShlFits(x: nat, n: nat)
    requires x * Pow2(n) < WORD
    ensures Shl(x, n) == x * Pow2(n)
  {
  }

  // Adding one of the first nine groups, then the tenth, truncated to 64 bits.
  lemma {:induction false} LowGroupStep(v: nat, group: nat, n: nat)
    requires n <= 56 && v < Pow2(n) && group < 0x80
    ensures v + group * Pow2(n) < Pow2(n + 7) <= Pow2(63) < WORD
    ensures Or(v, Shl(group, n)) == v + group * Pow2(n)
  {
    Fits(v, group, Pow2(n));
    Pow2Plus7(n);
    Grow(n + 7, 63);
    Pow2Word();
    ShlFits(group, n);
    OrIsSum(v, group, n);
  }

  lemma {:induction false} LastGroupStep(v: nat, group: nat)
    requires v < Pow2(63) && group < 0x80
    ensures Or(v, Shl(group, 63)) == (v + group * Pow2(63)) % WORD
  {
    var p := Pow2(63);
    Pow2Word();
    TopBit(group, p);
    OrIsSum(v, group % 2, 63);
    var low := (group % 2) * p;
    assert low <= p;
    assert v + group * p == (group / 2) * WORD + (v + low);
    Wraps(group / 2, v + low);
  }

  lemma {:induction false} Reduced(x: nat)
    requires x < WORD
    ensures x % WORD == x
  {
  }

  lemma {:induction false} GroupStep(v: nat, group: nat, k: nat, p: nat)
    requires k <= 9 && p == Pow2(7 * k) && v < p && group < 0x80
    ensures Or(v, Shl(group, 7 * k)) == (v + group * p) % WORD
    ensures k < 9 ==> v + group * p < Pow2(7 * k + 7) && (v + group * p) % WORD == v + group * p
  {
    if k == 9 {
      LastGroupStep(v, group);
    } else {
      LowGroupStep(v, group, 7 * k);
      Reduced(v + group * p);
    }
  }

  // readVarint, exactly: it stops at the first byte without a continuation bit,
  // accepts if that is among the first ten, and returns the groups modulo 2^64.
  lemma {:induction false} ReadVarintMeaning(buf: bytes)
    ensures var last := LastByte(buf);
      ReadVarint(buf) == if last < |buf| && last < 10 then (Groups(buf[..last + 1]) % WORD, last + 1) else (0, 0)
  {
    assert buf[..0] == [];
    ReadVarintFromMeaning(buf, 0);
  }

  lemma {:induction false} ReadVarintFromMeaning(buf: bytes, k: nat)
    requires k <= LastByte(buf) && k <= 9 && Groups(buf[..k]) < Pow2(7 * k)
    ensures var last := LastByte(buf);
      ReadVarintFrom(buf, k, Groups(buf[..k])) ==
        if last < |buf| && last < 10 then (Groups(buf[..last + 1]) % WORD, last + 1) else (0, 0)
    decreases |buf| - k
  {
    if k < |buf| {
      var v := Groups(buf[..k]);
      GroupStep(v, buf[k] as int % 0x80, k, Pow2(7 * k));
      assert 7 * (k + 1) == 7 * k + 7;
      GroupsSnoc(buf[..k], buf[k]);
      assert buf[..k] + [buf[k]] == buf[..k + 1];
      if k < LastByte(buf) && k < 9 {
        ReadVarintFromMeaning(buf, k + 1);
      }
    }
  }

  lemma {:induction false} GroupsSnoc(b: bytes, x: byte)
    ensures Groups(b + [x]) == Groups(b) + (x % 0x80) * Pow2(7 * |b|)
  {
    if b == [] {
      assert [x][1..] == [];
    } else {
      GroupsSnoc(b[1..], x);
      assert (b + [x])[1..] == b[1..] + [x];
      var p := Pow2(7 * |b[1..]|);
      Pow2Plus7(7 * |b[1..]|);
      assert 7 * |b| == 7 * |b[1..]| + 7;
      assert 0x80 * ((x % 0x80) * p) == (x % 0x80) * (0x80 * p);
    }
  }

  // A varint's last byte is its own, whatever follows.
  lemma {:induction false} LastByteOfPrefix(enc: bytes, rest: bytes)
    requires enc != [] && LastByte(enc) == |enc| - 1
    ensures LastByte(enc + rest) == |enc| - 1
    decreases |enc|
  {
    if |enc| > 1 {
      LastByteOfPrefix(enc[1..], rest);
      assert (enc + rest)[1..] == enc[1..] + rest;
    }
  }

  lemma {:induction false} AtMostTenBytes(v: nat)
    requires v < WORD
    ensures |VarintBytes(v)| <= 10
  {
    Pow2Word();
    VarintIsShort(v, 64);
  }

  // Round trip: every uint64, whatever follows it.
  lemma {:induction false} VarintRoundTrip(v: nat, rest: bytes)
    requires v < WORD
    ensures ReadVarint(VarintBytes(v) + rest) == (v, |VarintBytes(v)|)
  {
    var enc := VarintBytes(v);
    GroupsOfVarint(v);
    AtMostTenBytes(v);
    LastByteOfPrefix(enc, rest);
    ReadVarintMeaning(enc + rest);
    assert (enc + rest)[..|enc|] == enc;
    Reduced(v);
  }

  // int64(u) on a uint64
  function Signed(u: nat): int {
    if u >= 0x8000_0000_0000_0000 then u - WORD else u
  }

  // appendInt64Field prints uint64(v): the reader's value, taken as signed, is v.
  lemma {:induction false} Int64RoundTrip(v: int, rest: bytes)
    requires -0x8000_0000_0000_0000 <= v < 0x8000_0000_0000_0000
    ensures var enc := VarintBytes(v % WORD);
      ReadVarint(enc + rest).1 == |enc| && Signed(ReadVarint(enc + rest).0) == v
  {
    VarintRoundTrip(v % WORD, rest);
  }

  // The two readers agree on every buffer, from every offset.
  lemma {:induction false} ReadersAgree(buf: bytes, offset: nat)
    requires offset <= |buf|
    ensures var (v, n) := ReadVarint(buf[offset..]);
      var (value, next, ok) := ReadProtoVarint(buf, offset);
      (ok <==> n > 0) && (ok ==> value == v && next == offset + n) && (!ok ==> value == 0 && v == 0)
  {
    ReadersAgreeFrom(buf, offset, 0, 0);
  }

  lemma {:induction false} ReadersAgreeFrom(buf: bytes, offset: nat, k: nat, value: nat)
    requires offset + k <= |buf|
    ensures var (v, n) := ReadVarintFrom(buf[offset..], k, value);
      var (value', next, ok) := ReadProtoVarintFrom(buf, offset + k, 7 * k, value);
      (ok <==> n > 0) && (ok ==> value' == v && next == offset + n) && (!ok ==> value' == 0 && v == 0)
    decreases |buf| - offset - k
  {
    if offset + k < |buf| {
      assert buf[offset..][k] == buf[offset + k];
      var value' := Or(value, Shl(buf[offset + k] % 0x80, 7 * k));
      ReadersAgreeFrom(buf, offset, k + 1, value');
    }
  }

  lemma {:induction false} ReadVarintConsumes(buf: bytes)
    ensures ReadVarint(buf).1 <= |buf| && ReadVarint(buf).0 < WORD
  {
    ReadVarintMeaning(buf);
  }

  // ---------- fields ----------

  datatype Field = VarintField(number: nat, value: nat) | BytesField(number: nat, data: bytes)

  // Field numbers and values of the wire format; a Go slice is shorter than 2^63.
  predicate Encodable(f: Field) {
    f.number < 0x2000_0000 && match f case VarintField(_, value) => value < WORD case BytesField(_, data) => |data| < WORD
  }

  predicate AllEncodable(fs: seq<Field>) {
    forall f | f in fs :: Encodable(f)
  }

  // appendTag
  function Tag(number: nat, wire: nat): nat {
    Or(wire, Shl(number, 3))
  }

  lemma {:induction false} EightIsPow2()
    ensures Pow2(3) == 8
  {
    assert Pow2(0) == 1 && Pow2(1) == 2 && Pow2(2) == 4;
  }

  lemma {:induction false} TagIs(number: nat, wire: nat)
    requires number < 0x2000_0000 && wire < 8
    ensures Tag(number, wire) == number * 8 + wire < WORD
  {
    EightIsPow2();
    ShlFits(number, 3);
    OrIsSum(wire, number, 3);
  }

  lemma {:induction false} TagParts(number: nat, wire: nat)
    requires number < 0x2000_0000 && wire < 8
    ensures Tag(number, wire) < WORD && Tag(number, wire) % 8 == wire && Tag(number, wire) / 8 == number
  {
    TagIs(number, wire);
  }

  // appendVarintField, appendStringField, appendMessageField, appendBytesField
  function EncodeField(f: Field): bytes {
    match f
    case VarintField(number, value) => VarintBytes(Tag(number, 0)) + VarintBytes(value)
    case BytesField(number, data) => VarintBytes(Tag(number, 2)) + VarintBytes(|data|) + data
  }

  function EncodeFields(fs: seq<Field>): bytes {
    if fs == [] then [] else EncodeField(fs[0]) + EncodeFields(fs[1..])
  }

  // ---------- scanning a google.rpc.Status ----------

  // One field off the head of a buffer, as the scanners read it.
  datatype Head = Stop | Varint(number: nat, rest: bytes) | Bytes(number: nat, body: bytes, rest: bytes)

  function ReadHead(buf: bytes): (r: Head)
    ensures !r.Stop? ==> |r.rest| < |buf|
  {
    var (tag, n) := ReadVarint(buf);
    if n == 0 || n > |buf| then Stop
    else
      var after := buf[n..];
      if tag % 8 == 0 then
        var (_, m) := ReadVarint(after);
        if m == 0 || m > |after| then Stop else Varint(tag / 8, after[m..])
      else if tag % 8 == 2 then
        var (l, m) := ReadVarint(after);
        if m == 0 || m > |after| || |after| - m < l then Stop
        else Bytes(tag / 8, after[m..m + l], after[m + l..])
      else Stop
  }

  lemma {:induction false} SkipPrefix(a: bytes, b: bytes)
    ensures (a + b)[|a|..] == b && (a + b)[..|a|] == a
  {
  }

  lemma {:induction false} ReadVarintHead(number: nat, value: nat, rest: bytes)
    requires number < 0x2000_0000 && value < WORD
    ensures ReadHead(VarintBytes(Tag(number, 0)) + (VarintBytes(value) + rest)) == Varint(number, rest)
  {
    TagParts(number, 0);
    VarintRoundTrip(Tag(number, 0), VarintBytes(value) + rest);
    VarintRoundTrip(value, rest);
    SkipPrefix(VarintBytes(Tag(number, 0)), VarintBytes(value) + rest);
    SkipPrefix(VarintBytes(value), rest);
  }

  lemma {:induction false} ReadBytesHead(number: nat, data: bytes, rest: bytes)
    requires number < 0x2000_0000 && |data| < WORD
    ensures ReadHead(VarintBytes(Tag(number, 2)) + (VarintBytes(|data|) + (data + rest))) == Bytes(number, data, rest)
  {
    var len := VarintBytes(|data|);
    var after := len + (data + rest);
    TagParts(number, 2);
    VarintRoundTrip(Tag(number, 2), after);
    VarintRoundTrip(|data|, data + rest);
    SkipPrefix(VarintBytes(Tag(number, 2)), after);
    assert after[|len|..|len| + |data|] == data;
    assert after[|len| + |data|..] == rest;
  }

  lemma {:induction false} ReadHeadRoundTrip(f: Field, rest: bytes)
    requires Encodable(f)
    ensures ReadHead(EncodeField(f) + rest) ==
      match f case VarintField(number, _) => Varint(number, rest) case BytesField(number, data) => Bytes(number, data, rest)
  {
    match f
    case VarintField(number, value) =>
      var tag, body := VarintBytes(Tag(number, 0)), VarintBytes(value);
      assert (tag + body) + rest == tag + (body + rest);
      ReadVarintHead(number, value, rest);
    case BytesField(number, data) =>
      var tag, len := VarintBytes(Tag(number, 2)), VarintBytes(|data|);
      assert (tag + len + data) + rest == tag + (len + (data + rest));
      ReadBytesHead(number, data, rest);
  }

  function Ascii(s: string): bytes {
    seq(|s|, i requires 0 <= i < |s| => s[i] as int % 256)
  }

  const ERROR_DETAILS := "aiserver.v1.ErrorDetails"

  predicate StandsAt(text: bytes, part: bytes, i: nat) {
    i + |part| <= |text| && text[i..i + |part|] == part
  }

  // strings.Contains
  predicate Contains(text: bytes, part: bytes) {
    exists i | 0 <= i <= |text| :: StandsAt(text, part, i)
  }

  // unpackAny: its loop keeps the last field 1 and the last field 2
  function UnpackFrom(buf: bytes, typeUrl: bytes, value: bytes): bytes
    decreases |buf|
  {
    if buf == [] then if Contains(typeUrl, Ascii(ERROR_DETAILS)) then value else []
    else match ReadHead(buf)
      case Bytes(number, body, rest) =>
        UnpackFrom(rest, if number == 1 then body else typeUrl, if number == 2 then body else value)
      case _ => []
  }

  function UnpackAny(buf: bytes): bytes {
    UnpackFrom(buf, [], [])
  }

  // scanForCursorErrorDetails; no result is the empty one
  function Scan(buf: bytes): bytes
    decreases |buf|
  {
    if buf == [] then []
    else match ReadHead(buf)
      case Stop => []
      case Varint(_, rest) => Scan(rest)
      case Bytes(number, body, rest) =>
        if number == 3 && UnpackAny(body) != [] then UnpackAny(body) else Scan(rest)
  }

  // ---------- what the scan should find ----------

  // The last length-delimited field with this number.
  function LastOf(fs: seq<Field>, number: nat, default: bytes): bytes {
    if fs == [] then default
    else if fs[|fs| - 1].BytesField? && fs[|fs| - 1].number == number then fs[|fs| - 1].data
    else LastOf(fs[..|fs| - 1], number, default)
  }

  // The value of a google.protobuf.Any, if its type is the wanted one and it
  // holds nothing but length-delimited fields.
  function AnyValue(fs: seq<Field>): bytes {
    if (forall f | f in fs :: f.BytesField?) && Contains(LastOf(fs, 1, []), Ascii(ERROR_DETAILS)) then LastOf(fs, 2, []) else []
  }

  // A field of a google.rpc.Status: a detail given by the fields of its Any, or
  // any other field.
  datatype StatusField = Detail(any: seq<Field>) | Plain(field: Field)

  function FieldOf(f: StatusField): Field {
    match f
    case Detail(any) => BytesField(3, EncodeFields(any))
    case Plain(field) => field
  }

  function FieldsOf(fs: seq<StatusField>): (r: seq<Field>)
    ensures |r| == |fs| && forall i | 0 <= i < |fs| :: r[i] == FieldOf(fs[i])
  {
    seq(|fs|, i requires 0 <= i < |fs| => FieldOf(fs[i]))
  }

  predicate GoodField(f: StatusField) {
    Encodable(FieldOf(f)) && (f.Detail? ==> AllEncodable(f.any)) && (f.Plain? && f.field.BytesField? ==> f.field.number != 3)
  }

  predicate GoodStatus(fs: seq<StatusField>) {
    forall f | f in fs :: GoodField(f)
  }

  function FirstDetail(fs: seq<StatusField>): bytes {
    if fs == [] then []
    else if fs[0].Detail? && AnyValue(fs[0].any) != [] then AnyValue(fs[0].any)
    else FirstDetail(fs[1..])
  }

  lemma {:induction false} LastOfCons(fs: seq<Field>, number: nat, default: bytes)
    requires fs != []
    ensures LastOf(fs, number, default) ==
      LastOf(fs[1..], number, if fs[0].BytesField? && fs[0].number == number then fs[0].data else default)
  {
    var n := |fs| - 1;
    if n == 0 {
      assert fs[1..] == [] && fs[..n] == [];
    } else {
      assert fs[1..][..n - 1] == fs[..n][1..];
      LastOfCons(fs[..n], number, default);
    }
  }

  lemma {:induction false} EncodeIsNotEmpty(f: Field)
    ensures EncodeField(f) != []
  {
  }

  lemma {:induction false} UnpackEncoded(fs: seq<Field>, typeUrl: bytes, value: bytes)
    requires AllEncodable(fs)
    ensures UnpackFrom(EncodeFields(fs), typeUrl, value) ==
      if (forall f | f in fs :: f.BytesField?) && Contains(LastOf(fs, 1, typeUrl), Ascii(ERROR_DETAILS))
      then LastOf(fs, 2, value) else []
  {
    if fs != [] {
      var f := fs[0];
      ReadHeadRoundTrip(f, EncodeFields(fs[1..]));
      EncodeIsNotEmpty(f);
      LastOfCons(fs, 1, typeUrl);
      LastOfCons(fs, 2, value);
      assert forall g :: g in fs <==> g == f || g in fs[1..];
      if f.BytesField? {
        UnpackEncoded(fs[1..], if f.number == 1 then f.data else typeUrl, if f.number == 2 then f.data else value);
      }
    }
  }

  // One field of a status at the head of the buffer.
  lemma {:induction false} ScanOne(f: StatusField, rest: bytes)
    requires GoodField(f)
    ensures Scan(EncodeField(FieldOf(f)) + rest) ==
      if f.Detail? && AnyValue(f.any) != [] then AnyValue(f.any) else Scan(rest)
  {
    ReadHeadRoundTrip(FieldOf(f), rest);
    EncodeIsNotEmpty(FieldOf(f));
    if f.Detail? { UnpackEncoded(f.any, [], []); }
  }

  // The fields of a status, and then whatever follows.
  lemma {:induction false} ScanThrough(fs: seq<StatusField>, tail: bytes)
    requires GoodStatus(fs)
    ensures Scan(EncodeFields(FieldsOf(fs)) + tail) == if FirstDetail(fs) != [] then FirstDetail(fs) else Scan(tail)
  {
    if fs == [] {
      assert [] + tail == tail;
    } else {
      assert fs[0] in fs;
      assert FieldsOf(fs)[1..] == FieldsOf(fs[1..]);
      var head, more := EncodeField(FieldOf(fs[0])), EncodeFields(FieldsOf(fs[1..]));
      assert (head + more) + tail == head + (more + tail);
      ScanOne(fs[0], more + tail);
      ScanThrough(fs[1..], tail);
    }
  }

  // The scan of an encoded status returns the value of the first matching
  // detail, past unknown varint and length-delimited fields.
  lemma {:induction false} ScanFindsFirstDetail(fs: seq<StatusField>)
    requires GoodStatus(fs)
    ensures Scan(EncodeFields(FieldsOf(fs))) == FirstDetail(fs)
  {
    ScanThrough(fs, []);
    assert EncodeFields(FieldsOf(fs)) + [] == EncodeFields(FieldsOf(fs));
  }

  // Only varint and length-delimited fields are skipped: behind a field of any
  // other wire type no detail is found.
  lemma {:induction false} OtherWiresEndTheScan(fs: seq<StatusField>, number: nat, wire: nat, rest: bytes)
    requires GoodStatus(fs) && number < 0x2000_0000 && wire < 8 && wire != 0 && wire != 2
    ensures Scan(EncodeFields(FieldsOf(fs)) + (VarintBytes(Tag(number, wire)) + rest)) == FirstDetail(fs)
  {
    TagParts(number, wire);
    VarintRoundTrip(Tag(number, wire), rest);
    ScanThrough(fs, VarintBytes(Tag(number, wire)) + rest);
  }

  // ---------- the loops ----------

  lemma {:induction false} LowBits(w: nat)
    ensures w % 0x100 % 0x80 == w % 0x80
  {
    var r := w % 0x100;
    assert w == 0x80 * (2 * (w / 0x100) + r / 0x80) + r % 0x80;
  }

  // byte(v) | 0x80 keeps the low seven bits of v.
  lemma {:induction false} VarintStep(out: bytes, w: nat)
    requires w >= 0x80
    ensures out + VarintBytes(w) == out + [w % 0x100 % 0x80 + 0x80] + VarintBytes(w / 0x80)
  {
    LowBits(w);
    assert VarintBytes(w) == [w % 0x80 + 0x80] + VarintBytes(w / 0x80);
  }

  method AppendVarint(buf: bytes, v: nat) returns (out: bytes)
    requires v < WORD
    ensures out == buf + VarintBytes(v)
  {
    out := buf;
    var w := v;
    while w >= 0x80
      invariant out + VarintBytes(w) == buf + VarintBytes(v)
    {
      VarintStep(out, w);
      out := out + [w % 0x100 % 0x80 + 0x80];
      w := w / 0x80;
    }
    out := out + [w];
  }

  method ReadVarintLoop(buf: bytes) returns (v: nat, n: nat)
    ensures (v, n) == ReadVarint(buf)
  {
    v := 0;
    var shift := 0;
    for i := 0 to |buf|
      invariant shift == 7 * i && shift < 64
      invariant ReadVarint(buf) == ReadVarintFrom(buf, i, v)
    {
      v := Or(v, Shl(buf[i] % 0x80, shift));
      if buf[i] < 0x80 {
        return v, i + 1;
      }
      shift := shift + 7;
      if shift >= 64 {
        return 0, 0;
      }
    }
    return 0, 0;
  }

  method ReadProtoVarintLoop(buf: bytes, start: nat) returns (value: nat, offset: nat, ok: bool)
    ensures (value, offset, ok) == ReadProtoVarint(buf, start)
  {
    value, offset := 0, start;
    var shift := 0;
    while offset < |buf|
      invariant ReadProtoVarint(buf, start) == ReadProtoVarintFrom(buf, offset, shift, value)
    {
      var b := buf[offset];
      offset := offset + 1;
      value := Or(value, Shl(b % 0x80, shift));
      if b < 0x80 {
        return value, offset, true;
      }
      shift := shift + 7;
      if shift > 63 {
        return 0, offset, false;
      }
    }
    return 0, offset, false;
  }

  method UnpackAnyLoop(any: bytes) returns (value: bytes)
    ensures value == UnpackAny(any)
  {
    var buf, typeUrl := any, [];
    value := [];
    while |buf| > 0
      invariant UnpackAny(any) == UnpackFrom(buf, typeUrl, value)
      decreases |buf|
    {
      var tag, n := ReadVarintLoop(buf);
      ReadVarintConsumes(buf);
      if n == 0 {
        return [];
      }
      var after := buf[n..];
      if tag % 8 != 2 {
        return [];
      }
      var l, m := ReadVarintLoop(after);
      ReadVarintConsumes(after);
      if m == 0 || |after| - m < l {
        return [];
      }
      var body := after[m..][..l];
      assert body == after[m..m + l];
      assert after[m..][l..] == after[m + l..];
      buf := after[m..][l..];
      if tag / 8 == 1 {
        typeUrl := body;
      } else if tag / 8 == 2 {
        value := body;
      }
    }
    if !Contains(typeUrl, Ascii(ERROR_DETAILS)) {
      value := [];
    }
  }

  method ScanForCursorErrorDetails(status: bytes) returns (details: bytes)
    ensures details == Scan(status)
  {
    var buf := status;
    while |buf| > 0
      invariant Scan(status) == Scan(buf)
      decreases |buf|
    {
      var tag, n := ReadVarintLoop(buf);
      ReadVarintConsumes(buf);
      if n == 0 {
        return [];
      }
      var after := buf[n..];
      ReadVarintConsumes(after);
      if tag % 8 == 0 {
        var _, m := ReadVarintLoop(after);
        if m == 0 {
          return [];
        }
        buf := after[m..];
      } else if tag % 8 == 2 {
        var l, m := ReadVarintLoop(after);
        if m == 0 || |after| - m < l {
          return [];
        }
        var body := after[m..][..l];
        assert body == after[m..m + l];
        assert after[m..][l..] == after[m + l..];
        buf := after[m..][l..];
        if tag / 8 == 3 {
          var value := UnpackAnyLoop(body);
          if |value| > 0 {
            return value;
          }
        }
      } else {
        return [];
      }
    }
    return [];
  }
}
