// executor/client.go: the Connect envelope [flags:1][length:4 big-endian][payload].
module ConnectFrames {
  import opened Text

  type byte = b: int | 0 <= b < 256
  type bytes = seq<byte>

  const UINT32_LIMIT := 0x1_0000_0000

  datatype Frame = Frame(flags: byte, payload: bytes)

  // gRPC-web trailers (0x80) and Connect end-of-stream frames (0x02)
  predicate IsTrailer(flags: byte) {
    flags / 0x80 % 2 == 1 || flags / 0x02 % 2 == 1
  }

  predicate IsCompressed(flags: byte) {
    flags % 2 == 1
  }

  // Four bits, the lowest first.
  function Nibble(b0: bool, b1: bool, b2: bool, b3: bool): (r: nat)
    ensures r < 16
  {
    (if b0 then 1 else 0) + (if b1 then 2 else 0) + (if b2 then 4 else 0) + (if b3 then 8 else 0)
  }

  function ByteOf(b0: bool, b1: bool, b2: bool, b3: bool, b4: bool, b5: bool, b6: bool, b7: bool): byte {
    Nibble(b0, b1, b2, b3) + 16 * Nibble(b4, b5, b6, b7)
  }

  lemma {:induction false} NibbleBits(b0: bool, b1: bool, b2: bool, b3: bool)
    ensures var n := Nibble(b0, b1, b2, b3); (n % 2 == 1 <==> b0) && (n / 2 % 2 == 1 <==> b1) && (n / 8 == 1 <==> b3)
  {
  }

  // The flags mean single bits: bit 7 or bit 1 ends the stream, bit 0 says that
  // the payload is compressed, and no other bit matters.
  lemma {:induction false} FlagBits(b0: bool, b1: bool, b2: bool, b3: bool, b4: bool, b5: bool, b6: bool, b7: bool)
    ensures IsTrailer(ByteOf(b0, b1, b2, b3, b4, b5, b6, b7)) <==> b7 || b1
    ensures IsCompressed(ByteOf(b0, b1, b2, b3, b4, b5, b6, b7)) <==> b0
  {
    NibbleBits(b0, b1, b2, b3);
    NibbleBits(b4, b5, b6, b7);
    var low, high := Nibble(b0, b1, b2, b3), Nibble(b4, b5, b6, b7);
    assert (low + 16 * high) / 128 == high / 8 && (low + 16 * high) / 2 == low / 2 + 8 * high;
  }

  lemma {:induction false} NibbleOf(n: nat) returns (b0: bool, b1: bool, b2: bool, b3: bool)
    requires n < 16
    ensures n == Nibble(b0, b1, b2, b3)
  {
    b0, b1, b2, b3 := n % 2 == 1, n / 2 % 2 == 1, n / 4 % 2 == 1, n / 8 == 1;
  }

  // Every byte has such bits.
  lemma {:induction false} EveryByteHasBits(flags: byte)
    ensures exists b0, b1, b2, b3, b4, b5, b6, b7 :: flags == ByteOf(b0, b1, b2, b3, b4, b5, b6, b7)
  {
    var b0, b1, b2, b3 := NibbleOf(flags % 16);
    var b4, b5, b6, b7 := NibbleOf(flags / 16);
    assert flags == ByteOf(b0, b1, b2, b3, b4, b5, b6, b7);
  }

  // ---------- one envelope ----------

  // binary.BigEndian.PutUint32
  function PutUint32(n: nat): (r: bytes)
    requires n < UINT32_LIMIT
    ensures |r| == 4
  {
    [n / 0x1000000, n / 0x10000 % 0x100, n / 0x100 % 0x100, n % 0x100]
  }

  // binary.BigEndian.Uint32
  function Uint32(b: bytes): (r: nat)
    requires |b| == 4
    ensures r < UINT32_LIMIT
  {
    (b[0] as int) * 0x1000000 + (b[1] as int) * 0x10000 + (b[2] as int) * 0x100 + b[3] as int
  }

  lemma {:induction false} Uint32RoundTrip(n: nat)
    requires n < UINT32_LIMIT
    ensures Uint32(PutUint32(n)) == n
  {
    var high, low := n / 0x10000, n % 0x10000;
    assert n == 0x10000 * high + low && n / 0x1000000 == high / 0x100 && n / 0x100 % 0x100 == low / 0x100;
    assert n % 0x100 == low % 0x100;
    assert high == 0x100 * (high / 0x100) + high % 0x100 && low == 0x100 * (low / 0x100) + low % 0x100;
  }

  // The length stands with its highest byte first.
  lemma {:induction false} BigEndian(frame: Frame)
    requires |frame.payload| < UINT32_LIMIT
    ensures var e := Envelope(frame);
      e[0] == frame.flags && e[5..] == frame.payload
      && |frame.payload| == (e[1] as int) * 0x1000000 + (e[2] as int) * 0x10000 + (e[3] as int) * 0x100 + e[4] as int
  {
    Uint32RoundTrip(|frame.payload|);
    assert Envelope(frame)[1..5] == PutUint32(|frame.payload|);
  }

  // The length is converted to uint32, so it wraps for a payload of 4 GiB.
  function Envelope(frame: Frame): (r: bytes)
    ensures |r| == 5 + |frame.payload|
  {
    [frame.flags] + PutUint32(|frame.payload| % UINT32_LIMIT) + frame.payload
  }

  // The frame at the head of `buf`, and what follows it, when all of it is there.
  datatype Head = NeedMore | Head(frame: Frame, rest: bytes)

  function HeadLength(buf: bytes): (r: nat)
    requires 5 <= |buf|
    ensures r < UINT32_LIMIT
  {
    Uint32(buf[1..5])
  }

  function SplitHead(buf: bytes): (r: Head)
    ensures r.Head? ==> |r.rest| < |buf|
  {
    if |buf| < 5 || |buf| - 5 < HeadLength(buf) then NeedMore
    else
      var end := 5 + HeadLength(buf);
      Head(Frame(buf[0], buf[5..end]), buf[end..])
  }

  // What the code computes: its length test converts to uint32 first.
  function SplitConnectFrame(buf: bytes): Head {
    if |buf| < 5 || (|buf| - 5) % UINT32_LIMIT < HeadLength(buf) then NeedMore
    else
      var end := 5 + HeadLength(buf);
      Head(Frame(buf[0], buf[5..end]), buf[end..])
  }

  // A complete frame is there, but the truncated length of the buffer is
  // smaller than the frame.
  predicate LengthWraps(buf: bytes) {
    5 <= |buf| && (|buf| - 5) % UINT32_LIMIT < HeadLength(buf) <= |buf| - 5
  }

  // The conversion never cuts a frame wrongly; it can only stall, and it does
  // so exactly when the buffered length wraps below the frame's length.
  lemma {:induction false} SplitStallsExactly(buf: bytes)
    ensures SplitConnectFrame(buf) == SplitHead(buf) <==> !LengthWraps(buf)
    ensures LengthWraps(buf) ==> SplitConnectFrame(buf) == NeedMore && SplitHead(buf).Head? && |buf| - 5 >= UINT32_LIMIT
  {
    if 5 <= |buf| {
      var n := |buf| - 5;
      assert n % UINT32_LIMIT <= n;
      assert n < UINT32_LIMIT ==> n % UINT32_LIMIT == n;
    }
  }

  // An envelope followed by anything is read back, exactly when its payload is
  // shorter than 4 GiB.
  lemma {:induction false} EnvelopeRoundTrip(frame: Frame, rest: bytes)
    ensures SplitHead(Envelope(frame) + rest) == Head(frame, rest) <==> |frame.payload| < UINT32_LIMIT
  {
    var buf := Envelope(frame) + rest;
    var wrapped := |frame.payload| % UINT32_LIMIT;
    assert buf[1..5] == PutUint32(wrapped);
    Uint32RoundTrip(wrapped);
    if |frame.payload| < UINT32_LIMIT {
      assert buf[5..5 + |frame.payload|] == frame.payload;
      assert buf[5 + |frame.payload|..] == rest;
    } else {
      assert HeadLength(buf) == wrapped < |frame.payload|;
    }
  }

  // More bytes after a complete frame do not change it.
  lemma {:induction false} SplitHeadExtends(buf: bytes, more: bytes)
    requires SplitHead(buf).Head?
    ensures SplitHead(buf + more) == Head(SplitHead(buf).frame, SplitHead(buf).rest + more)
  {
    assert (buf + more)[1..5] == buf[1..5];
    var end := 5 + HeadLength(buf);
    assert (buf + more)[5..end] == buf[5..end];
    assert (buf + more)[end..] == buf[end..] + more;
  }

  // ---------- the whole byte stream ----------

  // The frames found from the head of a byte stream, up to and including the
  // first trailer, and the bytes left unread.
  datatype Delivery = Delivery(frames: seq<Frame>, rest: bytes, ended: bool)

  function Deliver(buf: bytes): (r: Delivery)
    ensures !r.ended ==> SplitHead(r.rest) == NeedMore
    decreases |buf|
  {
    match SplitHead(buf)
    case NeedMore => Delivery([], buf, false)
    case Head(frame, rest) =>
      if IsTrailer(frame.flags) then Delivery([frame], rest, true)
      else
        var d := Deliver(rest);
        Delivery([frame] + d.frames, d.rest, d.ended)
  }

  // Reading on: what arrives later only matters together with the unread rest.
  function Resume(d: Delivery, more: bytes): Delivery {
    if d.ended then Delivery(d.frames, d.rest + more, true)
    else
      var d' := Deliver(d.rest + more);
      Delivery(d.frames + d'.frames, d'.rest, d'.ended)
  }

  lemma {:induction false} DeliverAppend(buf: bytes, more: bytes)
    ensures Deliver(buf + more) == Resume(Deliver(buf), more)
    decreases |buf|
  {
    match SplitHead(buf)
    case NeedMore =>
      var d := Deliver(buf + more);
      assert [] + d.frames == d.frames;
    case Head(frame, rest) =>
      SplitHeadExtends(buf, more);
      if !IsTrailer(frame.flags) {
        DeliverAppend(rest, more);
        var d := Deliver(rest);
        var d' := Deliver(d.rest + more);
        assert [frame] + (d.frames + d'.frames) == ([frame] + d.frames) + d'.frames;
      }
  }

  predicate Sendable(frames: seq<Frame>) {
    forall f | f in frames :: |f.payload| < UINT32_LIMIT
  }

  function EncodeAll(frames: seq<Frame>): bytes {
    if frames == [] then [] else Envelope(frames[0]) + EncodeAll(frames[1..])
  }

  function UpToTrailer(frames: seq<Frame>): seq<Frame> {
    if frames == [] then []
    else if IsTrailer(frames[0].flags) then [frames[0]]
    else [frames[0]] + UpToTrailer(frames[1..])
  }

  predicate HasTrailer(frames: seq<Frame>) {
    exists f | f in frames :: IsTrailer(f.flags)
  }

  // `d` is what the frames and a tail should deliver: the frames up to the
  // first trailer; without one, all of them and then whatever the tail holds.
  predicate Yields(frames: seq<Frame>, tail: bytes, d: Delivery) {
    if HasTrailer(frames) then d.frames == UpToTrailer(frames) && d.ended
    else d.frames == frames + Deliver(tail).frames && d.rest == Deliver(tail).rest && d.ended == Deliver(tail).ended
  }

  lemma {:induction false} YieldsCons(frames: seq<Frame>, tail: bytes, d: Delivery)
    requires frames != [] && !IsTrailer(frames[0].flags) && Yields(frames[1..], tail, d)
    ensures Yields(frames, tail, Delivery([frames[0]] + d.frames, d.rest, d.ended))
  {
    assert [frames[0]] + (frames[1..] + Deliver(tail).frames) == frames + Deliver(tail).frames;
  }

  // Reassembly: a stream of envelopes yields exactly their frames.
  lemma {:induction false} DeliverEncoded(frames: seq<Frame>, tail: bytes)
    requires Sendable(frames)
    ensures Yields(frames, tail, Deliver(EncodeAll(frames) + tail))
  {
    if frames == [] {
      assert EncodeAll(frames) + tail == tail;
      assert [] + Deliver(tail).frames == Deliver(tail).frames;
    } else {
      var rest := EncodeAll(frames[1..]) + tail;
      assert EncodeAll(frames) + tail == Envelope(frames[0]) + rest;
      DeliverFirst(frames[0], rest);
      if IsTrailer(frames[0].flags) {
      } else {
        DeliverEncoded(frames[1..], tail);
        YieldsCons(frames, tail, Deliver(rest));
      }
    }
  }

  lemma {:induction false} UpToTrailerOfNone(frames: seq<Frame>)
    requires !HasTrailer(frames)
    ensures UpToTrailer(frames) == frames
  {
    if frames != [] {
      UpToTrailerOfNone(frames[1..]);
    }
  }

  lemma {:induction false} DeliverFirst(first: Frame, rest: bytes)
    requires |first.payload| < UINT32_LIMIT
    ensures Deliver(Envelope(first) + rest) ==
            if IsTrailer(first.flags) then Delivery([first], rest, true)
            else Delivery([first] + Deliver(rest).frames, Deliver(rest).rest, Deliver(rest).ended)
  {
    EnvelopeRoundTrip(first, rest);
  }

  // For every list of frames and every way its bytes are cut into reads, the
  // frames delivered are those sent, up to the first trailer.
  lemma {:induction false} ReassemblyFromReads(frames: seq<Frame>, chunks: seq<bytes>)
    requires Sendable(frames) && Flatten(chunks) == EncodeAll(frames)
    ensures Deliver(Flatten(chunks)).frames == UpToTrailer(frames)
    ensures !HasTrailer(frames) ==> Deliver(Flatten(chunks)).rest == []
  {
    DeliverEncoded(frames, []);
    assert EncodeAll(frames) + [] == EncodeAll(frames);
    if !HasTrailer(frames) { UpToTrailerOfNone(frames); }
  }

  // A message: data frames, plain or compressed, and a last frame that is a
  // Connect end of stream or a gRPC-web trailer.
  predicate IsMessage(data: seq<Frame>, last: Frame) {
    && Sendable(data) && |last.payload| < UINT32_LIMIT
    && (forall f | f in data :: f.flags == 0 || f.flags == 1)
    && (last.flags == 0x02 || last.flags == 0x80)
  }

  lemma {:induction false} EncodeFirst(first: Frame, more: seq<Frame>, tail: bytes)
    ensures EncodeAll([first] + more) + tail == Envelope(first) + (EncodeAll(more) + tail)
  {
    assert ([first] + more)[1..] == more;
    assert (Envelope(first) + EncodeAll(more)) + tail == Envelope(first) + (EncodeAll(more) + tail);
  }

  lemma {:induction false} MessageFlags(data: seq<Frame>, last: Frame)
    requires IsMessage(data, last)
    ensures IsTrailer(last.flags) && forall f | f in data :: !IsTrailer(f.flags)
  {
  }

  // Of a message, followed by anything and cut into any reads, exactly its
  // frames are delivered.
  lemma {:induction false} MessageFromReads(data: seq<Frame>, last: Frame, tail: bytes)
    requires IsMessage(data, last)
    ensures Deliver(EncodeAll(data + [last]) + tail) == Delivery(data + [last], tail, true)
  {
    MessageFlags(data, last);
    UpToLast(data, last, tail);
  }

  lemma {:induction false} UpToLast(data: seq<Frame>, last: Frame, tail: bytes)
    requires Sendable(data) && |last.payload| < UINT32_LIMIT
    requires IsTrailer(last.flags) && forall f | f in data :: !IsTrailer(f.flags)
    ensures Deliver(EncodeAll(data + [last]) + tail) == Delivery(data + [last], tail, true)
  {
    if data == [] {
      assert data + [last] == [last] + [];
      EncodeFirst(last, [], tail);
      assert EncodeAll([]) + tail == tail;
      DeliverFirst(last, tail);
    } else {
      var first, more := data[0], data[1..];
      UpToLast(more, last, tail);
      assert data + [last] == [first] + (more + [last]);
      EncodeFirst(first, more + [last], tail);
      DeliverFirst(first, EncodeAll(more + [last]) + tail);
    }
  }

  // Each read fits: the unread bytes and the new ones stay under 4 GiB.
  ghost predicate ReadsFit(chunks: seq<bytes>) {
    forall i | 0 <= i < |chunks| :: ReadFits(chunks, i)
  }

  ghost predicate ReadFits(chunks: seq<bytes>, i: nat)
    requires i < |chunks|
  {
    |Deliver(Flatten(chunks[..i])).rest| + |chunks[i]| - 5 < UINT32_LIMIT
  }

  // ---------- the buffer in place ----------

  // What the backing array holds after the bytes from `k` on are moved to its
  // front: the tail keeps its old content.
  function Moved(content: bytes, k: nat): (r: bytes)
    requires k <= |content|
    ensures |r| == |content|
  {
    content[k..] + content[|content| - k..]
  }

  // A payload that still aliases the array reads the moved bytes. It reads the
  // payload only if what slid over it happens to be the same.
  lemma {:induction false} AliasSurvivesExactly(frame: Frame, rest: bytes)
    ensures var k := 5 + |frame.payload|;
            var overlap := if |rest| <= 5 then 0 else if |rest| < k then |rest| - 5 else k - 5;
            Moved(Envelope(frame) + rest, k)[5..k] == frame.payload
            <==> (overlap > 0 ==> rest[5..5 + overlap] == frame.payload[..overlap])
  {
    var k, content := 5 + |frame.payload|, Envelope(frame) + rest;
    var moved := Moved(content, k);
    assert content[k..] == rest;
    forall j | 5 <= j < k
      ensures moved[j] == if j < |rest| then rest[j] else frame.payload[j - 5]
    {
    }
    var overlap := if |rest| <= 5 then 0 else if |rest| < k then |rest| - 5 else k - 5;
    if overlap > 0 {
      assert moved[5..k][..overlap] == rest[5..5 + overlap];
      assert moved[5..k] == rest[5..5 + overlap] + frame.payload[overlap..];
      assert frame.payload == frame.payload[..overlap] + frame.payload[overlap..];
    } else {
      assert moved[5..k] == frame.payload;
    }
  }

  // Two short frames back to back, the case that lost assistant text.
  lemma {:induction false} AliasClobbered()
    ensures var first, second := Frame(0, [1]), Frame(0, [2]);
            Moved(Envelope(first) + Envelope(second), 6)[5..6] == second.payload != first.payload
  {
  }

  // A Go slice of a byte array.
  datatype Slice = Slice(arr: array<byte>, off: nat, len: nat) {
    ghost predicate InBounds() {
      off + len <= arr.Length
    }

    function View(): bytes
      requires InBounds()
      reads arr
    {
      arr[off..off + len]
    }
  }

  // addConnectEnvelope fills a new array.
  method AddConnectEnvelope(data: array<byte>, compressed: bool) returns (frame: array<byte>)
    ensures fresh(frame)
    ensures frame[..] == Envelope(Frame(if compressed then 1 else 0, data[..]))
  {
    frame := new byte[5 + data.Length](_ => 0);
    if compressed {
      frame[0] := 1;
    }
    var length := PutUint32(data.Length % UINT32_LIMIT);
    frame[1], frame[2], frame[3], frame[4] := length[0], length[1], length[2], length[3];
    for i := 0 to data.Length
      modifies frame
      invariant frame[..5] == [if compressed then 1 else 0] + length
      invariant forall j | 0 <= j < i :: frame[5 + j] == data[j]
    {
      frame[5 + i] := data[i];
    }
    assert frame[5..] == data[..];
    assert frame[..] == frame[..5] + frame[5..];
  }

  // The read buffer of the stream loops: `buf` in the source.
  class FrameBuffer {
    var data: array<byte>
    var len: nat

    ghost predicate Valid()
      reads this
    {
      len <= data.Length
    }

    function Contents(): bytes
      requires Valid()
      reads this, data
    {
      data[..len]
    }

    constructor (capacity: nat)
      ensures Valid() && Contents() == [] && fresh(data)
    {
      data := new byte[capacity](_ => 0);
      len := 0;
    }

    // buf = append(buf, chunk...): in place while the capacity lasts, else into
    // a larger array.
    method Append(chunk: bytes)
      requires Valid()
      modifies this, data
      ensures Valid() && Contents() == old(Contents()) + chunk
      ensures data == old(data) || fresh(data)
    {
      if len + |chunk| > data.Length {
        Grow(2 * (len + |chunk|));
      }
      var start := len;
      ghost var before := data[..start];
      for i := 0 to |chunk|
        modifies data
        invariant data[..start] == before
        invariant forall j | 0 <= j < i :: data[start + j] == chunk[j]
      {
        data[start + i] := chunk[i];
      }
      assert data[start..start + |chunk|] == chunk;
      assert data[..start + |chunk|] == data[..start] + data[start..start + |chunk|];
      len := start + |chunk|;
    }

    method Grow(capacity: nat)
      requires Valid() && len <= capacity
      modifies this`data
      ensures fresh(data) && data.Length == capacity && Contents() == old(Contents())
    {
      var larger := new byte[capacity](_ => 0);
      for i := 0 to len
        modifies larger
        invariant larger[..i] == data[..i]
      {
        larger[i] := data[i];
        assert larger[..i + 1] == larger[..i] + [data[i]];
      }
      data := larger;
    }

    // splitConnectFrame: the payload and the rest alias this buffer's array.
    method Split() returns (payload: Slice, isTrailer: bool, rest: Slice, ok: bool)
      requires Valid()
      ensures ok == SplitConnectFrame(Contents()).Head?
      ensures ok ==>
        payload.arr == data && payload.off == 5 && rest.arr == data && rest.off == 5 + payload.len
        && rest.off + rest.len == len && payload.InBounds() && rest.InBounds()
      ensures ok ==> var head := SplitConnectFrame(Contents());
        0 < len && head.frame == Frame(data[0], payload.View()) && head.rest == rest.View()
        && isTrailer == IsTrailer(data[0])
    {
      payload, isTrailer, rest, ok := Slice(data, 0, 0), false, Slice(data, 0, len), false;
      if len < 5 {
        return;
      }
      var flags := data[0];
      var length := Uint32(data[1..5]);
      assert Contents()[1..5] == data[1..5];
      if (len - 5) % UINT32_LIMIT < length {
        return;
      }
      assert (len - 5) % UINT32_LIMIT <= len - 5;
      var end := 5 + length;
      payload, rest := Slice(data, 5, length), Slice(data, end, len - end);
      assert Contents()[5..end] == data[5..end];
      assert Contents()[end..] == data[end..len];
      return payload, IsTrailer(flags), rest, true;
    }

    // buf = append(buf[:0], rest...): a move within the array, lowest index
    // first, safe for the overlapping `rest` but not for other slices.
    method Compact(k: nat)
      requires Valid() && k <= len
      modifies this`len, data
      ensures Valid() && Contents() == old(Contents())[k..]
      ensures data[..old(len)] == Moved(old(Contents()), k)
    {
      var count := len - k;
      ghost var was := data[..len];
      for i := 0 to count
        modifies data
        invariant forall j | 0 <= j < i :: data[j] == was[k + j]
        invariant forall j | i <= j < len :: data[j] == was[j]
      {
        data[i] := data[k + i];
      }
      assert data[..len] == Moved(was, k);
      assert data[..count] == was[k..];
      len := count;
    }
  }

  // append([]byte(nil), payload...): a copy nothing else aliases
  method Detach(slice: Slice) returns (copied: array<byte>)
    requires slice.InBounds()
    ensures fresh(copied) && copied[..] == slice.View()
  {
    copied := new byte[slice.len](i requires 0 <= i < slice.len && slice.InBounds() reads slice.arr => slice.arr[slice.off + i]);
  }

  // The head of the frame loops: split, detach the payload, compact the buffer.
  method TakeFrame(buf: FrameBuffer) returns (frame: Frame, ok: bool)
    requires buf.Valid()
    modifies buf`len, buf.data
    ensures buf.Valid() && buf.len <= old(buf.len)
    ensures ok ==> SplitHead(old(buf.Contents())) == Head(frame, buf.Contents()) && buf.len < old(buf.len)
    ensures !ok ==> buf.Contents() == old(buf.Contents()) && (SplitHead(buf.Contents()) == NeedMore || LengthWraps(buf.Contents()))
  {
    SplitStallsExactly(buf.Contents());
    var payload, isTrailer, rest, found := buf.Split();
    if !found {
      return Frame(0, []), false;
    }
    var flags := buf.data[0];
    var detached := Detach(payload);
    buf.Compact(rest.off);
    return Frame(flags, detached[..]), true;
  }

  // What a stream delivers when `out` is delivered and `unread` is buffered.
  function After(out: seq<Frame>, unread: bytes): Delivery {
    var d := Deliver(unread);
    Delivery(out + d.frames, d.rest, d.ended)
  }

  // One turn of the frame loop keeps that.
  lemma {:induction false} AfterHead(out: seq<Frame>, unread: bytes)
    ensures match SplitHead(unread)
            case NeedMore => After(out, unread) == Delivery(out, unread, false)
            case Head(frame, rest) =>
              if IsTrailer(frame.flags) then After(out, unread) == Delivery(out + [frame], rest, true)
              else After(out, unread) == After(out + [frame], rest)
  {
    match SplitHead(unread)
    case NeedMore => assert out + [] == out;
    case Head(frame, rest) =>
      var d := Deliver(rest);
      assert out + ([frame] + d.frames) == (out + [frame]) + d.frames;
  }

  // More bytes behind the unread ones.
  lemma {:induction false} AfterResumes(out: seq<Frame>, unread: bytes, more: bytes)
    ensures After(out, unread + more) == Resume(After(out, unread), more)
  {
    DeliverAppend(unread, more);
    ResumeLater(out, Deliver(unread), more);
  }

  lemma {:induction false} ResumeLater(out: seq<Frame>, d: Delivery, more: bytes)
    ensures var r := Resume(d, more);
      Delivery(out + r.frames, r.rest, r.ended) == Resume(Delivery(out + d.frames, d.rest, d.ended), more)
  {
    if !d.ended {
      var d' := Deliver(d.rest + more);
      assert out + (d.frames + d'.frames) == (out + d.frames) + d'.frames;
    }
  }

  lemma {:induction false} AfterMore(all: bytes, more: bytes, out: seq<Frame>, unread: bytes)
    requires After(out, unread) == Deliver(all)
    ensures After(out, unread + more) == Deliver(all + more)
  {
    DeliverAppend(all, more);
    AfterResumes(out, unread, more);
  }

  // Nothing more can be taken from `unread`.
  lemma {:induction false} AfterAll(out: seq<Frame>, unread: bytes)
    ensures SplitHead(unread) == NeedMore ==> After(out, unread) == Delivery(out, unread, false)
  {
    assert out + [] == out;
  }

  // The frame loop of readSSEStream (executor/chat.go): `chunks` are the byte
  // chunks the body returns before its first error. The result is what a parse
  // of the whole byte stream delivers, whatever the chunks: of a stream of
  // envelopes, the frames up to the first trailer. Without a bound on the reads
  // the loop can end stalled on a complete frame; nothing is lost or changed.
  method ReadFrames(chunks: seq<bytes>) returns (out: seq<Frame>, buf: FrameBuffer)
    ensures fresh(buf) && buf.Valid()
    ensures out == Deliver(Flatten(chunks)).frames
            || (LengthWraps(buf.Contents()) && After(out, buf.Contents()) == Deliver(Flatten(chunks)))
    ensures ReadsFit(chunks) ==> out == Deliver(Flatten(chunks)).frames
    ensures ReadsFit(chunks) && !Deliver(Flatten(chunks)).ended ==> buf.Contents() == Deliver(Flatten(chunks)).rest
    ensures ReadsFit(chunks) ==>
      forall frames | Sendable(frames) && Flatten(chunks) == EncodeAll(frames) :: out == UpToTrailer(frames)
    ensures ReadsFit(chunks) ==>
      forall data, last, tail | IsMessage(data, last) && Flatten(chunks) == EncodeAll(data + [last]) + tail :: out == data + [last]
  {
    forall data, last, tail | IsMessage(data, last) && Flatten(chunks) == EncodeAll(data + [last]) + tail
      ensures Deliver(Flatten(chunks)).frames == data + [last]
    {
      MessageFromReads(data, last, tail);
    }
    forall frames | Sendable(frames) && Flatten(chunks) == EncodeAll(frames)
      ensures Deliver(Flatten(chunks)).frames == UpToTrailer(frames)
    {
      ReassemblyFromReads(frames, chunks);
    }
    buf := new FrameBuffer(8192);
    out := [];
    for i := 0 to |chunks|
      invariant fresh(buf) && fresh(buf.data) && buf.Valid()
      invariant After(out, buf.Contents()) == Deliver(Flatten(chunks[..i]))
      invariant SplitHead(buf.Contents()) == NeedMore || LengthWraps(buf.Contents())
      invariant ReadsFit(chunks) ==> SplitHead(buf.Contents()) == NeedMore
    {
      NextRead(chunks, i, out, buf.Contents());
      buf.Append(chunks[i]);
      ghost var target := Deliver(Flatten(chunks[..i + 1]));
      while true
        invariant fresh(buf) && fresh(buf.data) && buf.Valid()
        invariant ReadsFit(chunks) ==> buf.len - 5 < UINT32_LIMIT
        invariant target == After(out, buf.Contents())
        decreases buf.len
      {
        AfterHead(out, buf.Contents());
        var frame, ok := TakeFrame(buf);
        if !ok {
          SplitStallsExactly(buf.Contents());
          break;
        }
        out := out + [frame];
        if IsTrailer(frame.flags) {
          EndedStaysEnded(chunks, i + 1);
          return;
        }
      }
    }
    AfterAll(out, buf.Contents());
    assert chunks[..|chunks|] == chunks;
  }

  // One more read.
  lemma {:induction false} NextRead(chunks: seq<bytes>, i: nat, out: seq<Frame>, unread: bytes)
    requires i < |chunks| && After(out, unread) == Deliver(Flatten(chunks[..i]))
    ensures After(out, unread + chunks[i]) == Deliver(Flatten(chunks[..i + 1]))
    ensures ReadsFit(chunks) && SplitHead(unread) == NeedMore ==> |unread + chunks[i]| - 5 < UINT32_LIMIT
  {
    assert chunks[..i + 1][..i] == chunks[..i];
    AfterMore(Flatten(chunks[..i]), chunks[i], out, unread);
    AfterAll(out, unread);
    assert ReadsFit(chunks) ==> ReadFits(chunks, i);
  }

  // Reads after the trailer are never made, and would change nothing.
  lemma {:induction false} EndedStaysEnded(chunks: seq<bytes>, k: nat)
    requires k <= |chunks| && Deliver(Flatten(chunks[..k])).ended
    ensures Deliver(Flatten(chunks)).frames == Deliver(Flatten(chunks[..k])).frames && Deliver(Flatten(chunks)).ended
  {
    FlattenAppend(chunks[..k], chunks[k..]);
    assert chunks[..k] + chunks[k..] == chunks;
    DeliverAppend(Flatten(chunks[..k]), Flatten(chunks[k..]));
  }
}
