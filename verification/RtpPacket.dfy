/** RTP headers as bytes: sections 5.1 and 5.3.1 of RFC 3550. */
module Rtp {
  type Byte = x: int | 0 <= x < 0x100
  type Word16 = x: int | 0 <= x < 0x1_0000
  type Word32 = x: int | 0 <= x < 0x1_0000_0000

  const MIN_HEADER_SIZE := 12

  // ---------------------------------------------------- big-endian fields

  function U16(b: seq<Byte>, at: nat): Word16
    requires at + 2 <= |b|
  {
    (b[at] as int) * 0x100 + b[at + 1]
  }

  function U32(b: seq<Byte>, at: nat): Word32
    requires at + 4 <= |b|
  {
    (U16(b, at) as int) * 0x1_0000 + U16(b, at + 2)
  }

  function Be16(v: Word16): (r: seq<Byte>)
    ensures |r| == 2 && U16(r, 0) == v
  {
    [v / 0x100, v % 0x100]
  }

  function Be32(v: Word32): (r: seq<Byte>)
    ensures |r| == 4 && U32(r, 0) == v
  {
    var hi, lo := Be16(v / 0x1_0000), Be16(v % 0x1_0000);
    assert U16(hi + lo, 0) == U16(hi, 0) && U16(hi + lo, 2) == U16(lo, 0);
    hi + lo
  }

  /** Overwrite the bytes of b from `at` on with v. */
  function Patch(b: seq<Byte>, at: nat, v: seq<Byte>): (r: seq<Byte>)
    requires at + |v| <= |b|
    ensures |r| == |b|
    ensures forall i :: 0 <= i < |b| ==> r[i] == if at <= i < at + |v| then v[i - at] else b[i]
  {
    b[..at] + v + b[at + |v|..]
  }

  predicate IsRtp(b: seq<Byte>) {
    |b| >= MIN_HEADER_SIZE && b[0] / 64 == 2 && (b[1] % 128 < 64 || b[1] % 128 >= 96)
  }

  predicate IsRtcp(b: seq<Byte>) {
    |b| >= MIN_HEADER_SIZE && b[0] / 64 == 2 && 64 <= b[1] % 128 < 96
  }

  function Version(b: seq<Byte>): int requires |b| >= MIN_HEADER_SIZE { b[0] / 64 }
  function Padding(b: seq<Byte>): bool requires |b| >= MIN_HEADER_SIZE { (b[0] / 32) % 2 == 1 }
  function Extension(b: seq<Byte>): bool requires |b| >= MIN_HEADER_SIZE { (b[0] / 16) % 2 == 1 }
  function CsrcCount(b: seq<Byte>): nat requires |b| >= MIN_HEADER_SIZE { b[0] % 16 }
  function Marker(b: seq<Byte>): bool requires |b| >= MIN_HEADER_SIZE { (b[1] / 128) % 2 == 1 }
  function PayloadType(b: seq<Byte>): int requires |b| >= MIN_HEADER_SIZE { b[1] % 128 }
  function SequenceNumber(b: seq<Byte>): Word16 requires |b| >= MIN_HEADER_SIZE { U16(b, 2) }
  function Timestamp(b: seq<Byte>): Word32 requires |b| >= MIN_HEADER_SIZE { U32(b, 4) }
  function Ssrc(b: seq<Byte>): Word32 requires |b| >= MIN_HEADER_SIZE { U32(b, 8) }

  /** `payload() - data_`; it may point past the end. */
  function PayloadOffset(b: seq<Byte>): nat
    requires |b| >= MIN_HEADER_SIZE
  {
    var offset := MIN_HEADER_SIZE + CsrcCount(b) * 4;
    if Extension(b) && |b| > offset + 4 then offset + 4 + U16(b, offset + 2) * 4 else offset
  }

  function PayloadSize(b: seq<Byte>): nat
    requires |b| >= MIN_HEADER_SIZE
  {
    if PayloadOffset(b) >= |b| then 0 else |b| - PayloadOffset(b)
  }

  /** A packet view on a buffer it does not own. */
  class RtpPacket {
    const data: array<Byte>
    const size: nat

    ghost predicate Valid() { MIN_HEADER_SIZE <= size <= data.Length }

    constructor (data: array<Byte>, size: nat)
      ensures this.data == data && this.size == size
    {
      this.data, this.size := data, size;
    }

    function Bytes(): seq<Byte> reads data requires Valid() { data[..size] }

    method Put(at: nat, v: seq<Byte>)
      requires Valid() && at + |v| <= size
      modifies data
      ensures data[..] == Patch(old(data[..]), at, v)
      ensures Bytes() == Patch(old(Bytes()), at, v)
    {
      for i := 0 to |v|
        invariant forall j :: 0 <= j < data.Length ==> data[j] == if at <= j < at + i then v[j - at] else old(data[j])
      {
        data[at + i] := v[i];
      }
    }

    method SetSequenceNumber(seq': Word16)
      requires Valid()
      modifies data
      ensures Bytes() == Patch(old(Bytes()), 2, Be16(seq'))
      ensures data[size..] == old(data[size..])
    {
      Put(2, Be16(seq'));
    }

    method SetTimestamp(ts: Word32)
      requires Valid()
      modifies data
      ensures Bytes() == Patch(old(Bytes()), 4, Be32(ts))
      ensures data[size..] == old(data[size..])
    {
      Put(4, Be32(ts));
    }

    method SetSsrc(ssrc: Word32)
      requires Valid()
      modifies data
      ensures Bytes() == Patch(old(Bytes()), 8, Be32(ssrc))
      ensures data[size..] == old(data[size..])
    {
      Put(8, Be32(ssrc));
    }

    method Payload() returns (offset: nat, n: nat)
      requires Valid()
      ensures offset == PayloadOffset(Bytes()) && n == PayloadSize(Bytes())
    {
      offset := MIN_HEADER_SIZE + (data[0] as int % 16) * 4;
      if (data[0] / 16) % 2 == 1 && size > offset + 4 {
        offset := offset + 4 + ((data[offset + 2] as int) * 0x100 + data[offset + 3]) * 4;
      }
      n := if offset >= size then 0 else size - offset;
    }
  }

  // -------------------------------------------------- setters and getters

  predicate SameExceptAt(b: seq<Byte>, c: seq<Byte>, from: nat, to: nat) {
    |b| == |c| && forall i :: 0 <= i < |b| && !(from <= i < to) ==> b[i] == c[i]
  }

  /** Every setter is undone by its getter and leaves every other header field,
      the payload and all other bytes alone. */
  lemma SettersAreExact(b: seq<Byte>, s: Word16, t: Word32)
    requires |b| >= MIN_HEADER_SIZE
    ensures var c := Patch(b, 2, Be16(s));
      SequenceNumber(c) == s && SameExceptAt(b, c, 2, 4)
      && Timestamp(c) == Timestamp(b) && Ssrc(c) == Ssrc(b) && PayloadOffset(c) == PayloadOffset(b)
    ensures var c := Patch(b, 4, Be32(t));
      Timestamp(c) == t && SameExceptAt(b, c, 4, 8)
      && SequenceNumber(c) == SequenceNumber(b) && Ssrc(c) == Ssrc(b) && PayloadOffset(c) == PayloadOffset(b)
    ensures var c := Patch(b, 8, Be32(t));
      Ssrc(c) == t && SameExceptAt(b, c, 8, 12)
      && SequenceNumber(c) == SequenceNumber(b) && Timestamp(c) == Timestamp(b) && PayloadOffset(c) == PayloadOffset(b)
  {
    SetterKeepsRest(b, 2, Be16(s));
    SetterKeepsRest(b, 4, Be32(t));
    SetterKeepsRest(b, 8, Be32(t));
  }

  lemma SetterKeepsRest(b: seq<Byte>, at: nat, v: seq<Byte>)
    requires |b| >= MIN_HEADER_SIZE && 2 <= at && at + |v| <= MIN_HEADER_SIZE
    ensures var c := Patch(b, at, v);
      SameExceptAt(b, c, at, at + |v|) && PayloadOffset(c) == PayloadOffset(b)
      && (|v| == 2 ==> U16(c, at) == U16(v, 0)) && (|v| == 4 ==> U32(c, at) == U32(v, 0))
      && (at >= 4 ==> SequenceNumber(c) == SequenceNumber(b))
      && (at + |v| <= 4 || at >= 8 ==> Timestamp(c) == Timestamp(b))
      && (at + |v| <= 8 ==> Ssrc(c) == Ssrc(b))
  {
    var c := Patch(b, at, v);
    assert c[0] == b[0];
    var offset := MIN_HEADER_SIZE + CsrcCount(b) * 4;
    if |b| > offset + 4 { assert c[offset + 2] == b[offset + 2] && c[offset + 3] == b[offset + 3]; }
  }

  // --------------------------------------------------- build and parse back

  datatype Header = Header(padding: bool, marker: bool, payloadType: int,
                             seqNo: Word16, timestamp: Word32, ssrc: Word32) {
    predicate Valid() { 0 <= payloadType < 128 }
  }

  datatype ExtensionBlock = NoExtension | Block(profile: Word16, words: seq<Byte>) {
    predicate Valid() { Block? ==> |words| % 4 == 0 && |words| / 4 < 0x1_0000 }
  }

  function Flag(x: bool): int { if x then 1 else 0 }

  function ExtensionBytes(x: ExtensionBlock): seq<Byte>
    requires x.Valid()
  {
    if x.NoExtension? then [] else Be16(x.profile) + Be16(|x.words| / 4) + x.words
  }

  function CsrcBytes(csrcs: seq<Word32>): (r: seq<Byte>)
    ensures |r| == 4 * |csrcs|
  {
    if csrcs == [] then [] else Be32(csrcs[0]) + CsrcBytes(csrcs[1..])
  }

  function FixedBytes(h: Header, extended: bool, cc: int): (r: seq<Byte>)
    requires h.Valid() && 0 <= cc < 16
    ensures |r| == MIN_HEADER_SIZE
  {
    [128 + Flag(h.padding) * 32 + Flag(extended) * 16 + cc, Flag(h.marker) * 128 + h.payloadType]
    + Be16(h.seqNo) + Be32(h.timestamp) + Be32(h.ssrc)
  }

  /** A packet laid out as the standard prescribes. */
  function Build(h: Header, csrcs: seq<Word32>, x: ExtensionBlock, payload: seq<Byte>): seq<Byte>
    requires h.Valid() && |csrcs| < 16 && x.Valid()
  {
    FixedBytes(h, x.Block?, |csrcs|) + CsrcBytes(csrcs) + ExtensionBytes(x) + payload
  }

  lemma FixedParses(h: Header, extended: bool, cc: int, rest: seq<Byte>)
    requires h.Valid() && 0 <= cc < 16
    ensures var b := FixedBytes(h, extended, cc) + rest;
      Version(b) == 2 && Padding(b) == h.padding && Extension(b) == extended && CsrcCount(b) == cc
      && Marker(b) == h.marker && PayloadType(b) == h.payloadType
      && SequenceNumber(b) == h.seqNo && Timestamp(b) == h.timestamp && Ssrc(b) == h.ssrc
  {
    var b := FixedBytes(h, extended, cc) + rest;
    assert b[2..4] == Be16(h.seqNo) && b[4..8] == Be32(h.timestamp) && b[8..12] == Be32(h.ssrc);
    SliceU32(b, 4);
    SliceU32(b, 8);
    assert b[2] == b[2..4][0] && b[3] == b[2..4][1];
  }

  lemma SliceU32(b: seq<Byte>, at: nat)
    requires at + 4 <= |b|
    ensures U32(b, at) == U32(b[at..at + 4], 0)
  {
    var c := b[at..at + 4];
    assert c[0] == b[at] && c[1] == b[at + 1] && c[2] == b[at + 2] && c[3] == b[at + 3];
  }

  /** Parsing recovers every header field, and tells RTP from RTCP by the
      payload type. */
  lemma HeaderParses(h: Header, csrcs: seq<Word32>, x: ExtensionBlock, payload: seq<Byte>)
    requires h.Valid() && |csrcs| < 16 && x.Valid()
    ensures var b := Build(h, csrcs, x, payload);
      Version(b) == 2 && Padding(b) == h.padding && Extension(b) == x.Block? && CsrcCount(b) == |csrcs|
      && Marker(b) == h.marker && PayloadType(b) == h.payloadType
      && SequenceNumber(b) == h.seqNo && Timestamp(b) == h.timestamp && Ssrc(b) == h.ssrc
      && (IsRtcp(b) <==> 64 <= h.payloadType < 96) && (IsRtp(b) <==> !IsRtcp(b))
  {
    var rest := CsrcBytes(csrcs) + ExtensionBytes(x) + payload;
    assert Build(h, csrcs, x, payload) == FixedBytes(h, x.Block?, |csrcs|) + rest;
    FixedParses(h, x.Block?, |csrcs|, rest);
  }

  /** Parsing recovers the payload exactly when the packet is not an extension of
      zero words followed by nothing: there the four bytes of the extension header
      are taken for payload. */
  lemma BuildParses(h: Header, csrcs: seq<Word32>, x: ExtensionBlock, payload: seq<Byte>)
    requires h.Valid() && |csrcs| < 16 && x.Valid()
    ensures var b := Build(h, csrcs, x, payload);
      PayloadOffset(b) <= |b|
      && (b[PayloadOffset(b)..] == payload && PayloadSize(b) == |payload|
          <==> !(x.Block? && x.words == [] && payload == []))
  {
    HeaderParses(h, csrcs, x, payload);
    var b := Build(h, csrcs, x, payload);
    var o := MIN_HEADER_SIZE + |csrcs| * 4;
    var front, ex := FixedBytes(h, x.Block?, |csrcs|) + CsrcBytes(csrcs), ExtensionBytes(x);
    Behind(front, ex, payload);
    if x.Block? {
      LengthField(front, x, payload);
      assert U16(b, o + 2) == |x.words| / 4;
    }
  }

  /** What follows the front and the extension of a packet. */
  lemma Behind(front: seq<Byte>, ex: seq<Byte>, payload: seq<Byte>)
    ensures (front + ex + payload)[|front|..] == ex + payload
    ensures (front + ex + payload)[|front| + |ex|..] == payload
  {}

  lemma LengthField(front: seq<Byte>, x: ExtensionBlock, payload: seq<Byte>)
    requires x.Valid() && x.Block?
    ensures |ExtensionBytes(x)| == 4 + |x.words|
    ensures U16(front + ExtensionBytes(x) + payload, |front| + 2) == |x.words| / 4
  {
    var ex, b := ExtensionBytes(x), front + ExtensionBytes(x) + payload;
    assert ex[2..4] == Be16(|x.words| / 4);
    assert b[|front| + 2] == ex[2] && b[|front| + 3] == ex[3];
  }
}
