/** The wire format: a 14-byte big-endian header and a body, and the framing of a byte stream. */
module Packet {
  import opened Sequences

  type Byte = x: int | 0 <= x < 0x100
  type U16 = x: int | 0 <= x < 0x1_0000
  type U32 = x: int | 0 <= x < 0x1_0000_0000
  type Bytes = seq<Byte>

  const HEADER_BYTES := 14
  const MAX_BODY := 0xFFFF
  const MSG_PING: U16 := 0x0002
  const MSG_PONG: U16 := 0x0003
  const MSG_LOGIN_REQ: U16 := 0x0010
  const MSG_LOGIN_RES: U16 := 0x0011

  datatype Header = Header(length: U16, msgId: U16, flags: U16, seqNo: U32, stamp: U32)

  predicate IsSystemMsgId(msgId: U16) {
    0x0001 <= msgId <= 0x000F
  }

  function WriteBe16(v: U16): Bytes {
    [v / 0x100, v % 0x100]
  }

  function ReadBe16(b: Bytes): U16
    requires |b| >= 2
  {
    var hi: int := b[0];
    hi * 0x100 + b[1]
  }

  function WriteBe32(v: U32): Bytes {
    WriteBe16(v / 0x1_0000) + WriteBe16(v % 0x1_0000)
  }

  function ReadBe32(b: Bytes): U32
    requires |b| >= 4
  {
    ReadBe16(b) * 0x1_0000 + ReadBe16(b[2..])
  }

  function EncodeHeader(h: Header): (b: Bytes)
    ensures |b| == HEADER_BYTES
  {
    WriteBe16(h.length) + WriteBe16(h.msgId) + WriteBe16(h.flags) + WriteBe32(h.seqNo) + WriteBe32(h.stamp)
  }

  function DecodeHeader(b: Bytes): Header
    requires |b| >= HEADER_BYTES
  {
    Header(ReadBe16(b), ReadBe16(b[2..]), ReadBe16(b[4..]), ReadBe32(b[6..]), ReadBe32(b[10..]))
  }

  /** The number that bytes make, most significant first. */
  function BigEndian(b: Bytes): nat {
    if b == [] then 0 else
      var low: int := b[|b| - 1];
      256 * BigEndian(b[..|b| - 1]) + low
  }

  lemma TwoBytes(b: Bytes)
    requires |b| == 2
    ensures BigEndian(b) == ReadBe16(b)
  {
    assert b[..1] == [b[0]] && [b[0]][..0] == [] && BigEndian([]) == 0 && BigEndian([b[0]]) == b[0];
  }

  lemma FourBytes(b: Bytes)
    requires |b| == 4
    ensures BigEndian(b) == ReadBe32(b)
  {
    assert b[..3][..2] == b[..2] && BigEndian(b[..3]) == 256 * BigEndian(b[..2]) + b[2];
    TwoBytes(b[..2]);
    assert ReadBe16(b[..2]) == ReadBe16(b);
  }

  /** Where the fields of a header stand, each most significant byte first. */
  lemma HeaderLayout(b: Bytes)
    requires |b| >= HEADER_BYTES
    ensures var h := DecodeHeader(b);
            && BigEndian(b[0..2]) == h.length && BigEndian(b[2..4]) == h.msgId && BigEndian(b[4..6]) == h.flags
            && BigEndian(b[6..10]) == h.seqNo && BigEndian(b[10..14]) == h.stamp
  {
    hide BigEndian;
    TwoBytes(b[0..2]);
    TwoBytes(b[2..4]);
    TwoBytes(b[4..6]);
    FourBytes(b[6..10]);
    FourBytes(b[10..14]);
  }

  lemma Be16RoundTrip(v: U16, rest: Bytes)
    ensures ReadBe16(WriteBe16(v) + rest) == v
  {
  }

  lemma Be32RoundTrip(v: U32, rest: Bytes)
    ensures ReadBe32(WriteBe32(v) + rest) == v
  {
    var hi, lo := WriteBe16(v / 0x1_0000), WriteBe16(v % 0x1_0000);
    assert hi + lo + rest == hi + (lo + rest);
    assert (hi + (lo + rest))[2..] == lo + rest;
    Be16RoundTrip(v / 0x1_0000, lo + rest);
    Be16RoundTrip(v % 0x1_0000, rest);
  }

  /** Decoding inverts encoding, whatever follows the header. */
  lemma HeaderRoundTrip(h: Header, rest: Bytes)
    ensures DecodeHeader(EncodeHeader(h) + rest) == h
  {
    hide ReadBe16, WriteBe16, ReadBe32, WriteBe32;
    WritersSize(h);
    var a, b, c := WriteBe16(h.length), WriteBe16(h.msgId), WriteBe16(h.flags);
    var d, e := WriteBe32(h.seqNo), WriteBe32(h.stamp);
    var s := EncodeHeader(h) + rest;
    assert s == a + (b + (c + (d + (e + rest))));
    assert s[2..] == b + (c + (d + (e + rest)));
    assert s[4..] == c + (d + (e + rest));
    assert s[6..] == d + (e + rest);
    assert s[10..] == e + rest;
    Be16RoundTrip(h.length, b + (c + (d + (e + rest))));
    Be16RoundTrip(h.msgId, c + (d + (e + rest)));
    Be16RoundTrip(h.flags, d + (e + rest));
    Be32RoundTrip(h.seqNo, e + rest);
    Be32RoundTrip(h.stamp, rest);
  }

  lemma WritersSize(h: Header)
    ensures |WriteBe16(h.length)| == 2 && |WriteBe16(h.msgId)| == 2 && |WriteBe16(h.flags)| == 2
    ensures |WriteBe32(h.seqNo)| == 4 && |WriteBe32(h.stamp)| == 4
  {
  }

  /** Encoding inverts decoding: no two byte strings mean the same header. */
  lemma HeaderBytesRoundTrip(b: Bytes)
    requires |b| >= HEADER_BYTES
    ensures EncodeHeader(DecodeHeader(b)) == b[..HEADER_BYTES]
  {
    Be16Back(b);
    Be16Back(b[2..]);
    Be16Back(b[4..]);
    Be32Back(b[6..]);
    Be32Back(b[10..]);
    hide ReadBe16, WriteBe16, ReadBe32, WriteBe32;
    assert b[..2] + b[2..][..2] + b[4..][..2] + b[6..][..4] + b[10..][..4] == b[..HEADER_BYTES];
  }

  lemma Be16Back(b: Bytes)
    requires |b| >= 2
    ensures WriteBe16(ReadBe16(b)) == b[..2]
  {
  }

  lemma Be32Back(b: Bytes)
    requires |b| >= 4
    ensures WriteBe32(ReadBe32(b)) == b[..4]
  {
    Be16Back(b);
    Be16Back(b[2..]);
    assert b[..2] + b[2..][..2] == b[..4];
  }

  // ---------------------------------------------------------------------------
  // Framing
  // ---------------------------------------------------------------------------

  function FrameSize(s: Bytes): (n: nat)
    requires |s| >= HEADER_BYTES
    ensures HEADER_BYTES <= n <= HEADER_BYTES + MAX_BODY
  {
    HEADER_BYTES + DecodeHeader(s).length
  }

  /** A complete frame stands at the front of s. */
  predicate HasFrame(s: Bytes) {
    |s| >= HEADER_BYTES && FrameSize(s) <= |s|
  }

  predicate IsFrame(f: Bytes) {
    |f| >= HEADER_BYTES && FrameSize(f) == |f|
  }

  function Frames(s: Bytes): seq<Bytes>
    decreases |s|
  {
    if HasFrame(s) then [s[..FrameSize(s)]] + Frames(s[FrameSize(s)..]) else []
  }

  /** What framing leaves over. */
  function Unframed(s: Bytes): Bytes
    decreases |s|
  {
    if HasFrame(s) then Unframed(s[FrameSize(s)..]) else s
  }

  /** Bytes after the first frame do not change what it is. */
  lemma FrontUnchanged(s: Bytes, t: Bytes)
    requires |s| >= HEADER_BYTES
    ensures DecodeHeader(s + t) == DecodeHeader(s) && FrameSize(s + t) == FrameSize(s)
  {
    HeaderOfPrefix(s + t);
    HeaderOfPrefix(s);
    assert (s + t)[..HEADER_BYTES] == s[..HEADER_BYTES];
  }

  lemma HeaderOfPrefix(s: Bytes)
    requires |s| >= HEADER_BYTES
    ensures DecodeHeader(s) == DecodeHeader(s[..HEADER_BYTES])
  {
    var p := s[..HEADER_BYTES];
    assert forall i | 0 <= i < HEADER_BYTES :: p[i] == s[i];
  }

  /** Framing in two goes is framing at once. */
  lemma {:induction false} FramesAppend(s: Bytes, t: Bytes)
    ensures Frames(s + t) == Frames(s) + Frames(Unframed(s) + t)
    ensures Unframed(s + t) == Unframed(Unframed(s) + t)
    decreases |s|
  {
    hide DecodeHeader;
    if HasFrame(s) {
      hide FrameSize;
      FrontUnchanged(s, t);
      var n := FrameSize(s);
      var rest := s[n..];
      assert (s + t)[n..] == rest + t && (s + t)[..n] == s[..n];
      FramesAppend(rest, t);
      assert [s[..n]] + (Frames(rest) + Frames(Unframed(rest) + t)) ==
        [s[..n]] + Frames(rest) + Frames(Unframed(rest) + t);
    } else {
      assert Frames(s) == [] && Unframed(s) == s;
    }
  }

  /** A stream has one reading: a list of frames followed by an unfinished rest. */
  lemma {:induction false} FramesUnique(fs: seq<Bytes>, rest: Bytes)
    requires (forall i | 0 <= i < |fs| :: IsFrame(fs[i])) && !HasFrame(rest)
    ensures Frames(Flatten(fs) + rest) == fs && Unframed(Flatten(fs) + rest) == rest
  {
    hide DecodeHeader;
    if fs == [] {
      assert Flatten(fs) + rest == rest;
    } else {
      var f, more := fs[0], fs[1..];
      FlattenCons(f, more);
      assert fs == [f] + more;
      var tail := Flatten(more) + rest;
      assert Flatten(fs) + rest == f + tail;
      FrontUnchanged(f, tail);
      assert (f + tail)[..|f|] == f && (f + tail)[|f|..] == tail;
      FramesUnique(more, rest);
    }
  }

  /** Nothing is lost or added by framing, and the pieces are frames. */
  lemma {:induction false} FramesSplit(s: Bytes)
    ensures Flatten(Frames(s)) + Unframed(s) == s && !HasFrame(Unframed(s))
    ensures forall i | 0 <= i < |Frames(s)| :: IsFrame(Frames(s)[i])
    decreases |s|
  {
    hide DecodeHeader;
    if HasFrame(s) {
      var n := FrameSize(s);
      assert s[..n] + s[n..] == s;
      FramesSplit(s[n..]);
      FlattenCons(s[..n], Frames(s[n..]));
      FrontUnchanged(s[..n], s[n..]);
      assert s == s[..n] + (Flatten(Frames(s[n..])) + Unframed(s[n..]));
    } else {
      assert Flatten(Frames(s)) == [];
    }
  }

  /** An unfinished rest is shorter than the longest frame. */
  lemma UnframedShort(s: Bytes)
    ensures |Unframed(s)| < HEADER_BYTES + MAX_BODY
  {
    FramesSplit(s);
  }
}
