/**
 Media records on the wire, version 1: a fixed little-endian header and a payload
 (client/sentinel-core/src/protocol.rs).
 */
module Wire {
  import opened Prelude
  import opened Media

  const VERSION := 1

  const HEADER_LEN := 34

  type Id = b: Bytes | |b| == 16 witness [0, 0, 0, 0, 0, 0, 0, 0, 0, 0, 0, 0, 0, 0, 0, 0]

  type u64 = x: nat | x <= U64_MAX

  datatype Record = Record(channel: Channel, flags: MediaFlags, num: u32, timestampMs: u64, call: Id, payload: Bytes)

  datatype Error =
    | Truncated(need: nat, have: nat)
    | Version(v: byte)
    | BadChannel(v: byte)
    | ReservedFlags(v: byte)
    | ReservedByte(v: byte)
    | PayloadTooLarge(n: nat)
    | MessageTooLarge(n: nat)

  datatype Result<+T> = Ok(value: T) | Err(error: Error)

  // ------------------------------------------------------ little-endian fields

  function Pow256(w: nat): (r: nat)
    ensures r > 0
  {
    if w == 0 then 1 else 256 * Pow256(w - 1)
  }

  function Le(n: nat, w: nat): (b: Bytes)
    ensures |b| == w
  {
    if w == 0 then [] else [n % 256] + Le(n / 256, w - 1)
  }

  function FromLe(b: Bytes): nat
  {
    if b == [] then 0 else var low: nat := b[0]; low + 256 * FromLe(b[1..])
  }

  lemma {:induction false} FromLeOfLe(n: nat, w: nat)
    requires n < Pow256(w)
    ensures FromLe(Le(n, w)) == n
  {
    if w > 0 {
      FromLeOfLe(n / 256, w - 1);
      assert Le(n, w)[1..] == Le(n / 256, w - 1);
    }
  }

  lemma {:induction false} LeOfFromLe(b: Bytes)
    ensures FromLe(b) < Pow256(|b|) && Le(FromLe(b), |b|) == b
  {
    if b != [] {
      LeOfFromLe(b[1..]);
      Divided(b[0], FromLe(b[1..]));
    }
  }

  lemma Divided(low: byte, high: nat)
    ensures var l: nat := low; (l + 256 * high) % 256 == l && (l + 256 * high) / 256 == high
  {
  }

  lemma Widths()
    ensures Pow256(2) == 0x1_0000 && Pow256(4) == U32_MAX + 1 && Pow256(8) == U64_MAX + 1
  {
    assert Pow256(3) == 256 * Pow256(2);
    assert Pow256(5) == 256 * Pow256(4);
    assert Pow256(6) == 256 * Pow256(5);
  }

  lemma FieldRange(b: Bytes)
    ensures |b| == 2 ==> FromLe(b) < 0x1_0000
    ensures |b| == 4 ==> FromLe(b) <= U32_MAX
    ensures |b| == 8 ==> FromLe(b) <= U64_MAX
  {
    hide FromLe, Pow256;
    LeOfFromLe(b);
    Widths();
  }

  // -------------------------------------------------------------------- header

  function ChannelByte(c: Channel): byte { if c.Far? then 0 else 1 }

  function ChannelOf(v: byte): Result<Channel>
  {
    if v == 0 then Ok(Far) else if v == 1 then Ok(Near) else Err(BadChannel(v))
  }

  function FlagBits(f: MediaFlags): byte
  {
    (if f.foreignAudio then 1 else 0) + (if f.silenceInserted then 2 else 0)
  }

  /** Bits 2 to 7 are reserved: any of them set means a byte of 4 or more. */
  function FlagsOf(v: byte): Result<MediaFlags>
  {
    if v >= 4 then Err(ReservedFlags(v)) else Ok(MediaFlags(v % 2 == 1, v >= 2))
  }

  function Header(r: Record): (h: Bytes)
    ensures |h| == HEADER_LEN
  {
    [VERSION, ChannelByte(r.channel), FlagBits(r.flags), 0]
    + Le(r.num, 4) + Le(r.timestampMs, 8) + r.call + Le(|r.payload|, 2)
  }

  function Encode(r: Record): Bytes { Header(r) + r.payload }

  /** The payload length must fit its 16-bit field. */
  predicate Encodable(r: Record) { |r.payload| < 0x1_0000 }

  /** One record from the front of a buffer, with the number of bytes it took. */
  function Decode(buf: Bytes): Result<(Record, nat)>
  {
    if |buf| < HEADER_LEN then Err(Truncated(HEADER_LEN, |buf|))
    else if buf[0] != VERSION then Err(Version(buf[0]))
    else if ChannelOf(buf[1]).Err? then Err(ChannelOf(buf[1]).error)
    else if FlagsOf(buf[2]).Err? then Err(FlagsOf(buf[2]).error)
    else if buf[3] != 0 then Err(ReservedByte(buf[3]))
    else
      var total := HEADER_LEN + FromLe(buf[32..34]);
      if |buf| < total then Err(Truncated(total, |buf|))
      else
        FieldRange(buf[4..8]);
        FieldRange(buf[8..16]);
        Ok((Record(ChannelOf(buf[1]).value, FlagsOf(buf[2]).value, FromLe(buf[4..8]), FromLe(buf[8..16]),
                   buf[16..32], buf[HEADER_LEN..total]), total))
  }

  method EncodeInto(r: Record, out: Bytes) returns (res: Result<Bytes>)
    ensures res == if Encodable(r) then Ok(out + Encode(r)) else Err(PayloadTooLarge(|r.payload|))
  {
    if |r.payload| > 0xFFFF {
      return Err(PayloadTooLarge(|r.payload|));
    }
    hide Le, ChannelByte, FlagBits;
    var o := out + [VERSION];
    o := o + [ChannelByte(r.channel)];
    o := o + [FlagBits(r.flags)];
    o := o + [0];
    o := o + Le(r.num, 4);
    o := o + Le(r.timestampMs, 8);
    o := o + r.call;
    o := o + Le(|r.payload|, 2);
    o := o + r.payload;
    assert o == out + Encode(r);
    res := Ok(o);
  }

  /** The gateway's encoder fills a fixed header buffer in place and appends it; it writes the same bytes. */
  method GatewayEncode(r: Record, dst: Bytes) returns (res: Result<Bytes>)
    ensures res == if Encodable(r) then Ok(dst + Encode(r)) else Err(PayloadTooLarge(|r.payload|))
  {
    if |r.payload| > 0xFFFF {
      return Err(PayloadTooLarge(|r.payload|));
    }
    hide Le, ChannelByte, FlagBits;
    var hdr := new byte[HEADER_LEN](_ => 0);
    hdr[0], hdr[1], hdr[2], hdr[3] := VERSION, ChannelByte(r.channel), FlagBits(r.flags), 0;
    assert hdr[..4] == [VERSION, ChannelByte(r.channel), FlagBits(r.flags), 0];
    PutFields(hdr, Le(r.num, 4), Le(r.timestampMs, 8), r.call, Le(|r.payload|, 2));
    assert hdr[..] == Header(r);
    res := Ok(dst + hdr[..] + r.payload);
    assert dst + Header(r) + r.payload == dst + Encode(r);
  }

  method PutFields(hdr: array<byte>, num: Bytes, time: Bytes, call: Bytes, len: Bytes)
    requires hdr.Length == HEADER_LEN && |num| == 4 && |time| == 8 && |call| == 16 && |len| == 2
    modifies hdr
    ensures hdr[..] == old(hdr[..4]) + num + time + call + len
  {
    Put(hdr, 4, num);
    Put(hdr, 8, time);
    Put(hdr, 16, call);
    Put(hdr, 32, len);
    assert hdr[..] == hdr[..HEADER_LEN];
  }

  /** Copy `b` over `a` at `at`. */
  method Put(a: array<byte>, at: nat, b: Bytes)
    requires at + |b| <= a.Length
    modifies a
    ensures a[..at + |b|] == old(a[..at]) + b && a[at + |b|..] == old(a[at + |b|..])
  {
    for i := 0 to |b|
      invariant a[..at + i] == old(a[..at]) + b[..i] && a[at + i..] == old(a[at + i..])
    {
      a[at + i] := b[i];
    }
  }

  // ---------------------------------------------------------------- round trips

  lemma Sliced(a: Bytes, b: Bytes, c: Bytes)
    ensures (a + b + c)[|a|..|a| + |b|] == b
  {
  }

  /** Each header field sits where the decoder looks, whatever follows the header. */
  lemma HeaderFields(r: Record, tail: Bytes)
    ensures var b := Header(r) + tail;
            && b[0] == VERSION && b[1] == ChannelByte(r.channel) && b[2] == FlagBits(r.flags) && b[3] == 0
            && b[4..8] == Le(r.num, 4) && b[8..16] == Le(r.timestampMs, 8)
            && b[16..32] == r.call && b[32..34] == Le(|r.payload|, 2) && b[HEADER_LEN..] == tail
  {
    hide Le, ChannelByte, FlagBits;
    var lead: Bytes := [VERSION, ChannelByte(r.channel), FlagBits(r.flags), 0];
    var n, t, l := Le(r.num, 4), Le(r.timestampMs, 8), Le(|r.payload|, 2);
    var b := Header(r) + tail;
    assert b == lead + n + (t + r.call + l + tail);
    Sliced(lead, n, t + r.call + l + tail);
    assert b == (lead + n) + t + (r.call + l + tail);
    Sliced(lead + n, t, r.call + l + tail);
    assert b == (lead + n + t) + r.call + (l + tail);
    Sliced(lead + n + t, r.call, l + tail);
    assert b == (lead + n + t + r.call) + l + tail;
    Sliced(lead + n + t + r.call, l, tail);
  }

  lemma FieldsRead(r: Record)
    requires Encodable(r)
    ensures FromLe(Le(r.num, 4)) == r.num
    ensures FromLe(Le(r.timestampMs, 8)) == r.timestampMs
    ensures FromLe(Le(|r.payload|, 2)) == |r.payload|
    ensures ChannelOf(ChannelByte(r.channel)) == Ok(r.channel)
    ensures FlagsOf(FlagBits(r.flags)) == Ok(r.flags)
  {
    hide FromLe, Le, Pow256;
    Widths();
    FromLeOfLe(r.num, 4);
    FromLeOfLe(r.timestampMs, 8);
    FromLeOfLe(|r.payload|, 2);
  }

  /** Decoding undoes encoding, and the record says itself where it ends. */
  lemma DecodeOfEncode(r: Record, suffix: Bytes)
    requires Encodable(r)
    ensures Decode(Encode(r) + suffix) == Ok((r, |Encode(r)|))
  {
    hide Le, FromLe, ChannelOf, ChannelByte, FlagsOf, FlagBits, Header;
    var b := Encode(r) + suffix;
    assert b == Header(r) + (r.payload + suffix);
    HeaderFields(r, r.payload + suffix);
    FieldsRead(r);
    assert b[HEADER_LEN..HEADER_LEN + |r.payload|] == r.payload;
  }

  /** A record cut short anywhere is reported as truncated, with what is missing. */
  lemma PrefixIsTruncated(r: Record, n: nat)
    requires Encodable(r) && n < |Encode(r)|
    ensures Decode(Encode(r)[..n]) == Err(Truncated(if n < HEADER_LEN then HEADER_LEN else |Encode(r)|, n))
  {
    hide Le, FromLe, ChannelOf, ChannelByte, FlagsOf, FlagBits, Header;
    if n >= HEADER_LEN {
      var part := r.payload[..n - HEADER_LEN];
      assert Encode(r)[..n] == Header(r) + part;
      HeaderFields(r, part);
      FieldsRead(r);
    }
  }

  lemma BytesRead(v: byte)
    ensures ChannelOf(v).Ok? ==> ChannelByte(ChannelOf(v).value) == v
    ensures FlagsOf(v).Ok? ==> FlagBits(FlagsOf(v).value) == v
  {
  }

  lemma HeaderOfDecode(buf: Bytes)
    requires Decode(buf).Ok?
    ensures Header(Decode(buf).value.0) == buf[..HEADER_LEN]
  {
    hide Le, FromLe, ChannelOf, ChannelByte, FlagsOf, FlagBits;
    BytesRead(buf[1]);
    BytesRead(buf[2]);
    LeOfFromLe(buf[4..8]);
    LeOfFromLe(buf[8..16]);
    LeOfFromLe(buf[32..34]);
    assert buf[..4] == [buf[0], buf[1], buf[2], buf[3]];
    Spliced(buf);
  }

  lemma Spliced(buf: Bytes)
    requires |buf| >= HEADER_LEN
    ensures buf[..4] + buf[4..8] + buf[8..16] + buf[16..32] + buf[32..34] == buf[..HEADER_LEN]
  {
  }

  /** The encoding is canonical: only `Encode(r)` decodes to `r`. */
  lemma EncodeOfDecode(buf: Bytes)
    requires Decode(buf).Ok?
    ensures var (r, used) := Decode(buf).value;
            Encodable(r) && HEADER_LEN <= used <= |buf| && Encode(r) == buf[..used]
  {
    hide Le, FromLe, ChannelOf, ChannelByte, FlagsOf, FlagBits, Header;
    HeaderOfDecode(buf);
    FieldRange(buf[32..34]);
  }

  // -------------------------------------------------------------- whole messages

  function EncodeAll(rs: seq<Record>): Bytes
  {
    if rs == [] then [] else Encode(rs[0]) + EncodeAll(rs[1..])
  }

  predicate AllEncodable(rs: seq<Record>) { forall i :: 0 <= i < |rs| ==> Encodable(rs[i]) }

  /** Every record of a buffer, or the error of the first that does not decode. */
  function Records(buf: Bytes): Result<seq<Record>>
    decreases |buf|
  {
    if buf == [] then Ok([])
    else
      var first := Decode(buf);
      if first.Err? then Err(first.error)
      else
        EncodeOfDecode(buf);
        var rest := Records(buf[first.value.1..]);
        if rest.Err? then rest else Ok([first.value.0] + rest.value)
  }

  function Message(buf: Bytes): Result<seq<Record>>
  {
    if |buf| > MAX_MESSAGE_BYTES then Err(MessageTooLarge(|buf|)) else Records(buf)
  }

  function Prepend(done: seq<Record>, rest: Result<seq<Record>>): Result<seq<Record>>
  {
    if rest.Err? then rest else Ok(done + rest.value)
  }

  lemma NothingDone(buf: Bytes)
    ensures Records(buf) == Prepend([], Records(buf[0..]))
  {
    hide Decode;
    assert buf[0..] == buf;
    if Records(buf).Ok? {
      assert [] + Records(buf).value == Records(buf).value;
    }
  }

  method DecodeAll(buf: Bytes) returns (res: Result<seq<Record>>)
    ensures res == Message(buf)
  {
    hide Decode;
    if |buf| > MAX_MESSAGE_BYTES {
      return Err(MessageTooLarge(|buf|));
    }
    var out: seq<Record>, off := [], 0;
    NothingDone(buf);
    while off < |buf|
      invariant 0 <= off <= |buf|
      invariant Records(buf) == Prepend(out, Records(buf[off..]))
    {
      var one := Decode(buf[off..]);
      if one.Err? {
        return Err(one.error);
      }
      EncodeOfDecode(buf[off..]);
      assert buf[off..][one.value.1..] == buf[off + one.value.1..];
      ghost var rest := Records(buf[off + one.value.1..]);
      if rest.Ok? {
        assert out + ([one.value.0] + rest.value) == (out + [one.value.0]) + rest.value;
      }
      off := off + one.value.1;
      out := out + [one.value.0];
    }
    assert out + [] == out;
    res := Ok(out);
  }

  lemma {:induction false} RecordsOfEncodeAll(rs: seq<Record>)
    requires AllEncodable(rs)
    ensures Records(EncodeAll(rs)) == Ok(rs)
  {
    hide Decode, Header;
    if rs != [] {
      var rest := EncodeAll(rs[1..]);
      DecodeOfEncode(rs[0], rest);
      RecordsOfEncodeAll(rs[1..]);
      assert (Encode(rs[0]) + rest)[|Encode(rs[0])|..] == rest;
      assert [rs[0]] + rs[1..] == rs;
    }
  }

  lemma {:induction false} EncodeAllOfRecords(buf: Bytes)
    requires Records(buf).Ok?
    ensures AllEncodable(Records(buf).value) && EncodeAll(Records(buf).value) == buf
    decreases |buf|
  {
    hide Decode, Encode, Encodable;
    if buf != [] {
      EncodeOfDecode(buf);
      var used := Decode(buf).value.1;
      EncodeAllOfRecords(buf[used..]);
      assert Records(buf).value[1..] == Records(buf[used..]).value;
      assert buf == buf[..used] + buf[used..];
    }
  }

  /** A message is accepted exactly when it is some encodable records, back to back, within the limit. */
  lemma MessageIff(buf: Bytes, rs: seq<Record>)
    ensures Message(buf) == Ok(rs) <==> |buf| <= MAX_MESSAGE_BYTES && AllEncodable(rs) && buf == EncodeAll(rs)
  {
    hide Records, EncodeAll, AllEncodable;
    if Records(buf).Ok? {
      EncodeAllOfRecords(buf);
    }
    if AllEncodable(rs) {
      RecordsOfEncodeAll(rs);
    }
  }

  /** Two different batches never share their bytes. */
  lemma EncodeAllInjective(a: seq<Record>, b: seq<Record>)
    requires AllEncodable(a) && AllEncodable(b) && EncodeAll(a) == EncodeAll(b)
    ensures a == b
  {
    hide Records, EncodeAll;
    RecordsOfEncodeAll(a);
    RecordsOfEncodeAll(b);
  }

  // ---------------------------------------------------------- a batch always fits

  /** Fifty frames of at most `MAX_PACKET` bytes, each behind a two-byte length. */
  const MAX_SEGMENT_BYTES := FRAMES_PER_SEGMENT * (MAX_PACKET + 2)

  lemma {:induction false} BatchLength(rs: seq<Record>)
    requires forall i :: 0 <= i < |rs| ==> |rs[i].payload| <= MAX_SEGMENT_BYTES
    ensures |EncodeAll(rs)| <= |rs| * (HEADER_LEN + MAX_SEGMENT_BYTES)
  {
    hide Header;
    if rs != [] {
      BatchLength(rs[1..]);
    }
  }

  /** A full batch of whole segments always encodes, fits a message and is read back. */
  lemma BatchIsAccepted(rs: seq<Record>)
    requires |rs| <= SEGMENTS_PER_MESSAGE
    requires forall i :: 0 <= i < |rs| ==> |rs[i].payload| <= MAX_SEGMENT_BYTES
    ensures AllEncodable(rs) && Message(EncodeAll(rs)) == Ok(rs)
  {
    hide Message, EncodeAll;
    BatchLength(rs);
    MessageIff(EncodeAll(rs), rs);
  }

  // ------------------------------------------------------------- byte by byte

  /** The layout on the wire: where every field is, least significant byte first. */
  lemma Layout(r: Record)
    requires Encodable(r)
    ensures var e := Encode(r);
            && |e| == 34 + |r.payload| && e[0] == 1 && e[3] == 0
            && e[1] == (if r.channel == Far then 0 else 1)
            && e[2] == (if r.flags.foreignAudio then 1 else 0) + (if r.flags.silenceInserted then 2 else 0)
            && r.num == FromLe(e[4..8]) && r.timestampMs == FromLe(e[8..16]) && e[16..32] == r.call
            && |r.payload| == FromLe(e[32..34]) && e[34..] == r.payload
  {
    hide Le, FromLe, Pow256;
    Widths();
    FromLeOfLe(r.num, 4);
    FromLeOfLe(r.timestampMs, 8);
    FromLeOfLe(|r.payload|, 2);
    var e := Encode(r);
    assert e[4..8] == Le(r.num, 4) && e[8..16] == Le(r.timestampMs, 8) && e[32..34] == Le(|r.payload|, 2);
  }

  /** The order of the bytes in a field. */
  lemma LeastFirst(a: byte, b: byte, rest: Bytes)
    ensures FromLe([a]) == a && FromLe([a, b]) == a + 256 * b && FromLe([a] + rest) == a + 256 * FromLe(rest)
  {
    assert [a, b][1..] == [b] && ([a] + rest)[1..] == rest && [a][1..] == [] && [b][1..] == [];
    assert FromLe([b]) == b;
  }

  /** The first fault in the header is the one reported, with the byte at fault. */
  lemma FaultIs(buf: Bytes)
    ensures Decode(buf).Ok? <==>
            |buf| >= 34 && buf[0] == 1 && buf[1] < 2 && buf[2] < 4 && buf[3] == 0 && |buf| >= 34 + FromLe(buf[32..34])
    ensures |buf| < 34 ==> Decode(buf) == Err(Truncated(34, |buf|))
    ensures |buf| >= 34 && buf[0] != 1 ==> Decode(buf) == Err(Version(buf[0]))
    ensures |buf| >= 34 && buf[0] == 1 && buf[1] >= 2 ==> Decode(buf) == Err(BadChannel(buf[1]))
    ensures |buf| >= 34 && buf[0] == 1 && buf[1] < 2 && buf[2] >= 4 ==> Decode(buf) == Err(ReservedFlags(buf[2]))
    ensures |buf| >= 34 && buf[0] == 1 && buf[1] < 2 && buf[2] < 4 && buf[3] != 0 ==> Decode(buf) == Err(ReservedByte(buf[3]))
    ensures |buf| >= 34 && buf[0] == 1 && buf[1] < 2 && buf[2] < 4 && buf[3] == 0 && |buf| < 34 + FromLe(buf[32..34]) ==>
              Decode(buf) == Err(Truncated(34 + FromLe(buf[32..34]), |buf|))
  {
    hide FromLe;
  }
}
