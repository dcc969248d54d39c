/**
 Segment framing, written once in Rust and read twice: by the client's own inverse
 (client/sentinel-core/src/protocol.rs) and by the server (server/pipeline/sentinel_pipeline/segments.py).
 */
module Frames {
  import opened Prelude
  import opened Media

  /** A 16-bit little-endian length field; a longer frame's length is truncated, as the cast does. */
  function LengthField(n: nat): (r: Bytes)
    ensures |r| == 2
  {
    [n % 256, n / 256 % 256]
  }

  function ReadLength(p: Bytes, off: nat): (n: nat)
    requires off + 2 <= |p|
    ensures n < 65536
  {
    var low: nat, high: nat := p[off], p[off + 1];
    low + 256 * high
  }

  /** Length-delimited frames, back to back. */
  function Pack(frames: seq<Bytes>): Bytes
  {
    if frames == [] then [] else LengthField(|frames[0]|) + frames[0] + Pack(frames[1..])
  }

  datatype Unpacked = Frames(frames: seq<Bytes>) | Truncated(need: nat, have: nat)

  function Cons(frame: Bytes, rest: Unpacked): Unpacked
  {
    if rest.Frames? then Frames([frame] + rest.frames) else rest
  }

  /** The frames from offset `off` on. */
  function Unpack(p: Bytes, off: nat): Unpacked
    requires off <= |p|
    decreases |p| - off
  {
    if off == |p| then Frames([])
    else if |p| - off < 2 then Truncated(off + 2, |p|)
    else
      var len := ReadLength(p, off);
      if |p| - (off + 2) < len then Truncated(off + 2 + len, |p|)
      else Cons(p[off + 2..off + 2 + len], Unpack(p, off + 2 + len))
  }

  ghost predicate Packable(frames: seq<Bytes>) { forall i :: 0 <= i < |frames| ==> |frames[i]| < 65536 }

  // ------------------------------------------------------------ the programs

  method PackSegment(frames: seq<Bytes>) returns (out: Bytes)
    ensures out == Pack(frames)
  {
    out := [];
    assert frames[..|frames|] == frames;
    for i := 0 to |frames|
      invariant out == Pack(frames[..i])
    {
      PackSnoc(frames[..i], frames[i]);
      assert frames[..i + 1] == frames[..i] + [frames[i]];
      out := out + LengthField(|frames[i]|);
      out := out + frames[i];
    }
  }

  lemma {:induction false} PackSnoc(frames: seq<Bytes>, f: Bytes)
    ensures Pack(frames + [f]) == Pack(frames) + LengthField(|f|) + f
  {
    if frames == [] {
      assert [f][1..] == [];
    } else {
      PackSnoc(frames[1..], f);
      assert (frames + [f])[1..] == frames[1..] + [f];
    }
  }

  /** Prefixing frames already read to what is still to come. */
  ghost function After(done: seq<Bytes>, rest: Unpacked): Unpacked
  {
    if rest.Frames? then Frames(done + rest.frames) else rest
  }

  /** One turn of either reader's loop. */
  lemma Progress(p: Bytes, done: seq<Bytes>, off: nat)
    requires off < |p|
    ensures |p| - off < 2 ==> After(done, Unpack(p, off)) == Truncated(off + 2, |p|)
    ensures |p| - off >= 2 ==>
              var next := off + 2 + ReadLength(p, off);
              After(done, Unpack(p, off)) ==
              if next > |p| then Truncated(next, |p|) else After(done + [p[off + 2..next]], Unpack(p, next))
  {
    hide ReadLength;
    if |p| - off >= 2 && off + 2 + ReadLength(p, off) <= |p| {
      var next := off + 2 + ReadLength(p, off);
      var rest := Unpack(p, next);
      if rest.Frames? {
        assert done + ([p[off + 2..next]] + rest.frames) == done + [p[off + 2..next]] + rest.frames;
      }
    }
  }

  lemma Finished(p: Bytes, done: seq<Bytes>)
    ensures After(done, Unpack(p, |p|)) == Frames(done) && After([], Unpack(p, 0)) == Unpack(p, 0)
  {
  }

  method UnpackSegment(payload: Bytes) returns (r: Unpacked)
    ensures r == Unpack(payload, 0)
  {
    hide *;
    var out: seq<Bytes> := [];
    var off := 0;
    Finished(payload, out);
    while off < |payload|
      invariant off <= |payload|
      invariant After(out, Unpack(payload, off)) == Unpack(payload, 0)
    {
      Progress(payload, out, off);
      if |payload| - off < 2 {
        return Truncated(off + 2, |payload|);
      }
      var len := ReadLength(payload, off);
      if |payload| - (off + 2) < len {
        return Truncated(off + 2 + len, |payload|);
      }
      off := off + 2;
      out := out + [payload[off..off + len]];
      off := off + len;
    }
    Finished(payload, out);
    r := Frames(out);
  }

  /** How the server sees a packet: nothing marks a frame the capture dropped. */
  function AsPacket(frame: Bytes): Option<Bytes> { if frame == [] then None else Some(frame) }

  function AsPackets(frames: seq<Bytes>): (r: seq<Option<Bytes>>)
    ensures |r| == |frames| && forall i :: 0 <= i < |r| ==> r[i] == AsPacket(frames[i])
  {
    seq(|frames|, i requires 0 <= i < |frames| => AsPacket(frames[i]))
  }

  lemma AsPacketsSnoc(done: seq<Bytes>, frame: Bytes)
    ensures AsPackets(done + [frame]) == AsPackets(done) + [AsPacket(frame)]
  {
  }

  datatype ServerFrames = Packets(packets: seq<Option<Bytes>>) | EndsMidLength(at: nat) | FrameTooLong(claimed: nat, remaining: nat)

  /**
   The server's reader accepts exactly the payloads the client's does, with the same frames, an
   empty one read as a dropped frame.
   */
  method UnpackFrames(payload: Bytes) returns (r: ServerFrames)
    ensures r.Packets? <==> Unpack(payload, 0).Frames?
    ensures r.Packets? ==> r.packets == AsPackets(Unpack(payload, 0).frames)
  {
    hide ReadLength, AsPackets, Unpack, After, Cons;
    var frames: seq<Option<Bytes>> := [];
    ghost var done: seq<Bytes> := [];
    var offset, end := 0, |payload|;
    Finished(payload, done);
    while offset < end
      invariant offset <= end == |payload|
      invariant frames == AsPackets(done)
      invariant After(done, Unpack(payload, offset)) == Unpack(payload, 0)
    {
      Progress(payload, done, offset);
      if offset + 2 > end {
        return EndsMidLength(offset);
      }
      var length := ReadLength(payload, offset);
      offset := offset + 2;
      if offset + length > end {
        return FrameTooLong(length, end - offset);
      }
      var frame := payload[offset..offset + length];
      frames := frames + [if length != 0 then Some(frame) else None];
      AsPacketsSnoc(done, frame);
      done := done + [frame];
      offset := offset + length;
    }
    Finished(payload, done);
    r := Packets(frames);
  }

  // --------------------------------------------------------------- bijection

  lemma TwoBytes(n: nat)
    ensures n % 256 + 256 * (n / 256 % 256) == n % 65536
  {
    var q := n / 65536;
    assert n == 65536 * q + n % 65536;
    assert n / 256 == 256 * q + n % 65536 / 256;
  }

  lemma LengthIs(n: nat)
    ensures var low: nat, high: nat := LengthField(n)[0], LengthField(n)[1]; low + 256 * high == n % 65536
  {
    TwoBytes(n);
  }

  lemma LengthFieldReads(a: Bytes, n: nat, b: Bytes)
    ensures ReadLength(a + LengthField(n) + b, |a|) == n % 65536
  {
    LengthIs(n);
    hide LengthField;
    var p := a + LengthField(n) + b;
    assert p[|a|] == LengthField(n)[0] && p[|a| + 1] == LengthField(n)[1];
  }

  /** The two bytes a length was read from are its field. */
  lemma FieldOfRead(p: Bytes, off: nat)
    requires off + 2 <= |p|
    ensures LengthField(ReadLength(p, off)) == p[off..off + 2]
  {
    var low: nat, high: nat := p[off], p[off + 1];
    BytesApart(low, high);
  }

  lemma BytesApart(low: nat, high: nat)
    requires low < 256 && high < 256
    ensures (low + 256 * high) % 256 == low && (low + 256 * high) / 256 % 256 == high
  {
  }

  lemma {:induction false} UnpackOfPack(a: Bytes, frames: seq<Bytes>)
    requires Packable(frames)
    ensures Unpack(a + Pack(frames), |a|) == Frames(frames)
    decreases |frames|
  {
    hide LengthField, ReadLength;
    if frames != [] {
      var f, rest := frames[0], Pack(frames[1..]);
      var b := a + LengthField(|f|) + f;
      assert a + Pack(frames) == b + rest;
      OneFrame(a, f, rest);
      UnpackOfPack(b, frames[1..]);
    }
  }

  /** A packed frame in the middle of a payload is read back whole. */
  lemma OneFrame(a: Bytes, f: Bytes, rest: Bytes)
    requires |f| < 65536
    ensures var b := a + LengthField(|f|) + f;
            Unpack(b + rest, |a|) == Cons(f, Unpack(b + rest, |b|))
  {
    hide LengthField, ReadLength;
    var b := a + LengthField(|f|) + f;
    assert b + rest == a + LengthField(|f|) + (f + rest);
    LengthFieldReads(a, |f|, f + rest);
    assert (b + rest)[|a| + 2..|b|] == f;
  }

  /** Whatever is accepted is exactly the packing of what it was read as. */
  lemma {:induction false} PackOfUnpack(p: Bytes, off: nat)
    requires off <= |p| && Unpack(p, off).Frames?
    ensures Pack(Unpack(p, off).frames) == p[off..] && Packable(Unpack(p, off).frames)
    decreases |p| - off
  {
    if off < |p| {
      var len := ReadLength(p, off);
      var next := off + 2 + len;
      PackOfUnpack(p, next);
      FieldOfRead(p, off);
      hide LengthField, ReadLength;
      var frames := Unpack(p, off).frames;
      assert frames == [p[off + 2..next]] + Unpack(p, next).frames;
      assert frames[1..] == Unpack(p, next).frames;
      hide Unpack;
      assert Pack(frames) == LengthField(len) + p[off + 2..next] + Pack(frames[1..]);
      assert p[off..] == p[off..off + 2] + p[off + 2..next] + p[next..];
    }
  }

  /** Packing can be undone exactly when every frame fits its 16-bit length field. */
  lemma RoundTripIff(frames: seq<Bytes>)
    ensures Unpack(Pack(frames), 0) == Frames(frames) <==> Packable(frames)
  {
    if Packable(frames) {
      UnpackOfPack([], frames);
      assert [] + Pack(frames) == Pack(frames);
    } else if Unpack(Pack(frames), 0) == Frames(frames) {
      PackOfUnpack(Pack(frames), 0);
    }
  }

  /** One payload, one reading: packing is injective on what fits. */
  lemma PackInjective(a: seq<Bytes>, b: seq<Bytes>)
    requires Packable(a) && Packable(b) && Pack(a) == Pack(b)
    ensures a == b
  {
    RoundTripIff(a);
    RoundTripIff(b);
  }

  lemma {:induction false} PackLength(frames: seq<Bytes>, cap: nat)
    requires forall i :: 0 <= i < |frames| ==> |frames[i]| <= cap
    ensures |Pack(frames)| <= |frames| * (cap + 2)
  {
    hide LengthField;
    if frames != [] {
      PackLength(frames[1..], cap);
      assert |frames| * (cap + 2) == (|frames| - 1) * (cap + 2) + (cap + 2);
    }
  }

  // ------------------------------------------------------------------- PCM

  const FRAME_BYTES := 640

  const SILENCE_FRAME: Bytes := seq(FRAME_BYTES, _ => 0)

  /** A stateful decoder: what it returns for a packet may depend on every packet before it. */
  type Decoder = seq<Bytes> -> Bytes

  /** The real packets among some frames, in order: what the decoder has been given. */
  function Given(packets: seq<Option<Bytes>>): seq<Bytes>
  {
    if packets == [] then []
    else
      var last := packets[|packets| - 1];
      Given(packets[..|packets| - 1]) + (if last.Some? then [last.value] else [])
  }

  /** The sound of frame `n`: silence if it was dropped. */
  function Sound(decode: Decoder, packets: seq<Option<Bytes>>, n: nat): Bytes
    requires n < |packets|
  {
    if packets[n].None? then SILENCE_FRAME else decode(Given(packets[..n + 1]))
  }

  /** The sound of the first `n` frames. */
  function Pcm(decode: Decoder, packets: seq<Option<Bytes>>, n: nat): Bytes
    requires n <= |packets|
  {
    if n == 0 then [] else Pcm(decode, packets, n - 1) + Sound(decode, packets, n - 1)
  }

  /** All the packets of a run of payloads, or nothing if one is malformed. */
  function AllPackets(payloads: seq<Bytes>): Option<seq<Option<Bytes>>>
  {
    if payloads == [] then Some([])
    else
      var init, last := AllPackets(payloads[..|payloads| - 1]), Unpack(payloads[|payloads| - 1], 0);
      if init.Some? && last.Frames? then Some(init.value + AsPackets(last.frames)) else None
  }

  datatype Decoded = Audio(pcm: Bytes) | Malformed

  function Joined(payloads: seq<Bytes>): Bytes
  {
    if payloads == [] then [] else Joined(payloads[..|payloads| - 1]) + payloads[|payloads| - 1]
  }

  // Extending the packets does not change the sound of those already there.

  lemma {:induction false} PcmOfPrefix(decode: Decoder, packets: seq<Option<Bytes>>, more: seq<Option<Bytes>>, n: nat)
    requires n <= |packets|
    ensures Pcm(decode, packets + more, n) == Pcm(decode, packets, n)
  {
    hide Given;
    if n > 0 {
      PcmOfPrefix(decode, packets, more, n - 1);
      assert (packets + more)[..n] == packets[..n];
    }
  }

  lemma PcmSnoc(decode: Decoder, packets: seq<Option<Bytes>>, p: Option<Bytes>)
    ensures Pcm(decode, packets + [p], |packets| + 1) ==
            Pcm(decode, packets, |packets|) +
            (if p.None? then SILENCE_FRAME else decode(Given(packets) + [p.value]))
  {
    var all := packets + [p];
    PcmOfPrefix(decode, packets, [p], |packets|);
    assert all[..|packets| + 1] == all && all[..|packets|] == packets;
    if p.Some? {
      assert Given(all) == Given(packets) + [p.value];
    }
  }

  lemma GivenSnoc(packets: seq<Option<Bytes>>, p: Option<Bytes>)
    ensures Given(packets + [p]) == Given(packets) + (if p.Some? then [p.value] else [])
  {
    assert (packets + [p])[..|packets|] == packets;
  }

  /** Decode one segment's packets after those already decoded, with the same decoder. */
  method DecodePackets(decode: Decoder, given: seq<Bytes>, out: Bytes, ghost done: seq<Option<Bytes>>, packets: seq<Option<Bytes>>)
    returns (given': seq<Bytes>, out': Bytes)
    requires given == Given(done) && out == Pcm(decode, done, |done|)
    ensures given' == Given(done + packets) && out' == Pcm(decode, done + packets, |done + packets|)
  {
    hide *;
    given', out' := given, out;
    ghost var all := done;
    for j := 0 to |packets|
      invariant all == done + packets[..j] && given' == Given(all) && out' == Pcm(decode, all, |all|)
    {
      PcmSnoc(decode, all, packets[j]);
      GivenSnoc(all, packets[j]);
      if packets[j].None? {
        out' := out' + SILENCE_FRAME;
      } else {
        given' := given' + [packets[j].value];
        out' := out' + decode(given');
      }
      all := all + [packets[j]];
    }
    assert all == done + packets;
  }

  /** Decode a channel's segments in sequence order, one decoder for the whole channel. */
  method DecodeSegments(decode: Decoder, rawPcm: bool, payloads: seq<Bytes>) returns (r: Decoded)
    ensures rawPcm ==> r == Audio(Joined(payloads))
    ensures !rawPcm ==> r == match AllPackets(payloads)
                             case Some(ps) => Audio(Pcm(decode, ps, |ps|))
                             case None => Malformed
  {
    if rawPcm {
      var pcm := Join(payloads);
      return Audio(pcm);
    }
    hide Unpack, Given, Pcm;
    var given: seq<Bytes>, out: Bytes := [], [];
    ghost var done: seq<Option<Bytes>> := [];
    NoPackets(decode);
    for i := 0 to |payloads|
      invariant AllPackets(payloads[..i]) == Some(done)
      invariant given == Given(done) && out == Pcm(decode, done, |done|)
    {
      AllPacketsSnoc(payloads, i);
      var frames := UnpackFrames(payloads[i]);
      if !frames.Packets? {
        NeverRecovers(payloads, i + 1);
        return Malformed;
      }
      given, out := DecodePackets(decode, given, out, done, frames.packets);
      done := done + frames.packets;
    }
    assert payloads[..|payloads|] == payloads;
    r := Audio(out);
  }

  method Join(payloads: seq<Bytes>) returns (out: Bytes)
    ensures out == Joined(payloads)
  {
    out := [];
    for i := 0 to |payloads|
      invariant out == Joined(payloads[..i])
    {
      assert payloads[..i + 1][..i] == payloads[..i];
      out := out + payloads[i];
    }
    assert payloads[..|payloads|] == payloads;
  }

  lemma NoPackets(decode: Decoder)
    ensures Given([]) == [] && Pcm(decode, [], 0) == [] && AllPackets([]) == Some([])
  {
  }

  lemma AllPacketsSnoc(payloads: seq<Bytes>, i: nat)
    requires i < |payloads|
    ensures var init, last := AllPackets(payloads[..i]), Unpack(payloads[i], 0);
            AllPackets(payloads[..i + 1]) == if init.Some? && last.Frames? then Some(init.value + AsPackets(last.frames)) else None
  {
    hide Unpack;
    assert payloads[..i + 1][..i] == payloads[..i];
  }

  lemma {:induction false} NeverRecovers(payloads: seq<Bytes>, n: nat)
    requires n <= |payloads| && AllPackets(payloads[..n]).None?
    ensures AllPackets(payloads).None?
    decreases |payloads| - n
  {
    hide Unpack;
    if n == |payloads| {
      assert payloads[..n] == payloads;
    } else {
      AllPacketsSnoc(payloads, n);
      NeverRecovers(payloads, n + 1);
    }
  }

  // ------------------------------------------------- a second is a second

  ghost predicate WholeFrames(decode: Decoder) { forall h: seq<Bytes> :: |decode(h)| == FRAME_BYTES }

  /** Every frame keeps its place: dropped ones become silence, never a shift of what follows. */
  lemma {:induction false} PcmAligned(decode: Decoder, packets: seq<Option<Bytes>>, n: nat, i: nat)
    requires WholeFrames(decode) && n <= |packets| && (i < n || n == 0)
    ensures |Pcm(decode, packets, n)| == FRAME_BYTES * n
    ensures i < n ==> Pcm(decode, packets, n)[FRAME_BYTES * i..FRAME_BYTES * (i + 1)] == Sound(decode, packets, i)
  {
    hide Given;
    if n > 0 {
      var before, last := Pcm(decode, packets, n - 1), Sound(decode, packets, n - 1);
      PcmAligned(decode, packets, n - 1, if i < n - 1 then i else 0);
      assert Pcm(decode, packets, n) == before + last;
      assert |last| == FRAME_BYTES;
      hide Pcm, Sound;
      if i < n - 1 {
        SliceOfFirst(before, last, FRAME_BYTES * i, FRAME_BYTES * (i + 1));
      }
    }
  }

  lemma SliceOfFirst(a: Bytes, b: Bytes, from: nat, to: nat)
    requires from <= to <= |a|
    ensures (a + b)[from..to] == a[from..to]
  {
  }

  ghost predicate WholeSegment(payload: Bytes)
  {
    Unpack(payload, 0).Frames? && |Unpack(payload, 0).frames| == FRAMES_PER_SEGMENT
  }

  lemma {:induction false} WholeSegmentsPackets(payloads: seq<Bytes>)
    requires forall i :: 0 <= i < |payloads| ==> WholeSegment(payloads[i])
    ensures AllPackets(payloads).Some? && |AllPackets(payloads).value| == FRAMES_PER_SEGMENT * |payloads|
  {
    hide Unpack;
    if payloads != [] {
      WholeSegmentsPackets(payloads[..|payloads| - 1]);
    }
  }

  /** `k` whole segments decode to exactly `k` seconds of 16 kHz PCM16. */
  lemma SegmentsAreSeconds(decode: Decoder, payloads: seq<Bytes>)
    requires WholeFrames(decode) && forall i :: 0 <= i < |payloads| ==> WholeSegment(payloads[i])
    ensures AllPackets(payloads).Some?
    ensures var ps := AllPackets(payloads).value; |Pcm(decode, ps, |ps|)| == 32_000 * |payloads|
  {
    hide Pcm, AllPackets, Unpack;
    WholeSegmentsPackets(payloads);
    var ps := AllPackets(payloads).value;
    PcmAligned(decode, ps, |ps|, 0);
  }

  /** The layout: two bytes of length, least significant first, then the frame, then the rest. */
  lemma PackLayout(frame: Bytes, rest: seq<Bytes>)
    ensures var p := Pack([frame] + rest);
            && |p| == 2 + |frame| + |Pack(rest)|
            && (var low: nat, high: nat := p[0], p[1]; low + 256 * high == |frame| % 65536)
            && p[2..2 + |frame|] == frame && p[2 + |frame|..] == Pack(rest)
  {
    var all := [frame] + rest;
    assert all[1..] == rest;
    assert Pack(all) == LengthField(|frame|) + frame + Pack(rest);
    hide LengthField, Pack;
    LengthIs(|frame|);
  }
}
