/**
 What a channel's segments are, over a whole call: the PCM stream cut into frames and
 seconds, whatever buffers, gaps and marks it arrived with.
 */
module EncoderRuns {
  import opened Prelude
  import opened Media
  import opened Frames
  import opened Encoder
  import Wire

  // ----------------------------------------------------------- the reference

  /** A stream cut into whole 20 ms frames. */
  function Chop(pcm: seq<Sample>): (fs: seq<Frame>)
    ensures |fs| == |pcm| / FRAME_SAMPLES
  {
    seq(|pcm| / FRAME_SAMPLES, i requires 0 <= i < |pcm| / FRAME_SAMPLES => pcm[FRAME_SAMPLES * i..FRAME_SAMPLES * (i + 1)])
  }

  function Rest(pcm: seq<Sample>): seq<Sample> { pcm[FRAME_SAMPLES * (|pcm| / FRAME_SAMPLES)..] }

  /** `n` packets of a stream of frames, from the `from`th on, each coded after all before it. */
  function Packets(op: Opus, given: seq<Frame>, from: nat, n: nat): (ps: seq<Bytes>)
    requires from + n <= |given|
    ensures |ps| == n
  {
    if n == 0 then [] else Packets(op, given, from, n - 1) + [op(given[..from + n])]
  }

  /** `s` is exactly second `j` of the stream. */
  ghost predicate IsSecond(op: Opus, s: Segment, c: Channel, given: seq<Frame>, j: nat)
  {
    && s.channel == c && s.num == j && s.timestampMs == SEGMENT_MS * j
    && FRAMES_PER_SEGMENT * (j + 1) <= |given|
    && s.payload == Pack(Packets(op, given, FRAMES_PER_SEGMENT * j, FRAMES_PER_SEGMENT))
  }

  /** The encoder holds the stream so far: nothing lost, nothing twice. */
  ghost predicate Built(op: Opus, e: Enc, pcm: seq<Sample>)
  {
    && Tidy(e)
    && e.given == Chop(pcm) && e.pending == Rest(pcm)
    && |e.given| == FRAMES_PER_SEGMENT * e.nextSeq + |e.frames|
    && e.frames == Packets(op, e.given, FRAMES_PER_SEGMENT * e.nextSeq, |e.frames|)
    && e.startMs == SEGMENT_MS * e.nextSeq
  }

  /** `out` is the seconds from `from` up to the encoder's next. */
  ghost predicate Seconds(op: Opus, e: Enc, from: nat, out: seq<Segment>)
  {
    && e.nextSeq == from + |out|
    && forall i :: 0 <= i < |out| ==> IsSecond(op, out[i], e.channel, e.given, from + i)
  }

  // --------------------------------------------------------------- one sample

  lemma ChopSnoc(pcm: seq<Sample>, x: Sample)
    ensures |Rest(pcm)| < FRAME_SAMPLES - 1 ==> Chop(pcm + [x]) == Chop(pcm) && Rest(pcm + [x]) == Rest(pcm) + [x]
    ensures |Rest(pcm)| == FRAME_SAMPLES - 1 ==> Chop(pcm + [x]) == Chop(pcm) + [Rest(pcm) + [x]] && Rest(pcm + [x]) == []
  {
    var more := pcm + [x];
    if |Rest(pcm)| < FRAME_SAMPLES - 1 {
      assert |more| / FRAME_SAMPLES == |pcm| / FRAME_SAMPLES;
      assert forall i :: 0 <= i < |pcm| / FRAME_SAMPLES ==> Chop(more)[i] == Chop(pcm)[i];
    } else {
      assert |more| / FRAME_SAMPLES == |pcm| / FRAME_SAMPLES + 1;
      assert Chop(more)[|pcm| / FRAME_SAMPLES] == Rest(pcm) + [x];
      assert forall i :: 0 <= i < |pcm| / FRAME_SAMPLES ==> Chop(more)[i] == Chop(pcm)[i];
    }
  }

  lemma {:induction false} PacketsOfPrefix(op: Opus, given: seq<Frame>, more: seq<Frame>, from: nat, n: nat)
    requires from + n <= |given|
    ensures Packets(op, given + more, from, n) == Packets(op, given, from, n)
  {
    if n > 0 {
      PacketsOfPrefix(op, given, more, from, n - 1);
      assert (given + more)[..from + n] == given[..from + n];
    }
  }

  lemma SecondOfPrefix(op: Opus, s: Segment, c: Channel, given: seq<Frame>, more: seq<Frame>, j: nat)
    requires IsSecond(op, s, c, given, j)
    ensures IsSecond(op, s, c, given + more, j)
  {
    hide Packets, Pack;
    PacketsOfPrefix(op, given, more, FRAMES_PER_SEGMENT * j, FRAMES_PER_SEGMENT);
  }

  lemma CodedBuilt(op: Opus, e: Enc, pcm: seq<Sample>)
    requires |e.frames| < FRAMES_PER_SEGMENT
    requires e.given + [e.pending] == Chop(pcm) && Rest(pcm) == []
    requires |e.given| == FRAMES_PER_SEGMENT * e.nextSeq + |e.frames|
    requires e.frames == Packets(op, e.given, FRAMES_PER_SEGMENT * e.nextSeq, |e.frames|)
    ensures var c := Coded(op, e);
            && c.given == Chop(pcm) && c.pending == Rest(pcm) && |c.frames| == |e.frames| + 1
            && |c.given| == FRAMES_PER_SEGMENT * c.nextSeq + |c.frames|
            && c.frames == Packets(op, c.given, FRAMES_PER_SEGMENT * c.nextSeq, |c.frames|)
  {
    hide Chop, Rest;
    PacketsOfPrefix(op, e.given, [e.pending], FRAMES_PER_SEGMENT * e.nextSeq, |e.frames|);
    assert Chop(pcm)[..|Chop(pcm)|] == Chop(pcm);
  }

  lemma FramedBuilt(op: Opus, e: Enc, pcm: seq<Sample>)
    requires |e.frames| < FRAMES_PER_SEGMENT && e.startMs == SEGMENT_MS * e.nextSeq
    requires e.given + [e.pending] == Chop(pcm) && Rest(pcm) == []
    requires |e.given| == FRAMES_PER_SEGMENT * e.nextSeq + |e.frames|
    requires e.frames == Packets(op, e.given, FRAMES_PER_SEGMENT * e.nextSeq, |e.frames|)
    ensures Built(op, Framed(op, e).enc, pcm) && Seconds(op, Framed(op, e).enc, e.nextSeq, Framed(op, e).out)
    ensures Framed(op, e).enc.channel == e.channel
  {
    hide Chop, Rest, Pack, Coded;
    CodedBuilt(op, e, pcm);
    CodedKeeps(op, e);
  }

  lemma CodedKeeps(op: Opus, e: Enc)
    ensures var c := Coded(op, e);
            && c.channel == e.channel && c.nextSeq == e.nextSeq && c.startMs == e.startMs
            && c.silence == e.silence && c.foreignAudio == e.foreignAudio && c.pending == []
  {
  }

  lemma SampledBuilt(op: Opus, e: Enc, pcm: seq<Sample>, x: Sample)
    requires Built(op, e, pcm)
    ensures var s := Sampled(op, e, x);
            Built(op, s.enc, pcm + [x]) && Seconds(op, s.enc, e.nextSeq, s.out) && s.enc.channel == e.channel
  {
    hide Chop, Rest, Pack, Packets, Framed, IsSecond;
    ChopSnoc(pcm, x);
    if |e.pending| == FRAME_SAMPLES - 1 {
      FramedBuilt(op, e.(pending := e.pending + [x]), pcm + [x]);
    }
  }

  // ------------------------------------------------------------- many samples

  lemma GivenGrows(op: Opus, e: Enc, x: Sample)
    ensures exists more :: Sampled(op, e, x).enc.given == e.given + more
  {
    if |e.pending| + 1 == FRAME_SAMPLES {
      assert Sampled(op, e, x).enc.given == e.given + [e.pending + [x]];
    } else {
      assert Sampled(op, e, x).enc.given == e.given + [];
    }
  }

  lemma SecondsJoin(op: Opus, mid: Enc, from: nat, a: seq<Segment>, end: Enc, b: seq<Segment>, more: seq<Frame>)
    requires Seconds(op, mid, from, a) && Seconds(op, end, mid.nextSeq, b)
    requires end.channel == mid.channel && end.given == mid.given + more
    ensures Seconds(op, end, from, a + b)
  {
    hide IsSecond;
    forall i | 0 <= i < |a + b| ensures IsSecond(op, (a + b)[i], end.channel, end.given, from + i) {
      if i < |a| {
        SecondOfPrefix(op, a[i], mid.channel, mid.given, more, from + i);
      } else {
        assert IsSecond(op, b[i - |a|], end.channel, end.given, mid.nextSeq + (i - |a|));
      }
    }
  }

  lemma {:induction false} FedBuilt(op: Opus, e: Enc, pcm: seq<Sample>, xs: seq<Sample>)
    requires Built(op, e, pcm)
    ensures var r := Fed(op, e, xs);
            Built(op, r.enc, pcm + xs) && Seconds(op, r.enc, e.nextSeq, r.out) && r.enc.channel == e.channel
  {
    hide Built, Seconds, Sampled;
    if xs == [] {
      assert pcm + xs == pcm;
      NoSeconds(op, e);
    } else {
      var init, x := xs[..|xs| - 1], xs[|xs| - 1];
      FedBuilt(op, e, pcm, init);
      var mid := Fed(op, e, init);
      SampledBuilt(op, mid.enc, pcm + init, x);
      assert (pcm + init) + [x] == pcm + xs;
      GivenGrows(op, mid.enc, x);
      var s := Sampled(op, mid.enc, x);
      var more :| s.enc.given == mid.enc.given + more;
      SecondsJoin(op, mid.enc, e.nextSeq, mid.out, s.enc, s.out, more);
    }
  }

  lemma NoSeconds(op: Opus, e: Enc)
    ensures Seconds(op, e, e.nextSeq, [])
  {
  }

  // ------------------------------------------------------------ a whole call

  datatype Event = Push(samples: seq<Sample>) | Gap(ms: nat) | MarkForeign

  /** The stream an event adds. */
  function Track(ev: Event): seq<Sample>
  {
    match ev
    case Push(xs) => xs
    case Gap(ms) => Zeros(SAMPLES_PER_MS * ms)
    case MarkForeign => []
  }

  function Applied(op: Opus, e: Enc, ev: Event): Step
  {
    match ev
    case Push(xs) => Fed(op, e, xs)
    case Gap(ms) => Silenced(op, e, ms)
    case MarkForeign => Step(e.(foreignAudio := true), [])
  }

  function Stream(evs: seq<Event>): seq<Sample>
  {
    if evs == [] then [] else Stream(evs[..|evs| - 1]) + Track(evs[|evs| - 1])
  }

  function Run(op: Opus, c: Channel, evs: seq<Event>): Step
  {
    if evs == [] then Step(Start(c), [])
    else
      var before := Run(op, c, evs[..|evs| - 1]);
      var last := Applied(op, before.enc, evs[|evs| - 1]);
      Step(last.enc, before.out + last.out)
  }

  lemma FlagsDoNotMatter(op: Opus, e: Enc, pcm: seq<Sample>, silence: bool, foreignAudio: bool)
    requires Built(op, e, pcm)
    ensures Built(op, e.(silence := silence, foreignAudio := foreignAudio), pcm)
  {
    hide Chop, Rest, Packets;
  }

  lemma {:induction false} FedGrows(op: Opus, e: Enc, xs: seq<Sample>)
    ensures exists more :: Fed(op, e, xs).enc.given == e.given + more
  {
    hide Sampled;
    if xs == [] {
      assert Fed(op, e, xs).enc.given == e.given + [];
    } else {
      FedGrows(op, e, xs[..|xs| - 1]);
      var mid := Fed(op, e, xs[..|xs| - 1]).enc;
      GivenGrows(op, mid, xs[|xs| - 1]);
      var a :| mid.given == e.given + a;
      var b :| Sampled(op, mid, xs[|xs| - 1]).enc.given == mid.given + b;
      assert Fed(op, e, xs).enc.given == e.given + (a + b);
    }
  }

  lemma AppliedBuilt(op: Opus, e: Enc, pcm: seq<Sample>, ev: Event) returns (more: seq<Frame>)
    requires Built(op, e, pcm)
    ensures var r := Applied(op, e, ev);
            && Built(op, r.enc, pcm + Track(ev)) && Seconds(op, r.enc, e.nextSeq, r.out)
            && r.enc.channel == e.channel && r.enc.given == e.given + more
  {
    hide Built, Seconds, Fed;
    var marked := match ev
      case Push(_) => e
      case Gap(ms) => if ms == 0 then e else e.(silence := true)
      case MarkForeign => e.(foreignAudio := true);
    FlagsDoNotMatter(op, e, pcm, marked.silence, marked.foreignAudio);
    FedBuilt(op, marked, pcm, Track(ev));
    FedGrows(op, marked, Track(ev));
    NothingFed(op, marked, Track(ev));
    more :| Fed(op, marked, Track(ev)).enc.given == e.given + more;
    assert Applied(op, e, ev) == Fed(op, marked, Track(ev)) by {
      assert Track(ev) == [] ==> Track(ev)[..0] == Track(ev);
      assert ev == Gap(0) ==> Track(ev) == [];
    }
  }

  /** Every run emits exactly the seconds of the stream, in order, and holds the remainder. */
  lemma {:induction false} RunIsReference(op: Opus, c: Channel, evs: seq<Event>)
    ensures var r := Run(op, c, evs);
            Built(op, r.enc, Stream(evs)) && Seconds(op, r.enc, 0, r.out) && r.enc.channel == c
  {
    hide Built, Seconds, Applied;
    if evs == [] {
      StartBuilt(op, c);
    } else {
      var init, ev := evs[..|evs| - 1], evs[|evs| - 1];
      RunIsReference(op, c, init);
      var mid := Run(op, c, init);
      var more := AppliedBuilt(op, mid.enc, Stream(init), ev);
      var last := Applied(op, mid.enc, ev);
      SecondsJoin(op, mid.enc, 0, mid.out, last.enc, last.out, more);
    }
  }

  lemma StartBuilt(op: Opus, c: Channel)
    ensures Built(op, Start(c), []) && Seconds(op, Start(c), 0, [])
  {
  }

  /** A call emits one segment for every whole second, and a flush one more for the remainder. */
  lemma SegmentCount(op: Opus, c: Channel, evs: seq<Event>)
    ensures var r, n := Run(op, c, evs), |Stream(evs)|;
            && |r.out| == n / SEGMENT_SAMPLES
            && |r.out| + |Flushed(op, r.enc).out| == (n + SEGMENT_SAMPLES - 1) / SEGMENT_SAMPLES
  {
    hide Run, Stream, Packets, Padded, Filled, IsSecond;
    RunIsReference(op, c, evs);
    var r, pcm := Run(op, c, evs), Stream(evs);
    Remainder(|pcm|, |r.out|, |r.enc.frames|, |r.enc.pending|);
  }

  lemma Remainder(n: nat, seconds: nat, frames: nat, pending: nat)
    requires n / FRAME_SAMPLES == FRAMES_PER_SEGMENT * seconds + frames && frames < FRAMES_PER_SEGMENT
    requires pending == n - FRAME_SAMPLES * (n / FRAME_SAMPLES)
    ensures seconds == n / SEGMENT_SAMPLES
    ensures FRAME_SAMPLES * frames + pending == n % SEGMENT_SAMPLES
    ensures (n + SEGMENT_SAMPLES - 1) / SEGMENT_SAMPLES == seconds + if FRAME_SAMPLES * frames + pending == 0 then 0 else 1
  {
  }

  // ------------------------------------------------------- the last, partial second

  /** Silence up to the end of the frame. */
  function PadTo(pcm: seq<Sample>): seq<Sample>
  {
    if Rest(pcm) == [] then pcm else pcm + Zeros(FRAME_SAMPLES - |Rest(pcm)|)
  }

  lemma ChopPad(pcm: seq<Sample>)
    requires Rest(pcm) != []
    ensures Rest(PadTo(pcm)) == []
    ensures Chop(PadTo(pcm)) == Chop(pcm) + [Rest(pcm) + Zeros(FRAME_SAMPLES - |Rest(pcm)|)]
  {
    var n := |pcm| / FRAME_SAMPLES;
    assert |PadTo(pcm)| / FRAME_SAMPLES == n + 1;
    assert Chop(PadTo(pcm))[n] == Rest(pcm) + Zeros(FRAME_SAMPLES - |Rest(pcm)|);
    assert forall i :: 0 <= i < n ==> Chop(PadTo(pcm))[i] == Chop(pcm)[i];
  }

  lemma PaddedBuilt(op: Opus, e: Enc, pcm: seq<Sample>)
    requires Built(op, e, pcm)
    ensures var p := Padded(op, e);
            && p.channel == e.channel && p.nextSeq == e.nextSeq && p.startMs == e.startMs
            && p.given == Chop(PadTo(pcm)) && |p.frames| <= FRAMES_PER_SEGMENT
            && |p.given| == FRAMES_PER_SEGMENT * p.nextSeq + |p.frames|
            && p.frames == Packets(op, p.given, FRAMES_PER_SEGMENT * p.nextSeq, |p.frames|)
            && (p.silence || p.frames == e.frames) && p.foreignAudio == e.foreignAudio && p.pending == []
  {
    hide Chop, Rest, Packets, Coded;
    if e.pending != [] {
      ChopPad(pcm);
      var z := e.(pending := e.pending + Zeros(FRAME_SAMPLES - |e.pending|), silence := true);
      CodedBuilt(op, z, PadTo(pcm));
      CodedKeeps(op, z);
    }
  }

  /** A flush emits the remainder as one whole, flagged second: its packets, then dropped frames. */
  lemma FlushIsPadded(op: Opus, e: Enc, pcm: seq<Sample>)
    requires Built(op, e, pcm) && Position(e) > 0
    ensures |Flushed(op, e).out| == 1
    ensures var r := Flushed(op, e).enc; r.nextSeq == e.nextSeq + 1 && Position(r) == 0 && !r.silence && !r.foreignAudio
    ensures var s, given := Flushed(op, e).out[0], Chop(PadTo(pcm));
            && s.channel == e.channel && s.num == e.nextSeq && s.timestampMs == SEGMENT_MS * e.nextSeq
            && s.flags == MediaFlags(e.foreignAudio, true)
            && FRAMES_PER_SEGMENT * e.nextSeq <= |given| <= FRAMES_PER_SEGMENT * (e.nextSeq + 1)
            && var n := |given| - FRAMES_PER_SEGMENT * e.nextSeq;
               s.payload == Pack(Packets(op, given, FRAMES_PER_SEGMENT * e.nextSeq, n) + Empties(FRAMES_PER_SEGMENT - n))
  {
    hide Chop, Rest, Packets, Padded, Pack, PadTo, Empties;
    PaddedBuilt(op, e, pcm);
    var p := Padded(op, e);
    if |p.frames| == FRAMES_PER_SEGMENT {
      assert p.frames + Empties(0) == p.frames;
    }
  }

  // ----------------------------------------------------- whole calls downstream

  ghost predicate Bounded(op: Opus) { forall given: seq<Frame> :: |op(given)| <= MAX_PACKET }

  ghost predicate Small(frames: seq<Bytes>) { forall i :: 0 <= i < |frames| ==> |frames[i]| <= MAX_PACKET }

  lemma {:induction false} PacketsSmall(op: Opus, given: seq<Frame>, from: nat, n: nat)
    requires Bounded(op) && from + n <= |given|
    ensures Small(Packets(op, given, from, n))
  {
    if n > 0 {
      PacketsSmall(op, given, from, n - 1);
    }
  }

  lemma FiftyPackets(frames: seq<Bytes>)
    requires |frames| == FRAMES_PER_SEGMENT && Small(frames)
    ensures Unpack(Pack(frames), 0) == Unpacked.Frames(frames)
    ensures |Pack(frames)| <= Wire.MAX_SEGMENT_BYTES
  {
    hide Unpack, Pack;
    RoundTripIff(frames);
    PackLength(frames, MAX_PACKET);
  }

  lemma SmallWithEmpties(frames: seq<Bytes>, n: nat)
    requires Small(frames)
    ensures Small(frames + Empties(n))
  {
  }

  /** All of a call's segments. */
  function Call(op: Opus, c: Channel, evs: seq<Event>): seq<Segment>
  {
    var r := Run(op, c, evs);
    r.out + Flushed(op, r.enc).out
  }

  ghost predicate Whole(s: Segment, c: Channel, j: nat)
  {
    && s.channel == c && s.num == j && s.timestampMs == SEGMENT_MS * j
    && WholeSegment(s.payload) && |s.payload| <= Wire.MAX_SEGMENT_BYTES
  }

  lemma SecondIsWhole(op: Opus, s: Segment, c: Channel, given: seq<Frame>, j: nat)
    requires Bounded(op) && IsSecond(op, s, c, given, j)
    ensures Whole(s, c, j)
  {
    hide Packets, Unpack, Pack, Bounded, Small;
    PacketsSmall(op, given, FRAMES_PER_SEGMENT * j, FRAMES_PER_SEGMENT);
    FiftyPackets(Packets(op, given, FRAMES_PER_SEGMENT * j, FRAMES_PER_SEGMENT));
  }

  lemma FlushIsWhole(op: Opus, e: Enc, pcm: seq<Sample>)
    requires Bounded(op) && Built(op, e, pcm) && Position(e) > 0
    ensures |Flushed(op, e).out| == 1 && Whole(Flushed(op, e).out[0], e.channel, e.nextSeq)
  {
    hide Packets, Unpack, Pack, Bounded, Small, Built, Flushed, Chop, PadTo, Empties;
    FlushIsPadded(op, e, pcm);
    var given, from := Chop(PadTo(pcm)), FRAMES_PER_SEGMENT * e.nextSeq;
    PacketsSmall(op, given, from, |given| - from);
    SmallWithEmpties(Packets(op, given, from, |given| - from), FRAMES_PER_SEGMENT - (|given| - from));
    FiftyPackets(Packets(op, given, from, |given| - from) + Empties(FRAMES_PER_SEGMENT - (|given| - from)));
  }

  /** A call's segments count its seconds, rounded up: 0, 1, 2, ... with no gap, each exactly a second long. */
  lemma CallSegments(op: Opus, c: Channel, evs: seq<Event>, j: nat)
    requires Bounded(op)
    ensures |Call(op, c, evs)| == (|Stream(evs)| + SEGMENT_SAMPLES - 1) / SEGMENT_SAMPLES
    ensures j < |Call(op, c, evs)| ==> Whole(Call(op, c, evs)[j], c, j)
  {
    hide Run, Stream, Flushed, Bounded, Built, Whole, IsSecond;
    RunIsReference(op, c, evs);
    SegmentCount(op, c, evs);
    var r := Run(op, c, evs);
    if j < |r.out| {
      SecondIsWhole(op, r.out[j], c, r.enc.given, j);
    } else if j < |Call(op, c, evs)| {
      NothingToFlush(op, r.enc);
      FlushIsWhole(op, r.enc, Stream(evs));
    }
  }

  lemma NothingToFlush(op: Opus, e: Enc)
    ensures Position(e) == 0 ==> Flushed(op, e).out == []
  {
  }

  /** Any batch of a call's segments is one acceptable message. */
  lemma BatchOfCall(op: Opus, c: Channel, evs: seq<Event>, batch: seq<Wire.Record>, picks: seq<nat>)
    requires Bounded(op) && |batch| == |picks| <= SEGMENTS_PER_MESSAGE
    requires forall i :: 0 <= i < |picks| ==>
               picks[i] < |Call(op, c, evs)| && batch[i].payload == Call(op, c, evs)[picks[i]].payload
    ensures Wire.AllEncodable(batch) && Wire.Message(Wire.EncodeAll(batch)) == Wire.Ok(batch)
  {
    hide Call, Bounded, Wire.AllEncodable, Wire.Message, Wire.EncodeAll, Stream;
    forall i | 0 <= i < |batch| ensures |batch[i].payload| <= Wire.MAX_SEGMENT_BYTES {
      CallSegments(op, c, evs, picks[i]);
    }
    Wire.BatchIsAccepted(batch);
  }

  function Payloads(out: seq<Segment>): (ps: seq<Bytes>)
    ensures |ps| == |out| && forall i :: 0 <= i < |out| ==> ps[i] == out[i].payload
  {
    seq(|out|, i requires 0 <= i < |out| => out[i].payload)
  }

  /** The server decodes a call to exactly its seconds. */
  lemma CallDecodesToItsLength(op: Opus, c: Channel, evs: seq<Event>, decode: Decoder)
    requires Bounded(op) && WholeFrames(decode)
    ensures var k := (|Stream(evs)| + SEGMENT_SAMPLES - 1) / SEGMENT_SAMPLES;
            var ps := AllPackets(Payloads(Call(op, c, evs)));
            ps.Some? && |Pcm(decode, ps.value, |ps.value|)| == 32_000 * k
  {
    hide Call, Bounded, Stream, WholeFrames, AllPackets, Pcm;
    var payloads := Payloads(Call(op, c, evs));
    CallSegments(op, c, evs, 0);
    forall i | 0 <= i < |payloads| ensures WholeSegment(payloads[i]) {
      CallSegments(op, c, evs, i);
    }
    SegmentsAreSeconds(decode, payloads);
  }

  lemma {:induction false} PacketsSplit(op: Opus, given: seq<Frame>, a: nat, b: nat)
    requires a + b <= |given|
    ensures Packets(op, given, 0, a + b) == Packets(op, given, 0, a) + Packets(op, given, a, b)
    decreases b
  {
    if b > 0 {
      PacketsSplit(op, given, a, b - 1);
    }
  }

  lemma AsPacketsJoin(a: seq<Bytes>, b: seq<Bytes>)
    ensures AsPackets(a + b) == AsPackets(a) + AsPackets(b)
  {
  }

  /** The server is handed the very packet stream the encoder made: each packet once, in order. */
  lemma {:induction false} ServerHearsTheStream(op: Opus, e: Enc, out: seq<Segment>, k: nat)
    requires Bounded(op) && Seconds(op, e, 0, out) && k <= |out|
    ensures FRAMES_PER_SEGMENT * k <= |e.given|
    ensures AllPackets(Payloads(out)[..k]) == Some(AsPackets(Packets(op, e.given, 0, FRAMES_PER_SEGMENT * k)))
  {
    hide Bounded, Packets, Pack, Unpack, AsPackets, Payloads;
    if k == 0 {
      NoPacketsYet(op, e.given);
      assert Payloads(out)[..0] == [];
    } else {
      ServerHearsTheStream(op, e, out, k - 1);
      var from := FRAMES_PER_SEGMENT * (k - 1);
      assert IsSecond(op, out[k - 1], e.channel, e.given, 0 + (k - 1));
      var last := Packets(op, e.given, from, FRAMES_PER_SEGMENT);
      AllPacketsSnoc(Payloads(out), k - 1);
      PacketsSmall(op, e.given, from, FRAMES_PER_SEGMENT);
      FiftyPackets(last);
      PacketsSplit(op, e.given, from, FRAMES_PER_SEGMENT);
      AsPacketsJoin(Packets(op, e.given, 0, from), last);
    }
  }

  lemma NoPacketsYet(op: Opus, given: seq<Frame>)
    ensures AllPackets([]) == Some(AsPackets(Packets(op, given, 0, 0)))
  {
  }

  /** The frames of a whole call: the stream padded to a frame, then dropped frames to the end of its last second. */
  function Heard(op: Opus, evs: seq<Event>, seconds: nat): seq<Bytes>
  {
    var given := Chop(PadTo(Stream(evs)));
    Packets(op, given, 0, |given|) + Empties(SatSub(FRAMES_PER_SEGMENT * seconds, |given|))
  }

  lemma PadExtends(pcm: seq<Sample>) returns (more: seq<Frame>)
    ensures Chop(PadTo(pcm)) == Chop(pcm) + more && (Rest(pcm) == [] ==> more == [])
  {
    if Rest(pcm) == [] {
      more := [];
    } else {
      ChopPad(pcm);
      more := [Rest(pcm) + Zeros(FRAME_SAMPLES - |Rest(pcm)|)];
    }
  }

  /** The flushed segment continues the stream where the whole seconds stopped. */
  lemma FlushIsHeard(op: Opus, e: Enc, pcm: seq<Sample>, k: nat) returns (frames: seq<Bytes>)
    requires Bounded(op) && Built(op, e, pcm) && k == e.nextSeq && Position(e) > 0
    ensures |Flushed(op, e).out| == 1 && Unpack(Flushed(op, e).out[0].payload, 0) == Unpacked.Frames(frames)
    ensures var given, end := Chop(PadTo(pcm)), FRAMES_PER_SEGMENT * (k + 1);
            && FRAMES_PER_SEGMENT * k <= |e.given| && |given| <= end
            && Packets(op, e.given, 0, FRAMES_PER_SEGMENT * k) + frames == Packets(op, given, 0, |given|) + Empties(end - |given|)
  {
    hide Packets, Pack, Unpack, Chop, PadTo, Rest, Empties, Flushed, Small, Bounded;
    var given, from := Chop(PadTo(pcm)), FRAMES_PER_SEGMENT * k;
    FlushIsPadded(op, e, pcm);
    var n := |given| - from;
    frames := Packets(op, given, from, n) + Empties(FRAMES_PER_SEGMENT - n);
    PacketsSmall(op, given, from, n);
    SmallWithEmpties(Packets(op, given, from, n), FRAMES_PER_SEGMENT - n);
    FiftyPackets(frames);
    var more := PadExtends(pcm);
    PacketsOfPrefix(op, e.given, more, 0, from);
    PacketsSplit(op, given, from, n);
    assert Packets(op, e.given, 0, from) + frames == Packets(op, given, 0, |given|) + Empties(FRAMES_PER_SEGMENT - n);
  }

  lemma PayloadsJoin(out: seq<Segment>, s: Segment)
    ensures Payloads(out + [s])[..|out|] == Payloads(out) && Payloads(out + [s]) == Payloads(out) + [s.payload]
    ensures Payloads(out)[..|out|] == Payloads(out)
  {
  }

  lemma OneMoreHeard(out: seq<Segment>, s: Segment, before: seq<Bytes>, frames: seq<Bytes>)
    requires AllPackets(Payloads(out)) == Some(AsPackets(before)) && Unpack(s.payload, 0) == Unpacked.Frames(frames)
    ensures AllPackets(Payloads(out + [s])) == Some(AsPackets(before + frames))
  {
    hide Unpack, AsPackets, Payloads, AllPackets;
    PayloadsJoin(out, s);
    AllPacketsSnoc(Payloads(out + [s]), |out|);
    assert Payloads(out + [s])[..|out| + 1] == Payloads(out + [s]);
    AsPacketsJoin(before, frames);
  }

  lemma WholeIsHeard(op: Opus, e: Enc, pcm: seq<Sample>, k: nat)
    requires Built(op, e, pcm) && k == e.nextSeq && Position(e) == 0
    ensures var given, end := Chop(PadTo(pcm)), FRAMES_PER_SEGMENT * k;
            |given| == end && Packets(op, e.given, 0, end) == Packets(op, given, 0, |given|) + Empties(SatSub(end, |given|))
  {
    hide Packets, Chop;
  }

  /** A whole call, flushed second and all: the server decodes the encoder's packets, then the dropped frames it was told of. */
  lemma CallIsHeard(op: Opus, c: Channel, evs: seq<Event>)
    requires Bounded(op)
    ensures AllPackets(Payloads(Call(op, c, evs))) == Some(AsPackets(Heard(op, evs, |Call(op, c, evs)|)))
  {
    hide Run, Stream, Built, Packets, Flushed, AllPackets, Payloads, Chop, PadTo, AsPackets, Bounded, IsSecond, Empties, Unpack;
    var r, pcm := Run(op, c, evs), Stream(evs);
    RunIsReference(op, c, evs);
    ServerHearsTheStream(op, r.enc, r.out, |r.out|);
    assert Payloads(r.out)[..|r.out|] == Payloads(r.out);
    if Position(r.enc) == 0 {
      NothingToFlush(op, r.enc);
      WholeIsHeard(op, r.enc, pcm, |r.out|);
      assert Call(op, c, evs) == r.out;
    } else {
      var frames := FlushIsHeard(op, r.enc, pcm, |r.out|);
      var s := Flushed(op, r.enc).out[0];
      assert Call(op, c, evs) == r.out + [s];
      OneMoreHeard(r.out, s, Packets(op, r.enc.given, 0, FRAMES_PER_SEGMENT * |r.out|), frames);
    }
  }

  // ------------------------------------------------------------------- flags

  /** What is marked goes out on the segment under construction, and on that one only. */
  lemma {:induction false} FlagsOfFed(op: Opus, e: Enc, xs: seq<Sample>)
    requires Tidy(e)
    ensures var r := Fed(op, e, xs);
            && Tidy(r.enc) && SEGMENT_SAMPLES * |r.out| + Position(r.enc) == Position(e) + |xs|
            && (r.out == [] ==> r.enc.silence == e.silence && r.enc.foreignAudio == e.foreignAudio)
            && (r.out != [] ==> r.out[0].flags == MediaFlags(e.foreignAudio, e.silence) && !r.enc.silence && !r.enc.foreignAudio)
            && forall i :: 1 <= i < |r.out| ==> r.out[i].flags == MediaFlags(false, false)
  {
    if xs != [] {
      FlagsOfFed(op, e, xs[..|xs| - 1]);
      SampledFlags(op, Fed(op, e, xs[..|xs| - 1]).enc, xs[|xs| - 1]);
    }
  }

  lemma SampledFlags(op: Opus, e: Enc, x: Sample)
    requires Tidy(e)
    ensures var r := Sampled(op, e, x);
            && Tidy(r.enc) && SEGMENT_SAMPLES * |r.out| + Position(r.enc) == Position(e) + 1 && |r.out| <= 1
            && (r.out == [] ==> r.enc.silence == e.silence && r.enc.foreignAudio == e.foreignAudio)
            && (r.out != [] ==> r.out[0].flags == MediaFlags(e.foreignAudio, e.silence) && !r.enc.silence && !r.enc.foreignAudio)
  {
    hide Pack;
  }

  /** The numbers of the seconds marked so far, and the encoder's marks for the one under construction. */
  ghost predicate Marks(e: Enc, foreign: set<nat>, silent: set<nat>)
  {
    && (e.foreignAudio <==> e.nextSeq in foreign) && (e.silence <==> e.nextSeq in silent)
    && (forall m :: m in foreign ==> m <= e.nextSeq) && (forall m :: m in silent ==> m <= e.nextSeq)
  }

  ghost predicate Flagged(out: seq<Segment>, foreign: set<nat>, silent: set<nat>)
  {
    forall i :: 0 <= i < |out| ==> out[i].flags == MediaFlags(out[i].num in foreign, out[i].num in silent)
  }

  lemma SampledFlagged(op: Opus, e: Enc, x: Sample, foreign: set<nat>, silent: set<nat>)
    requires Marks(e, foreign, silent)
    ensures var r := Sampled(op, e, x); Marks(r.enc, foreign, silent) && Flagged(r.out, foreign, silent)
  {
    hide Pack;
  }

  lemma {:induction false} FedFlagged(op: Opus, e: Enc, xs: seq<Sample>, foreign: set<nat>, silent: set<nat>)
    requires Marks(e, foreign, silent)
    ensures var r := Fed(op, e, xs); Marks(r.enc, foreign, silent) && Flagged(r.out, foreign, silent)
  {
    hide Marks, Sampled;
    if xs != [] {
      FedFlagged(op, e, xs[..|xs| - 1], foreign, silent);
      SampledFlagged(op, Fed(op, e, xs[..|xs| - 1]).enc, xs[|xs| - 1], foreign, silent);
    }
  }

  /** The seconds of the stream in which foreign audio was noticed. */
  ghost function ForeignSeconds(evs: seq<Event>): set<nat>
  {
    set i | 0 <= i < |evs| && evs[i].MarkForeign? :: |Stream(evs[..i])| / SEGMENT_SAMPLES
  }

  /** The seconds of the stream in which a gap began. */
  ghost function GapSeconds(evs: seq<Event>): set<nat>
  {
    set i | 0 <= i < |evs| && evs[i].Gap? && evs[i].ms > 0 :: |Stream(evs[..i])| / SEGMENT_SAMPLES
  }

  lemma SecondsSnoc(evs: seq<Event>, ev: Event)
    ensures var now := |Stream(evs)| / SEGMENT_SAMPLES;
            && ForeignSeconds(evs + [ev]) == ForeignSeconds(evs) + (if ev.MarkForeign? then {now} else {})
            && GapSeconds(evs + [ev]) == GapSeconds(evs) + (if ev.Gap? && ev.ms > 0 then {now} else {})
  {
    var all := evs + [ev];
    assert all[..|evs|] == evs;
    forall i | 0 <= i < |evs| ensures all[..i] == evs[..i] && all[i] == evs[i] {}
    hide Stream;
    var f, g := ForeignSeconds(all), GapSeconds(all);
    forall m ensures m in f <==> m in ForeignSeconds(evs) || (ev.MarkForeign? && m == |Stream(evs)| / SEGMENT_SAMPLES) {
      if ev.MarkForeign? { assert all[|evs|].MarkForeign?; }
      if i :| 0 <= i < |evs| && evs[i].MarkForeign? && m == |Stream(evs[..i])| / SEGMENT_SAMPLES { assert all[i].MarkForeign?; }
    }
    forall m ensures m in g <==> m in GapSeconds(evs) || (ev.Gap? && ev.ms > 0 && m == |Stream(evs)| / SEGMENT_SAMPLES) {
      if ev.Gap? { assert all[|evs|].Gap?; }
      if i :| 0 <= i < |evs| && evs[i].Gap? && evs[i].ms > 0 && m == |Stream(evs[..i])| / SEGMENT_SAMPLES { assert all[i].Gap?; }
    }
  }

  /** A mark on the second under construction does not touch the ones before it. */
  lemma FlaggedBefore(out: seq<Segment>, foreign: set<nat>, silent: set<nat>, more: set<nat>, quiet: set<nat>, n: nat)
    requires Flagged(out, foreign, silent) && (forall i :: 0 <= i < |out| ==> out[i].num < n) && more <= {n} && quiet <= {n}
    ensures Flagged(out, foreign + more, silent + quiet)
  {
    forall i | 0 <= i < |out| ensures out[i].num !in more && out[i].num !in quiet {}
  }

  lemma {:induction false} RunFlagged(op: Opus, c: Channel, evs: seq<Event>)
    ensures var r := Run(op, c, evs);
            && Marks(r.enc, ForeignSeconds(evs), GapSeconds(evs)) && Flagged(r.out, ForeignSeconds(evs), GapSeconds(evs))
            && forall j :: 0 <= j < |r.out| ==> r.out[j].num == j
  {
    hide Stream, Built, IsSecond, Marks, Flagged, Applied;
    RunIsReference(op, c, evs);
    var r := Run(op, c, evs);
    forall j | 0 <= j < |r.out| ensures r.out[j].num == j { NumOfSecond(op, r.out[j], c, r.enc.given, j); }
    if evs == [] {
      StartFlagged(c);
    } else {
      hide ForeignSeconds, GapSeconds;
      var init, ev := evs[..|evs| - 1], evs[|evs| - 1];
      var mid, now := Run(op, c, init), |Stream(init)| / SEGMENT_SAMPLES;
      RunFlagged(op, c, init);
      RunIsReference(op, c, init);
      SegmentCount(op, c, init);
      assert evs == init + [ev];
      SecondsSnoc(init, ev);
      var foreign, silent := ForeignSeconds(init), GapSeconds(init);
      var more, quiet := if ev.MarkForeign? then {now} else {}, if ev.Gap? && ev.ms > 0 then {now} else {};
      AppliedFlagged(op, mid.enc, ev, foreign, silent);
      FlaggedBefore(mid.out, foreign, silent, more, quiet, now);
      FlaggedJoin(mid.out, Applied(op, mid.enc, ev).out, foreign + more, silent + quiet);
    }
  }

  lemma StartFlagged(c: Channel)
    ensures Marks(Start(c), ForeignSeconds([]), GapSeconds([])) && Flagged([], ForeignSeconds([]), GapSeconds([]))
  {
  }

  lemma FlaggedJoin(a: seq<Segment>, b: seq<Segment>, foreign: set<nat>, silent: set<nat>)
    requires Flagged(a, foreign, silent) && Flagged(b, foreign, silent)
    ensures Flagged(a + b, foreign, silent)
  {
  }

  /**
   Over every mixture of pushes, gaps and marks: a segment is flagged foreign if and only if foreign
   audio was noticed in its second, and as holding silence if and only if a gap began in it.
   */
  lemma FlagsIff(op: Opus, c: Channel, evs: seq<Event>, j: nat)
    requires j < |Run(op, c, evs).out|
    ensures Run(op, c, evs).out[j].flags == MediaFlags(j in ForeignSeconds(evs), j in GapSeconds(evs))
  {
    hide Run, ForeignSeconds, GapSeconds;
    RunFlagged(op, c, evs);
  }

  lemma NumOfSecond(op: Opus, s: Segment, c: Channel, given: seq<Frame>, j: nat)
    requires IsSecond(op, s, c, given, j)
    ensures s.num == j
  {
  }

  lemma AppliedFlagged(op: Opus, e: Enc, ev: Event, foreign: set<nat>, silent: set<nat>)
    requires Marks(e, foreign, silent)
    ensures var r := Applied(op, e, ev);
            var f, g := foreign + (if ev.MarkForeign? then {e.nextSeq} else {}), silent + (if ev.Gap? && ev.ms > 0 then {e.nextSeq} else {});
            Marks(r.enc, f, g) && Flagged(r.out, f, g)
  {
    hide Fed;
    match ev
    case Push(xs) => FedFlagged(op, e, xs, foreign, silent);
    case Gap(ms) => if ms > 0 { FedFlagged(op, e.(silence := true), Zeros(SAMPLES_PER_MS * ms), foreign, silent + {e.nextSeq}); }
    case MarkForeign =>
  }

  /** Every second a gap reached is flagged: those sent, and the one still open if the gap reached into it. */
  predicate GapFlagged(r: Step)
  {
    && (forall i :: 0 <= i < |r.out| ==> r.out[i].flags.silenceInserted)
    && (Position(r.enc) > 0 ==> r.enc.silence)
  }

  /** A gap is fully flagged exactly when it ends within the second it began in. */
  lemma GapFlaggedIff(op: Opus, e: Enc, gapMs: nat)
    requires Tidy(e) && gapMs > 0
    ensures GapFlagged(Silenced(op, e, gapMs)) <==> Position(e) + SAMPLES_PER_MS * gapMs <= SEGMENT_SAMPLES
  {
    hide Fed;
    var r := Silenced(op, e, gapMs);
    FlagsOfFed(op, e.(silence := true), Zeros(SAMPLES_PER_MS * gapMs));
    if |r.out| > 1 {
      assert !r.out[1].flags.silenceInserted;
    }
  }

  /** A two-second gap at the start of a call leaves its second second unflagged. */
  lemma LongGapIsHalfFlagged(op: Opus, c: Channel)
    ensures !GapFlagged(Silenced(op, Start(c), 2000))
  {
    GapFlaggedIff(op, Start(c), 2000);
  }
}
