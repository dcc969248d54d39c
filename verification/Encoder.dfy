/**
 Segmentation: one channel's PCM into numbered one-second segments of fifty Opus
 packets (client/sentinel-agent/src/encode.rs).

 Opus is stateful, so it is a function of every frame given to it so far.
 */
module Encoder {
  import opened Prelude
  import opened Media
  import opened Frames

  type Sample = x: int | -32768 <= x <= 32767

  type Frame = seq<Sample>

  type Opus = seq<Frame> -> Bytes

  const FRAME_SAMPLES := 320
  const SAMPLES_PER_MS := 16
  const SEGMENT_SAMPLES := 16_000
  const SEGMENT_MS := 1000

  datatype Segment = Segment(channel: Channel, num: nat, timestampMs: nat, flags: MediaFlags, payload: Bytes)

  /** The encoder's fields; `given` stands for the state inside Opus. */
  datatype Enc = Enc(channel: Channel, given: seq<Frame>, pending: Frame, frames: seq<Bytes>,
                     nextSeq: nat, startMs: nat, silence: bool, foreignAudio: bool)

  datatype Step = Step(enc: Enc, out: seq<Segment>)

  function Start(c: Channel): Enc { Enc(c, [], [], [], 0, 0, false, false) }

  function Sealed(e: Enc): Segment
  {
    Segment(e.channel, e.nextSeq, e.startMs, MediaFlags(e.foreignAudio, e.silence), Pack(e.frames))
  }

  function Next(e: Enc): Enc
  {
    e.(frames := [], nextSeq := e.nextSeq + 1, startMs := e.startMs + SEGMENT_MS, silence := false, foreignAudio := false)
  }

  /** The pending frame encoded. */
  function Coded(op: Opus, e: Enc): Enc
  {
    var given := e.given + [e.pending];
    e.(given := given, frames := e.frames + [op(given)], pending := [])
  }

  function Framed(op: Opus, e: Enc): Step
  {
    var c := Coded(op, e);
    if |c.frames| == FRAMES_PER_SEGMENT then Step(Next(c), [Sealed(c)]) else Step(c, [])
  }

  /** One sample in. */
  function Sampled(op: Opus, e: Enc, x: Sample): Step
  {
    var p := e.(pending := e.pending + [x]);
    if |p.pending| == FRAME_SAMPLES then Framed(op, p) else Step(p, [])
  }

  /** The specification: samples one at a time, whatever the size of the buffers they came in. */
  function Fed(op: Opus, e: Enc, xs: seq<Sample>): Step
  {
    if xs == [] then Step(e, [])
    else
      var before := Fed(op, e, xs[..|xs| - 1]);
      var last := Sampled(op, before.enc, xs[|xs| - 1]);
      Step(last.enc, before.out + last.out)
  }

  function Zeros(n: nat): (z: Frame)
    ensures |z| == n
  {
    seq(n, _ => 0)
  }

  function Silenced(op: Opus, e: Enc, gapMs: nat): Step
  {
    if gapMs == 0 then Step(e, []) else Fed(op, e.(silence := true), Zeros(SAMPLES_PER_MS * gapMs))
  }

  function Empties(n: nat): (s: seq<Bytes>)
    ensures |s| == n
  {
    seq(n, _ => [])
  }

  /** Where in the segment under construction the next sample falls. */
  function Position(e: Enc): nat { FRAME_SAMPLES * |e.frames| + |e.pending| }

  function Padded(op: Opus, e: Enc): Enc
  {
    if e.pending == [] then e
    else Coded(op, e.(pending := e.pending + Zeros(SatSub(FRAME_SAMPLES, |e.pending|)), silence := true))
  }

  function Filled(e: Enc): Enc
  {
    if |e.frames| < FRAMES_PER_SEGMENT
    then e.(frames := e.frames + Empties(FRAMES_PER_SEGMENT - |e.frames|), silence := true)
    else e
  }

  /** The rest of a call: a partial segment padded out to fifty packets. */
  function Flushed(op: Opus, e: Enc): Step
  {
    if Position(e) == 0 then Step(e, [])
    else var f := Filled(Padded(op, e)); Step(Next(f), [Sealed(f)])
  }

  predicate Tidy(e: Enc) { |e.pending| < FRAME_SAMPLES && |e.frames| < FRAMES_PER_SEGMENT }

  // ------------------------------------------------------------- the program

  class SegmentEncoder {
    const op: Opus
    const channel: Channel
    var given: seq<Frame>
    var pending: Frame
    var frames: seq<Bytes>
    var nextSeq: nat
    var segmentStartMs: nat
    var silenceInserted: bool
    var foreignAudio: bool

    function State(): Enc
      reads this
    {
      Enc(channel, given, pending, frames, nextSeq, segmentStartMs, silenceInserted, foreignAudio)
    }

    constructor (op: Opus, channel: Channel)
      ensures State() == Start(channel) && this.op == op
    {
      this.op, this.channel := op, channel;
      given, pending, frames := [], [], [];
      nextSeq, segmentStartMs, silenceInserted, foreignAudio := 0, 0, false, false;
    }

    method MarkForeign()
      modifies this
      ensures State() == old(State()).(foreignAudio := true)
    {
      foreignAudio := true;
    }

    method EncodeFrame() returns (packet: Bytes)
      modifies this
      ensures packet == op(old(given) + [old(pending)])
      ensures State() == old(State()).(given := old(given) + [old(pending)])
    {
      given := given + [pending];
      packet := op(given);
    }

    method Emit() returns (s: Segment)
      modifies this
      ensures s == Sealed(old(State())) && State() == Next(old(State()))
    {
      var payload := PackSegment(frames);
      s := Segment(channel, nextSeq, segmentStartMs, MediaFlags(foreignAudio, silenceInserted), payload);
      frames := [];
      nextSeq := nextSeq + 1;
      segmentStartMs := segmentStartMs + SEGMENT_MS;
      silenceInserted := false;
      foreignAudio := false;
    }

    /** A whole frame is pending: encode it, and seal the segment if it is the fiftieth. */
    method FinishFrame() returns (out: seq<Segment>)
      modifies this
      ensures Framed(op, old(State())) == Step(State(), out)
    {
      var frame := EncodeFrame();
      frames := frames + [frame];
      pending := [];
      assert State() == Coded(op, old(State()));
      out := [];
      if |frames| == FRAMES_PER_SEGMENT {
        var s := Emit();
        out := [s];
      }
    }

    method PushSamples(samples: seq<Sample>) returns (out: seq<Segment>)
      requires Tidy(State())
      modifies this
      ensures Tidy(State()) && Fed(op, old(State()), samples) == Step(State(), out)
    {
      hide Fed, Framed;
      out := [];
      var offset := 0;
      NothingFed(op, State(), samples);
      while offset < |samples|
        invariant 0 <= offset <= |samples| && Tidy(State())
        invariant Fed(op, old(State()), samples[..offset]) == Step(State(), out)
      {
        ghost var at, sent := State(), out;
        var take := Min(FRAME_SAMPLES - |pending|, |samples| - offset);
        ChunkFed(op, old(State()), samples, offset, take, at, sent);
        pending := pending + samples[offset..offset + take];
        offset := offset + take;
        FramedTidy(op, State());
        if |pending| == FRAME_SAMPLES {
          var finished := FinishFrame();
          out := out + finished;
        }
      }
      assert samples[..|samples|] == samples;
    }

    method InsertSilence(gapMs: nat) returns (out: seq<Segment>)
      requires Tidy(State())
      modifies this
      ensures Tidy(State()) && Silenced(op, old(State()), gapMs) == Step(State(), out)
    {
      if gapMs == 0 {
        return [];
      }
      silenceInserted := true;
      out := PushSamples(Zeros(SAMPLES_PER_MS * gapMs));
    }

    method Flush() returns (out: Option<Segment>)
      requires Tidy(State())
      modifies this
      ensures Tidy(State())
      ensures Flushed(op, old(State())) == Step(State(), if out.Some? then [out.value] else [])
    {
      if pending == [] && frames == [] {
        return None;
      }
      if pending != [] {
        pending := pending + Zeros(FRAME_SAMPLES - |pending|);
        var frame := EncodeFrame();
        frames := frames + [frame];
        pending := [];
        silenceInserted := true;
      }
      assert State() == Padded(op, old(State()));
      FillUp();
      var s := Emit();
      out := Some(s);
    }

    method FillUp()
      requires |frames| <= FRAMES_PER_SEGMENT
      modifies this
      ensures State() == Filled(old(State()))
    {
      while |frames| < FRAMES_PER_SEGMENT
        invariant |old(frames)| <= |frames| <= FRAMES_PER_SEGMENT
        invariant State() == if frames == old(frames) then old(State())
                             else old(State()).(frames := frames, silence := true)
        invariant frames == old(frames) + Empties(|frames| - |old(frames)|)
      {
        frames := frames + [[]];
        silenceInserted := true;
      }
    }
  }

  // --------------------------------------------------------- chunks and samples

  lemma NothingFed(op: Opus, e: Enc, xs: seq<Sample>)
    ensures Fed(op, e, xs[..0]) == Step(e, [])
  {
  }

  lemma FramedTidy(op: Opus, e: Enc)
    requires |e.frames| < FRAMES_PER_SEGMENT
    ensures Tidy(Framed(op, e).enc)
  {
  }

  /** How a stream is cut into buffers does not matter. */
  lemma {:induction false} FedSplit(op: Opus, e: Enc, a: seq<Sample>, b: seq<Sample>)
    ensures var first := Fed(op, e, a); var second := Fed(op, first.enc, b);
            Fed(op, e, a + b) == Step(second.enc, first.out + second.out)
    decreases |b|
  {
    hide Sampled;
    if b == [] {
      assert a + b == a;
    } else {
      FedSplit(op, e, a, b[..|b| - 1]);
      assert (a + b)[..|a + b| - 1] == a + b[..|b| - 1];
    }
  }

  /** Samples short of a whole frame only wait. */
  lemma {:induction false} PartFed(op: Opus, e: Enc, xs: seq<Sample>)
    requires |e.pending| + |xs| < FRAME_SAMPLES
    ensures Fed(op, e, xs) == Step(e.(pending := e.pending + xs), [])
  {
    hide Framed;
    if xs == [] {
      assert e.pending + xs == e.pending;
    } else {
      PartFed(op, e, xs[..|xs| - 1]);
      assert xs[..|xs| - 1] + [xs[|xs| - 1]] == xs;
      assert (e.pending + xs[..|xs| - 1]) + [xs[|xs| - 1]] == e.pending + xs;
    }
  }

  lemma WholeFed(op: Opus, e: Enc, xs: seq<Sample>)
    requires xs != [] && |e.pending| + |xs| == FRAME_SAMPLES
    ensures Fed(op, e, xs) == Framed(op, e.(pending := e.pending + xs))
  {
    hide Framed;
    var init, x := xs[..|xs| - 1], xs[|xs| - 1];
    PartFed(op, e, init);
    assert (e.pending + init) + [x] == e.pending + xs;
    assert [] + Framed(op, e.(pending := e.pending + xs)).out == Framed(op, e.(pending := e.pending + xs)).out;
  }

  lemma ChunkFed(op: Opus, e: Enc, xs: seq<Sample>, off: nat, n: nat, at: Enc, sent: seq<Segment>)
    requires off + n <= |xs| && n > 0 && Fed(op, e, xs[..off]) == Step(at, sent)
    requires |at.pending| + n <= FRAME_SAMPLES
    ensures var more := at.(pending := at.pending + xs[off..off + n]);
            Fed(op, e, xs[..off + n]) ==
            if |more.pending| == FRAME_SAMPLES then Step(Framed(op, more).enc, sent + Framed(op, more).out)
            else Step(more, sent)
  {
    hide Fed, Framed;
    var chunk := xs[off..off + n];
    FedSplit(op, e, xs[..off], chunk);
    assert xs[..off] + chunk == xs[..off + n];
    if |at.pending| + n == FRAME_SAMPLES {
      WholeFed(op, at, chunk);
    } else {
      PartFed(op, at, chunk);
      assert sent + [] == sent;
    }
  }
}
