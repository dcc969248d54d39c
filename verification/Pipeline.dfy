/**
 The capture pipeline: two channels read, detected, encoded and handed to the uplink
 (client/sentinel-agent/src/pipeline.rs).

 The detector and the two encoders are held as values of their own specifications; what
 reaches the uplink is a log. Voice decisions and the foreign-audio verdict are inputs.
 */
module Pipeline {
  import opened Prelude
  import opened Media
  import opened Encoder
  import D = Detector

  const PREROLL_MAX_SEGMENTS := 60

  const SAMPLE_RATE := 16_000

  /** One channel: its encoder and the segments not yet handed on. */
  datatype Pipe = Pipe(enc: Enc, ready: seq<Segment>)

  /** What the uplink is told, in order. Call ids are unique: they count up. */
  datatype Rec =
    | Began(call: nat, clockMs: nat)
    | Row(call: nat, seg: Segment, createdMs: nat)
    | Ended(call: nat, reason: EndReason, lastSeq: map<Channel, nat>)

  datatype Pl = Pl(det: D.Det, far: Option<Pipe>, near: Option<Pipe>, clockMs: nat, call: Option<nat>,
                   lastSeq: map<Channel, nat>, log: seq<Rec>, nextId: nat)

  function Of(p: Pl, ch: Channel): Option<Pipe> { if ch.Far? then p.far else p.near }

  function With(p: Pl, ch: Channel, o: Option<Pipe>): Pl { if ch.Far? then p.(far := o) else p.(near := o) }

  // ------------------------------------------------------------ one channel

  function Restart(o: Option<Pipe>): Option<Pipe>
  {
    if o.None? then None else Some(Pipe(Start(o.value.enc.channel), []))
  }

  function Read(op: Opus, o: Option<Pipe>, xs: seq<Sample>): Option<Pipe>
  {
    if o.None? || xs == [] then o
    else var r := Fed(op, o.value.enc, xs); Some(Pipe(r.enc, o.value.ready + r.out))
  }

  function Marked(o: Option<Pipe>): Option<Pipe>
  {
    if o.None? then o else Some(o.value.(enc := o.value.enc.(foreignAudio := true)))
  }

  function Capped(o: Option<Pipe>, keep: bool): Option<Pipe>
  {
    if o.None? then o
    else if !keep then Some(o.value.(ready := []))
    else if |o.value.ready| > PREROLL_MAX_SEGMENTS then
      Some(o.value.(ready := o.value.ready[|o.value.ready| - PREROLL_MAX_SEGMENTS..]))
    else o
  }

  // --------------------------------------------------------------- the uplink

  function Rows(call: nat, segs: seq<Segment>, clockMs: nat): (rs: seq<Rec>)
    ensures |rs| == |segs| && forall i :: 0 <= i < |rs| ==> rs[i] == Row(call, segs[i], clockMs)
  {
    seq(|segs|, i requires 0 <= i < |segs| => Row(call, segs[i], clockMs))
  }

  /** The highest number produced on a channel, after these segments. */
  function Noted(last: map<Channel, nat>, ch: Channel, segs: seq<Segment>): map<Channel, nat>
  {
    if segs == [] then last else last[ch := segs[|segs| - 1].num]
  }

  function Spooled(p: Pl, call: nat, ch: Channel, segs: seq<Segment>): Pl
  {
    p.(log := p.log + Rows(call, segs, p.clockMs), lastSeq := Noted(p.lastSeq, ch, segs))
  }

  function DrainChannel(p: Pl, call: nat, ch: Channel): Pl
  {
    var o := Of(p, ch);
    if o.None? then p else Spooled(With(p, ch, Some(o.value.(ready := []))), call, ch, o.value.ready)
  }

  function Drained(p: Pl): Pl
  {
    if p.call.None? then p else DrainChannel(DrainChannel(p, p.call.value, Far), p.call.value, Near)
  }

  function FinishChannel(op: Opus, p: Pl, call: nat, ch: Channel): Pl
  {
    var o := Of(p, ch);
    if o.None? then p
    else
      var f := Flushed(op, o.value.enc);
      Spooled(With(p, ch, Some(Pipe(f.enc, []))), call, ch, o.value.ready + f.out)
  }

  function Finished(op: Opus, p: Pl, reason: EndReason): Pl
  {
    if p.call.None? then p
    else
      var q := FinishChannel(op, FinishChannel(op, p.(call := None), p.call.value, Far), p.call.value, Near);
      q.(log := q.log + [Ended(p.call.value, reason, q.lastSeq)])
  }

  function Restarted(p: Pl): Pl { p.(far := Restart(p.far), near := Restart(p.near)) }

  function Opened(p: Pl): Pl
  {
    p.(log := p.log + [Began(p.nextId, p.clockMs)], lastSeq := map[], call := Some(p.nextId), nextId := p.nextId + 1)
  }

  function Applied(op: Opus, p: Pl, t: D.Transition): Pl
  {
    match t
    case ArmStarted => Restarted(p)
    case CallStarted => Opened(p)
    case CallEnded(reason) => Finished(op, p, reason)
    case ArmDiscarded => Restarted(p)
    case _ => p
  }

  function Bounded(p: Pl): Pl
  {
    var keep := p.det.state.Armed? || p.call.Some?;
    p.(far := Capped(p.far, keep), near := Capped(p.near, keep))
  }

  // ------------------------------------------------------------------- a step

  /** What one step reads and hears. */
  datatype Slice = Slice(far: seq<Sample>, near: seq<Sample>, farVoiced: bool, nearVoiced: bool, foreignAudio: bool)

  function ReadCount(o: Option<Pipe>, xs: seq<Sample>): nat { if o.None? then 0 else |xs| }

  function AdvanceMs(p: Pl, s: Slice): nat
  {
    Max(ReadCount(p.far, s.far), ReadCount(p.near, s.near)) * 1000 / SAMPLE_RATE
  }

  /** Both channels read, the clock moved on and foreign audio marked. */
  function Taken(op: Opus, p: Pl, s: Slice): Pl
  {
    var far := Read(op, p.far, s.far);
    p.(far := if s.foreignAudio then Marked(far) else far, near := Read(op, p.near, s.near),
       clockMs := p.clockMs + AdvanceMs(p, s))
  }

  function Heard(cfg: D.VadConfig, p: Pl, s: Slice): (D.Det, D.Transition)
  {
    var farVoiced := p.far.Some? && s.farVoiced && !s.foreignAudio;
    var (d1, t1) := D.Fed(cfg, p.det, p.clockMs, D.FarVoice(farVoiced));
    var (d2, t2) := D.Fed(cfg, d1, p.clockMs, D.NearVoice(p.near.Some? && s.nearVoiced));
    (d2, if t1 != D.Nothing then t1 else t2)
  }

  function Stepped(cfg: D.VadConfig, op: Opus, p: Pl, s: Slice): Pl
  {
    if ReadCount(p.far, s.far) == 0 && ReadCount(p.near, s.near) == 0 then p
    else
      var taken := Taken(op, p, s);
      var (det, t) := Heard(cfg, taken, s);
      Bounded(Drained(Applied(op, taken.(det := det), t)))
  }

  /** A notification from outside: the transition goes back to the caller and is not applied here. */
  function Told(cfg: D.VadConfig, p: Pl, input: D.Input): (Pl, D.Transition)
  {
    var (det, t) := D.Fed(cfg, p.det, p.clockMs, input);
    (p.(det := det), t)
  }

  function Connected(cfg: D.VadConfig, p: Pl): Pl
  {
    Told(cfg, p.(far := Some(Pipe(Start(Far), [])), near := Some(Pipe(Start(Near), []))), D.Unblock).0
  }

  function Unplugged(p: Pl): Pl { p.(far := None, near := None) }

  function Begin(cfg: D.VadConfig, user: string): Pl
  {
    Pl(D.Fed(cfg, D.NEW, 0, D.UserChanged(user)).0, None, None, 0, None, map[], [], 0)
  }

  // -------------------------------------------------------------- the program

  class Pipeline {
    const cfg: D.VadConfig
    const op: Opus
    var det: D.Det
    var far: Option<Pipe>
    var near: Option<Pipe>
    var clockMs: nat
    var call: Option<nat>
    var lastSeq: map<Channel, nat>
    var log: seq<Rec>
    var nextId: nat

    function State(): Pl
      reads this
    {
      Pl(det, far, near, clockMs, call, lastSeq, log, nextId)
    }

    constructor (cfg: D.VadConfig, op: Opus, user: string)
      ensures this.cfg == cfg && this.op == op && State() == Begin(cfg, user)
    {
      this.cfg, this.op := cfg, op;
      det := D.Fed(cfg, D.NEW, 0, D.UserChanged(user)).0;
      far, near, clockMs, call := None, None, 0, None;
      lastSeq, log, nextId := map[], [], 0;
    }

    method Feed(input: D.Input) returns (t: D.Transition)
      modifies this`det
      ensures (State(), t) == Told(cfg, old(State()), input)
    {
      var r := D.Fed(cfg, det, clockMs, input);
      det, t := r.0, r.1;
    }

    /** Both endpoints were found and opened, or one is missing. */
    method Open(present: bool) returns (ok: bool)
      modifies this
      ensures ok == present
      ensures State() == if present then Connected(cfg, old(State()))
                         else Told(cfg, old(State()), D.Block(D.PinnedDeviceMissing)).0
    {
      hide D.Fed;
      if !present {
        var _ := Feed(D.Block(D.PinnedDeviceMissing));
        return false;
      }
      far, near := Some(Pipe(Start(Far), [])), Some(Pipe(Start(Near), []));
      var _ := Feed(D.Unblock);
      return true;
    }

    method OnDeviceLost() returns (t: D.Transition)
      modifies this
      ensures (State(), t) == Told(cfg, Unplugged(old(State())), D.Block(D.PinnedDeviceMissing))
    {
      hide D.Fed;
      far, near := None, None;
      t := Feed(D.Block(D.PinnedDeviceMissing));
    }

    /** Read a slice from each channel and move the shared clock on. */
    method ReadChannels(s: Slice) returns (idle: bool)
      modifies this
      ensures idle == (ReadCount(old(far), s.far) == 0 && ReadCount(old(near), s.near) == 0)
      ensures State() == if idle then old(State()) else Taken(op, old(State()), s)
    {
      hide Fed;
      var farRead, nearRead := ReadCount(far, s.far), ReadCount(near, s.near);
      far := Read(op, far, s.far);
      near := Read(op, near, s.near);
      if farRead == 0 && nearRead == 0 {
        return true;
      }
      clockMs := clockMs + Max(farRead, nearRead) * 1000 / SAMPLE_RATE;
      if s.foreignAudio {
        far := Marked(far);
      }
      return false;
    }

    method Detect(s: Slice) returns (t: D.Transition)
      modifies this`det
      ensures (det, t) == Heard(cfg, old(State()), s)
    {
      hide D.Fed;
      var t1 := Feed(D.FarVoice(far.Some? && s.farVoiced && !s.foreignAudio));
      var t2 := Feed(D.NearVoice(near.Some? && s.nearVoiced));
      t := if t1 != D.Nothing then t1 else t2;
    }

    method Step(s: Slice)
      modifies this
      ensures State() == Stepped(cfg, op, old(State()), s)
    {
      hide Taken, Heard, Applied, Drained, Bounded;
      var idle := ReadChannels(s);
      if idle {
        return;
      }
      var t := Detect(s);
      ApplyTransition(t);
      DrainEncoders();
      BoundPreroll();
    }

    method ApplyTransition(t: D.Transition)
      modifies this
      ensures State() == Applied(op, old(State()), t)
    {
      hide D.Fed, Finished;
      match t {
        case ArmStarted =>
          far, near := Restart(far), Restart(near);
        case CallStarted =>
          log := log + [Began(nextId, clockMs)];
          lastSeq := map[];
          call := Some(nextId);
          nextId := nextId + 1;
        case CallEnded(reason) =>
          FinishCall(reason);
        case ArmDiscarded =>
          far, near := Restart(far), Restart(near);
        case _ =>
      }
    }

    /** Hand segments to the uplink one by one, noting the highest number. */
    method PushRows(id: nat, ch: Channel, segs: seq<Segment>)
      modifies this
      ensures State() == Spooled(old(State()), id, ch, segs)
    {
      for i := 0 to |segs|
        invariant State() == Spooled(old(State()), id, ch, segs[..i])
      {
        log := log + [Row(id, segs[i], clockMs)];
        lastSeq := lastSeq[ch := segs[i].num];
        assert log == old(log) + Rows(id, segs[..i + 1], clockMs);
      }
      assert segs[..|segs|] == segs;
    }

    method FinishCall(reason: EndReason)
      modifies this
      ensures State() == Finished(op, old(State()), reason)
    {
      hide Flushed;
      if call.None? {
        return;
      }
      var id := call.value;
      call := None;
      FinishPipe(id, Far);
      FinishPipe(id, Near);
      log := log + [Ended(id, reason, lastSeq)];
    }

    method FinishPipe(id: nat, ch: Channel)
      modifies this
      ensures State() == FinishChannel(op, old(State()), id, ch)
    {
      hide Flushed;
      var o := if ch.Far? then far else near;
      if o.None? {
        return;
      }
      var f := Flushed(op, o.value.enc);
      if ch.Far? { far := Some(Pipe(f.enc, [])); } else { near := Some(Pipe(f.enc, [])); }
      PushRows(id, ch, o.value.ready + f.out);
    }

    method DrainEncoders()
      modifies this
      ensures State() == Drained(old(State()))
    {
      hide Spooled;
      if call.None? {
        return;
      }
      DrainPipe(call.value, Far);
      DrainPipe(call.value, Near);
    }

    method DrainPipe(id: nat, ch: Channel)
      modifies this
      ensures State() == DrainChannel(old(State()), id, ch)
      ensures call == old(call)
    {
      var o := if ch.Far? then far else near;
      if o.None? {
        return;
      }
      var emptied := Some(o.value.(ready := []));
      if ch.Far? { far := emptied; } else { near := emptied; }
      PushRows(id, ch, o.value.ready);
    }

    method BoundPreroll()
      modifies this
      ensures State() == Bounded(old(State()))
    {
      var keep := det.state.Armed? || call.Some?;
      far := Capped(far, keep);
      near := Capped(near, keep);
    }
  }
}
