/**
 What happens when the caller of a pipeline drops a transition: what holds in every run however
 transitions are routed, and exactly which dropped transition can spoil a call's numbers.
 */
module PipelineDrops {
  import opened Prelude
  import opened Media
  import opened Encoder
  import opened Pipeline
  import opened PipelineRuns
  import D = Detector

  // ------------------------------------------------- whatever the routing

  /** The number of the first segment a channel would hand over now. */
  function Stand(o: Option<Pipe>): nat { if o.None? then 0 else SatSub(o.value.enc.nextSeq, |o.value.ready|) }

  /** What is buffered runs up to the encoder's next number without a gap. */
  ghost predicate Contiguous(o: Option<Pipe>) { Ready(o, Stand(o)) }

  /** What every run keeps, however it is routed. */
  ghost predicate Shape(p: Pl)
  {
    && On(p.far, Far) && On(p.near, Near) && Contiguous(p.far) && Contiguous(p.near)
    && (p.far.Some? <==> p.near.Some?)
    && Older(p.log, p.nextId) && (p.call.Some? ==> p.call.value < p.nextId)
  }

  lemma StandIs(o: Option<Pipe>, n: nat)
    requires o.Some? && Ready(o, n)
    ensures Stand(o) == n && Contiguous(o)
  {
  }

  lemma ReadStands(op: Opus, o: Option<Pipe>, xs: seq<Sample>, ch: Channel)
    requires On(o, ch) && Contiguous(o)
    ensures On(Read(op, o, xs), ch) && Contiguous(Read(op, o, xs)) && Stand(Read(op, o, xs)) == Stand(o)
    ensures Read(op, o, xs).Some? <==> o.Some?
  {
    hide Fed, On, Stand;
    ReadKeeps(op, o, xs, ch, Stand(o));
    if o.Some? {
      StandIs(Read(op, o, xs), Stand(o));
    }
  }

  lemma MarkStands(o: Option<Pipe>, ch: Channel)
    requires On(o, ch) && Contiguous(o)
    ensures On(Marked(o), ch) && Contiguous(Marked(o)) && Stand(Marked(o)) == Stand(o)
  {
  }

  lemma CapStands(o: Option<Pipe>, ch: Channel, keep: bool)
    requires On(o, ch) && Contiguous(o)
    ensures On(Capped(o, keep), ch) && Contiguous(Capped(o, keep)) && Stand(o) <= Stand(Capped(o, keep))
  {
  }

  lemma RestartStands(o: Option<Pipe>, ch: Channel)
    requires On(o, ch)
    ensures On(Restart(o), ch) && Contiguous(Restart(o)) && Stand(Restart(o)) == 0
  {
  }

  lemma EmptiedStands(o: Option<Pipe>, ch: Channel)
    requires o.Some? && On(o, ch)
    ensures On(Some(o.value.(ready := [])), ch) && Contiguous(Some(o.value.(ready := [])))
  {
  }

  lemma FlushStands(op: Opus, o: Option<Pipe>, ch: Channel)
    requires o.Some? && On(o, ch)
    ensures On(Some(Pipe(Flushed(op, o.value.enc).enc, [])), ch) && Contiguous(Some(Pipe(Flushed(op, o.value.enc).enc, [])))
  {
    FlushNumbers(op, o, ch, 0);
  }

  lemma TakenShape(op: Opus, p: Pl, s: Slice)
    requires Shape(p)
    ensures Shape(Taken(op, p, s))
  {
    hide On, Contiguous, Read, Marked, Older;
    ReadStands(op, p.far, s.far, Far);
    ReadStands(op, p.near, s.near, Near);
    MarkStands(Read(op, p.far, s.far), Far);
    MarkSome(Read(op, p.far, s.far));
  }

  lemma MarkSome(o: Option<Pipe>)
    ensures Marked(o).Some? <==> o.Some?
  {
  }

  lemma RestartedShape(p: Pl)
    requires Shape(p)
    ensures Shape(Restarted(p))
  {
    RestartStands(p.far, Far);
    RestartStands(p.near, Near);
  }

  lemma OpenedShape(p: Pl)
    requires Shape(p)
    ensures Shape(Opened(p))
  {
    hide On, Contiguous;
  }

  lemma SpooledShape(p: Pl, id: nat, ch: Channel, segs: seq<Segment>)
    requires Shape(p) && id < p.nextId
    ensures Shape(Spooled(p, id, ch, segs))
  {
    hide On, Contiguous, Noted;
  }

  lemma WithShape(p: Pl, ch: Channel, o: Option<Pipe>)
    requires Shape(p) && o.Some? && Of(p, ch).Some? && On(o, ch) && Contiguous(o)
    ensures Shape(With(p, ch, o))
  {
    hide On, Contiguous, Older;
  }

  lemma DrainChannelShape(p: Pl, id: nat, ch: Channel)
    requires Shape(p) && id < p.nextId
    ensures var q := DrainChannel(p, id, ch); Shape(q) && q.nextId == p.nextId && q.call == p.call
  {
    hide Shape, Rows, Noted;
    var o := Of(p, ch);
    if o.Some? {
      ShapeOf(p, ch);
      EmptiedStands(o, ch);
      WithShape(p, ch, Some(o.value.(ready := [])));
      SpooledShape(With(p, ch, Some(o.value.(ready := []))), id, ch, o.value.ready);
    }
  }

  lemma ShapeOf(p: Pl, ch: Channel)
    requires Shape(p)
    ensures On(Of(p, ch), ch) && Contiguous(Of(p, ch))
  {
    hide On, Contiguous, Older;
  }

  lemma FinishChannelShape(op: Opus, p: Pl, id: nat, ch: Channel)
    requires Shape(p) && id < p.nextId
    ensures var q := FinishChannel(op, p, id, ch); Shape(q) && q.nextId == p.nextId && q.call == p.call
  {
    hide Shape, Rows, Noted, Flushed;
    var o := Of(p, ch);
    if o.Some? {
      ShapeOf(p, ch);
      FlushStands(op, o, ch);
      var f := Flushed(op, o.value.enc);
      WithShape(p, ch, Some(Pipe(f.enc, [])));
      SpooledShape(With(p, ch, Some(Pipe(f.enc, []))), id, ch, o.value.ready + f.out);
    }
  }

  lemma DrainedShape(p: Pl)
    requires Shape(p)
    ensures Shape(Drained(p))
  {
    hide DrainChannel, On, Contiguous, Older;
    if p.call.Some? {
      DrainChannelShape(p, p.call.value, Far);
      DrainChannelShape(DrainChannel(p, p.call.value, Far), p.call.value, Near);
    }
  }

  lemma FinishedShape(op: Opus, p: Pl, reason: EndReason)
    requires Shape(p)
    ensures Shape(Finished(op, p, reason))
  {
    hide FinishChannel, On, Contiguous, Older;
    if p.call.Some? {
      var id := p.call.value;
      var a := FinishChannel(op, p.(call := None), id, Far);
      FinishChannelShape(op, p.(call := None), id, Far);
      FinishChannelShape(op, a, id, Near);
      var b := FinishChannel(op, a, id, Near);
      OlderSnoc(b.log, Ended(id, reason, b.lastSeq), b.nextId);
    }
  }

  lemma AppliedShape(op: Opus, p: Pl, t: D.Transition)
    requires Shape(p)
    ensures Shape(Applied(op, p, t))
  {
    hide Shape, Finished, Opened, Restarted;
    match t
    case ArmStarted => RestartedShape(p);
    case ArmDiscarded => RestartedShape(p);
    case CallStarted => OpenedShape(p);
    case CallEnded(reason) => FinishedShape(op, p, reason);
    case _ =>
  }

  lemma BoundedShape(p: Pl)
    requires Shape(p)
    ensures Shape(Bounded(p))
  {
    var keep := p.det.state.Armed? || p.call.Some?;
    CapStands(p.far, Far, keep);
    CapStands(p.near, Near, keep);
  }

  lemma DetShape(p: Pl, e: D.Det)
    requires Shape(p)
    ensures Shape(p.(det := e))
  {
    hide On, Contiguous, Older;
  }

  lemma StepShape(cfg: D.VadConfig, op: Opus, p: Pl, s: Slice)
    requires Shape(p)
    ensures Shape(Stepped(cfg, op, p, s))
  {
    hide Shape, Taken, Heard, Applied, Drained, Bounded;
    var taken := Taken(op, p, s);
    TakenShape(op, p, s);
    var (e, t) := Heard(cfg, taken, s);
    DetShape(taken, e);
    AppliedShape(op, taken.(det := e), t);
    DrainedShape(Applied(op, taken.(det := e), t));
    BoundedShape(Drained(Applied(op, taken.(det := e), t)));
  }

  /** Every operation keeps the shape, whatever it is and whether or not its transition is routed. */
  lemma ExecShape(cfg: D.VadConfig, op: Opus, p: Pl, o: Op)
    requires Shape(p)
    ensures Shape(Exec(cfg, op, p, o))
  {
    hide Shape, Applied, Stepped, D.Fed;
    match o
    case Advance(s) => StepShape(cfg, op, p, s);
    case Tell(input, routed) =>
      var e := Told(cfg, p, input).0.det;
      DetShape(p, e);
      AppliedShape(op, p.(det := e), Told(cfg, p, input).1);
    case Connect =>
      ConnectedShape(p);
      DetShape(p.(far := Some(Pipe(Start(Far), [])), near := Some(Pipe(Start(Near), []))), Connected(cfg, p).det);
    case Unplug(routed) =>
      UnpluggedShape(p);
      var (q, t) := Told(cfg, Unplugged(p), D.Block(D.PinnedDeviceMissing));
      DetShape(Unplugged(p), q.det);
      AppliedShape(op, q, t);
  }

  lemma ConnectedShape(p: Pl)
    requires Shape(p)
    ensures Shape(p.(far := Some(Pipe(Start(Far), [])), near := Some(Pipe(Start(Near), []))))
  {
  }

  lemma UnpluggedShape(p: Pl)
    requires Shape(p)
    ensures Shape(Unplugged(p))
  {
  }

  lemma {:induction false} RunShape(cfg: D.VadConfig, op: Opus, user: string, ops: seq<Op>)
    ensures Shape(After(cfg, op, user, ops))
  {
    hide Exec;
    if ops == [] {
    } else {
      RunShape(cfg, op, user, ops[..|ops| - 1]);
      ExecShape(cfg, op, After(cfg, op, user, ops[..|ops| - 1]), ops[|ops| - 1]);
    }
  }

  /**
   In every run, however it is routed, the step that starts a call numbers the call's rows on a
   channel from where the channel stands: from zero if and only if nothing its encoder has numbered
   since its last restart was thrown away.
   */
  lemma CallStartsWhereItStands(cfg: D.VadConfig, op: Opus, user: string, ops: seq<Op>, s: Slice, ch: Channel)
    requires var p := After(cfg, op, user, ops);
             Of(p, ch).Some? && s.far != [] && s.near != [] && Heard(cfg, Taken(op, p, s), s).1.CallStarted?
    ensures var p := After(cfg, op, user, ops); var sent := Sent(Stepped(cfg, op, p, s).log, p.nextId, ch);
            && (forall i :: 0 <= i < |sent| ==> sent[i] == Stand(Of(p, ch)) + i)
            && (sent != [] ==> (sent == UpTo(|sent|) <==> Stand(Of(p, ch)) == 0))
  {
    hide After, Stepped, Sent, Heard, Taken, On, Older, Stand, UpTo;
    var p := After(cfg, op, user, ops);
    RunShape(cfg, op, user, ops);
    CallStartsWhereTheEncoderStands(cfg, op, p, s, ch, Stand(Of(p, ch)));
  }

  // ------------------------------------------------ nothing old is buffered

  /** Settled at this very clock reading, outside an arm. */
  predicate JustMoved(d: D.Det, now: nat)
  {
    (d.state.Blocked? || d.state.Idle? || d.state.InCall?) && d.lastTransitionMs == now
  }

  /** Outside an arm and a call a channel buffers nothing, except until the next step after leaving one. */
  ghost predicate Tidied(p: Pl, ch: Channel)
  {
    !p.det.state.Armed? && p.call.None? && Of(p, ch).Some? && Of(p, ch).value.ready != [] ==> JustMoved(p.det, p.clockMs)
  }

  /** With no time passing, a machine that has just moved, or is armed, moves on to the same. */
  lemma MovesAtOnce(cfg: D.VadConfig, d: D.Det, now: nat, input: D.Input)
    requires Sane(cfg) && (d.state.Armed? || JustMoved(d, now))
    ensures var e := D.Fed(cfg, d, now, input).0; e.state.Armed? || JustMoved(e, now)
  {
    hide D.Evaluated;
    EvaluatesAtOnce(cfg, D.Observed(d.(nowMs := now), input, SatSub(now, d.nowMs)));
  }

  lemma EvaluatesAtOnce(cfg: D.VadConfig, d: D.Det)
    requires Sane(cfg)
    ensures d.state.Armed? || JustMoved(d, d.nowMs) ==>
              var e := D.Evaluated(cfg, d).0; e.state.Armed? || JustMoved(e, d.nowMs)
  {
  }

  lemma TellTidies(cfg: D.VadConfig, op: Opus, p: Pl, input: D.Input, routed: bool, ch: Channel)
    requires Sane(cfg) && Tidied(p, ch)
    ensures var (q, t) := Told(cfg, p, input); Tidied(if routed then Applied(op, q, t) else q, ch)
  {
    hide D.Fed, Flushed, Rows, Noted;
    if p.det.state.Armed? || JustMoved(p.det, p.clockMs) {
      MovesAtOnce(cfg, p.det, p.clockMs, input);
    }
  }

  lemma StepTidies(cfg: D.VadConfig, op: Opus, p: Pl, s: Slice, ch: Channel)
    requires Tidied(p, ch)
    ensures Tidied(Stepped(cfg, op, p, s), ch)
  {
    hide Taken, Heard, Applied, Drained;
  }

  lemma ExecTidies(cfg: D.VadConfig, op: Opus, p: Pl, o: Op, ch: Channel)
    requires Sane(cfg) && Tidied(p, ch)
    ensures Tidied(Exec(cfg, op, p, o), ch)
  {
    hide Applied, Stepped, D.Fed;
    match o
    case Advance(s) => StepTidies(cfg, op, p, s, ch);
    case Tell(input, routed) => TellTidies(cfg, op, p, input, routed, ch);
    case Connect =>
    case Unplug(routed) => TellTidies(cfg, op, Unplugged(p), D.Block(D.PinnedDeviceMissing), routed, ch);
  }

  lemma ArmsFromRest(cfg: D.VadConfig, d: D.Det, now: nat, input: D.Input)
    requires Sane(cfg) && D.Fed(cfg, d, now, input).1.ArmStarted?
    ensures !d.state.Armed? && !JustMoved(d, now)
    ensures var e := D.Fed(cfg, d, now, input).0;
            e.state.Armed? && e.enteredAtMs == now && e.nowMs == now && e.armedSpeechMs == 0 && e.sessionActive
  {
  }

  // ------------------------------------------------------- runs from a state

  function From(cfg: D.VadConfig, op: Opus, p: Pl, ops: seq<Op>): Pl
    decreases |ops|
  {
    if ops == [] then p else From(cfg, op, Exec(cfg, op, p, ops[0]), ops[1..])
  }

  /** Every operation from here on is driven: nothing more that matters is dropped. */
  ghost predicate DrivenFrom(cfg: D.VadConfig, op: Opus, p: Pl, ops: seq<Op>)
    decreases |ops|
  {
    ops == [] || (Driven(cfg, p, ops[0]) && DrivenFrom(cfg, op, Exec(cfg, op, p, ops[0]), ops[1..]))
  }

  /** Some call's numbers on the channel have a gap or a repeat, or do not start at zero. */
  ghost predicate Broken(p: Pl, ch: Channel) { exists call :: Sent(p.log, call, ch) != UpTo(|Sent(p.log, call, ch)|) }

  /** Some driven continuation breaks the numbering. */
  ghost predicate Breaks(cfg: D.VadConfig, op: Opus, p: Pl, ch: Channel)
  {
    exists ops :: DrivenFrom(cfg, op, p, ops) && Broken(From(cfg, op, p, ops), ch)
  }

  lemma {:induction false} Continue(cfg: D.VadConfig, op: Opus, p: Pl, a: seq<Op>, b: seq<Op>)
    requires DrivenFrom(cfg, op, p, a) && DrivenFrom(cfg, op, From(cfg, op, p, a), b)
    ensures DrivenFrom(cfg, op, p, a + b) && From(cfg, op, p, a + b) == From(cfg, op, From(cfg, op, p, a), b)
    decreases |a|
  {
    hide Exec, Driven;
    if a == [] {
      assert a + b == b;
    } else {
      Continue(cfg, op, Exec(cfg, op, p, a[0]), a[1..], b);
      assert (a + b)[1..] == a[1..] + b && (a + b)[0] == a[0];
    }
  }

  lemma OneOp(cfg: D.VadConfig, op: Opus, p: Pl, o: Op)
    requires Driven(cfg, p, o)
    ensures DrivenFrom(cfg, op, p, [o]) && From(cfg, op, p, [o]) == Exec(cfg, op, p, o)
  {
    hide Exec, Driven;
    assert [o][1..] == [];
  }

  // -------------------------------------------------- states that never break

  ghost predicate Good(p: Pl, ch: Channel) { Shape(p) && Inv(p, ch) && Tidied(p, ch) }

  /** A start nobody applied, or an end nobody applied once the streams are gone: out of step but harmless. */
  ghost predicate Loose(p: Pl, ch: Channel)
  {
    && Shape(p) && LogOk(p.log, ch) && Tidied(p, ch)
    && (if p.call.None? then D.Open(p.det.state) else !D.Open(p.det.state) && p.far.None? && p.near.None?)
  }

  lemma GoodExec(cfg: D.VadConfig, op: Opus, p: Pl, o: Op, ch: Channel)
    requires Sane(cfg) && Good(p, ch) && Driven(cfg, p, o)
    ensures Good(Exec(cfg, op, p, o), ch)
  {
    hide Shape, Inv, Tidied, Driven, Exec, Sane;
    ExecShape(cfg, op, p, o);
    ExecTidies(cfg, op, p, o, ch);
    ExecKeeps(cfg, op, p, o, ch);
  }

  /** A transition that leaves a closed pipeline closed. */
  lemma Closed(p: Pl, ch: Channel)
    requires Shape(p) && LogOk(p.log, ch) && Tidied(p, ch) && p.call.None? && !D.Open(p.det.state) && !p.det.state.Armed?
    ensures Good(p, ch)
  {
    hide On, Contiguous, Older, LogOk, Tidied;
  }

  lemma UnheardApplied(op: Opus, p: Pl, e: D.Det, t: D.Transition)
    requires p.call.None? && D.Open(p.det.state) && Moves(p.det, e, t, p.clockMs)
    ensures Applied(op, p.(det := e), t) == p.(det := e) && !e.state.Armed?
  {
  }

  lemma UnheardStep(cfg: D.VadConfig, op: Opus, p: Pl, s: Slice, ch: Channel)
    requires Sane(cfg) && Loose(p, ch) && p.call.None?
    ensures Loose(Stepped(cfg, op, p, s), ch) || Good(Stepped(cfg, op, p, s), ch)
  {
    hide Shape, Tidied, Taken, Heard, Applied, Bounded, LogOk, Moves;
    StepShape(cfg, op, p, s);
    StepTidies(cfg, op, p, s, ch);
    var taken := Taken(op, p, s);
    TakenLeaves(op, p, s);
    var (e, t) := Heard(cfg, taken, s);
    HeardMoves(cfg, taken, s);
    UnheardApplied(op, taken, e, t);
    BoundLeaves(taken.(det := e));
    if !D.Open(e.state) && Stepped(cfg, op, p, s) != p {
      Closed(Stepped(cfg, op, p, s), ch);
    }
  }

  lemma TakenLeaves(op: Opus, p: Pl, s: Slice)
    ensures var q := Taken(op, p, s); q.call == p.call && q.log == p.log && q.det == p.det && q.nextId == p.nextId
  {
    hide Read, Marked;
  }

  lemma BoundLeaves(p: Pl)
    ensures var q := Bounded(p); q.call == p.call && q.log == p.log && q.det == p.det && q.clockMs == p.clockMs && q.nextId == p.nextId
  {
    hide Capped;
  }

  lemma UnheardTell(cfg: D.VadConfig, op: Opus, p: Pl, input: D.Input, routed: bool, ch: Channel)
    requires Sane(cfg) && Loose(p, ch) && p.call.None?
    ensures var (q, t) := Told(cfg, p, input); var r := if routed then Applied(op, q, t) else q; Loose(r, ch) || Good(r, ch)
  {
    hide Shape, Tidied, Applied, LogOk, Moves, D.Fed;
    var (e, t) := D.Fed(cfg, p.det, p.clockMs, input);
    FedMoves(cfg, p.det, p.clockMs, input);
    UnheardApplied(op, p, e, t);
    DetShape(p, e);
    TellTidies(cfg, op, p, input, routed, ch);
    if !D.Open(e.state) {
      Closed(p.(det := e), ch);
    }
  }

  lemma GoneApplied(op: Opus, p: Pl, e: D.Det, t: D.Transition, ch: Channel)
    requires Loose(p, ch) && p.call.Some? && Moves(p.det, e, t, p.clockMs)
    ensures var r := Applied(op, p.(det := e), t);
            (t.CallStarted? && r == Opened(p.(det := e))) || (!t.CallStarted? && !D.Open(e.state) && r == p.(det := e))
  {
    hide Shape, Tidied, LogOk;
  }

  lemma GoneTell(cfg: D.VadConfig, op: Opus, p: Pl, input: D.Input, routed: bool, ch: Channel)
    requires Sane(cfg) && Loose(p, ch) && p.call.Some? && (routed || Idle(Told(cfg, p, input).1))
    ensures var (q, t) := Told(cfg, p, input); var r := if routed then Applied(op, q, t) else q; Loose(r, ch) || Good(r, ch)
  {
    hide Shape, Tidied, Applied, LogOk, Moves, D.Fed;
    var (e, t) := D.Fed(cfg, p.det, p.clockMs, input);
    FedMoves(cfg, p.det, p.clockMs, input);
    GoneApplied(op, p, e, t, ch);
    DetShape(p, e);
    TellTidies(cfg, op, p, input, routed, ch);
    if t.CallStarted? {
      OpenedShape(p.(det := e));
      FreshCall(p, e, ch);
    }
  }

  /** A new call without streams starts its own line. */
  lemma FreshCall(p: Pl, e: D.Det, ch: Channel)
    requires Shape(p) && LogOk(p.log, ch) && p.far.None? && p.near.None?
    requires Moves(p.det, e, D.CallStarted, p.clockMs)
    ensures Inv(Opened(p.(det := e)), ch) && Tidied(Opened(p.(det := e)), ch)
  {
    hide LogOk, Line;
    BeginStartsLine(p.log, p.nextId, ch, p.clockMs);
    LineIsOk(Opened(p).log, map[], p.nextId, ch, 0);
  }

  lemma LooseExec(cfg: D.VadConfig, op: Opus, p: Pl, o: Op, ch: Channel)
    requires Sane(cfg) && Loose(p, ch) && Driven(cfg, p, o)
    ensures Loose(Exec(cfg, op, p, o), ch) || Good(Exec(cfg, op, p, o), ch)
  {
    hide Shape, Tidied, LogOk, Applied, D.Fed, Taken, Heard, Drained, Bounded, Sane, Good;
    match o {
      case Advance(s) =>
        if p.call.None? {
          UnheardStep(cfg, op, p, s, ch);
        }
      case Tell(input, routed) =>
        if p.call.None? {
          UnheardTell(cfg, op, p, input, routed, ch);
        } else {
          GoneTell(cfg, op, p, input, routed, ch);
        }
      case Connect => UnheardConnect(cfg, op, p, ch);
      case Unplug(routed) =>
        UnpluggedLoose(p, ch);
        SameTold(cfg, p, D.Block(D.PinnedDeviceMissing));
        if p.call.None? {
          UnheardTell(cfg, op, Unplugged(p), D.Block(D.PinnedDeviceMissing), routed, ch);
        } else {
          GoneTell(cfg, op, Unplugged(p), D.Block(D.PinnedDeviceMissing), routed, ch);
        }
    }
  }

  lemma UnpluggedLoose(p: Pl, ch: Channel)
    requires Loose(p, ch)
    ensures Loose(Unplugged(p), ch)
  {
    hide LogOk;
  }

  lemma UnheardConnect(cfg: D.VadConfig, op: Opus, p: Pl, ch: Channel)
    requires Sane(cfg) && Loose(p, ch) && p.call.None?
    ensures Loose(Exec(cfg, op, p, Connect), ch)
  {
    hide Shape, LogOk, D.Fed;
    ExecShape(cfg, op, p, Connect);
    FedMoves(cfg, p.det, p.clockMs, D.Unblock);
    UnblockIsIdle(cfg, p.det, p.clockMs);
  }

  lemma {:induction false} NeverBroken(cfg: D.VadConfig, op: Opus, p: Pl, ops: seq<Op>, ch: Channel)
    requires Sane(cfg) && (Good(p, ch) || Loose(p, ch)) && DrivenFrom(cfg, op, p, ops)
    ensures !Broken(From(cfg, op, p, ops), ch)
    decreases |ops|
  {
    hide Exec, Driven, Good, Loose, Sane;
    if ops == [] {
      NotBroken(p, ch);
    } else {
      if Good(p, ch) {
        GoodExec(cfg, op, p, ops[0], ch);
      } else {
        LooseExec(cfg, op, p, ops[0], ch);
      }
      NeverBroken(cfg, op, Exec(cfg, op, p, ops[0]), ops[1..], ch);
    }
  }

  lemma NotBroken(p: Pl, ch: Channel)
    requires Good(p, ch) || Loose(p, ch)
    ensures !Broken(p, ch)
  {
    hide Shape, Tidied, Sent, UpTo;
  }

  /** What a dropped transition spoils: an end while the stream is open, an arm once numbers have been used up. */
  predicate Spoils(p: Pl, t: D.Transition, ch: Channel)
  {
    Of(p, ch).Some? && (t.CallEnded? || (t.ArmStarted? && Of(p, ch).value.enc.nextSeq > 0))
  }

  lemma HarmlessArm(p: Pl, e: D.Det, ch: Channel)
    requires Good(p, ch) && Moves(p.det, e, D.ArmStarted, p.clockMs) && e.state.Armed? && !p.det.state.Armed?
    requires !JustMoved(p.det, p.clockMs) && !Spoils(p, D.ArmStarted, ch)
    ensures Inv(p.(det := e), ch)
  {
    hide LogOk, Older, InCall;
  }

  /** Any other transition may be dropped: what follows is good, or harmlessly out of step. */
  lemma HarmlessDrop(cfg: D.VadConfig, p: Pl, input: D.Input, ch: Channel)
    requires Sane(cfg) && Good(p, ch) && !Spoils(p, Told(cfg, p, input).1, ch)
    ensures Good(Told(cfg, p, input).0, ch) || Loose(Told(cfg, p, input).0, ch)
  {
    hide Shape, Tidied, D.Fed, Inv, Moves, JustMoved, LogOk;
    var (e, t) := D.Fed(cfg, p.det, p.clockMs, input);
    DetShape(p, e);
    TellTidies(cfg, (given => []), p, input, false, ch);
    FedMoves(cfg, p.det, p.clockMs, input);
    if t.ArmStarted? {
      ArmsFromRest(cfg, p.det, p.clockMs, input);
      HarmlessArm(p, e, ch);
    } else if t.CallStarted? {
      DroppedStart(p, e, ch);
    } else if t.CallEnded? {
      DroppedEnd(p, e, t, ch);
    } else {
      StayKeeps(p, e, t, ch);
    }
  }

  lemma DroppedStart(p: Pl, e: D.Det, ch: Channel)
    requires Inv(p, ch) && Moves(p.det, e, D.CallStarted, p.clockMs)
    ensures LogOk(p.log, ch) && p.call.None? && D.Open(e.state)
  {
    hide LogOk, Older, InCall, Armed;
  }

  lemma DroppedEnd(p: Pl, e: D.Det, t: D.Transition, ch: Channel)
    requires Inv(p, ch) && Shape(p) && Moves(p.det, e, t, p.clockMs) && t.CallEnded? && Of(p, ch).None?
    ensures LogOk(p.log, ch) && p.call.Some? && !D.Open(e.state) && p.far.None? && p.near.None?
  {
    hide LogOk, Older, InCall, Armed;
  }

  // ------------------------------------------------------ steps inside a call

  function Range(a: nat, b: nat): (s: seq<nat>)
    requires a <= b
    ensures |s| == b - a && forall i :: 0 <= i < |s| ==> s[i] == a + i
  {
    seq(b - a, i => a + i)
  }

  predicate Full(s: Slice) { |s.far| == FRAME_SAMPLES && |s.near| == FRAME_SAMPLES }

  lemma NumsAreRange(o: Option<Pipe>)
    requires o.Some? && Contiguous(o)
    ensures Stand(o) <= o.value.enc.nextSeq && Nums(o.value.ready) == Range(Stand(o), o.value.enc.nextSeq)
  {
  }

  lemma NextIsCount(o: Option<Pipe>, ch: Channel)
    requires o.Some? && On(o, ch)
    ensures o.value.enc.nextSeq == Taken16(o) / SEGMENT_SAMPLES
  {
  }

  lemma TakenOf(op: Opus, p: Pl, s: Slice, ch: Channel)
    requires Shape(p) && Full(s) && Of(p, ch).Some?
    ensures var q := Taken(op, p, s);
            && Of(q, ch).Some? && Stand(Of(q, ch)) == Stand(Of(p, ch)) && Taken16(Of(q, ch)) == Taken16(Of(p, ch)) + FRAME_SAMPLES
            && q.clockMs == p.clockMs + 20 && q.far.Some? && q.near.Some?
  {
    hide Read, Older, On, Contiguous, Stand, Taken16, Marked;
    ReadStands(op, p.far, s.far, Far);
    ReadStands(op, p.near, s.near, Near);
    ReadKeeps(op, p.far, s.far, Far, 0);
    ReadKeeps(op, p.near, s.near, Near, 0);
    MarkStands(Read(op, p.far, s.far), Far);
    MarkKeeps(Read(op, p.far, s.far), Far, 0);
    MarkSome(Read(op, p.far, s.far));
  }

  lemma DrainedOf(p: Pl, ch: Channel)
    requires p.call.Some? && Of(p, ch).Some?
    ensures Of(Drained(p), ch) == Some(Of(p, ch).value.(ready := []))
    ensures Drained(p).det == p.det && Drained(p).clockMs == p.clockMs && Drained(p).call == p.call && Drained(p).nextId == p.nextId
    ensures (p.far.Some? <==> Drained(p).far.Some?) && (p.near.Some? <==> Drained(p).near.Some?)
  {
    hide Rows, Noted;
  }

  lemma BoundedOf(p: Pl, ch: Channel)
    requires Of(p, ch).Some? && Of(p, ch).value.ready == []
    ensures Of(Bounded(p), ch) == Of(p, ch)
  {
  }

  /** A step that changes nothing about the call hands over what the channel stands at, up to the encoder's next number. */
  lemma CallStep(cfg: D.VadConfig, op: Opus, p: Pl, s: Slice, ch: Channel)
    requires Shape(p) && Full(s) && Of(p, ch).Some? && p.call.Some? && Idle(Heard(cfg, Taken(op, p, s), s).1)
    ensures var q := Stepped(cfg, op, p, s); var id := p.call.value;
            && Shape(q) && q.call == p.call && q.det == Heard(cfg, Taken(op, p, s), s).0 && q.clockMs == p.clockMs + 20
            && Of(q, ch).Some? && Of(q, ch).value.ready == []
            && Taken16(Of(q, ch)) == Taken16(Of(p, ch)) + FRAME_SAMPLES
            && Stand(Of(p, ch)) <= Of(q, ch).value.enc.nextSeq
            && Sent(q.log, id, ch) == Sent(p.log, id, ch) + Range(Stand(Of(p, ch)), Of(q, ch).value.enc.nextSeq)
  {
    hide Sent, Heard, Taken, Shape, Drained, Bounded, Stand, Taken16, Range, Nums;
    var taken := Taken(op, p, s);
    var (e, t) := Heard(cfg, taken, s);
    TakenOf(op, p, s, ch);
    TakenLeaves(op, p, s);
    TakenShape(op, p, s);
    DetShape(taken, e);
    IdleApplied(op, taken.(det := e), t);
    var x := taken.(det := e);
    ReadsSome(p, s, ch);
    ShapePair(p, ch);
    StepShape(cfg, op, p, s);
    ShapeOf(x, ch);
    ShapeBoth(x);
    DrainSends(x, ch);
    NumsAreRange(Of(x, ch));
    DrainedOf(x, ch);
    BoundedOf(Drained(x), ch);
    BoundLeaves(Drained(x));
    EmptyTaken(Of(x, ch));
  }

  lemma EmptyTaken(o: Option<Pipe>)
    requires o.Some?
    ensures Taken16(Some(o.value.(ready := []))) == Taken16(o)
  {
  }

  lemma IdleApplied(op: Opus, p: Pl, t: D.Transition)
    requires Idle(t)
    ensures Applied(op, p, t) == p
  {
  }

  lemma ReadsSome(p: Pl, s: Slice, ch: Channel)
    requires Full(s) && Of(p, ch).Some?
    ensures !(ReadCount(p.far, s.far) == 0 && ReadCount(p.near, s.near) == 0)
  {
  }

  lemma ShapePair(p: Pl, ch: Channel)
    requires Shape(p) && Of(p, ch).Some?
    ensures p.far.Some? && p.near.Some?
  {
    hide On, Contiguous, Older;
  }

  lemma ShapeBoth(p: Pl)
    requires Shape(p)
    ensures On(p.far, Far) && On(p.near, Near)
  {
    hide On, Contiguous, Older;
  }

  // --------------------------------------------- blocked, the stream runs on

  lemma BlockedHears(cfg: D.VadConfig, p: Pl)
    requires p.det.state.Blocked?
    ensures var (e, t) := Heard(cfg, p, QUIET); e.state.Blocked? && t.Nothing?
  {
  }

  function Quiets(n: nat): (ops: seq<Op>)
    ensures |ops| == n
  {
    seq(n, _ => Advance(QUIET))
  }

  lemma QuietIsFull()
    ensures Full(QUIET) && Full(SPEECH) && WholeReads(QUIET) && WholeReads(SPEECH)
  {
  }

  /** With a call left open, blocked steps go on numbering its rows from where the channel stands. */
  lemma {:induction false} BlockedFor(cfg: D.VadConfig, op: Opus, p: Pl, n: nat, ch: Channel)
    requires n > 0 && Shape(p) && p.det.state.Blocked? && p.call.Some? && Of(p, ch).Some?
    ensures var q := From(cfg, op, p, Quiets(n)); var id := p.call.value;
            && DrivenFrom(cfg, op, p, Quiets(n)) && Shape(q) && q.det.state.Blocked? && q.call == p.call && Of(q, ch).Some?
            && Taken16(Of(q, ch)) == Taken16(Of(p, ch)) + FRAME_SAMPLES * n
            && Stand(Of(p, ch)) <= Of(q, ch).value.enc.nextSeq && Of(q, ch).value.ready == []
            && Sent(q.log, id, ch) == Sent(p.log, id, ch) + Range(Stand(Of(p, ch)), Of(q, ch).value.enc.nextSeq)
    decreases n
  {
    hide Stepped, Shape, Sent, Heard, Stand, Taken16, Range, Taken, Full;
    QuietIsFull();
    TakenLeaves(op, p, QUIET);
    BlockedHears(cfg, Taken(op, p, QUIET));
    CallStep(cfg, op, p, QUIET, ch);
    var q := Stepped(cfg, op, p, QUIET);
    assert Quiets(n)[0] == Advance(QUIET) && Quiets(n)[1..] == Quiets(n - 1);
    if n == 1 {
      assert Quiets(0) == [];
    } else {
      BlockedFor(cfg, op, q, n - 1, ch);
      StandEmpty(Of(q, ch));
      var r := From(cfg, op, q, Quiets(n - 1));
      Ranges(Stand(Of(p, ch)), Of(q, ch).value.enc.nextSeq, Of(r, ch).value.enc.nextSeq);
    }
  }

  lemma StandEmpty(o: Option<Pipe>)
    requires o.Some? && o.value.ready == []
    ensures Stand(o) == o.value.enc.nextSeq
  {
  }

  lemma Ranges(a: nat, b: nat, c: nat)
    requires a <= b <= c
    ensures Range(a, b) + Range(b, c) == Range(a, c)
  {
  }

  // ------------------------------------------------------- waiting for an arm

  /** Idle on an active session that may arm. */
  predicate Eager(d: D.Det) { d.state.Idle? && d.sessionActive && !d.armExhausted }

  lemma EagerHears(cfg: D.VadConfig, p: Pl)
    requires Sane(cfg) && Eager(p.det)
    ensures var (e, t) := Heard(cfg, p, QUIET);
            if SatSub(p.clockMs, p.det.lastTransitionMs) >= cfg.debounceMs then t.ArmStarted? && e.state.Armed?
            else t.Nothing? && Eager(e) && e.lastTransitionMs == p.det.lastTransitionMs
  {
  }

  lemma ArmStep(cfg: D.VadConfig, op: Opus, p: Pl, ch: Channel)
    requires Shape(p) && Of(p, ch).Some? && p.call.Some? && Heard(cfg, Taken(op, p, QUIET), QUIET).1.ArmStarted?
    ensures var q := Stepped(cfg, op, p, QUIET);
            && Shape(q) && q.call == p.call && q.det == Heard(cfg, Taken(op, p, QUIET), QUIET).0
            && Of(q, ch).Some? && Taken16(Of(q, ch)) == 0 && Stand(Of(q, ch)) == 0
            && Sent(q.log, p.call.value, ch) == Sent(p.log, p.call.value, ch)
  {
    hide Sent, Heard, Taken, Shape, Drained, Bounded;
    QuietIsFull();
    var taken := Taken(op, p, QUIET);
    var e := Heard(cfg, taken, QUIET).0;
    TakenOf(op, p, QUIET, ch);
    TakenLeaves(op, p, QUIET);
    TakenShape(op, p, QUIET);
    DetShape(taken, e);
    var x := Restarted(taken.(det := e));
    ArmApplied(op, taken.(det := e));
    RestartedShape(taken.(det := e));
    ReadsSome(p, QUIET, ch);
    StepShape(cfg, op, p, QUIET);
    ShapeBoth(x);
    ShapeBoth(taken);
    DrainSends(x, ch);
    DrainedOf(x, ch);
    BoundedOf(Drained(x), ch);
    BoundLeaves(Drained(x));
  }

  lemma ArmApplied(op: Opus, p: Pl)
    ensures Applied(op, p, D.ArmStarted) == Restarted(p)
  {
  }

  /** Left alone, an eager detector arms, and with the call left open its numbers start over. */
  lemma {:induction false} ArmSoon(cfg: D.VadConfig, op: Opus, p: Pl, ch: Channel) returns (ops: seq<Op>)
    requires Sane(cfg) && Shape(p) && Of(p, ch).Some? && p.call.Some? && Eager(p.det)
    ensures var q := From(cfg, op, p, ops);
            && DrivenFrom(cfg, op, p, ops) && Shape(q) && q.call == p.call && q.det.state.Armed?
            && Of(q, ch).Some? && Taken16(Of(q, ch)) == 0 && Stand(Of(q, ch)) == 0
            && Sent(p.log, p.call.value, ch) <= Sent(q.log, p.call.value, ch)
    decreases SatSub(cfg.debounceMs + p.det.lastTransitionMs, p.clockMs)
  {
    hide Stepped, Shape, Sent, Heard, Stand, Taken16, Range, Full, Taken;
    QuietIsFull();
    TakenLeaves(op, p, QUIET);
    TakenOf(op, p, QUIET, ch);
    EagerHears(cfg, Taken(op, p, QUIET));
    OneOp(cfg, op, p, Advance(QUIET));
    if Heard(cfg, Taken(op, p, QUIET), QUIET).1.ArmStarted? {
      ArmStep(cfg, op, p, ch);
      ops := [Advance(QUIET)];
    } else {
      CallStep(cfg, op, p, QUIET, ch);
      var q := Stepped(cfg, op, p, QUIET);
      var rest := ArmSoon(cfg, op, q, ch);
      Continue(cfg, op, p, [Advance(QUIET)], rest);
      ops := [Advance(QUIET)] + rest;
    }
  }

  // ------------------------------------------------ a dropped end repeats numbers

  lemma Blocks(cfg: D.VadConfig, op: Opus, p: Pl)
    requires !D.Open(p.det.state)
    ensures Driven(cfg, p, Tell(D.Block(D.NoUser), false))
    ensures var q := Exec(cfg, op, p, Tell(D.Block(D.NoUser), false)); q == p.(det := q.det) && q.det.state.Blocked?
  {
  }

  /** Blocked, the session is cycled and the block lifted: idle, active and ready to arm. */
  lemma Wakes(cfg: D.VadConfig, op: Opus, p: Pl) returns (ops: seq<Op>)
    requires p.det.state.Blocked?
    ensures DrivenFrom(cfg, op, p, ops)
    ensures var q := From(cfg, op, p, ops); q == p.(det := q.det) && Eager(q.det)
  {
    hide D.Fed;
    var off, on, up := Tell(D.SessionState(false), false), Tell(D.SessionState(true), false), Tell(D.Unblock, false);
    BlockedSession(cfg, p.det, p.clockMs, false);
    var a := Exec(cfg, op, p, off);
    OneOp(cfg, op, p, off);
    BlockedSession(cfg, a.det, a.clockMs, true);
    var b := Exec(cfg, op, a, on);
    OneOp(cfg, op, a, on);
    LiftsBlock(cfg, b.det, b.clockMs);
    OneOp(cfg, op, b, up);
    Continue(cfg, op, a, [on], [up]);
    Continue(cfg, op, p, [off], [on] + [up]);
    ops := [off] + ([on] + [up]);
  }

  lemma BlockedSession(cfg: D.VadConfig, d: D.Det, now: nat, active: bool)
    requires d.state.Blocked?
    ensures var (e, t) := D.Fed(cfg, d, now, D.SessionState(active));
            t.Nothing? && e.state.Blocked? && e.sessionActive == active && e.armExhausted == (active && d.armExhausted)
  {
  }

  lemma LiftsBlock(cfg: D.VadConfig, d: D.Det, now: nat)
    requires d.state.Blocked?
    ensures var (e, t) := D.Fed(cfg, d, now, D.Unblock);
            t.Unblocked? && e.state.Idle? && e.sessionActive == d.sessionActive && e.armExhausted == d.armExhausted
  {
  }

  /** A second of blocked steps hands over at least one row; after a restart, exactly the first number again. */
  lemma BlockedSecond(cfg: D.VadConfig, op: Opus, p: Pl, ch: Channel)
    requires Shape(p) && p.det.state.Blocked? && p.call.Some? && Of(p, ch).Some?
    ensures var q := From(cfg, op, p, Quiets(50)); var was, now := Sent(p.log, p.call.value, ch), Sent(q.log, p.call.value, ch);
            && DrivenFrom(cfg, op, p, Quiets(50)) && Shape(q) && q.det.state.Blocked? && q.call == p.call && Of(q, ch).Some?
            && was <= now && |was| < |now|
            && (Taken16(Of(p, ch)) == 0 && Stand(Of(p, ch)) == 0 ==> now == was + [0])
  {
    hide From, DrivenFrom, Sent, Shape, Stand, Taken16, Quiets;
    BlockedFor(cfg, op, p, 50, ch);
    var q := From(cfg, op, p, Quiets(50));
    ShapeOf(p, ch);
    ShapeOf(q, ch);
    NextIsCount(Of(p, ch), ch);
    NextIsCount(Of(q, ch), ch);
    StandBehind(Of(p, ch));
    if Taken16(Of(p, ch)) == 0 && Stand(Of(p, ch)) == 0 {
      assert Range(0, 1) == [0];
    }
  }

  lemma StandBehind(o: Option<Pipe>)
    requires o.Some?
    ensures Stand(o) <= o.value.enc.nextSeq
  {
  }

  /** With a call left open on a live stream, the next arm makes its numbers start over. */
  lemma EndDroppedBreaks(cfg: D.VadConfig, op: Opus, p: Pl, ch: Channel) returns (ops: seq<Op>)
    requires Sane(cfg) && Shape(p) && p.call.Some? && !D.Open(p.det.state) && Of(p, ch).Some?
    ensures DrivenFrom(cfg, op, p, ops)
    ensures var sent := Sent(From(cfg, op, p, ops).log, p.call.value, ch); |sent| > 1 && sent[|sent| - 1] == 0
    ensures Broken(From(cfg, op, p, ops), ch)
  {
    hide From, DrivenFrom, Exec, Driven, Sent, Shape, Stand, Taken16, Quiets, Sane;
    var block := Tell(D.Block(D.NoUser), false);
    Blocks(cfg, op, p);
    OneOp(cfg, op, p, block);
    var a := Exec(cfg, op, p, block);
    DetShape(p, a.det);
    BlockedSecond(cfg, op, a, ch);
    var b := From(cfg, op, a, Quiets(50));
    Continue(cfg, op, p, [block], Quiets(50));
    var wake := Wakes(cfg, op, b);
    var c := From(cfg, op, b, wake);
    DetShape(b, c.det);
    Continue(cfg, op, p, [block] + Quiets(50), wake);
    var arm := ArmSoon(cfg, op, c, ch);
    var d := From(cfg, op, c, arm);
    Continue(cfg, op, p, [block] + Quiets(50) + wake, arm);
    Blocks(cfg, op, d);
    OneOp(cfg, op, d, block);
    var e := Exec(cfg, op, d, block);
    DetShape(d, e.det);
    Continue(cfg, op, p, [block] + Quiets(50) + wake + arm, [block]);
    BlockedSecond(cfg, op, e, ch);
    Continue(cfg, op, p, [block] + Quiets(50) + wake + arm + [block], Quiets(50));
    ops := [block] + Quiets(50) + wake + arm + [block] + Quiets(50);
    NotUpTo(From(cfg, op, p, ops), p.call.value, ch);
  }

  lemma NotUpTo(p: Pl, call: nat, ch: Channel)
    requires var sent := Sent(p.log, call, ch); |sent| > 1 && sent[|sent| - 1] == 0
    ensures Broken(p, ch)
  {
    hide Sent;
    var sent := Sent(p.log, call, ch);
    assert UpTo(|sent|)[|sent| - 1] == |sent| - 1;
  }

  // ----------------------------------------- a dropped arm uses up low numbers

  /** Armed on an active session and hearing nothing but speech since. */
  predicate Rising(cfg: D.VadConfig, d: D.Det, now: nat)
  {
    && d.state.Armed? && d.sessionActive && d.nowMs == now && d.enteredAtMs <= now
    && d.armedSpeechMs == now - d.enteredAtMs && d.armedSpeechMs < cfg.speechMsToConfirm
  }

  /** Settings under which unbroken speech confirms an arm before it times out. */
  predicate Confirmable(cfg: D.VadConfig) { cfg.speechMsToConfirm <= cfg.armedTimeoutMs }

  lemma RisingHears(cfg: D.VadConfig, p: Pl, now: nat)
    requires Sane(cfg) && Confirmable(cfg) && Rising(cfg, p.det, now) && p.clockMs == now + 20 && p.far.Some?
    ensures var (e, t) := Heard(cfg, p, SPEECH);
            if p.det.armedSpeechMs + 20 >= cfg.speechMsToConfirm then t.CallStarted? && e.state.InCall? && e.sessionActive
            else t.Nothing? && Rising(cfg, e, p.clockMs) && e.armedSpeechMs == p.det.armedSpeechMs + 20
  {
  }

  /** Speech goes on in the arm: the channel's standing never falls. */
  lemma ArmedStep(cfg: D.VadConfig, op: Opus, p: Pl, ch: Channel)
    requires Shape(p) && Of(p, ch).Some? && p.call.None? && Heard(cfg, Taken(op, p, SPEECH), SPEECH).1.Nothing?
    ensures var q := Stepped(cfg, op, p, SPEECH);
            && Shape(q) && q.call.None? && q.det == Heard(cfg, Taken(op, p, SPEECH), SPEECH).0 && q.clockMs == p.clockMs + 20
            && Of(q, ch).Some? && q.far.Some? && Stand(Of(p, ch)) <= Stand(Of(q, ch)) && q.nextId == p.nextId && q.log == p.log
  {
    hide Heard, Taken, Shape, Bounded, Stand;
    QuietIsFull();
    var taken := Taken(op, p, SPEECH);
    var (e, t) := Heard(cfg, taken, SPEECH);
    TakenOf(op, p, SPEECH, ch);
    TakenLeaves(op, p, SPEECH);
    TakenShape(op, p, SPEECH);
    DetShape(taken, e);
    IdleApplied(op, taken.(det := e), t);
    ReadsSome(p, SPEECH, ch);
    StepShape(cfg, op, p, SPEECH);
    ShapeOf(taken, ch);
    CapOf(taken.(det := e), ch);
    BoundLeaves(taken.(det := e));
  }

  lemma CapOf(p: Pl, ch: Channel)
    requires Of(p, ch).Some? && On(Of(p, ch), ch) && Contiguous(Of(p, ch)) && p.far.Some?
    ensures Of(Bounded(p), ch).Some? && Stand(Of(p, ch)) <= Stand(Of(Bounded(p), ch)) && Bounded(p).far.Some?
  {
    CapStands(Of(p, ch), ch, p.det.state.Armed? || p.call.Some?);
  }

  /** A call under way on the channel whose first row is not, or will not be, number zero. */
  ghost predicate Skewed(p: Pl, ch: Channel)
  {
    && Shape(p) && p.call.Some? && Of(p, ch).Some? && p.det.state.InCall? && p.det.sessionActive
    && var sent := Sent(p.log, p.call.value, ch); if sent == [] then Stand(Of(p, ch)) > 0 else sent[0] > 0
  }

  /** The step that confirms the call starts it skewed. */
  lemma StartStep(cfg: D.VadConfig, op: Opus, p: Pl, ch: Channel)
    requires Shape(p) && Of(p, ch).Some? && Stand(Of(p, ch)) > 0
    requires var (e, t) := Heard(cfg, Taken(op, p, SPEECH), SPEECH); t.CallStarted? && e.state.InCall? && e.sessionActive
    ensures Skewed(Stepped(cfg, op, p, SPEECH), ch)
  {
    hide Heard, Taken, Shape, Drained, Bounded, Sent, Stand, Contiguous;
    QuietIsFull();
    var taken := Taken(op, p, SPEECH);
    var e := Heard(cfg, taken, SPEECH).0;
    TakenOf(op, p, SPEECH, ch);
    TakenLeaves(op, p, SPEECH);
    ReadsSome(p, SPEECH, ch);
    StepShape(cfg, op, p, SPEECH);
    ShapeOf(p, ch);
    ShapeOlder(p);
    StandReady(p, ch);
    CallStartsWhereTheEncoderStands(cfg, op, p, SPEECH, ch, Stand(Of(p, ch)));
    AppliedOpens(op, taken.(det := e));
    var x := Opened(taken.(det := e));
    DrainedOf(x, ch);
    BoundedOf(Drained(x), ch);
    BoundLeaves(Drained(x));
    StandEmpty(Of(Stepped(cfg, op, p, SPEECH), ch));
    StandBehind(Of(taken, ch));
  }

  lemma ShapeOlder(p: Pl)
    requires Shape(p)
    ensures Older(p.log, p.nextId) && On(p.far, Far) && On(p.near, Near)
  {
    hide On, Contiguous, Older;
  }

  lemma StandReady(p: Pl, ch: Channel)
    requires Shape(p)
    ensures Ready(Of(p, ch), Stand(Of(p, ch)))
  {
    hide On, Older, Stand, Ready;
  }

  lemma {:induction false} ConfirmSoon(cfg: D.VadConfig, op: Opus, p: Pl, ch: Channel) returns (ops: seq<Op>)
    requires Sane(cfg) && Confirmable(cfg) && Shape(p) && Of(p, ch).Some? && p.far.Some? && p.call.None?
    requires Rising(cfg, p.det, p.clockMs) && Stand(Of(p, ch)) > 0
    ensures DrivenFrom(cfg, op, p, ops) && Skewed(From(cfg, op, p, ops), ch)
    decreases cfg.speechMsToConfirm - p.det.armedSpeechMs
  {
    hide Stepped, Shape, Heard, Stand, Taken, Skewed, Full, Sane;
    QuietIsFull();
    TakenOf(op, p, SPEECH, ch);
    TakenLeaves(op, p, SPEECH);
    RisingHears(cfg, Taken(op, p, SPEECH), p.clockMs);
    OneOp(cfg, op, p, Advance(SPEECH));
    ops := [Advance(SPEECH)];
    if Heard(cfg, Taken(op, p, SPEECH), SPEECH).1.CallStarted? {
      StartStep(cfg, op, p, ch);
    } else {
      ArmedStep(cfg, op, p, ch);
      var rest := ConfirmSoon(cfg, op, Stepped(cfg, op, p, SPEECH), ch);
      Continue(cfg, op, p, [Advance(SPEECH)], rest);
      ops := [Advance(SPEECH)] + rest;
    }
  }

  lemma TalkingHears(cfg: D.VadConfig, p: Pl)
    requires p.det.state.InCall? && p.det.sessionActive
    ensures var (e, t) := Heard(cfg, p, SPEECH); t.Nothing? && e.state.InCall? && e.sessionActive
  {
  }

  /** A skewed call shows it as soon as a row is handed over, within a second. */
  lemma {:induction false} ShowsSoon(cfg: D.VadConfig, op: Opus, p: Pl, ch: Channel) returns (ops: seq<Op>)
    requires Skewed(p, ch)
    ensures DrivenFrom(cfg, op, p, ops) && Broken(From(cfg, op, p, ops), ch)
    decreases if Sent(p.log, p.call.value, ch) == [] then SEGMENT_SAMPLES - Position(Of(p, ch).value.enc) else 0
  {
    hide Stepped, Shape, Heard, Stand, Taken, Full, Sent;
    if Sent(p.log, p.call.value, ch) != [] {
      ops := [];
      FirstNotZero(p, p.call.value, ch);
    } else {
      QuietIsFull();
      TakenLeaves(op, p, SPEECH);
      TalkingHears(cfg, Taken(op, p, SPEECH));
      CallStep(cfg, op, p, SPEECH, ch);
      OneOp(cfg, op, p, Advance(SPEECH));
      var q := Stepped(cfg, op, p, SPEECH);
      StandEmpty(Of(q, ch));
      MoreOrFuller(p, q, ch);
      var rest := ShowsSoon(cfg, op, q, ch);
      Continue(cfg, op, p, [Advance(SPEECH)], rest);
      ops := [Advance(SPEECH)] + rest;
    }
  }

  /** Either a row was handed over, or the encoder is a frame further into its second. */
  lemma MoreOrFuller(p: Pl, q: Pl, ch: Channel)
    requires Shape(p) && Shape(q) && Of(p, ch).Some? && Of(q, ch).Some?
    requires Taken16(Of(q, ch)) == Taken16(Of(p, ch)) + FRAME_SAMPLES && Of(q, ch).value.ready == []
    requires Stand(Of(p, ch)) <= Of(q, ch).value.enc.nextSeq
    ensures Position(Of(p, ch).value.enc) < SEGMENT_SAMPLES && Position(Of(q, ch).value.enc) < SEGMENT_SAMPLES
    ensures Stand(Of(p, ch)) < Of(q, ch).value.enc.nextSeq || Position(Of(q, ch).value.enc) == Position(Of(p, ch).value.enc) + FRAME_SAMPLES
  {
    hide Older, Contiguous;
    ShapeOf(p, ch);
    ShapeOf(q, ch);
  }

  lemma FirstNotZero(p: Pl, call: nat, ch: Channel)
    requires var sent := Sent(p.log, call, ch); sent != [] && sent[0] > 0
    ensures Broken(p, ch)
  {
    hide Sent;
    assert UpTo(|Sent(p.log, call, ch)|)[0] == 0;
  }

  // ------------------------------------------------------------- the answer

  /**
   A notification's transition is dropped in a state reached with everything routed so far. Some
   continuation, with nothing more dropped, breaks the numbering of a call on a channel if and only
   if that channel's stream is open and the transition is an end, or an arm after the encoder has
   already given out numbers.
   */
  lemma DropBreaksIff(cfg: D.VadConfig, op: Opus, p: Pl, input: D.Input, ch: Channel)
    requires Sane(cfg) && Confirmable(cfg) && Good(p, ch)
    ensures Breaks(cfg, op, Told(cfg, p, input).0, ch) <==> Spoils(p, Told(cfg, p, input).1, ch)
  {
    hide Good, DrivenFrom, From, Broken, Sane, Confirmable, D.Fed, Loose;
    var (q, t) := Told(cfg, p, input);
    if Spoils(p, t, ch) {
      var ops := SpoiltBreaks(cfg, op, p, input, ch);
    } else {
      HarmlessDrop(cfg, p, input, ch);
      forall ops | DrivenFrom(cfg, op, q, ops) ensures !Broken(From(cfg, op, q, ops), ch) {
        NeverBroken(cfg, op, q, ops, ch);
      }
    }
  }

  /** A lost device takes both streams with it, so its transition can always be dropped. */
  lemma UnplugNeverBreaks(cfg: D.VadConfig, op: Opus, p: Pl, ch: Channel)
    requires Sane(cfg) && Confirmable(cfg) && Good(p, ch)
    ensures !Breaks(cfg, op, Told(cfg, Unplugged(p), D.Block(D.PinnedDeviceMissing)).0, ch)
  {
    hide Shape, Inv, Breaks, D.Fed, Sane, Confirmable;
    UnpluggedShape(p);
    UnplugKeeps(p, ch);
    DropBreaksIff(cfg, op, Unplugged(p), D.Block(D.PinnedDeviceMissing), ch);
  }

  lemma SpoiltBreaks(cfg: D.VadConfig, op: Opus, p: Pl, input: D.Input, ch: Channel) returns (ops: seq<Op>)
    requires Sane(cfg) && Confirmable(cfg) && Good(p, ch) && Spoils(p, Told(cfg, p, input).1, ch)
    ensures var q := Told(cfg, p, input).0; DrivenFrom(cfg, op, q, ops) && Broken(From(cfg, op, q, ops), ch)
  {
    hide DrivenFrom, From, Broken, Sane, Confirmable, D.Fed, Shape, Inv, Tidied, Moves;
    var (q, t) := Told(cfg, p, input);
    FedMoves(cfg, p.det, p.clockMs, input);
    DetShape(p, q.det);
    if t.CallEnded? {
      OpenHasCall(p, q.det, t, ch);
      ops := EndDroppedBreaks(cfg, op, q, ch);
    } else {
      ArmsFromRest(cfg, p.det, p.clockMs, input);
      NumbersGone(cfg, p, q.det, ch);
      var first := ConfirmSoon(cfg, op, q, ch);
      var then_ := ShowsSoon(cfg, op, From(cfg, op, q, first), ch);
      Continue(cfg, op, q, first, then_);
      ops := first + then_;
    }
  }

  lemma OpenHasCall(p: Pl, e: D.Det, t: D.Transition, ch: Channel)
    requires Inv(p, ch) && t.CallEnded? && Moves(p.det, e, t, p.clockMs)
    ensures p.call.Some? && !D.Open(e.state)
  {
    hide LogOk, Older, InCall, Armed, On;
  }

  lemma NumbersGone(cfg: D.VadConfig, p: Pl, e: D.Det, ch: Channel)
    requires Sane(cfg) && Good(p, ch) && Moves(p.det, e, D.ArmStarted, p.clockMs) && !p.det.state.Armed? && !JustMoved(p.det, p.clockMs)
    requires Of(p, ch).Some? && Of(p, ch).value.enc.nextSeq > 0
    requires e.state.Armed? && e.enteredAtMs == p.clockMs && e.nowMs == p.clockMs && e.armedSpeechMs == 0 && e.sessionActive
    ensures p.call.None? && p.far.Some? && Stand(Of(p, ch)) > 0 && Rising(cfg, e, p.clockMs)
  {
    hide LogOk, Older, InCall, Armed, On;
  }

  /** Every driven run is good, so the answer holds wherever one has led. */
  lemma {:induction false} RunIsGood(cfg: D.VadConfig, op: Opus, user: string, ops: seq<Op>, ch: Channel)
    requires Sane(cfg) && AllDriven(cfg, op, user, ops)
    ensures Good(After(cfg, op, user, ops), ch)
  {
    hide Inv, Shape, Sane, AllDriven, Exec;
    RunKeeps(cfg, op, user, ops, ch);
    RunShape(cfg, op, user, ops);
    RunTidies(cfg, op, user, ops, ch);
  }

  lemma {:induction false} RunTidies(cfg: D.VadConfig, op: Opus, user: string, ops: seq<Op>, ch: Channel)
    requires Sane(cfg)
    ensures Tidied(After(cfg, op, user, ops), ch)
  {
    hide Exec, Sane;
    if ops != [] {
      RunTidies(cfg, op, user, ops[..|ops| - 1], ch);
      ExecTidies(cfg, op, After(cfg, op, user, ops[..|ops| - 1]), ops[|ops| - 1], ch);
    }
  }

  // ------------------------------------------------- a run that repeats numbers

  lemma {:induction false} AfterIsFrom(cfg: D.VadConfig, op: Opus, user: string, past: seq<Op>, ops: seq<Op>)
    ensures After(cfg, op, user, past + ops) == From(cfg, op, After(cfg, op, user, past), ops)
    decreases |ops|
  {
    hide Exec;
    if ops == [] {
      assert past + ops == past;
    } else {
      var more := past + [ops[0]];
      assert more[..|past|] == past;
      AfterIsFrom(cfg, op, user, more, ops[1..]);
      assert past + ops == more + ops[1..];
    }
  }

  /** Two idle seconds, less a frame; a session whose arm is routed; and the frame that confirms a call. */
  function Routed(): seq<Op> { Waiting(99) + [Tell(D.SessionState(true), true)] + [Advance(SPEECH)] }

  lemma RoutedOpens(op: Opus, user: string)
    ensures var p := After(SETTINGS, op, user, Routed()); p.call == Some(0) && p.far.Some? && Shape(p)
  {
    hide Stepped, Told, Heard, On, Fed, Shape, Waits, Taken;
    var a, b := Waiting(99), Waiting(99) + [Tell(D.SessionState(true), true)];
    assert b[..|b| - 1] == a && Routed()[..|Routed()| - 1] == b;
    var p := After(SETTINGS, op, user, a);
    WaitingWaits(SETTINGS, op, user, 99);
    ArmsUnrouted(p, 99);
    var q := Restarted(Told(SETTINGS, p, D.SessionState(true)).0);
    ArmApplied(op, Told(SETTINGS, p, D.SessionState(true)).0);
    assert After(SETTINGS, op, user, b) == q;
    WaitsOpen(p, 99);
    RunShape(SETTINGS, op, user, b);
    RunShape(SETTINGS, op, user, Routed());
    QuietIsFull();
    TakenOf(op, q, SPEECH, Far);
    TakenLeaves(op, q, SPEECH);
    SpeechConfirms(Taken(op, q, SPEECH));
    ShapeOf(q, Far);
    ShapeOlder(q);
    StandReady(q, Far);
    CallStartsWhereTheEncoderStands(SETTINGS, op, q, SPEECH, Far, Stand(q.far));
    StartKeepsFar(SETTINGS, op, q);
  }

  lemma WaitsOpen(p: Pl, n: nat)
    requires Waits(p, n)
    ensures p.far.Some? && p.call.None? && p.nextId == 0 && p.det.nowMs == p.clockMs
  {
    hide On, Taken16;
  }

  lemma StartKeepsFar(cfg: D.VadConfig, op: Opus, p: Pl)
    requires Shape(p) && p.far.Some? && Heard(cfg, Taken(op, p, SPEECH), SPEECH).1.CallStarted?
    ensures Stepped(cfg, op, p, SPEECH).far.Some?
  {
    hide Heard, Taken, Shape, Drained, Bounded;
    QuietIsFull();
    var taken := Taken(op, p, SPEECH);
    var e := Heard(cfg, taken, SPEECH).0;
    TakenOf(op, p, SPEECH, Far);
    ReadsSome(p, SPEECH, Far);
    AppliedOpens(op, taken.(det := e));
    var x := Opened(taken.(det := e));
    DrainedOf(x, Far);
    BoundedOf(Drained(x), Far);
  }

  /**
   The agent's own way of blocking drops the end of an open call. The stream runs on, the next arm
   restarts the encoder, and the same call is given number zero a second time.
   */
  lemma DroppedEndRepeatsZero(op: Opus, user: string) returns (ops: seq<Op>)
    ensures var past := Routed() + [Tell(D.Block(D.NoUser), false)];
            && DrivenFrom(SETTINGS, op, After(SETTINGS, op, user, past), ops)
            && var sent := Sent(After(SETTINGS, op, user, past + ops).log, 0, Far); |sent| > 1 && sent[|sent| - 1] == 0
  {
    hide Exec, From, DrivenFrom, Sent, Shape, Broken;
    var past := Routed() + [Tell(D.Block(D.NoUser), false)];
    assert past[..|past| - 1] == Routed();
    RoutedOpens(op, user);
    var p := After(SETTINGS, op, user, Routed());
    BlocksAnything(SETTINGS, op, p);
    var q := After(SETTINGS, op, user, past);
    DetShape(p, q.det);
    ops := EndDroppedBreaks(SETTINGS, op, q, Far);
    AfterIsFrom(SETTINGS, op, user, past, ops);
  }

  lemma BlocksAnything(cfg: D.VadConfig, op: Opus, p: Pl)
    ensures var q := Exec(cfg, op, p, Tell(D.Block(D.NoUser), false)); q == p.(det := q.det) && q.det.state.Blocked?
  {
  }
}
