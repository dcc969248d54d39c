/**
 What the pipeline hands over: a call's rows on a channel are the encoder's segments for exactly
 the samples read from it since the arm, pre-roll included, and every note in the log is the
 detector's.
 */
module PipelineStream {
  import opened Prelude
  import opened Media
  import opened Encoder
  import opened Pipeline
  import opened PipelineRuns
  import opened PipelineVoice
  import PipelineDrops
  import D = Detector
  import ER = EncoderRuns
  import F = Frames

  // ------------------------------------------------------- reading the log

  /** A call's segments on a channel, in the order they were handed over. */
  function Segs(log: seq<Rec>, call: nat, ch: Channel): seq<Segment>
  {
    if log == [] then []
    else
      var last := log[|log| - 1];
      Segs(log[..|log| - 1], call, ch) + (if last.Row? && last.call == call && last.seg.channel == ch then [last.seg] else [])
  }

  lemma {:induction false} SegsAppend(log: seq<Rec>, more: seq<Rec>, call: nat, ch: Channel)
    ensures Segs(log + more, call, ch) == Segs(log, call, ch) + Segs(more, call, ch)
    decreases |more|
  {
    if more == [] {
      assert log + more == log;
    } else {
      SegsAppend(log, more[..|more| - 1], call, ch);
      assert (log + more)[..|log + more| - 1] == log + more[..|more| - 1];
    }
  }

  lemma {:induction false} SegsOfRows(id: nat, segs: seq<Segment>, clockMs: nat, c: Channel, ch: Channel)
    requires AllOn(segs, c)
    ensures Segs(Rows(id, segs, clockMs), id, ch) == if c == ch then segs else []
  {
    if segs != [] {
      var init := segs[..|segs| - 1];
      SegsOfRows(id, init, clockMs, c, ch);
      assert Rows(id, segs, clockMs)[..|segs| - 1] == Rows(id, init, clockMs);
      assert segs == init + [segs[|segs| - 1]];
    }
  }

  lemma {:induction false} NoSegsYet(log: seq<Rec>, id: nat, ch: Channel)
    requires Older(log, id)
    ensures Segs(log, id, ch) == []
  {
    if log != [] { NoSegsYet(log[..|log| - 1], id, ch); }
  }

  lemma NoteAddsNoSegs(log: seq<Rec>, r: Rec, id: nat, ch: Channel)
    requires !r.Row?
    ensures Segs(log + [r], id, ch) == Segs(log, id, ch)
  {
    assert (log + [r])[..|log|] == log;
  }

  lemma SpooledSegs(p: Pl, id: nat, c: Channel, segs: seq<Segment>, ch: Channel)
    requires AllOn(segs, c)
    ensures Segs(Spooled(p, id, c, segs).log, id, ch) == Segs(p.log, id, ch) + if c == ch then segs else []
  {
    hide Rows, Segs;
    SegsAppend(p.log, Rows(id, segs, p.clockMs), id, ch);
    SegsOfRows(id, segs, p.clockMs, c, ch);
  }

  // ------------------------------------------------- what a channel was given

  /** What a step gives a channel's encoder. */
  function Given(p: Pl, s: Slice, ch: Channel): seq<ER.Event>
  {
    if Of(p, ch).None? then []
    else if ch.Far? then [ER.Push(s.far)] + (if s.foreignAudio then [ER.MarkForeign] else [])
    else [ER.Push(s.near)]
  }

  /** What an operation gives it, before any restart. */
  function GivenBy(p: Pl, o: Op, ch: Channel): seq<ER.Event>
  {
    if o.Advance? && !Empty(p, o.s) then Given(p, o.s, ch) else []
  }

  /** The operation leaves the channel with a new encoder. */
  predicate Renews(cfg: D.VadConfig, op: Opus, p: Pl, o: Op)
  {
    match o
    case Advance(s) => StartsOver(Answer(cfg, op, p, o))
    case Tell(_, routed) => routed && StartsOver(Answer(cfg, op, p, o))
    case Connect => true
    case Unplug(_) => true
  }

  /** Everything a channel's encoder was given since it was new, over a run. */
  function GivenSince(cfg: D.VadConfig, op: Opus, user: string, ops: seq<Op>, ch: Channel): seq<ER.Event>
  {
    if ops == [] then []
    else
      var init, o := ops[..|ops| - 1], ops[|ops| - 1];
      var p := After(cfg, op, user, init);
      if Renews(cfg, op, p, o) then [] else GivenSince(cfg, op, user, init, ch) + GivenBy(p, o, ch)
  }

  /** The segments of the open call handed over so far. */
  function Held(p: Pl, ch: Channel): seq<Segment> { if p.call.None? then [] else Segs(p.log, p.call.value, ch) }

  /** While armed or in a call: what was handed over and what is buffered are the encoder's segments, whole. */
  ghost predicate Streams(op: Opus, p: Pl, ch: Channel, evs: seq<ER.Event>)
  {
    Of(p, ch).Some? && (p.det.state.Armed? || p.call.Some?) ==> Whole(op, Of(p, ch).value, Held(p, ch), ch, evs)
  }

  ghost predicate Whole(op: Opus, pipe: Pipe, held: seq<Segment>, ch: Channel, evs: seq<ER.Event>)
  {
    var r := ER.Run(op, ch, evs);
    pipe.enc == r.enc && held + pipe.ready == r.out
  }

  lemma RunSnoc(op: Opus, ch: Channel, evs: seq<ER.Event>, ev: ER.Event)
    ensures var r, last := ER.Run(op, ch, evs), ER.Applied(op, ER.Run(op, ch, evs).enc, ev);
            ER.Run(op, ch, evs + [ev]) == Step(last.enc, r.out + last.out)
  {
    assert (evs + [ev])[..|evs|] == evs;
  }

  lemma ReadWhole(op: Opus, o: Option<Pipe>, xs: seq<Sample>, held: seq<Segment>, ch: Channel, evs: seq<ER.Event>)
    requires o.Some? && Whole(op, o.value, held, ch, evs)
    ensures Read(op, o, xs).Some? && Whole(op, Read(op, o, xs).value, held, ch, evs + [ER.Push(xs)])
  {
    hide ER.Run;
    RunSnoc(op, ch, evs, ER.Push(xs));
    if xs == [] {
      assert Fed(op, o.value.enc, xs) == Step(o.value.enc, []);
    } else {
      var r := Fed(op, o.value.enc, xs);
      assert held + (o.value.ready + r.out) == held + o.value.ready + r.out;
    }
  }

  lemma MarkWhole(op: Opus, o: Option<Pipe>, held: seq<Segment>, ch: Channel, evs: seq<ER.Event>)
    requires o.Some? && Whole(op, o.value, held, ch, evs)
    ensures Marked(o).Some? && Whole(op, Marked(o).value, held, ch, evs + [ER.MarkForeign])
  {
    hide ER.Run;
    RunSnoc(op, ch, evs, ER.MarkForeign);
  }

  lemma TakenWhole(op: Opus, p: Pl, s: Slice, held: seq<Segment>, ch: Channel, evs: seq<ER.Event>)
    requires Of(p, ch).Some? && Whole(op, Of(p, ch).value, held, ch, evs)
    ensures Of(Taken(op, p, s), ch).Some? && Whole(op, Of(Taken(op, p, s), ch).value, held, ch, evs + Given(p, s, ch))
  {
    hide Read, Whole, Marked;
    if ch.Far? {
      ReadWhole(op, p.far, s.far, held, Far, evs);
      if s.foreignAudio {
        MarkWhole(op, Read(op, p.far, s.far), held, Far, evs + [ER.Push(s.far)]);
        assert evs + [ER.Push(s.far)] + [ER.MarkForeign] == evs + Given(p, s, ch);
      } else {
        assert evs + [ER.Push(s.far)] == evs + Given(p, s, ch);
      }
    } else {
      ReadWhole(op, p.near, s.near, held, Near, evs);
    }
  }

  lemma FreshWhole(op: Opus, ch: Channel)
    ensures Whole(op, Pipe(Start(ch), []), [], ch, [])
  {
  }

  // ------------------------------------------------------- what a step does

  lemma DrainChannelStreams(op: Opus, p: Pl, id: nat, c: Channel, ch: Channel, evs: seq<ER.Event>)
    requires On(Of(p, c), c) && Of(p, ch).Some? && Whole(op, Of(p, ch).value, Segs(p.log, id, ch), ch, evs)
    ensures var q := DrainChannel(p, id, c);
            && Of(q, ch).Some? && Whole(op, Of(q, ch).value, Segs(q.log, id, ch), ch, evs)
            && (c != ch ==> Of(q, c) == (if Of(p, c).None? then None else Some(Of(p, c).value.(ready := []))))
  {
    hide ER.Run, Segs, Rows, Noted;
    var o := Of(p, c);
    if o.Some? {
      var emptied := With(p, c, Some(o.value.(ready := [])));
      SpooledSegs(emptied, id, c, o.value.ready, ch);
      if c == ch {
        assert Segs(p.log, id, ch) + o.value.ready + [] == Segs(p.log, id, ch) + o.value.ready;
      } else {
        assert Segs(p.log, id, ch) + [] == Segs(p.log, id, ch);
      }
    }
  }

  lemma DrainStreams(op: Opus, p: Pl, ch: Channel, evs: seq<ER.Event>)
    requires Inv(p, ch) && Streams(op, p, ch, evs)
    ensures Streams(op, Drained(p), ch, evs)
  {
    hide Inv, Whole, Segs, DrainChannel;
    if p.call.Some? && Of(p, ch).Some? {
      var id := p.call.value;
      InvOn(p, ch);
      DrainChannelStreams(op, p, id, Far, ch, evs);
      NearStays(p, id);
      DrainChannelStreams(op, DrainChannel(p, id, Far), id, Near, ch, evs);
      DrainLeaves(p);
    }
    if p.call.Some? && Of(p, ch).None? { NoneStays(p, p.call.value, ch); }
  }

  lemma InvOn(p: Pl, ch: Channel)
    requires Inv(p, ch)
    ensures On(p.far, Far) && On(p.near, Near) && Older(p.log, p.nextId) && (D.Open(p.det.state) <==> p.call.Some?)
  {
    hide LogOk, Older, Armed, InCall;
  }

  lemma NearStays(p: Pl, id: nat)
    ensures DrainChannel(p, id, Far).near == p.near && DrainChannel(p, id, Far).call == p.call
  {
    hide Rows, Noted;
  }

  lemma NoneStays(p: Pl, id: nat, ch: Channel)
    ensures Of(p, ch).None? ==> Of(Drained(p), ch).None?
  {
    hide Rows, Noted;
  }

  /** Nothing of an arm's pre-roll is cut in a state that keeps the numbering. */
  lemma CapCutsNothing(o: Option<Pipe>, n: nat)
    requires o.Some? && Ready(o, n) && Ready(Capped(o, true), n)
    ensures Capped(o, true) == o
  {
  }

  lemma BoundStreams(op: Opus, p: Pl, ch: Channel, evs: seq<ER.Event>)
    requires Inv(p, ch) && Inv(Bounded(p), ch) && Streams(op, p, ch, evs)
    requires p.call.Some? && Of(p, ch).Some? ==> Of(p, ch).value.ready == []
    ensures Streams(op, Bounded(p), ch, evs)
  {
    hide Whole, Segs, LogOk, Older, Line;
    if Of(p, ch).Some? && (p.det.state.Armed? || p.call.Some?) {
      if p.call.None? {
        CapCutsNothing(Of(p, ch), 0);
      }
      assert Of(Bounded(p), ch) == Of(p, ch);
    }
  }

  lemma RestartStreams(op: Opus, p: Pl, ch: Channel)
    requires p.call.None? && On(p.far, Far) && On(p.near, Near)
    ensures Streams(op, Restarted(p), ch, [])
  {
    FreshWhole(op, ch);
  }

  lemma OpenStreams(op: Opus, p: Pl, ch: Channel, evs: seq<ER.Event>)
    requires Older(p.log, p.nextId) && p.call.None? && (Of(p, ch).Some? ==> Whole(op, Of(p, ch).value, [], ch, evs))
    ensures Streams(op, Opened(p), ch, evs)
  {
    hide Whole, Segs;
    NoSegsYet(p.log, p.nextId, ch);
    NoteAddsNoSegs(p.log, Began(p.nextId, p.clockMs), p.nextId, ch);
  }

  /** A transition that is not an end: what was whole stays whole, or a new encoder begins. */
  lemma ApplyStreams(op: Opus, p: Pl, e: D.Det, t: D.Transition, ch: Channel, evs: seq<ER.Event>)
    requires Inv(p, ch) && Moves(p.det, e, t, p.clockMs) && Streams(op, p, ch, evs)
    ensures Streams(op, Applied(op, p.(det := e), t), ch, if StartsOver(t) then [] else evs)
  {
    hide Whole, Segs, Inv, Finished;
    InvOn(p, ch);
    var q := p.(det := e);
    match t
    case ArmStarted => RestartStreams(op, q, ch);
    case ArmDiscarded => RestartStreams(op, q, ch);
    case CallStarted => OpenStreams(op, q, ch, evs);
    case CallEnded(reason) => EndedIsShut(op, q, reason);
    case _ =>
  }

  lemma EndedIsShut(op: Opus, p: Pl, reason: EndReason)
    ensures Finished(op, p, reason).call.None? && Finished(op, p, reason).det == p.det
  {
    hide Flushed, Rows, Noted;
  }

  lemma TakenStreams(op: Opus, p: Pl, s: Slice, ch: Channel, evs: seq<ER.Event>)
    requires Streams(op, p, ch, evs)
    ensures Streams(op, Taken(op, p, s), ch, evs + Given(p, s, ch))
  {
    hide Whole, Segs, Taken;
    PipelineDrops.TakenLeaves(op, p, s);
    TakenFacts(op, p, s);
    if Of(p, ch).Some? && (p.det.state.Armed? || p.call.Some?) {
      TakenWhole(op, p, s, Held(p, ch), ch, evs);
    }
  }

  lemma StepStreams(cfg: D.VadConfig, op: Opus, p: Pl, s: Slice, ch: Channel, evs: seq<ER.Event>)
    requires Sane(cfg) && Inv(p, ch) && WholeReads(s) && Streams(op, p, ch, evs) && !Empty(p, s)
    ensures var t := Heard(cfg, Taken(op, p, s), s).1;
            Streams(op, Stepped(cfg, op, p, s), ch, if StartsOver(t) then [] else evs + Given(p, s, ch))
  {
    hide Inv, Moves, Taken, Heard, Applied, Drained, Bounded, WholeReads, Streams, Given;
    var taken := Taken(op, p, s);
    TakenKeeps(op, p, s, ch);
    TakenStreams(op, p, s, ch, evs);
    HeardMoves(cfg, taken, s);
    var (e, t) := Heard(cfg, taken, s);
    var after := if StartsOver(t) then [] else evs + Given(p, s, ch);
    ApplyKeeps(op, taken, e, t, ch);
    ApplyStreams(op, taken, e, t, ch, evs + Given(p, s, ch));
    var applied := Applied(op, taken.(det := e), t);
    AppliedLeaves(op, taken.(det := e), t);
    DrainKeeps(applied, ch);
    DrainStreams(op, applied, ch, after);
    BoundKeeps(Drained(applied), ch);
    BoundStreams(op, Drained(applied), ch, after);
  }

  lemma ToldStreams(cfg: D.VadConfig, op: Opus, p: Pl, input: D.Input, routed: bool, ch: Channel, evs: seq<ER.Event>)
    requires Inv(p, ch) && Streams(op, p, ch, evs) && (routed || Idle(Told(cfg, p, input).1))
    ensures var (q, t) := Told(cfg, p, input);
            Streams(op, if routed then Applied(op, q, t) else q, ch, if routed && StartsOver(t) then [] else evs)
  {
    hide Inv, D.Fed, Applied, Whole;
    var (e, t) := D.Fed(cfg, p.det, p.clockMs, input);
    FedMoves(cfg, p.det, p.clockMs, input);
    InvOn(p, ch);
    if routed { ApplyStreams(op, p, e, t, ch, evs); }
  }

  lemma ExecStreams(cfg: D.VadConfig, op: Opus, p: Pl, o: Op, ch: Channel, evs: seq<ER.Event>)
    requires Sane(cfg) && Inv(p, ch) && Driven(cfg, p, o) && Streams(op, p, ch, evs)
    ensures Streams(op, Exec(cfg, op, p, o), ch, if Renews(cfg, op, p, o) then [] else evs + GivenBy(p, o, ch))
  {
    hide Inv, D.Fed, Applied, Taken, Heard, Drained, Bounded, WholeReads, Whole, Given;
    assert evs + [] == evs;
    match o
    case Advance(s) => if !Empty(p, s) { StepStreams(cfg, op, p, s, ch, evs); }
    case Tell(input, routed) => ToldStreams(cfg, op, p, input, routed, ch, evs);
    case Connect => FreshWhole(op, ch);
      InvOn(p, ch);
      ConnectStreams(cfg, op, p, ch);
    case Unplug(routed) =>
      UnplugStreams(cfg, op, p, routed, ch);
  }

  lemma ConnectStreams(cfg: D.VadConfig, op: Opus, p: Pl, ch: Channel)
    requires p.call.None?
    ensures Streams(op, Connected(cfg, p), ch, [])
  {
    hide D.Fed;
    FreshWhole(op, ch);
  }

  lemma UnplugStreams(cfg: D.VadConfig, op: Opus, p: Pl, routed: bool, ch: Channel)
    ensures Streams(op, Exec(cfg, op, p, Unplug(routed)), ch, [])
  {
    hide D.Fed, Flushed, Rows, Noted;
  }

  lemma {:induction false} RunStreams(cfg: D.VadConfig, op: Opus, user: string, ops: seq<Op>, ch: Channel)
    requires Sane(cfg) && AllDriven(cfg, op, user, ops)
    ensures Streams(op, After(cfg, op, user, ops), ch, GivenSince(cfg, op, user, ops, ch))
  {
    hide Exec, Driven, Sane, Streams, Renews, GivenBy;
    if ops == [] {
      BeginStreams(cfg, op, user, ch);
    } else {
      var init := ops[..|ops| - 1];
      forall i | 0 <= i < |init| ensures Driven(cfg, After(cfg, op, user, init[..i]), init[i]) {
        assert init[..i] == ops[..i];
      }
      RunStreams(cfg, op, user, init, ch);
      RunKeeps(cfg, op, user, init, ch);
      ExecStreams(cfg, op, After(cfg, op, user, init), ops[|ops| - 1], ch, GivenSince(cfg, op, user, init, ch));
    }
  }

  lemma BeginStreams(cfg: D.VadConfig, op: Opus, user: string, ch: Channel)
    ensures Streams(op, Begin(cfg, user), ch, [])
  {
    hide D.Fed;
  }

  /**
   In every driven run, while a call is open: what was handed over for it on a channel, with what is
   buffered, is exactly what the encoder makes of all that was read from the channel since the arm.
   */
  lemma OpenCallIsItsStream(cfg: D.VadConfig, op: Opus, user: string, ops: seq<Op>, ch: Channel)
    requires Sane(cfg) && AllDriven(cfg, op, user, ops)
    requires var p := After(cfg, op, user, ops); p.call.Some? && Of(p, ch).Some?
    ensures var p := After(cfg, op, user, ops);
            Segs(p.log, p.call.value, ch) + Of(p, ch).value.ready == ER.Run(op, ch, GivenSince(cfg, op, user, ops, ch)).out
  {
    hide After, AllDriven, Sane, GivenSince, ER.Run, Segs;
    RunStreams(cfg, op, user, ops, ch);
  }

  // ------------------------------------------------------ when a call ends

  lemma FinishChannelStreams(op: Opus, p: Pl, id: nat, c: Channel, ch: Channel)
    requires On(Of(p, c), c)
    ensures var q := FinishChannel(op, p, id, c); var o := Of(p, c);
            && Segs(q.log, id, ch) == Segs(p.log, id, ch) + (if c == ch && o.Some? then o.value.ready + Flushed(op, o.value.enc).out else [])
            && (c != ch ==> Of(q, ch) == Of(p, ch))
  {
    hide Segs, Rows, Noted, Flushed;
    var o := Of(p, c);
    if o.Some? {
      FlushNumbers(op, o, c, 0);
      var f := Flushed(op, o.value.enc);
      SpooledSegs(With(p, c, Some(Pipe(f.enc, []))), id, c, o.value.ready + f.out, ch);
    } else {
      assert Segs(p.log, id, ch) + [] == Segs(p.log, id, ch);
    }
  }

  lemma FinishStreams(op: Opus, p: Pl, reason: EndReason, ch: Channel, evs: seq<ER.Event>)
    requires On(p.far, Far) && On(p.near, Near) && p.call.Some? && Of(p, ch).Some?
    requires Whole(op, Of(p, ch).value, Held(p, ch), ch, evs)
    ensures Segs(Finished(op, p, reason).log, p.call.value, ch) == ER.Call(op, ch, evs)
  {
    hide Segs, FinishChannel, ER.Run, Flushed;
    var id, start := p.call.value, p.(call := None);
    var half := FinishChannel(op, start, id, Far);
    FinishChannelStreams(op, start, id, Far, ch);
    FinishChannelStreams(op, start, id, Far, Near);
    FinishNear(op, start, id);
    FinishChannelStreams(op, half, id, Near, ch);
    var q := FinishChannel(op, half, id, Near);
    NoteAddsNoSegs(q.log, Ended(id, reason, q.lastSeq), id, ch);
    var o := Of(p, ch).value;
    var f := Flushed(op, o.enc).out;
    assert Segs(p.log, id, ch) + (o.ready + f) == Segs(p.log, id, ch) + o.ready + f;
    assert Segs(p.log, id, ch) + [] == Segs(p.log, id, ch);
    assert Segs(half.log, id, ch) + [] == Segs(half.log, id, ch);
  }

  lemma FinishNear(op: Opus, p: Pl, id: nat)
    ensures FinishChannel(op, p, id, Far).near == p.near
  {
    hide Flushed, Rows, Noted;
  }

  /** After a call has ended nothing more is added to it by the same step. */
  lemma NothingAfterEnd(p: Pl)
    requires p.call.None?
    ensures Bounded(Drained(p)).log == p.log
  {
  }

  lemma StepEnds(cfg: D.VadConfig, op: Opus, p: Pl, s: Slice, ch: Channel, evs: seq<ER.Event>)
    requires Sane(cfg) && Inv(p, ch) && WholeReads(s) && Streams(op, p, ch, evs) && !Empty(p, s)
    requires p.call.Some? && Of(p, ch).Some? && Heard(cfg, Taken(op, p, s), s).1.CallEnded?
    ensures Segs(Stepped(cfg, op, p, s).log, p.call.value, ch) == ER.Call(op, ch, evs + Given(p, s, ch))
  {
    hide Inv, Taken, Heard, Finished, Drained, Bounded, WholeReads, Whole, Segs, Given, ER.Call;
    var taken := Taken(op, p, s);
    TakenKeeps(op, p, s, ch);
    InvOn(taken, ch);
    PipelineDrops.TakenLeaves(op, p, s);
    TakenFacts(op, p, s);
    TakenStreams(op, p, s, ch, evs);
    var (e, t) := Heard(cfg, taken, s);
    var q := taken.(det := e);
    FinishStreams(op, q, t.reason, ch, evs + Given(p, s, ch));
    EndedIsShut(op, q, t.reason);
    NothingAfterEnd(Finished(op, q, t.reason));
  }

  /**
   In every driven run, when a call ends its rows on a channel are exactly the encoder's segments,
   flushed second included, for all that was read from the channel from the arm to the end.
   */
  lemma CallIsItsStream(cfg: D.VadConfig, op: Opus, user: string, ops: seq<Op>, o: Op, ch: Channel)
    requires Sane(cfg) && AllDriven(cfg, op, user, ops + [o]) && (o.Advance? || (o.Tell? && o.routed))
    requires var p := After(cfg, op, user, ops); p.call.Some? && Of(p, ch).Some? && Answer(cfg, op, p, o).CallEnded?
    ensures var p := After(cfg, op, user, ops);
            Segs(After(cfg, op, user, ops + [o]).log, p.call.value, ch)
            == ER.Call(op, ch, GivenSince(cfg, op, user, ops, ch) + GivenBy(p, o, ch))
  {
    hide AllDriven, Sane, GivenSince, ER.Call, Segs, Whole, Inv, Stepped, D.Fed, Finished, Given, Heard, Taken, WholeReads;
    var p, evs := After(cfg, op, user, ops), GivenSince(cfg, op, user, ops, ch);
    DrivenPrefix(cfg, op, user, ops, o);
    assert (ops + [o])[..|ops|] == ops;
    assert After(cfg, op, user, ops + [o]) == Exec(cfg, op, p, o);
    hide After;
    RunStreams(cfg, op, user, ops, ch);
    RunKeeps(cfg, op, user, ops, ch);
    InvOn(p, ch);
    if o.Advance? {
      StepEnds(cfg, op, p, o.s, ch, evs);
    } else {
      var (q, t) := Told(cfg, p, o.input);
      FinishStreams(op, q, t.reason, ch, evs);
      assert evs + [] == evs;
    }
  }

  lemma DrivenPrefix(cfg: D.VadConfig, op: Opus, user: string, ops: seq<Op>, o: Op)
    requires AllDriven(cfg, op, user, ops + [o])
    ensures AllDriven(cfg, op, user, ops) && Driven(cfg, After(cfg, op, user, ops), o)
  {
    hide After, Driven;
    var all := ops + [o];
    assert all[..|ops|] == ops && all[|ops|] == o;
    forall i | 0 <= i < |ops| ensures Driven(cfg, After(cfg, op, user, ops[..i]), ops[i]) {
      assert all[..i] == ops[..i] && all[i] == ops[i];
    }
  }

  /** So the server hears, packet by packet, what was read from the channel from the arm to the end. */
  lemma ServerHearsTheCall(cfg: D.VadConfig, op: Opus, user: string, ops: seq<Op>, o: Op, ch: Channel)
    requires Sane(cfg) && AllDriven(cfg, op, user, ops + [o]) && (o.Advance? || (o.Tell? && o.routed)) && ER.Bounded(op)
    requires var p := After(cfg, op, user, ops); p.call.Some? && Of(p, ch).Some? && Answer(cfg, op, p, o).CallEnded?
    ensures var p := After(cfg, op, user, ops);
            var rows := Segs(After(cfg, op, user, ops + [o]).log, p.call.value, ch);
            var evs := GivenSince(cfg, op, user, ops, ch) + GivenBy(p, o, ch);
            F.AllPackets(ER.Payloads(rows)) == Some(F.AsPackets(ER.Heard(op, evs, |rows|)))
  {
    hide After, AllDriven, Sane, GivenSince, GivenBy, Segs, Answer, ER.Call, ER.Heard, ER.Payloads, ER.Bounded;
    CallIsItsStream(cfg, op, user, ops, o, ch);
    var p := After(cfg, op, user, ops);
    ER.CallIsHeard(op, ch, GivenSince(cfg, op, user, ops, ch) + GivenBy(p, o, ch));
  }

  // --------------------------------------------------- every note in the log

  /** Only rows of one call were added, stamped with the clock. */
  ghost predicate AddsRows(log: seq<Rec>, more: seq<Rec>, call: nat, clockMs: nat)
  {
    log <= more && forall i :: |log| <= i < |more| ==> more[i].Row? && more[i].call == call && more[i].createdMs == clockMs
  }

  lemma AddsRowsMore(a: seq<Rec>, b: seq<Rec>, c: seq<Rec>, call: nat, clockMs: nat)
    requires AddsRows(a, b, call, clockMs) && AddsRows(b, c, call, clockMs)
    ensures AddsRows(a, c, call, clockMs)
  {
  }

  lemma DrainAdds(p: Pl)
    requires p.call.Some?
    ensures AddsRows(p.log, Drained(p).log, p.call.value, p.clockMs)
  {
    hide AddsRows;
    var id := p.call.value;
    var half := DrainChannel(p, id, Far);
    DrainChannelAdds(p, id, Far);
    DrainChannelAdds(half, id, Near);
    AddsRowsMore(p.log, half.log, Drained(p).log, id, p.clockMs);
  }

  lemma DrainChannelAdds(p: Pl, id: nat, ch: Channel)
    ensures AddsRows(p.log, DrainChannel(p, id, ch).log, id, p.clockMs) && DrainChannel(p, id, ch).clockMs == p.clockMs
  {
  }

  lemma FinishChannelAdds(op: Opus, p: Pl, id: nat, ch: Channel)
    ensures AddsRows(p.log, FinishChannel(op, p, id, ch).log, id, p.clockMs) && FinishChannel(op, p, id, ch).clockMs == p.clockMs
  {
    hide Flushed;
  }

  lemma FinishAdds(op: Opus, p: Pl, reason: EndReason)
    requires p.call.Some?
    ensures var log := Finished(op, p, reason).log;
            && |log| > |p.log| && AddsRows(p.log, log[..|log| - 1], p.call.value, p.clockMs)
            && log[|log| - 1] == Ended(p.call.value, reason, Finished(op, p, reason).lastSeq)
  {
    hide AddsRows, FinishChannel;
    var id, start := p.call.value, p.(call := None);
    var half := FinishChannel(op, start, id, Far);
    var q := FinishChannel(op, half, id, Near);
    FinishChannelAdds(op, start, id, Far);
    FinishChannelAdds(op, half, id, Near);
    AddsRowsMore(p.log, half.log, q.log, id, p.clockMs);
    PrefixOf(p.log, q.log, id, p.clockMs);
    assert (q.log + [Ended(id, reason, q.lastSeq)])[..|q.log|] == q.log;
  }

  lemma PrefixOf(log: seq<Rec>, more: seq<Rec>, call: nat, clockMs: nat)
    requires AddsRows(log, more, call, clockMs)
    ensures |log| <= |more|
  {
  }

  /** What a transition applied adds: a start its note, an end the call's rows and then its note, anything else nothing. */
  ghost predicate Notes(p: Pl, q: Pl, t: D.Transition)
  {
    match t
    case CallStarted => q.log == p.log + [Began(p.nextId, p.clockMs)] && q.call == Some(p.nextId)
    case CallEnded(reason) =>
      if p.call.None? then q.log == p.log && q.call.None?
      else
        && q.call.None? && |q.log| > |p.log| && AddsRows(p.log, q.log[..|q.log| - 1], p.call.value, p.clockMs)
        && q.log[|q.log| - 1] == Ended(p.call.value, reason, q.lastSeq)
    case _ => q.log == p.log && q.call == p.call
  }

  lemma ApplyNotes(op: Opus, p: Pl, t: D.Transition)
    ensures Notes(p, Applied(op, p, t), t)
  {
    hide AddsRows, Finished;
    if t.CallEnded? {
      EndedIsShut(op, p, t.reason);
      if p.call.Some? { FinishAdds(op, p, t.reason); } else { NoCallNoEnd(op, p, t.reason); }
    }
  }

  lemma NoCallNoEnd(op: Opus, p: Pl, reason: EndReason)
    ensures p.call.None? ==> Finished(op, p, reason) == p
  {
  }

  /**
   One operation of any run. A notification adds what its transition notes, if it is routed, and
   nothing otherwise. A step adds what its transition notes and then, while a call is open, that
   call's rows; every note and row carries the clock as the step left it.
   */
  lemma LogIsTheDetectors(cfg: D.VadConfig, op: Opus, p: Pl, o: Op)
    ensures var t, q := Answer(cfg, op, p, o), Exec(cfg, op, p, o);
            match o
            case Advance(s) =>
              if Empty(p, s) then q == p
              else exists mid: Pl ::
                   && mid.clockMs == q.clockMs && mid.call == q.call
                   && Notes(p.(clockMs := q.clockMs), mid, t)
                   && (if q.call.Some? then AddsRows(mid.log, q.log, q.call.value, q.clockMs) else q.log == mid.log)
            case Tell(_, routed) => if routed then Notes(p, q, t) else q.log == p.log && q.call == p.call
            case Connect => q.log == p.log && q.call == p.call
            case Unplug(routed) => if routed then Notes(p, q, t) else q.log == p.log && q.call == p.call
  {
    hide D.Fed, Applied, Taken, Heard, Drained, Bounded, AddsRows, Notes;
    match o
    case Advance(s) => if !Empty(p, s) { StepNotes(cfg, op, p, s); }
    case Tell(input, routed) => ApplyNotes(op, Told(cfg, p, input).0, Told(cfg, p, input).1);
      SameNotes(p, Told(cfg, p, input).0, Applied(op, Told(cfg, p, input).0, Told(cfg, p, input).1), Told(cfg, p, input).1);
    case Connect =>
    case Unplug(routed) =>
      var (q, t) := Told(cfg, Unplugged(p), D.Block(D.PinnedDeviceMissing));
      SameTold(cfg, p, D.Block(D.PinnedDeviceMissing));
      ApplyNotes(op, q, t);
      SameNotes(p, q, Applied(op, q, t), t);
  }

  lemma SameNotes(p: Pl, p': Pl, q: Pl, t: D.Transition)
    requires Notes(p', q, t) && p'.log == p.log && p'.call == p.call && p'.clockMs == p.clockMs && p'.nextId == p.nextId
    ensures Notes(p, q, t)
  {
    hide AddsRows;
  }

  lemma StepNotes(cfg: D.VadConfig, op: Opus, p: Pl, s: Slice)
    requires !Empty(p, s)
    ensures var t, q := Heard(cfg, Taken(op, p, s), s).1, Stepped(cfg, op, p, s);
            exists mid: Pl ::
              && mid.clockMs == q.clockMs && mid.call == q.call
              && Notes(p.(clockMs := q.clockMs), mid, t)
              && (if q.call.Some? then AddsRows(mid.log, q.log, q.call.value, q.clockMs) else q.log == mid.log)
  {
    hide Taken, Heard, Applied, Drained, Bounded, AddsRows, Notes;
    var (e, t) := Heard(cfg, Taken(op, p, s), s);
    var taken := Taken(op, p, s).(det := e);
    var mid := Applied(op, taken, t);
    PipelineDrops.TakenLeaves(op, p, s);
    TakenFacts(op, p, s);
    ApplyNotes(op, taken, t);
    AppliedLeaves(op, taken, t);
    DrainLeaves(mid);
    PipelineDrops.BoundLeaves(Drained(mid));
    SameNotes(p.(clockMs := taken.clockMs), taken, mid, t);
    if mid.call.Some? { DrainAdds(mid); } else { NothingAfterEnd(mid); }
  }
}
