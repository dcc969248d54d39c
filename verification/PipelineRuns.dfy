/**
 Over whole runs of the pipeline: each call's rows on each channel carry 0, 1, 2, ... with
 no gap and no repeat, and its end reports the last of them.
 */
module PipelineRuns {
  import opened Prelude
  import opened Media
  import opened Encoder
  import opened Pipeline
  import D = Detector
  import DetectorRuns
  import EncoderRuns

  // ------------------------------------------------------- reading the log

  /** The numbers of a call's rows on a channel, in the order they were handed over. */
  function Sent(log: seq<Rec>, call: nat, ch: Channel): seq<nat>
  {
    if log == [] then []
    else
      var last := log[|log| - 1];
      Sent(log[..|log| - 1], call, ch) + (if last.Row? && last.call == call && last.seg.channel == ch then [last.seg.num] else [])
  }

  function UpTo(n: nat): (s: seq<nat>)
    ensures |s| == n && forall i :: 0 <= i < n ==> s[i] == i
  {
    seq(n, i => i)
  }

  function Nums(segs: seq<Segment>): (s: seq<nat>)
    ensures |s| == |segs| && forall i :: 0 <= i < |s| ==> s[i] == segs[i].num
  {
    seq(|segs|, i requires 0 <= i < |segs| => segs[i].num)
  }

  /** One more than the number a map reports for a channel; zero if it reports none. */
  function CountOf(last: map<Channel, nat>, ch: Channel): nat { if ch in last then last[ch] + 1 else 0 }

  /** Every call so far is numbered without gap or repeat, and every end reports its last number. */
  ghost predicate LogOk(log: seq<Rec>, ch: Channel)
  {
    && (forall call :: Sent(log, call, ch) == UpTo(|Sent(log, call, ch)|))
    && (forall i :: 0 <= i < |log| && log[i].Ended? ==> CountOf(log[i].lastSeq, ch) == |Sent(log, log[i].call, ch)|)
  }

  ghost predicate NotEnded(log: seq<Rec>, call: nat) { forall i :: 0 <= i < |log| && log[i].Ended? ==> log[i].call != call }

  ghost predicate Older(log: seq<Rec>, id: nat) { forall i :: 0 <= i < |log| ==> log[i].call < id }

  lemma {:induction false} SentAppend(log: seq<Rec>, more: seq<Rec>, call: nat, ch: Channel)
    ensures Sent(log + more, call, ch) == Sent(log, call, ch) + Sent(more, call, ch)
    decreases |more|
  {
    if more == [] {
      assert log + more == log;
    } else {
      SentAppend(log, more[..|more| - 1], call, ch);
      assert (log + more)[..|log + more| - 1] == log + more[..|more| - 1];
    }
  }

  ghost predicate AllOn(segs: seq<Segment>, ch: Channel) { forall i :: 0 <= i < |segs| ==> segs[i].channel == ch }

  lemma {:induction false} SentOfRows(id: nat, segs: seq<Segment>, clockMs: nat, c: Channel, call: nat, ch: Channel)
    requires AllOn(segs, c)
    ensures Sent(Rows(id, segs, clockMs), call, ch) == if id == call && c == ch then Nums(segs) else []
  {
    if segs != [] {
      var init := segs[..|segs| - 1];
      SentOfRows(id, init, clockMs, c, call, ch);
      assert Rows(id, segs, clockMs)[..|segs| - 1] == Rows(id, init, clockMs);
      assert Nums(segs) == Nums(init) + [segs[|segs| - 1].num];
    }
  }

  lemma {:induction false} NothingSentYet(log: seq<Rec>, id: nat, ch: Channel)
    requires Older(log, id)
    ensures Sent(log, id, ch) == []
  {
    if log != [] {
      NothingSentYet(log[..|log| - 1], id, ch);
    }
  }

  // ------------------------------------------------------- extending the log

  /** `n` rows of an open call on a channel are in the log, and the map says so. */
  ghost predicate Line(log: seq<Rec>, last: map<Channel, nat>, id: nat, ch: Channel, n: nat)
  {
    LogOk(log, ch) && NotEnded(log, id) && Sent(log, id, ch) == UpTo(n) && CountOf(last, ch) == n
  }

  ghost predicate NumberedFrom(segs: seq<Segment>, n: nat) { forall i :: 0 <= i < |segs| ==> segs[i].num == n + i }

  lemma SentAfterRows(log: seq<Rec>, id: nat, segs: seq<Segment>, clockMs: nat, c: Channel, call: nat, ch: Channel)
    requires AllOn(segs, c)
    ensures Sent(log + Rows(id, segs, clockMs), call, ch) ==
            Sent(log, call, ch) + if id == call && c == ch then Nums(segs) else []
  {
    hide Rows, Nums;
    SentAppend(log, Rows(id, segs, clockMs), call, ch);
    SentOfRows(id, segs, clockMs, c, call, ch);
  }

  lemma CountingOn(n: nat, segs: seq<Segment>)
    requires NumberedFrom(segs, n)
    ensures UpTo(n) + Nums(segs) == UpTo(n + |segs|)
  {
  }

  lemma RowsKeepCounting(log: seq<Rec>, id: nat, segs: seq<Segment>, clockMs: nat, c: Channel, ch: Channel, n: nat, call: nat)
    requires AllOn(segs, c) && (c == ch ==> NumberedFrom(segs, n)) && Sent(log, id, ch) == UpTo(n)
    requires Sent(log, call, ch) == UpTo(|Sent(log, call, ch)|)
    ensures var after := log + Rows(id, segs, clockMs);
            && Sent(after, call, ch) == UpTo(|Sent(after, call, ch)|)
            && Sent(after, id, ch) == UpTo(n + if c == ch then |segs| else 0)
            && (call != id ==> Sent(after, call, ch) == Sent(log, call, ch))
  {
    hide Sent, Rows;
    SentAfterRows(log, id, segs, clockMs, c, call, ch);
    SentAfterRows(log, id, segs, clockMs, c, id, ch);
    if c == ch {
      CountingOn(n, segs);
    }
  }

  lemma RowsKeepLine(log: seq<Rec>, last: map<Channel, nat>, id: nat, segs: seq<Segment>, clockMs: nat, c: Channel, ch: Channel, n: nat)
    requires Line(log, last, id, ch, n) && AllOn(segs, c) && (c == ch ==> NumberedFrom(segs, n))
    ensures Line(log + Rows(id, segs, clockMs), Noted(last, c, segs), id, ch, n + if c == ch then |segs| else 0)
  {
    hide Sent, UpTo;
    var after := log + Rows(id, segs, clockMs);
    forall call ensures Sent(after, call, ch) == UpTo(|Sent(after, call, ch)|)
                ensures call != id ==> Sent(after, call, ch) == Sent(log, call, ch) {
      RowsKeepCounting(log, id, segs, clockMs, c, ch, n, call);
    }
    RowsKeepCounting(log, id, segs, clockMs, c, ch, n, id);
    forall i | 0 <= i < |after| && after[i].Ended?
      ensures i < |log| && log[i].call != id {
    }
  }

  lemma NoteKeepsLog(log: seq<Rec>, r: Rec, ch: Channel, call: nat)
    requires !r.Row?
    ensures Sent(log + [r], call, ch) == Sent(log, call, ch)
  {
    assert (log + [r])[..|log|] == log;
  }

  lemma EndKeepsLog(log: seq<Rec>, last: map<Channel, nat>, id: nat, ch: Channel, n: nat, reason: EndReason)
    requires Line(log, last, id, ch, n)
    ensures LogOk(log + [Ended(id, reason, last)], ch)
  {
    hide Sent;
    forall call ensures Sent(log + [Ended(id, reason, last)], call, ch) == Sent(log, call, ch) {
      NoteKeepsLog(log, Ended(id, reason, last), ch, call);
    }
  }

  lemma BeginStartsLine(log: seq<Rec>, id: nat, ch: Channel, clockMs: nat)
    requires LogOk(log, ch) && Older(log, id)
    ensures Line(log + [Began(id, clockMs)], map[], id, ch, 0)
  {
    hide Sent;
    forall call ensures Sent(log + [Began(id, clockMs)], call, ch) == Sent(log, call, ch) {
      NoteKeepsLog(log, Began(id, clockMs), ch, call);
    }
    NothingSentYet(log, id, ch);
  }

  // ---------------------------------------------------------- one channel

  ghost predicate On(o: Option<Pipe>, ch: Channel)
  {
    o.Some? ==> o.value.enc.channel == ch && Tidy(o.value.enc) && AllOn(o.value.ready, ch)
  }

  /** The channel's next row is number `n`: what is ready continues from there, and the encoder after it. */
  ghost predicate Ready(o: Option<Pipe>, n: nat)
  {
    o.Some? ==> NumberedFrom(o.value.ready, n) && o.value.enc.nextSeq == n + |o.value.ready|
  }

  /** Samples a channel's encoder has taken since it was restarted. */
  function Taken16(o: Option<Pipe>): nat
  {
    if o.None? then 0 else SEGMENT_SAMPLES * o.value.enc.nextSeq + Position(o.value.enc)
  }

  lemma {:induction false} FedNumbers(op: Opus, e: Enc, xs: seq<Sample>)
    ensures var r := Fed(op, e, xs);
            && r.enc.channel == e.channel && r.enc.nextSeq == e.nextSeq + |r.out|
            && AllOn(r.out, e.channel) && NumberedFrom(r.out, e.nextSeq)
  {
    if xs != [] {
      FedNumbers(op, e, xs[..|xs| - 1]);
      SampledNumbers(op, Fed(op, e, xs[..|xs| - 1]).enc, xs[|xs| - 1]);
    }
  }

  lemma SampledNumbers(op: Opus, e: Enc, x: Sample)
    ensures var r := Sampled(op, e, x);
            && r.enc.channel == e.channel && r.enc.nextSeq == e.nextSeq + |r.out| && |r.out| <= 1
            && (|r.out| == 1 ==> r.out[0].channel == e.channel && r.out[0].num == e.nextSeq)
  {
  }

  lemma ReadKeeps(op: Opus, o: Option<Pipe>, xs: seq<Sample>, ch: Channel, n: nat)
    requires On(o, ch)
    ensures On(Read(op, o, xs), ch)
    ensures Ready(o, n) ==> Ready(Read(op, o, xs), n)
    ensures Taken16(Read(op, o, xs)) == Taken16(o) + ReadCount(o, xs)
  {
    hide Fed;
    if o.Some? {
      FedNumbers(op, o.value.enc, xs);
      EncoderRuns.FlagsOfFed(op, o.value.enc, xs);
    }
  }

  lemma MarkKeeps(o: Option<Pipe>, ch: Channel, n: nat)
    ensures On(o, ch) ==> On(Marked(o), ch)
    ensures Ready(o, n) ==> Ready(Marked(o), n)
    ensures Taken16(Marked(o)) == Taken16(o)
  {
  }

  lemma FlushNumbers(op: Opus, o: Option<Pipe>, ch: Channel, n: nat)
    requires o.Some? && On(o, ch)
    ensures AllOn(o.value.ready + Flushed(op, o.value.enc).out, ch)
    ensures On(Some(Pipe(Flushed(op, o.value.enc).enc, [])), ch)
    ensures Ready(o, n) ==> NumberedFrom(o.value.ready + Flushed(op, o.value.enc).out, n)
  {
  }

  // ------------------------------------------------------- the whole pipeline

  /** Timings the detector cannot pass through in no time, and an arm no longer than the pre-roll. */
  predicate Sane(cfg: D.VadConfig)
  {
    && cfg.speechMsToConfirm > 0 && cfg.hangupSilenceMs > 0 && cfg.wrapMs > 0 && cfg.debounceMs > 0
    && 0 < cfg.armedTimeoutMs <= 1000 * PREROLL_MAX_SEGMENTS
  }

  ghost predicate Armed(p: Pl, ch: Channel)
  {
    && p.det.enteredAtMs <= p.clockMs
    && Ready(Of(p, ch), 0) && Taken16(Of(p, ch)) < SEGMENT_SAMPLES + SAMPLES_PER_MS * (p.clockMs - p.det.enteredAtMs)
  }

  ghost predicate InCall(p: Pl, ch: Channel)
    requires p.call.Some?
  {
    && p.call.value < p.nextId
    && Line(p.log, p.lastSeq, p.call.value, ch, CountOf(p.lastSeq, ch))
    && Ready(Of(p, ch), CountOf(p.lastSeq, ch))
  }

  ghost predicate Inv(p: Pl, ch: Channel)
  {
    && (D.Open(p.det.state) <==> p.call.Some?)
    && On(p.far, Far) && On(p.near, Near)
    && LogOk(p.log, ch) && Older(p.log, p.nextId)
    && (p.det.state.Armed? ==> Armed(p, ch))
    && (p.call.Some? ==> InCall(p, ch))
  }

  // ------------------------------------------------- the detector, in one step

  /** What one observation, or a step's two, can do to the detector. */
  ghost predicate Moves(d: D.Det, e: D.Det, t: D.Transition, now: nat)
  {
    && (D.Open(e.state) <==> t.CallStarted? || (D.Open(d.state) && !t.CallEnded?))
    && (t.CallStarted? || t.ArmDiscarded? ==> d.state.Armed?)
    && (t.CallEnded? ==> D.Open(d.state))
    && (t.ArmStarted? ==> !D.Open(d.state))
    && (e.state.Armed? && t.ArmStarted? ==> e.enteredAtMs == now)
    && (e.state.Armed? && !t.ArmStarted? ==> t.Nothing? && d.state.Armed? && e.enteredAtMs == d.enteredAtMs)
  }

  lemma FedMoves(cfg: D.VadConfig, d: D.Det, now: nat, input: D.Input)
    ensures Moves(d, D.Fed(cfg, d, now, input).0, D.Fed(cfg, d, now, input).1, now)
  {
    hide D.Fed;
    DetectorRuns.StepOpens(cfg, d, now, input);
    DetectorRuns.StepArms(cfg, d, now, input);
    ArmsFrom(cfg, d, now, input);
  }

  lemma ArmsFrom(cfg: D.VadConfig, d: D.Det, now: nat, input: D.Input)
    ensures var t := D.Fed(cfg, d, now, input).1;
            (t.ArmStarted? ==> !D.Open(d.state)) && (t.ArmDiscarded? ==> d.state.Armed?)
  {
  }

  /** A detector that has just moved. */
  ghost predicate Settled(d: D.Det)
  {
    && d.nowMs == d.lastTransitionMs == d.enteredAtMs
    && (d.state.Armed? ==> d.armedSpeechMs == 0)
    && (d.state.InCall? ==> d.silenceMs == 0)
    && (d.state.Wrap? || d.state.Finalize? ==> !d.sessionActive)
  }

  lemma VoiceSettles(cfg: D.VadConfig, d: D.Det, now: nat, voiced: bool)
    ensures var (e, t) := D.Fed(cfg, d, now, D.FarVoice(voiced)); e.nowMs == now && (!t.Nothing? ==> Settled(e))
  {
  }

  lemma SettledIsQuiet(cfg: D.VadConfig, d: D.Det, voiced: bool)
    requires Sane(cfg) && Settled(d)
    ensures D.Fed(cfg, d, d.nowMs, D.NearVoice(voiced)).1.Nothing?
  {
  }

  lemma MovesCompose(d: D.Det, d1: D.Det, t1: D.Transition, d2: D.Det, t2: D.Transition, now: nat)
    requires Moves(d, d1, t1, now) && Moves(d1, d2, t2, now) && (t1.Nothing? || t2.Nothing?)
    ensures Moves(d, d2, if t1 != D.Nothing then t1 else t2, now)
  {
  }

  lemma ArmedInTime(cfg: D.VadConfig, d: D.Det, now: nat, voiced: bool)
    requires cfg.armedTimeoutMs > 0
    ensures var e := D.Fed(cfg, d, now, D.NearVoice(voiced)).0;
            e.state.Armed? ==> SatSub(now, e.enteredAtMs) < cfg.armedTimeoutMs
  {
  }

  /** A step's two observations make at most one move between them. */
  lemma HeardMoves(cfg: D.VadConfig, p: Pl, s: Slice)
    requires Sane(cfg)
    ensures var (e, t) := Heard(cfg, p, s);
            && Moves(p.det, e, t, p.clockMs)
            && (e.state.Armed? ==> SatSub(p.clockMs, e.enteredAtMs) < cfg.armedTimeoutMs)
  {
    hide D.Fed, Moves, Settled;
    var farVoiced := p.far.Some? && s.farVoiced && !s.foreignAudio;
    var nearVoiced := p.near.Some? && s.nearVoiced;
    var (d1, t1) := D.Fed(cfg, p.det, p.clockMs, D.FarVoice(farVoiced));
    var (d2, t2) := D.Fed(cfg, d1, p.clockMs, D.NearVoice(nearVoiced));
    FedMoves(cfg, p.det, p.clockMs, D.FarVoice(farVoiced));
    FedMoves(cfg, d1, p.clockMs, D.NearVoice(nearVoiced));
    VoiceSettles(cfg, p.det, p.clockMs, farVoiced);
    if !t1.Nothing? {
      SettledIsQuiet(cfg, d1, nearVoiced);
    }
    MovesCompose(p.det, d1, t1, d2, t2, p.clockMs);
    ArmedInTime(cfg, d1, p.clockMs, nearVoiced);
  }

  // --------------------------------------------------- what a transition keeps

  ghost predicate WholeReads(s: Slice)
  {
    (|s.far| == 0 || |s.far| == FRAME_SAMPLES) && (|s.near| == 0 || |s.near| == FRAME_SAMPLES)
  }

  lemma TakenKeeps(op: Opus, p: Pl, s: Slice, ch: Channel)
    requires Inv(p, ch) && WholeReads(s)
    ensures Inv(Taken(op, p, s), ch)
  {
    hide Fed, LogOk, Older, Line, On, Ready, Taken16, Read, Marked;
    var n := if p.call.Some? then CountOf(p.lastSeq, ch) else 0;
    ReadKeeps(op, p.far, s.far, Far, n);
    ReadKeeps(op, p.near, s.near, Near, n);
    MarkKeeps(Read(op, p.far, s.far), Far, n);
  }

  lemma RestartFits(o: Option<Pipe>, ch: Channel)
    requires On(o, ch)
    ensures On(Restart(o), ch) && Ready(Restart(o), 0) && Taken16(Restart(o)) == 0
  {
  }

  lemma RestartKeeps(p: Pl, e: D.Det, t: D.Transition, ch: Channel)
    requires Inv(p, ch) && Moves(p.det, e, t, p.clockMs) && (t.ArmStarted? || t.ArmDiscarded?)
    ensures Inv(Restarted(p.(det := e)), ch)
  {
    hide LogOk, Older, On, Ready, Taken16, Restart, InCall;
    RestartFits(p.far, Far);
    RestartFits(p.near, Near);
  }

  lemma OpenKeeps(p: Pl, e: D.Det, ch: Channel)
    requires Inv(p, ch) && Moves(p.det, e, D.CallStarted, p.clockMs)
    ensures Inv(Opened(p.(det := e)), ch)
  {
    hide LogOk, On, Ready, Taken16, Line;
    BeginStartsLine(p.log, p.nextId, ch, p.clockMs);
    LineIsOk(Opened(p).log, map[], p.nextId, ch, 0);
  }

  lemma LineIsOk(log: seq<Rec>, last: map<Channel, nat>, id: nat, ch: Channel, n: nat)
    requires Line(log, last, id, ch, n)
    ensures LogOk(log, ch)
  {
  }

  lemma StayKeeps(p: Pl, e: D.Det, t: D.Transition, ch: Channel)
    requires Inv(p, ch) && Moves(p.det, e, t, p.clockMs) && !t.CallStarted? && !t.CallEnded? && !t.ArmStarted?
    ensures Inv(p.(det := e), ch)
  {
    hide LogOk, Older, On, Ready, Taken16, Line;
  }

  // ------------------------------------------------------------ spooling a pipe

  /** Handing over a channel's segments: of the call `id`, on channel `c`. */
  lemma SpoolKeeps(p: Pl, id: nat, c: Channel, segs: seq<Segment>, ch: Channel, n: nat)
    requires Line(p.log, p.lastSeq, id, ch, n) && AllOn(segs, c) && (c == ch ==> NumberedFrom(segs, n))
    requires Older(p.log, p.nextId) && id < p.nextId
    ensures var q := Spooled(p, id, c, segs);
            Line(q.log, q.lastSeq, id, ch, n + if c == ch then |segs| else 0) && Older(q.log, q.nextId)
  {
    hide Line;
    RowsKeepLine(p.log, p.lastSeq, id, segs, p.clockMs, c, ch, n);
  }

  ghost predicate Spooling(p: Pl, id: nat, ch: Channel, n: nat)
  {
    && On(p.far, Far) && On(p.near, Near) && id < p.nextId && Older(p.log, p.nextId)
    && Line(p.log, p.lastSeq, id, ch, n)
  }

  lemma DrainChannelKeeps(p: Pl, id: nat, c: Channel, ch: Channel, n: nat)
    requires Spooling(p, id, ch, n) && Ready(Of(p, ch), n)
    ensures var q := DrainChannel(p, id, c);
            && q.det == p.det && q.call == p.call && q.nextId == p.nextId && q.clockMs == p.clockMs
            && Spooling(q, id, ch, CountOf(q.lastSeq, ch)) && Ready(Of(q, ch), CountOf(q.lastSeq, ch))
            && (c == ch && Of(q, c).Some? ==> Of(q, c).value.ready == [])
            && (c != ch ==> Of(q, ch) == Of(p, ch))
  {
    hide LogOk, Sent, NotEnded, Older, Rows, Noted;
    if Of(p, c).Some? {
      SpoolKeeps(With(p, c, Some(Of(p, c).value.(ready := []))), id, c, Of(p, c).value.ready, ch, n);
    }
  }

  lemma DrainKeeps(p: Pl, ch: Channel)
    requires Inv(p, ch)
    ensures var q := Drained(p);
            && Inv(q, ch) && q.det == p.det && q.clockMs == p.clockMs
            && (q.call.Some? && Of(q, ch).Some? ==> Of(q, ch).value.ready == [])
  {
    hide DrainChannel, On, Older, Ready, LogOk, Taken16, CountOf, Line;
    if p.call.Some? {
      var id := p.call.value;
      var q := DrainChannel(p, id, Far);
      DrainChannelKeeps(p, id, Far, ch, CountOf(p.lastSeq, ch));
      DrainChannelKeeps(q, id, Near, ch, CountOf(q.lastSeq, ch));
      var r := DrainChannel(q, id, Near);
      LineIsOk(r.log, r.lastSeq, id, ch, CountOf(r.lastSeq, ch));
    }
  }

  lemma FinishChannelKeeps(op: Opus, p: Pl, id: nat, c: Channel, ch: Channel, n: nat)
    requires Spooling(p, id, ch, n) && (c == ch ==> Ready(Of(p, ch), n))
    ensures var q := FinishChannel(op, p, id, c);
            && q.det == p.det && q.call == p.call && q.nextId == p.nextId && q.clockMs == p.clockMs
            && Spooling(q, id, ch, CountOf(q.lastSeq, ch))
            && (c != ch ==> Of(q, ch) == Of(p, ch) && CountOf(q.lastSeq, ch) == n)
  {
    hide Flushed, LogOk, Sent, NotEnded, Older, Rows, Noted;
    if Of(p, c).Some? {
      var f := Flushed(op, Of(p, c).value.enc);
      FlushNumbers(op, Of(p, c), c, n);
      SpoolKeeps(With(p, c, Some(Pipe(f.enc, []))), id, c, Of(p, c).value.ready + f.out, ch, n);
    }
  }

  lemma FinishKeeps(op: Opus, p: Pl, e: D.Det, reason: EndReason, ch: Channel)
    requires Inv(p, ch) && Moves(p.det, e, D.CallEnded(reason), p.clockMs)
    ensures Inv(Finished(op, p.(det := e), reason), ch)
  {
    hide FinishChannel, On, Older, Ready, LogOk, Taken16, CountOf, Line;
    var id, start := p.call.value, p.(det := e, call := None);
    var q := FinishChannel(op, start, id, Far);
    FinishChannelKeeps(op, start, id, Far, ch, CountOf(p.lastSeq, ch));
    FinishChannelKeeps(op, q, id, Near, ch, CountOf(q.lastSeq, ch));
    var r := FinishChannel(op, q, id, Near);
    EndKeepsLog(r.log, r.lastSeq, id, ch, CountOf(r.lastSeq, ch), reason);
    OlderSnoc(r.log, Ended(id, reason, r.lastSeq), r.nextId);
  }

  lemma OlderSnoc(log: seq<Rec>, r: Rec, id: nat)
    requires Older(log, id) && r.call < id
    ensures Older(log + [r], id)
  {
  }

  lemma ApplyKeeps(op: Opus, p: Pl, e: D.Det, t: D.Transition, ch: Channel)
    requires Inv(p, ch) && Moves(p.det, e, t, p.clockMs)
    ensures Inv(Applied(op, p.(det := e), t), ch)
  {
    hide Inv, Moves, Finished, Opened, Restarted;
    match t
    case ArmStarted => RestartKeeps(p, e, t, ch);
    case ArmDiscarded => RestartKeeps(p, e, t, ch);
    case CallStarted => OpenKeeps(p, e, ch);
    case CallEnded(reason) => FinishKeeps(op, p, e, reason, ch);
    case _ => StayKeeps(p, e, t, ch);
  }

  lemma CapKeeps(o: Option<Pipe>, ch: Channel, keep: bool, n: nat)
    requires On(o, ch)
    ensures On(Capped(o, keep), ch)
    ensures keep && Ready(o, n) && (o.Some? ==> |o.value.ready| <= PREROLL_MAX_SEGMENTS) ==> Capped(o, keep) == o
  {
  }

  lemma BoundKeeps(p: Pl, ch: Channel)
    requires Inv(p, ch)
    requires p.call.Some? && Of(p, ch).Some? ==> Of(p, ch).value.ready == []
    requires p.det.state.Armed? ==> SatSub(p.clockMs, p.det.enteredAtMs) <= 1000 * PREROLL_MAX_SEGMENTS
    ensures Inv(Bounded(p), ch)
  {
    hide LogOk, Older, Line, On, Capped, CountOf;
    var keep := p.det.state.Armed? || p.call.Some?;
    var n := if p.call.Some? then CountOf(p.lastSeq, ch) else 0;
    CapKeeps(p.far, Far, keep, n);
    CapKeeps(p.near, Near, keep, n);
  }

  lemma StepKeeps(cfg: D.VadConfig, op: Opus, p: Pl, s: Slice, ch: Channel)
    requires Sane(cfg) && Inv(p, ch) && WholeReads(s)
    ensures Inv(Stepped(cfg, op, p, s), ch)
  {
    hide Inv, Moves, Taken, Heard, Applied, Drained, Bounded, WholeReads;
    var taken := Taken(op, p, s);
    TakenKeeps(op, p, s, ch);
    HeardMoves(cfg, taken, s);
    var (e, t) := Heard(cfg, taken, s);
    ApplyKeeps(op, taken, e, t, ch);
    var applied := Applied(op, taken.(det := e), t);
    AppliedLeaves(op, taken.(det := e), t);
    DrainKeeps(applied, ch);
    BoundKeeps(Drained(applied), ch);
  }

  lemma AppliedLeaves(op: Opus, p: Pl, t: D.Transition)
    ensures Applied(op, p, t).det == p.det && Applied(op, p, t).clockMs == p.clockMs
  {
    hide Flushed, Rows, Noted, Restart;
  }

  // ---------------------------------------------------------------- every run

  /**
   What drives a pipeline. A notification's transition comes back to the caller, who may
   route it to the pipeline or drop it.
   */
  datatype Op = Advance(s: Slice) | Tell(input: D.Input, routed: bool) | Connect | Unplug(routed: bool)

  function Exec(cfg: D.VadConfig, op: Opus, p: Pl, o: Op): Pl
  {
    match o
    case Advance(s) => Stepped(cfg, op, p, s)
    case Tell(input, routed) => var (q, t) := Told(cfg, p, input); if routed then Applied(op, q, t) else q
    case Connect => Connected(cfg, p)
    case Unplug(routed) =>
      var (q, t) := Told(cfg, Unplugged(p), D.Block(D.PinnedDeviceMissing));
      if routed then Applied(op, q, t) else q
  }

  /** Transitions that ask nothing of the pipeline. */
  predicate Idle(t: D.Transition) { t.Nothing? || t.WrapStarted? || t.CaptureBlocked? || t.Unblocked? }

  /** No transition that matters is dropped, reads are whole frames, and endpoints open between calls. */
  ghost predicate Driven(cfg: D.VadConfig, p: Pl, o: Op)
  {
    match o
    case Advance(s) => WholeReads(s)
    case Tell(input, routed) => routed || Idle(Told(cfg, p, input).1)
    case Connect => p.call.None?
    case Unplug(routed) => routed || Idle(Told(cfg, p, D.Block(D.PinnedDeviceMissing)).1)
  }

  function After(cfg: D.VadConfig, op: Opus, user: string, ops: seq<Op>): Pl
  {
    if ops == [] then Begin(cfg, user)
    else Exec(cfg, op, After(cfg, op, user, ops[..|ops| - 1]), ops[|ops| - 1])
  }

  ghost predicate AllDriven(cfg: D.VadConfig, op: Opus, user: string, ops: seq<Op>)
  {
    forall i :: 0 <= i < |ops| ==> Driven(cfg, After(cfg, op, user, ops[..i]), ops[i])
  }

  lemma ToldKeeps(cfg: D.VadConfig, op: Opus, p: Pl, input: D.Input, routed: bool, ch: Channel)
    requires Inv(p, ch) && (routed || Idle(Told(cfg, p, input).1))
    ensures var (q, t) := Told(cfg, p, input); Inv(if routed then Applied(op, q, t) else q, ch)
  {
    hide Inv, Moves, D.Fed, Applied;
    var (e, t) := D.Fed(cfg, p.det, p.clockMs, input);
    FedMoves(cfg, p.det, p.clockMs, input);
    if routed {
      ApplyKeeps(op, p, e, t, ch);
    } else {
      StayKeeps(p, e, t, ch);
    }
  }

  lemma UnplugKeeps(p: Pl, ch: Channel)
    requires Inv(p, ch)
    ensures Inv(Unplugged(p), ch)
  {
    hide LogOk, Older, Line;
  }

  lemma ConnectKeeps(cfg: D.VadConfig, p: Pl, ch: Channel)
    requires Inv(p, ch) && p.call.None?
    ensures Inv(Connected(cfg, p), ch)
  {
    hide LogOk, Older, D.Fed;
    var q := p.(far := Some(Pipe(Start(Far), [])), near := Some(Pipe(Start(Near), [])));
    FedMoves(cfg, p.det, p.clockMs, D.Unblock);
    UnblockIsIdle(cfg, p.det, p.clockMs);
    StayKeeps(q, D.Fed(cfg, p.det, p.clockMs, D.Unblock).0, D.Fed(cfg, p.det, p.clockMs, D.Unblock).1, ch);
  }

  lemma UnblockIsIdle(cfg: D.VadConfig, d: D.Det, now: nat)
    ensures Idle(D.Fed(cfg, d, now, D.Unblock).1)
  {
  }

  lemma ExecKeeps(cfg: D.VadConfig, op: Opus, p: Pl, o: Op, ch: Channel)
    requires Sane(cfg) && Inv(p, ch) && Driven(cfg, p, o)
    ensures Inv(Exec(cfg, op, p, o), ch)
  {
    hide Inv, Told, Applied, Stepped, Connected, WholeReads;
    match o
    case Advance(s) => StepKeeps(cfg, op, p, s, ch);
    case Tell(input, routed) => ToldKeeps(cfg, op, p, input, routed, ch);
    case Connect => ConnectKeeps(cfg, p, ch);
    case Unplug(routed) =>
      UnplugKeeps(p, ch);
      SameTold(cfg, p, D.Block(D.PinnedDeviceMissing));
      ToldKeeps(cfg, op, Unplugged(p), D.Block(D.PinnedDeviceMissing), routed, ch);
  }

  lemma SameTold(cfg: D.VadConfig, p: Pl, input: D.Input)
    ensures Told(cfg, Unplugged(p), input).1 == Told(cfg, p, input).1
  {
  }

  lemma BeginOk(cfg: D.VadConfig, user: string, ch: Channel)
    ensures Inv(Begin(cfg, user), ch)
  {
  }

  lemma {:induction false} RunKeeps(cfg: D.VadConfig, op: Opus, user: string, ops: seq<Op>, ch: Channel)
    requires Sane(cfg) && AllDriven(cfg, op, user, ops)
    ensures Inv(After(cfg, op, user, ops), ch)
  {
    hide Inv, Exec, Driven, Sane;
    if ops == [] {
      BeginOk(cfg, user, ch);
    } else {
      var init := ops[..|ops| - 1];
      forall i | 0 <= i < |init| ensures Driven(cfg, After(cfg, op, user, init[..i]), init[i]) {
        assert init[..i] == ops[..i];
      }
      RunKeeps(cfg, op, user, init, ch);
      ExecKeeps(cfg, op, After(cfg, op, user, init), ops[|ops| - 1], ch);
    }
  }

  /**
   In every driven run: a call is open exactly while the detector says so; every call's rows
   on a channel are 0, 1, 2, ..., without gap or repeat; and a call's end reports the last.
   */
  lemma CallsAreNumbered(cfg: D.VadConfig, op: Opus, user: string, ops: seq<Op>, ch: Channel, call: nat)
    requires Sane(cfg) && AllDriven(cfg, op, user, ops)
    ensures var p := After(cfg, op, user, ops); var sent := Sent(p.log, call, ch);
            && (D.Open(p.det.state) <==> p.call.Some?)
            && (forall i :: 0 <= i < |sent| ==> sent[i] == i)
            && (forall i :: 0 <= i < |p.log| && p.log[i].Ended? && p.log[i].call == call ==>
                  if sent == [] then ch !in p.log[i].lastSeq
                  else ch in p.log[i].lastSeq && p.log[i].lastSeq[ch] == sent[|sent| - 1])
  {
    hide After, AllDriven, Sane, Sent, On, Older, Armed, InCall;
    RunKeeps(cfg, op, user, ops, ch);
    var p := After(cfg, op, user, ops);
    assert Sent(p.log, call, ch) == UpTo(|Sent(p.log, call, ch)|);
  }

  // ----------------------------------------------- when a transition is dropped

  lemma DrainSends(p: Pl, ch: Channel)
    requires p.call.Some? && On(p.far, Far) && On(p.near, Near)
    ensures var o := Of(p, ch);
            Sent(Drained(p).log, p.call.value, ch) ==
            Sent(p.log, p.call.value, ch) + if o.Some? then Nums(o.value.ready) else []
  {
    hide Sent, Rows, Nums, Noted;
    var id := p.call.value;
    var q := DrainChannel(p, id, Far);
    if p.far.Some? {
      SentAfterRows(p.log, id, p.far.value.ready, p.clockMs, Far, id, ch);
    }
    if p.near.Some? {
      SentAfterRows(q.log, id, p.near.value.ready, p.clockMs, Near, id, ch);
    }
  }

  /**
   Whatever happened before, the step that starts a call numbers its rows from where the
   channel stands: what the encoder has numbered since its last restart, less what is buffered.
   So the rows start at zero if and only if nothing numbered since then was thrown away.
   */
  lemma CallStartsWhereTheEncoderStands(cfg: D.VadConfig, op: Opus, p: Pl, s: Slice, ch: Channel, k: nat)
    requires Older(p.log, p.nextId) && On(p.far, Far) && On(p.near, Near)
    requires Of(p, ch).Some? && Ready(Of(p, ch), k)
    requires s.far != [] && s.near != [] && Heard(cfg, Taken(op, p, s), s).1.CallStarted?
    ensures var q := Stepped(cfg, op, p, s); var sent := Sent(q.log, p.nextId, ch);
            && q.call == Some(p.nextId)
            && |sent| == Read(op, Of(p, ch), if ch.Far? then s.far else s.near).value.enc.nextSeq - k
            && (forall i :: 0 <= i < |sent| ==> sent[i] == k + i)
            && (sent != [] ==> (sent == UpTo(|sent|) <==> k == 0))
  {
    hide Sent, Heard, Fed, On, Older, Applied, Drained;
    var taken := Taken(op, p, s);
    var (e, t) := Heard(cfg, taken, s);
    var begun := Opened(taken.(det := e));
    ReadKeeps(op, p.far, s.far, Far, k);
    ReadKeeps(op, p.near, s.near, Near, k);
    MarkKeeps(Read(op, p.far, s.far), Far, k);
    AppliedOpens(op, taken.(det := e));
    NothingSentYet(p.log, p.nextId, ch);
    NoteKeepsLog(p.log, Began(p.nextId, taken.clockMs), ch, p.nextId);
    DrainSends(begun, ch);
    DrainLeaves(begun);
    CountsFromZero(Sent(Stepped(cfg, op, p, s).log, p.nextId, ch), k);
  }

  lemma CountsFromZero(sent: seq<nat>, k: nat)
    requires forall i :: 0 <= i < |sent| ==> sent[i] == k + i
    ensures sent != [] ==> (sent == UpTo(|sent|) <==> k == 0)
  {
    if sent != [] && sent == UpTo(|sent|) {
      assert sent[0] == UpTo(|sent|)[0];
    }
  }

  lemma AppliedOpens(op: Opus, p: Pl)
    ensures Applied(op, p, D.CallStarted) == Opened(p)
  {
  }

  lemma DrainLeaves(p: Pl)
    ensures var q := Drained(p); q.call == p.call && q.nextId == p.nextId && q.det == p.det && q.clockMs == p.clockMs
  {
    hide Rows, Noted;
  }

  // A pipeline left alone discards each idle second; an arm nobody routes leaves the count where it is.

  const QUIET := Slice(Zeros(FRAME_SAMPLES), Zeros(FRAME_SAMPLES), false, false, false)

  function Waiting(n: nat): (ops: seq<Op>)
    ensures |ops| == n + 1
  {
    [Connect] + seq(n, _ => Advance(QUIET))
  }

  ghost predicate Waits(p: Pl, n: nat)
  {
    && p.det.state.Idle? && !p.det.sessionActive && !p.det.armExhausted && p.det.lastTransitionMs == 0
    && p.det.nowMs == p.clockMs == 20 * n && p.call.None? && p.log == [] && p.nextId == 0
    && p.far.Some? && p.near.Some? && On(p.far, Far) && On(p.near, Near)
    && p.far.value.ready == [] && p.near.value.ready == []
    && Taken16(p.far) == Taken16(p.near) == FRAME_SAMPLES * n
  }

  lemma WaitingHears(cfg: D.VadConfig, p: Pl)
    requires p.det.state.Idle? && !p.det.sessionActive
    ensures var (e, t) := Heard(cfg, p, QUIET);
            t.Nothing? && e == p.det.(nowMs := p.clockMs, silenceMs := e.silenceMs)
  {
  }

  lemma WaitMore(cfg: D.VadConfig, op: Opus, p: Pl, n: nat)
    requires Waits(p, n)
    ensures Waits(Stepped(cfg, op, p, QUIET), n + 1)
  {
    hide Heard, Fed, Taken16, On;
    var taken := Taken(op, p, QUIET);
    ReadKeeps(op, p.far, QUIET.far, Far, 0);
    ReadKeeps(op, p.near, QUIET.near, Near, 0);
    WaitingHears(cfg, taken);
    ClearedKeeps(Read(op, p.far, QUIET.far), Far);
    ClearedKeeps(Read(op, p.near, QUIET.near), Near);
  }

  lemma ClearedKeeps(o: Option<Pipe>, ch: Channel)
    requires On(o, ch)
    ensures On(Capped(o, false), ch) && Taken16(Capped(o, false)) == Taken16(o)
  {
  }

  lemma {:induction false} WaitingWaits(cfg: D.VadConfig, op: Opus, user: string, n: nat)
    ensures Waits(After(cfg, op, user, Waiting(n)), n)
  {
    hide Waits, Stepped;
    if n == 0 {
      WaitingStarts(cfg, op, user);
    } else {
      WaitingWaits(cfg, op, user, n - 1);
      assert Waiting(n)[..n] == Waiting(n - 1);
      WaitMore(cfg, op, After(cfg, op, user, Waiting(n - 1)), n - 1);
    }
  }

  lemma WaitingStarts(cfg: D.VadConfig, op: Opus, user: string)
    ensures Waits(After(cfg, op, user, Waiting(0)), 0)
  {
    assert Waiting(0) == [Connect] && [Connect][..0] == [];
  }

  const SETTINGS := D.VadConfig(20, 20_000, 8000, 2000, 500)

  const SPEECH := Slice(Zeros(FRAME_SAMPLES), Zeros(FRAME_SAMPLES), true, false, false)

  /** Two idle seconds, less a frame; a session that arms the detector unrouted; and the frame that confirms a call. */
  function Unrouted(): (ops: seq<Op>)
  {
    Waiting(99) + [Tell(D.SessionState(true), false)] + [Advance(SPEECH)]
  }

  lemma ArmsUnrouted(p: Pl, n: nat)
    requires Waits(p, n) && n >= 25
    ensures var (q, t) := Told(SETTINGS, p, D.SessionState(true));
            && t.ArmStarted? && q == p.(det := q.det)
            && q.det.state.Armed? && q.det.armedSpeechMs == 0 && q.det.nowMs == p.clockMs
  {
    hide On, Taken16;
  }

  lemma SpeechConfirms(p: Pl)
    requires p.det.state.Armed? && p.det.nowMs + 20 == p.clockMs && p.far.Some?
    ensures Heard(SETTINGS, p, SPEECH).1.CallStarted?
  {
  }

  /** So with a dropped transition a call can lose its number zero: here its first far row is number 1. */
  lemma DroppedArmLosesZero(op: Opus, user: string)
    ensures Sane(SETTINGS) && Sent(After(SETTINGS, op, user, Unrouted()).log, 0, Far) == [1]
  {
    hide Sent, Stepped, Told, Heard, On, Fed;
    var a, b := Waiting(99), Waiting(99) + [Tell(D.SessionState(true), false)];
    assert b[..|b| - 1] == a && Unrouted()[..|Unrouted()| - 1] == b;
    var p := After(SETTINGS, op, user, a);
    WaitingWaits(SETTINGS, op, user, 99);
    ArmsUnrouted(p, 99);
    var q := Told(SETTINGS, p, D.SessionState(true)).0;
    assert After(SETTINGS, op, user, b) == q;
    SpeechConfirms(Taken(op, q, SPEECH));
    ReadKeeps(op, q.far, SPEECH.far, Far, 1);
    EncoderStands(q.far);
    EncoderStands(Read(op, q.far, SPEECH.far));
    CallStartsWhereTheEncoderStands(SETTINGS, op, q, SPEECH, Far, 1);
  }

  lemma EncoderStands(o: Option<Pipe>)
    requires o.Some? && On(o, Far)
    ensures o.value.enc.nextSeq == Taken16(o) / SEGMENT_SAMPLES
  {
  }
}
