/**
 What the pipeline lets its detector hear, and what it marks: foreign audio is never taken for
 the borrower, and is marked on the far segments it fell in and on no other.
 */
module PipelineVoice {
  import opened Prelude
  import opened Media
  import opened Encoder
  import opened Pipeline
  import opened PipelineRuns
  import opened PipelineDrops
  import D = Detector
  import opened DetectorRuns
  import EncoderRuns

  // ------------------------------------------------- the detector's history

  /** Neither channel gave anything, so the step does nothing. */
  predicate Empty(p: Pl, s: Slice) { (p.far.None? || s.far == []) && (p.near.None? || s.near == []) }

  /** What a step tells the detector: foreign audio counts as nobody speaking. */
  function Hears(p: Pl, s: Slice): seq<Obs>
  {
    var now := p.clockMs + AdvanceMs(p, s);
    var far := if p.far.None? || s.foreignAudio then D.FarVoice(false) else D.FarVoice(s.farVoiced);
    var near := if p.near.None? then D.NearVoice(false) else D.NearVoice(s.nearVoiced);
    [Obs(now, far), Obs(now, near)]
  }

  function Observes(p: Pl, o: Op): seq<Obs>
  {
    match o
    case Advance(s) => if Empty(p, s) then [] else Hears(p, s)
    case Tell(input, _) => [Obs(p.clockMs, input)]
    case Connect => [Obs(p.clockMs, D.Unblock)]
    case Unplug(_) => [Obs(p.clockMs, D.Block(D.PinnedDeviceMissing))]
  }

  /** Everything the detector was fed in a run. */
  function Observations(cfg: D.VadConfig, op: Opus, user: string, ops: seq<Op>): seq<Obs>
  {
    if ops == [] then [Obs(0, D.UserChanged(user))]
    else
      var init := ops[..|ops| - 1];
      Observations(cfg, op, user, init) + Observes(After(cfg, op, user, init), ops[|ops| - 1])
  }

  /** A machine fed some observations, one after another. */
  function FedAll(cfg: D.VadConfig, d: D.Det, obs: seq<Obs>): D.Det
  {
    if obs == [] then d
    else D.Fed(cfg, FedAll(cfg, d, obs[..|obs| - 1]), obs[|obs| - 1].nowMs, obs[|obs| - 1].input).0
  }

  lemma {:induction false} AtIsFed(h: History, n: nat)
    requires n <= |h.obs|
    ensures h.At(n) == FedAll(h.cfg, D.NEW, h.obs[..n])
  {
    hide D.Fed;
    if n > 0 {
      AtIsFed(h, n - 1);
      assert h.obs[..n][..n - 1] == h.obs[..n - 1];
    }
  }

  lemma {:induction false} FedAllJoins(cfg: D.VadConfig, d: D.Det, a: seq<Obs>, b: seq<Obs>)
    ensures FedAll(cfg, d, a + b) == FedAll(cfg, FedAll(cfg, d, a), b)
    decreases |b|
  {
    hide D.Fed;
    if b == [] {
      assert a + b == a;
    } else {
      FedAllJoins(cfg, d, a, b[..|b| - 1]);
      assert (a + b)[..|a + b| - 1] == a + b[..|b| - 1];
    }
  }

  lemma FedOne(cfg: D.VadConfig, d: D.Det, o: Obs)
    ensures FedAll(cfg, d, [o]) == D.Fed(cfg, d, o.nowMs, o.input).0
  {
    hide D.Fed;
    assert [o][..0] == [];
    assert FedAll(cfg, d, [o][..0]) == d;
  }

  lemma FedTwo(cfg: D.VadConfig, d: D.Det, o: Obs, q: Obs)
    ensures FedAll(cfg, d, [o, q]) == D.Fed(cfg, D.Fed(cfg, d, o.nowMs, o.input).0, q.nowMs, q.input).0
  {
    hide D.Fed;
    FedOne(cfg, d, o);
    assert [o, q][..1] == [o];
  }

  lemma StepTells(cfg: D.VadConfig, op: Opus, p: Pl, s: Slice)
    ensures Stepped(cfg, op, p, s).det == FedAll(cfg, p.det, if Empty(p, s) then [] else Hears(p, s))
    ensures Stepped(cfg, op, p, s).clockMs == if Empty(p, s) then p.clockMs else p.clockMs + AdvanceMs(p, s)
  {
    hide D.Fed, Read, Applied, Drained, Bounded, FedAll;
    if Empty(p, s) {
      assert FedAll(cfg, p.det, []) == p.det by { NothingFed(cfg, p.det); }
    } else {
      var taken := Taken(op, p, s);
      var (det, t) := Heard(cfg, taken, s);
      var applied := Applied(op, taken.(det := det), t);
      TakenFacts(op, p, s);
      AppliedLeaves(op, taken.(det := det), t);
      DrainLeaves(applied);
      BoundLeaves(Drained(applied));
      FedTwo(cfg, p.det, Hears(p, s)[0], Hears(p, s)[1]);
    }
  }

  lemma NothingFed(cfg: D.VadConfig, d: D.Det)
    ensures FedAll(cfg, d, []) == d
  {
  }

  lemma TakenFacts(op: Opus, p: Pl, s: Slice)
    ensures var q := Taken(op, p, s);
            && (q.far.Some? <==> p.far.Some?) && (q.near.Some? <==> p.near.Some?)
            && q.det == p.det && q.clockMs == p.clockMs + AdvanceMs(p, s)
  {
    hide Fed;
  }

  lemma ExecTells(cfg: D.VadConfig, op: Opus, p: Pl, o: Op)
    ensures Exec(cfg, op, p, o).det == FedAll(cfg, p.det, Observes(p, o))
  {
    hide D.Fed, Stepped, Applied, FedAll, Hears;
    match o
    case Advance(s) => StepTells(cfg, op, p, s);
    case Tell(input, routed) =>
      FedOne(cfg, p.det, Obs(p.clockMs, input));
      var (q, t) := Told(cfg, p, input);
      AppliedLeaves(op, q, t);
    case Connect => FedOne(cfg, p.det, Obs(p.clockMs, D.Unblock));
    case Unplug(routed) =>
      FedOne(cfg, p.det, Obs(p.clockMs, D.Block(D.PinnedDeviceMissing)));
      var (q, t) := Told(cfg, Unplugged(p), D.Block(D.PinnedDeviceMissing));
      AppliedLeaves(op, q, t);
  }

  /**
   In every run, however routed, the pipeline's detector is the machine fed exactly these
   observations; so everything proved of histories holds of the pipeline.
   */
  lemma {:induction false} DetectorHistory(cfg: D.VadConfig, op: Opus, user: string, ops: seq<Op>)
    ensures var h := History(cfg, Observations(cfg, op, user, ops)); After(cfg, op, user, ops).det == h.At(|h.obs|)
  {
    hide D.Fed, Exec, Observes, FedAll, History.At;
    var obs := Observations(cfg, op, user, ops);
    AtIsFed(History(cfg, obs), |obs|);
    assert obs[..|obs|] == obs;
    if ops == [] {
      FedOne(cfg, D.NEW, Obs(0, D.UserChanged(user)));
    } else {
      var init := ops[..|ops| - 1];
      DetectorHistory(cfg, op, user, init);
      var was := Observations(cfg, op, user, init);
      AtIsFed(History(cfg, was), |was|);
      assert was[..|was|] == was;
      ExecTells(cfg, op, After(cfg, op, user, init), ops[|ops| - 1]);
      FedAllJoins(cfg, D.NEW, was, Observes(After(cfg, op, user, init), ops[|ops| - 1]));
    }
  }

  lemma {:induction false} ClockTells(cfg: D.VadConfig, d: D.Det, obs: seq<Obs>)
    ensures FedAll(cfg, d, obs).nowMs == if obs == [] then d.nowMs else obs[|obs| - 1].nowMs
  {
    hide D.Fed;
    if obs != [] {
      var last := obs[|obs| - 1];
      StepUser(cfg, FedAll(cfg, d, obs[..|obs| - 1]), last.nowMs, last.input);
    }
  }

  lemma ExecClock(cfg: D.VadConfig, op: Opus, p: Pl, o: Op)
    requires p.det.nowMs == p.clockMs
    ensures Exec(cfg, op, p, o).det.nowMs == Exec(cfg, op, p, o).clockMs >= p.clockMs
    ensures forall i :: 0 <= i < |Observes(p, o)| ==> Observes(p, o)[i].nowMs == Exec(cfg, op, p, o).clockMs
  {
    hide D.Fed, Stepped, Applied, FedAll;
    ExecTells(cfg, op, p, o);
    ClockTells(cfg, p.det, Observes(p, o));
    match o
    case Advance(s) => StepTells(cfg, op, p, s);
    case Tell(input, routed) =>
      var (q, t) := Told(cfg, p, input);
      AppliedLeaves(op, q, t);
    case Connect =>
    case Unplug(routed) =>
      var (q, t) := Told(cfg, Unplugged(p), D.Block(D.PinnedDeviceMissing));
      AppliedLeaves(op, q, t);
  }

  /** The clock the detector sees is the pipeline's, and never runs backwards. */
  lemma {:induction false} ClockIsShared(cfg: D.VadConfig, op: Opus, user: string, ops: seq<Op>)
    ensures var p, h := After(cfg, op, user, ops), History(cfg, Observations(cfg, op, user, ops));
            p.det.nowMs == p.clockMs && h.Monotone() && forall i :: 0 <= i < |h.obs| ==> h.obs[i].nowMs <= p.clockMs
  {
    hide D.Fed, Exec, Observes;
    if ops == [] {
      StepUser(cfg, D.NEW, 0, D.UserChanged(user));
    } else {
      var init := ops[..|ops| - 1];
      ClockIsShared(cfg, op, user, init);
      ExecClock(cfg, op, After(cfg, op, user, init), ops[|ops| - 1]);
    }
  }

  // --------------------------------------------------- whose speech confirms

  /** The borrower's speech in one step: far, voiced, and not foreign. */
  function Borrower(p: Pl, s: Slice): nat
  {
    if p.far.Some? && s.farVoiced && !s.foreignAudio && !Empty(p, s) then AdvanceMs(p, s) else 0
  }

  /** What a run's last operation made the detector return. */
  function Answer(cfg: D.VadConfig, op: Opus, p: Pl, o: Op): D.Transition
  {
    match o
    case Advance(s) => if Empty(p, s) then D.Nothing else Heard(cfg, Taken(op, p, s), s).1
    case Tell(input, _) => Told(cfg, p, input).1
    case Connect => Told(cfg, p, D.Unblock).1
    case Unplug(_) => Told(cfg, p, D.Block(D.PinnedDeviceMissing)).1
  }

  /** The borrower's speech since the last arm of a run. */
  function SpeechSinceArm(cfg: D.VadConfig, op: Opus, user: string, ops: seq<Op>): nat
  {
    if ops == [] then 0
    else
      var init, o := ops[..|ops| - 1], ops[|ops| - 1];
      var p := After(cfg, op, user, init);
      if Answer(cfg, op, p, o).ArmStarted? then 0
      else SpeechSinceArm(cfg, op, user, init) + if o.Advance? then Borrower(p, o.s) else 0
  }

  lemma HeardSpeech(cfg: D.VadConfig, op: Opus, p: Pl, s: Slice)
    requires Sane(cfg) && p.det.nowMs == p.clockMs && !Empty(p, s)
    ensures var (e, t) := Heard(cfg, Taken(op, p, s), s);
            && (t.ArmStarted? && e.state.Armed? ==> e.armedSpeechMs == 0)
            && (e.state.Armed? && !t.ArmStarted? ==> p.det.state.Armed? && e.armedSpeechMs == p.det.armedSpeechMs + Borrower(p, s))
            && (t.CallStarted? <==> p.det.state.Armed? && p.det.armedSpeechMs + Borrower(p, s) >= cfg.speechMsToConfirm)
  {
    hide D.Fed, Settled, AdvanceMs;
    TakenFacts(op, p, s);
    var now := p.clockMs + AdvanceMs(p, s);
    var far := D.FarVoice(p.far.Some? && s.farVoiced && !s.foreignAudio);
    var near := D.NearVoice(p.near.Some? && s.nearVoiced);
    var (d1, t1) := D.Fed(cfg, p.det, now, far);
    var (d2, t2) := D.Fed(cfg, d1, now, near);
    StepUser(cfg, p.det, now, far);
    StepArms(cfg, p.det, now, far);
    StepArms(cfg, d1, now, near);
    StepOpens(cfg, p.det, now, far);
    StepOpens(cfg, d1, now, near);
    VoiceSettles(cfg, p.det, now, p.far.Some? && s.farVoiced && !s.foreignAudio);
    if !t1.Nothing? {
      SettledIsQuiet(cfg, d1, p.near.Some? && s.nearVoiced);
    }
  }

  /** Notifications carry no speech, and while an arm is not confirmed they cannot confirm it. */
  lemma ToldSpeech(cfg: D.VadConfig, d: D.Det, now: nat, input: D.Input)
    requires cfg.speechMsToConfirm > 0 && now == d.nowMs && (d.state.Armed? ==> d.armedSpeechMs < cfg.speechMsToConfirm)
    ensures var (e, t) := D.Fed(cfg, d, now, input);
            && !t.CallStarted? && (t.ArmStarted? && e.state.Armed? ==> e.armedSpeechMs == 0)
            && (e.state.Armed? && !t.ArmStarted? ==> d.state.Armed? && e.armedSpeechMs == d.armedSpeechMs)
  {
    hide D.Fed;
    StepArms(cfg, d, now, input);
    StepOpens(cfg, d, now, input);
    OnlyWeighedStarts(cfg, d, now, input);
  }

  lemma OnlyWeighedStarts(cfg: D.VadConfig, d: D.Det, now: nat, input: D.Input)
    ensures D.Fed(cfg, d, now, input).1.CallStarted? ==> !input.Block? && !input.Unblock? && !input.UserChanged?
  {
  }

  ghost predicate Counting(cfg: D.VadConfig, d: D.Det, speech: nat)
  {
    d.state.Armed? ==> d.armedSpeechMs == speech < cfg.speechMsToConfirm
  }

  lemma ExecSpeech(cfg: D.VadConfig, op: Opus, p: Pl, o: Op, speech: nat)
    requires Sane(cfg) && p.det.nowMs == p.clockMs && Counting(cfg, p.det, speech)
    ensures var more := speech + if o.Advance? then Borrower(p, o.s) else 0; var t := Answer(cfg, op, p, o);
            && Counting(cfg, Exec(cfg, op, p, o).det, if t.ArmStarted? then 0 else more)
            && (t.CallStarted? <==> o.Advance? && !Empty(p, o.s) && p.det.state.Armed? && more >= cfg.speechMsToConfirm)
  {
    hide D.Fed, Applied, Heard, Taken, FedAll, AdvanceMs, Drained, Bounded, Observes;
    match o
    case Advance(s) =>
      if !Empty(p, s) {
        HeardSpeech(cfg, op, p, s);
        StepDet(cfg, op, p, s);
        HeardMoves(cfg, Taken(op, p, s), s);
      }
    case Tell(input, routed) => ToldDet(cfg, op, p, input, routed);
      ToldSpeech(cfg, p.det, p.clockMs, input);
    case Connect => ToldSpeech(cfg, p.det, p.clockMs, D.Unblock);
    case Unplug(routed) => ToldDet(cfg, op, Unplugged(p), D.Block(D.PinnedDeviceMissing), routed);
      ToldSpeech(cfg, p.det, p.clockMs, D.Block(D.PinnedDeviceMissing));
  }

  lemma StepDet(cfg: D.VadConfig, op: Opus, p: Pl, s: Slice)
    requires !Empty(p, s)
    ensures Stepped(cfg, op, p, s).det == Heard(cfg, Taken(op, p, s), s).0
  {
    hide Heard, Taken, Applied, Drained, Bounded;
    var (det, t) := Heard(cfg, Taken(op, p, s), s);
    var taken := Taken(op, p, s).(det := det);
    AppliedLeaves(op, taken, t);
    DrainLeaves(Applied(op, taken, t));
    BoundLeaves(Drained(Applied(op, taken, t)));
  }

  lemma ToldDet(cfg: D.VadConfig, op: Opus, p: Pl, input: D.Input, routed: bool)
    ensures var (q, t) := Told(cfg, p, input); (if routed then Applied(op, q, t) else q).det == D.Fed(cfg, p.det, p.clockMs, input).0
  {
    hide D.Fed;
    AppliedLeaves(op, Told(cfg, p, input).0, Told(cfg, p, input).1);
  }

  lemma {:induction false} SpeechIsCounted(cfg: D.VadConfig, op: Opus, user: string, ops: seq<Op>)
    requires Sane(cfg)
    ensures Counting(cfg, After(cfg, op, user, ops).det, SpeechSinceArm(cfg, op, user, ops))
  {
    hide Exec, Answer, Borrower, Sane;
    if ops != [] {
      var init := ops[..|ops| - 1];
      SpeechIsCounted(cfg, op, user, init);
      ClockIsShared(cfg, op, user, init);
      ExecSpeech(cfg, op, After(cfg, op, user, init), ops[|ops| - 1], SpeechSinceArm(cfg, op, user, init));
    }
  }

  /**
   In every run, a call starts on an operation if and only if it is a step of an armed pipeline with
   which the borrower's speech since the arm reaches what confirms a call.
   */
  lemma CallIsTheBorrower(cfg: D.VadConfig, op: Opus, user: string, ops: seq<Op>, o: Op)
    requires Sane(cfg)
    ensures var p := After(cfg, op, user, ops);
            Answer(cfg, op, p, o).CallStarted? <==>
            && o.Advance? && !Empty(p, o.s) && p.det.state.Armed?
            && SpeechSinceArm(cfg, op, user, ops) + Borrower(p, o.s) >= cfg.speechMsToConfirm
  {
    hide After, Answer, Borrower, Exec, SpeechSinceArm, Sane;
    SpeechIsCounted(cfg, op, user, ops);
    ClockIsShared(cfg, op, user, ops);
    ExecSpeech(cfg, op, After(cfg, op, user, ops), o, SpeechSinceArm(cfg, op, user, ops));
  }

  /** So no step with foreign audio ever starts a call, nor one on which the far side is not heard. */
  lemma ForeignNeverConfirms(cfg: D.VadConfig, op: Opus, user: string, ops: seq<Op>, s: Slice)
    requires Sane(cfg) && Answer(cfg, op, After(cfg, op, user, ops), Advance(s)).CallStarted?
    ensures !s.foreignAudio && s.farVoiced && After(cfg, op, user, ops).far.Some?
  {
    hide After, Answer, SpeechSinceArm, Exec, Sane;
    CallIsTheBorrower(cfg, op, user, ops, Advance(s));
    SpeechIsCounted(cfg, op, user, ops);
  }

  /** A step with foreign audio is a step in which the far side is silent. */
  lemma ForeignIsSilence(cfg: D.VadConfig, op: Opus, p: Pl, s: Slice)
    requires s.foreignAudio && !Empty(p, s)
    ensures var now := p.clockMs + AdvanceMs(p, s);
            Stepped(cfg, op, p, s).det ==
            D.Fed(cfg, D.Fed(cfg, p.det, now, D.FarVoice(false)).0, now, D.NearVoice(p.near.Some? && s.nearVoiced)).0
  {
    hide D.Fed, FedAll, Stepped;
    StepTells(cfg, op, p, s);
    FedTwo(cfg, p.det, Hears(p, s)[0], Hears(p, s)[1]);
  }

  /** Music does not hold a call open: with the session Inactive and the near side quiet, the silence grows until the call wraps. */
  lemma MusicDoesNotHoldTheLine(cfg: D.VadConfig, op: Opus, p: Pl, s: Slice)
    requires s.foreignAudio && !s.nearVoiced && !Empty(p, s) && p.det.state.InCall? && !p.det.sessionActive && p.det.nowMs == p.clockMs
    ensures var e, ms := Stepped(cfg, op, p, s).det, AdvanceMs(p, s);
            e.state.Wrap? || e.state.Finalize? || (e.state.InCall? && !e.sessionActive && e.silenceMs == p.det.silenceMs + ms)
  {
    hide Stepped, AdvanceMs, D.Fed;
    ForeignIsSilence(cfg, op, p, s);
    var now := p.clockMs + AdvanceMs(p, s);
    Unheard(cfg, p.det, now, D.FarVoice(false));
    Unheard(cfg, D.Fed(cfg, p.det, now, D.FarVoice(false)).0, now, D.NearVoice(false));
  }

  lemma Unheard(cfg: D.VadConfig, d: D.Det, now: nat, input: D.Input)
    requires input == D.FarVoice(false) || input == D.NearVoice(false)
    ensures var e := D.Fed(cfg, d, now, input).0;
            && e.nowMs == now
            && (d.state.InCall? && !d.sessionActive ==>
                  (e.state.InCall? || e.state.Wrap?) && !e.sessionActive && e.silenceMs == d.silenceMs + SatSub(now, d.nowMs))
            && (d.state.Wrap? && !d.sessionActive ==> e.state.Wrap? || e.state.Finalize?)
  {
  }

  // ------------------------------------------------------ what is marked

  /** The numbers of the segments marked foreign since the encoder was restarted, as a channel carries them. */
  ghost predicate Carries(o: Option<Pipe>, foreign: set<nat>)
  {
    o.Some? ==>
      && (o.value.enc.foreignAudio <==> o.value.enc.nextSeq in foreign)
      && (forall m :: m in foreign ==> m <= o.value.enc.nextSeq)
      && MarkedAs(o.value.ready, foreign)
  }

  ghost predicate MarkedAs(segs: seq<Segment>, foreign: set<nat>)
  {
    forall i :: 0 <= i < |segs| ==> (segs[i].flags.foreignAudio <==> segs[i].num in foreign)
  }

  /** Both channels: the far one as given, the near one never. */
  ghost predicate BothCarry(p: Pl, foreign: set<nat>) { Carries(p.far, foreign) && Carries(p.near, {}) }

  /** Only rows were added to a log, or notes; a far row is flagged exactly if its number is among these, a near row never. */
  ghost predicate Adds(log: seq<Rec>, more: seq<Rec>, foreign: set<nat>)
  {
    && log <= more
    && forall i :: |log| <= i < |more| && more[i].Row? ==>
         (more[i].seg.flags.foreignAudio <==> more[i].seg.channel.Far? && more[i].seg.num in foreign)
  }

  lemma AddsMore(a: seq<Rec>, b: seq<Rec>, c: seq<Rec>, foreign: set<nat>)
    requires Adds(a, b, foreign) && Adds(b, c, foreign)
    ensures Adds(a, c, foreign)
  {
  }

  lemma {:induction false} FedCarries(op: Opus, e: Enc, xs: seq<Sample>, foreign: set<nat>)
    requires (e.foreignAudio <==> e.nextSeq in foreign) && forall m :: m in foreign ==> m <= e.nextSeq
    ensures var r := Fed(op, e, xs);
            && (r.enc.foreignAudio <==> r.enc.nextSeq in foreign) && (forall m :: m in foreign ==> m <= r.enc.nextSeq)
            && MarkedAs(r.out, foreign)
  {
    hide Sampled;
    if xs != [] {
      FedCarries(op, e, xs[..|xs| - 1], foreign);
      SampledCarries(op, Fed(op, e, xs[..|xs| - 1]).enc, xs[|xs| - 1], foreign);
    }
  }

  lemma SampledCarries(op: Opus, e: Enc, x: Sample, foreign: set<nat>)
    requires (e.foreignAudio <==> e.nextSeq in foreign) && forall m :: m in foreign ==> m <= e.nextSeq
    ensures var r := Sampled(op, e, x);
            && (r.enc.foreignAudio <==> r.enc.nextSeq in foreign) && (forall m :: m in foreign ==> m <= r.enc.nextSeq)
            && MarkedAs(r.out, foreign)
  {
  }

  lemma ReadCarries(op: Opus, o: Option<Pipe>, xs: seq<Sample>, foreign: set<nat>)
    requires Carries(o, foreign)
    ensures Carries(Read(op, o, xs), foreign)
  {
    hide Fed;
    if o.Some? { FedCarries(op, o.value.enc, xs, foreign); }
  }

  lemma MarkCarries(o: Option<Pipe>, foreign: set<nat>, ch: Channel)
    requires Carries(o, foreign) && o.Some? && On(o, ch) && Contiguous(o)
    ensures Carries(Marked(o), foreign + {o.value.enc.nextSeq})
  {
    forall i | 0 <= i < |o.value.ready| ensures o.value.ready[i].num < o.value.enc.nextSeq {}
  }

  lemma FlushCarries(op: Opus, e: Enc, foreign: set<nat>)
    requires (e.foreignAudio <==> e.nextSeq in foreign) && forall m :: m in foreign ==> m <= e.nextSeq
    ensures var r := Flushed(op, e);
            && (r.enc.foreignAudio <==> r.enc.nextSeq in foreign) && (forall m :: m in foreign ==> m <= r.enc.nextSeq)
            && MarkedAs(r.out, foreign)
  {
  }

  /** The second under construction on the far channel once a slice is read. */
  function OpenSecond(op: Opus, p: Pl, s: Slice): nat
    requires p.far.Some?
  {
    Read(op, p.far, s.far).value.enc.nextSeq
  }

  /** The far numbers marked once a slice is read: a foreign one adds the segment then under construction. */
  function MarksRead(op: Opus, p: Pl, s: Slice, foreign: set<nat>): set<nat>
  {
    if s.foreignAudio && p.far.Some? then foreign + {OpenSecond(op, p, s)} else foreign
  }

  lemma TakenCarries(op: Opus, p: Pl, s: Slice, foreign: set<nat>)
    requires Shape(p) && BothCarry(p, foreign)
    ensures BothCarry(Taken(op, p, s), MarksRead(op, p, s, foreign))
  {
    hide Carries, Read, On, Contiguous, Older;
    ReadCarries(op, p.far, s.far, foreign);
    ReadCarries(op, p.near, s.near, {});
    ReadStands(op, p.far, s.far, Far);
    if s.foreignAudio {
      if p.far.Some? { MarkCarries(Read(op, p.far, s.far), foreign, Far); } else { NoneCarries(Marked(Read(op, p.far, s.far)), foreign); }
    }
  }

  lemma NoneCarries(o: Option<Pipe>, foreign: set<nat>)
    ensures o.None? ==> Carries(o, foreign)
    ensures Marked(None) == None
  {
  }

  lemma RestartCarries(o: Option<Pipe>)
    ensures Carries(Restart(o), {})
  {
  }

  lemma SpooledCarries(p: Pl, id: nat, ch: Channel, segs: seq<Segment>, foreign: set<nat>)
    requires AllOn(segs, ch) && MarkedAs(segs, if ch.Far? then foreign else {})
    ensures Adds(p.log, Spooled(p, id, ch, segs).log, foreign)
  {
  }

  lemma DrainChannelCarries(p: Pl, id: nat, ch: Channel, foreign: set<nat>)
    requires Shape(p) && BothCarry(p, foreign)
    ensures var q := DrainChannel(p, id, ch); BothCarry(q, foreign) && Adds(p.log, q.log, foreign)
  {
    hide Rows, Noted, Contiguous, Older;
    var o := Of(p, ch);
    if o.Some? { SpooledCarries(With(p, ch, Some(o.value.(ready := []))), id, ch, o.value.ready, foreign); }
  }

  lemma FinishChannelCarries(op: Opus, p: Pl, id: nat, ch: Channel, foreign: set<nat>)
    requires Shape(p) && BothCarry(p, foreign)
    ensures var q := FinishChannel(op, p, id, ch); BothCarry(q, foreign) && Adds(p.log, q.log, foreign)
  {
    hide Rows, Noted, Contiguous, Older, Flushed;
    var o := Of(p, ch);
    if o.Some? {
      var mine := if ch.Far? then foreign else {};
      FlushCarries(op, o.value.enc, mine);
      FlushNumbers(op, o, ch, 0);
      var f := Flushed(op, o.value.enc);
      SpooledCarries(With(p, ch, Some(Pipe(f.enc, []))), id, ch, o.value.ready + f.out, foreign);
    }
  }

  lemma DrainedCarries(p: Pl, foreign: set<nat>)
    requires Shape(p) && BothCarry(p, foreign)
    ensures BothCarry(Drained(p), foreign) && Adds(p.log, Drained(p).log, foreign)
  {
    hide Shape, BothCarry, DrainChannel, Adds;
    NothingAdded(p.log, foreign);
    if p.call.Some? {
      var id := p.call.value;
      ShapeCall(p);
      DrainChannelShape(p, id, Far);
      DrainChannelCarries(p, id, Far, foreign);
      DrainChannelCarries(DrainChannel(p, id, Far), id, Near, foreign);
      AddsMore(p.log, DrainChannel(p, id, Far).log, Drained(p).log, foreign);
    }
  }

  lemma NothingAdded(log: seq<Rec>, foreign: set<nat>)
    ensures Adds(log, log, foreign)
  {
  }

  lemma NoteAdded(log: seq<Rec>, r: Rec, foreign: set<nat>)
    requires !r.Row?
    ensures Adds(log, log + [r], foreign)
  {
  }

  lemma ShapeCall(p: Pl)
    requires Shape(p) && p.call.Some?
    ensures p.call.value < p.nextId && Shape(p.(call := None))
  {
    hide On, Contiguous, Older;
  }

  lemma FinishedCarries(op: Opus, p: Pl, reason: EndReason, foreign: set<nat>)
    requires Shape(p) && BothCarry(p, foreign)
    ensures BothCarry(Finished(op, p, reason), foreign) && Adds(p.log, Finished(op, p, reason).log, foreign)
  {
    hide Shape, Carries, FinishChannel, Adds;
    NothingAdded(p.log, foreign);
    if p.call.Some? {
      var id, closed := p.call.value, p.(call := None);
      ShapeCall(p);
      FinishChannelShape(op, closed, id, Far);
      FinishChannelCarries(op, closed, id, Far, foreign);
      var half := FinishChannel(op, closed, id, Far);
      FinishChannelCarries(op, half, id, Near, foreign);
      var q := FinishChannel(op, half, id, Near);
      AddsMore(p.log, half.log, q.log, foreign);
      NoteAdded(q.log, Ended(id, reason, q.lastSeq), foreign);
      AddsMore(p.log, q.log, q.log + [Ended(id, reason, q.lastSeq)], foreign);
    }
  }

  /** An arm, begun or given up, starts the numbering over. */
  predicate StartsOver(t: D.Transition) { t.ArmStarted? || t.ArmDiscarded? }

  lemma AppliedCarries(op: Opus, p: Pl, t: D.Transition, foreign: set<nat>)
    requires Shape(p) && BothCarry(p, foreign)
    ensures BothCarry(Applied(op, p, t), if StartsOver(t) then {} else foreign) && Adds(p.log, Applied(op, p, t).log, foreign)
  {
    hide Shape, Carries, Finished, Adds, Restart;
    NothingAdded(p.log, foreign);
    RestartCarries(p.far);
    RestartCarries(p.near);
    NoteAdded(p.log, Began(p.nextId, p.clockMs), foreign);
    if t.CallEnded? { FinishedCarries(op, p, t.reason, foreign); }
  }

  lemma BoundedCarries(p: Pl, foreign: set<nat>)
    requires BothCarry(p, foreign)
    ensures BothCarry(Bounded(p), foreign) && Bounded(p).log == p.log
  {
  }

  /** The far numbers marked after an operation. */
  function MarksAfter(cfg: D.VadConfig, op: Opus, p: Pl, o: Op, foreign: set<nat>): set<nat>
  {
    match o
    case Advance(s) =>
      if Empty(p, s) then foreign
      else if StartsOver(Answer(cfg, op, p, o)) then {}
      else MarksRead(op, p, s, foreign)
    case Tell(_, routed) => if routed && StartsOver(Answer(cfg, op, p, o)) then {} else foreign
    case Connect => {}
    case Unplug(_) => {}
  }

  /** The far numbers an operation's rows are marked by: those before it, and what it reads. */
  function MarksDuring(op: Opus, p: Pl, o: Op, foreign: set<nat>): set<nat>
  {
    if o.Advance? && !Empty(p, o.s) then MarksRead(op, p, o.s, foreign) else foreign
  }

  lemma StepCarries(cfg: D.VadConfig, op: Opus, p: Pl, s: Slice, foreign: set<nat>)
    requires Shape(p) && BothCarry(p, foreign) && !Empty(p, s)
    ensures var q := Stepped(cfg, op, p, s); var t := Heard(cfg, Taken(op, p, s), s).1;
            && BothCarry(q, if StartsOver(t) then {} else MarksRead(op, p, s, foreign))
            && Adds(p.log, q.log, MarksRead(op, p, s, foreign))
  {
    hide Shape, Carries, Adds, Heard, Taken, Applied, Drained, Bounded, MarksRead;
    var during := MarksRead(op, p, s, foreign);
    var (det, t) := Heard(cfg, Taken(op, p, s), s);
    var taken := Taken(op, p, s).(det := det);
    var after := if StartsOver(t) then {} else during;
    TakenShape(op, p, s);
    DetShape(Taken(op, p, s), det);
    TakenCarries(op, p, s, foreign);
    TakenLeaves(op, p, s);
    AppliedShape(op, taken, t);
    AppliedCarries(op, taken, t, during);
    var applied := Applied(op, taken, t);
    DrainedCarries(applied, after);
    if StartsOver(t) {
      RestartDrains(op, taken, t);
      NothingMarked(applied.log, Drained(applied).log, during);
    }
    AddsMore(p.log, applied.log, Drained(applied).log, during);
    BoundedCarries(Drained(applied), after);
  }

  /** With nothing buffered, draining hands over nothing. */
  lemma RestartDrains(op: Opus, p: Pl, t: D.Transition)
    requires StartsOver(t)
    ensures Drained(Applied(op, p, t)).log == Applied(op, p, t).log
  {
  }

  lemma NothingMarked(log: seq<Rec>, more: seq<Rec>, foreign: set<nat>)
    requires log == more
    ensures Adds(log, more, foreign)
  {
  }

  lemma TellCarries(cfg: D.VadConfig, op: Opus, p: Pl, input: D.Input, routed: bool, foreign: set<nat>)
    requires Shape(p) && BothCarry(p, foreign)
    ensures var (q, t) := Told(cfg, p, input); var r := if routed then Applied(op, q, t) else q;
            BothCarry(r, if routed && StartsOver(t) then {} else foreign) && Adds(p.log, r.log, foreign)
  {
    hide Shape, Carries, Adds, Applied, D.Fed;
    var (q, t) := Told(cfg, p, input);
    DetShape(p, q.det);
    NothingAdded(p.log, foreign);
    AppliedCarries(op, q, t, foreign);
  }

  /**
   One operation of any run: each row it hands over on the far channel is flagged foreign if and only
   if foreign audio was judged while that segment was being built; on the near channel none is.
   */
  lemma ExecCarries(cfg: D.VadConfig, op: Opus, p: Pl, o: Op, foreign: set<nat>)
    requires Shape(p) && BothCarry(p, foreign)
    ensures BothCarry(Exec(cfg, op, p, o), MarksAfter(cfg, op, p, o, foreign))
    ensures Adds(p.log, Exec(cfg, op, p, o).log, MarksDuring(op, p, o, foreign))
  {
    hide Shape, Carries, Adds, Applied, D.Fed, Heard, Taken, MarksRead, Drained, Bounded;
    NothingAdded(p.log, foreign);
    match o
    case Advance(s) => if !Empty(p, s) { StepCarries(cfg, op, p, s, foreign); }
    case Tell(input, routed) => TellCarries(cfg, op, p, input, routed, foreign);
    case Connect => FreshCarries(Far);
      FreshCarries(Near);
    case Unplug(routed) =>
      UnpluggedShape(p);
      NoneCarries(None, foreign);
      NoneCarries(None, {});
      TellCarries(cfg, op, Unplugged(p), D.Block(D.PinnedDeviceMissing), routed, foreign);
      BlockKeepsGoing(cfg, p.det, p.clockMs);
      UnpluggedCarries(cfg, op, p, routed);
  }

  lemma FreshCarries(ch: Channel)
    ensures Carries(Some(Pipe(Start(ch), [])), {})
  {
  }

  lemma BlockKeepsGoing(cfg: D.VadConfig, d: D.Det, now: nat)
    ensures !StartsOver(D.Fed(cfg, d, now, D.Block(D.PinnedDeviceMissing)).1)
  {
  }

  lemma UnpluggedCarries(cfg: D.VadConfig, op: Opus, p: Pl, routed: bool)
    ensures BothCarry(Exec(cfg, op, p, Unplug(routed)), {})
  {
    hide D.Fed;
    BlockKeepsGoing(cfg, p.det, p.clockMs);
  }

  /** The far numbers marked since the far encoder was last restarted, over a run. */
  function MarksOf(cfg: D.VadConfig, op: Opus, user: string, ops: seq<Op>): set<nat>
  {
    if ops == [] then {}
    else
      var init := ops[..|ops| - 1];
      MarksAfter(cfg, op, After(cfg, op, user, init), ops[|ops| - 1], MarksOf(cfg, op, user, init))
  }

  lemma {:induction false} RunCarries(cfg: D.VadConfig, op: Opus, user: string, ops: seq<Op>)
    ensures BothCarry(After(cfg, op, user, ops), MarksOf(cfg, op, user, ops))
  {
    hide Exec, BothCarry, MarksAfter;
    if ops == [] {
      BeginCarries(cfg, user);
    } else {
      var init := ops[..|ops| - 1];
      RunCarries(cfg, op, user, init);
      RunShape(cfg, op, user, init);
      ExecCarries(cfg, op, After(cfg, op, user, init), ops[|ops| - 1], MarksOf(cfg, op, user, init));
    }
  }

  lemma BeginCarries(cfg: D.VadConfig, user: string)
    ensures BothCarry(Begin(cfg, user), {})
  {
    hide D.Fed;
  }

  /** In every run, however routed, foreign audio is marked on exactly the far segments it was judged in. */
  lemma ForeignIsMarked(cfg: D.VadConfig, op: Opus, user: string, ops: seq<Op>, o: Op, i: nat)
    requires var p, q := After(cfg, op, user, ops), After(cfg, op, user, ops + [o]); |p.log| <= i < |q.log| && q.log[i].Row?
    ensures var p := After(cfg, op, user, ops); var row := After(cfg, op, user, ops + [o]).log[i].seg;
            row.flags.foreignAudio <==> row.channel.Far? && row.num in MarksDuring(op, p, o, MarksOf(cfg, op, user, ops))
  {
    hide Exec, BothCarry, MarksAfter, MarksDuring, MarksOf, Shape;
    var p := After(cfg, op, user, ops);
    assert (ops + [o])[..|ops|] == ops;
    RunShape(cfg, op, user, ops);
    RunCarries(cfg, op, user, ops);
    ExecCarries(cfg, op, p, o, MarksOf(cfg, op, user, ops));
  }
}
