/**
 The detector without its fields: where it stands and every transition it returns, read off the
 observations it was fed and the transitions it returned before.
 */
module DetectorAnswers {
  import opened Prelude
  import opened Media
  import opened Detector
  import opened DetectorRuns

  // ------------------------------------------------- where the machine stands

  /** Blocked since the start or the last block. */
  predicate Shut(h: History, n: nat)
    requires n <= |h.obs|
  {
    n == 0 || h.obs[n - 1].input.Block? || (Shut(h, n - 1) && !h.obs[n - 1].input.Unblock?)
  }

  /** An arm began and nothing has come of it yet. */
  predicate ArmOn(h: History, n: nat)
    requires n <= |h.obs|
  {
    n > 0 && (h.Out(n - 1).ArmStarted? || (h.Out(n - 1).Nothing? && ArmOn(h, n - 1)))
  }

  /** A hangup is suspected: the call has not ended since, nor the session gone Active. */
  predicate InWrap(h: History, n: nat)
    requires n <= |h.obs|
  {
    n > 0 && (h.Out(n - 1).WrapStarted? ||
              (InWrap(h, n - 1) && !h.Out(n - 1).CallEnded? && h.obs[n - 1].input != SessionState(true)))
  }

  /** None of the above, no call open and no hangup just made. */
  predicate Resting(h: History, n: nat)
    requires n <= |h.obs|
  {
    !Shut(h, n) && !ArmOn(h, n) && !h.CallOpen(n) && !JustHungUp(h, n)
  }

  function Phase(h: History, n: nat): CallState
    requires n <= |h.obs|
  {
    if Shut(h, n) then Blocked
    else if ArmOn(h, n) then Armed
    else if InWrap(h, n) then Wrap
    else if h.CallOpen(n) then InCall
    else if JustHungUp(h, n) then Finalize
    else Idle
  }

  /** The observations the rules are applied to. */
  predicate Weighed(input: Input) { !input.Block? && !input.Unblock? && !input.UserChanged? }

  lemma EvaluatePhases(cfg: VadConfig, d: Det)
    ensures var (e, t) := Evaluated(cfg, d);
            && (e.state.Blocked? <==> d.state.Blocked?) && (d.state.Blocked? ==> t.Nothing?)
            && (e.state.Armed? <==> t.ArmStarted? || (d.state.Armed? && t.Nothing?))
            && (e.state.Wrap? <==> t.WrapStarted? || (d.state.Wrap? && !t.CallEnded? && !d.sessionActive))
            && !t.CaptureBlocked? && !t.Unblocked?
  {
  }

  lemma StepPhases(cfg: VadConfig, d: Det, now: nat, input: Input)
    requires d.state.Wrap? ==> !d.sessionActive
    ensures var (e, t) := Fed(cfg, d, now, input);
            && (e.state.Blocked? <==> input.Block? || (d.state.Blocked? && !input.Unblock?))
            && (e.state.Armed? <==> t.ArmStarted? || (d.state.Armed? && t.Nothing?))
            && (e.state.Wrap? <==> t.WrapStarted? || (d.state.Wrap? && !t.CallEnded? && input != SessionState(true)))
  {
    hide Evaluated;
    EvaluatePhases(cfg, Observed(d.(nowMs := now), input, SatSub(now, d.nowMs)));
  }

  /** While a hangup is suspected the session is Inactive. */
  lemma {:induction false} WrapIsInactive(h: History, n: nat)
    requires n <= |h.obs| && h.At(n).state.Wrap?
    ensures !h.At(n).sessionActive
  {
    hide Fed;
    if n > 0 {
      Here(h, n - 1);
      StepWraps(h.cfg, h.At(n - 1), h.obs[n - 1].nowMs, h.obs[n - 1].input);
      if !h.Out(n - 1).WrapStarted? {
        WrapIsInactive(h, n - 1);
        StepStaysInactive(h.cfg, h.At(n - 1), h.obs[n - 1].nowMs, h.obs[n - 1].input);
      }
    }
  }

  lemma {:induction false} StandsIn(h: History, n: nat)
    requires n <= |h.obs|
    ensures h.At(n).state.Blocked? <==> Shut(h, n)
    ensures h.At(n).state.Armed? <==> ArmOn(h, n)
    ensures h.At(n).state.Wrap? <==> InWrap(h, n)
  {
    hide Fed;
    if n > 0 {
      StandsIn(h, n - 1);
      if h.At(n - 1).state.Wrap? { WrapIsInactive(h, n - 1); }
      Here(h, n - 1);
      StepPhases(h.cfg, h.At(n - 1), h.obs[n - 1].nowMs, h.obs[n - 1].input);
    }
  }

  /** Over every history the state is the one the transitions tell. */
  lemma PhaseIs(h: History, n: nat)
    requires n <= |h.obs|
    ensures h.At(n).state == Phase(h, n)
    ensures h.At(n).state.Idle? <==> Resting(h, n)
  {
    hide Fed, Shut, ArmOn, InWrap, JustHungUp, History.CallOpen, History.At;
    StandsIn(h, n);
    OpenIsInCallOrWrap(h, n);
    FinalizingIff(h, n);
  }

  // --------------------------------------------------------- the last move

  /** The session goes Active while a hangup is suspected: the same call goes on. */
  predicate Resumes(h: History, i: nat)
    requires i < |h.obs|
  {
    InWrap(h, i) && h.obs[i].input == SessionState(true)
  }

  /** A transition, a resumed call, or the step out of a finished one. */
  predicate Moved(h: History, i: nat)
    requires i < |h.obs|
  {
    h.Out(i) != Nothing || Resumes(h, i) || (JustHungUp(h, i) && !Passive(h.obs[i].input))
  }

  /** When the machine last moved; zero if it never has. */
  function LastMove(h: History, n: nat): nat
    requires n <= |h.obs|
  {
    if n == 0 then 0 else if Moved(h, n - 1) then h.obs[n - 1].nowMs else LastMove(h, n - 1)
  }

  lemma EvaluateStamps(cfg: VadConfig, d: Det)
    requires d.enteredAtMs == d.lastTransitionMs
    ensures var (e, t) := Evaluated(cfg, d);
            && e.enteredAtMs == e.lastTransitionMs
            && e.lastTransitionMs == if t != Nothing || d.state.Finalize? || (d.state.Wrap? && d.sessionActive) then d.nowMs else d.lastTransitionMs
  {
  }

  lemma StepStamps(cfg: VadConfig, d: Det, now: nat, input: Input)
    requires d.enteredAtMs == d.lastTransitionMs && (d.state.Wrap? ==> !d.sessionActive)
    ensures var (e, t) := Fed(cfg, d, now, input);
            && e.enteredAtMs == e.lastTransitionMs
            && e.lastTransitionMs ==
               if t != Nothing || (d.state.Finalize? && !Passive(input)) || (d.state.Wrap? && input == SessionState(true)) then now
               else d.lastTransitionMs
  {
    hide Evaluated;
    EvaluateStamps(cfg, Observed(d.(nowMs := now), input, SatSub(now, d.nowMs)));
  }

  lemma {:induction false} LastMoveIs(h: History, n: nat)
    requires n <= |h.obs|
    ensures h.At(n).lastTransitionMs == LastMove(h, n) && h.At(n).enteredAtMs == LastMove(h, n)
  {
    hide Fed, JustHungUp, InWrap;
    if n > 0 {
      LastMoveIs(h, n - 1);
      StandsIn(h, n - 1);
      FinalizingIff(h, n - 1);
      if h.At(n - 1).state.Wrap? { WrapIsInactive(h, n - 1); }
      Here(h, n - 1);
      StepStamps(h.cfg, h.At(n - 1), h.obs[n - 1].nowMs, h.obs[n - 1].input);
    }
  }

  // ------------------------------------------------------------- the silence

  /** A voice, the start of a call, or a resumed one. */
  predicate BreaksSilence(h: History, i: nat)
    requires i < |h.obs|
  {
    h.Voiced(i) || h.Out(i).CallStarted? || Resumes(h, i)
  }

  /** The number of observations up to and including the last that broke the silence. */
  function SilentSince(h: History, n: nat): (r: nat)
    requires n <= |h.obs|
    ensures r <= n
  {
    if n == 0 || BreaksSilence(h, n - 1) then n else SilentSince(h, n - 1)
  }

  /** It was broken there, and not since. */
  lemma {:induction false} SilentSinceIs(h: History, n: nat)
    requires n <= |h.obs|
    ensures var r := SilentSince(h, n); (r > 0 ==> BreaksSilence(h, r - 1)) && forall i :: r <= i < n ==> !BreaksSilence(h, i)
  {
    hide BreaksSilence;
    if n > 0 && !BreaksSilence(h, n - 1) { SilentSinceIs(h, n - 1); }
  }

  /** The time covered by unvoiced and empty observations `from` up to but not including `to`. */
  function Unvoiced(h: History, from: nat, to: nat): nat
    requires from <= to <= |h.obs|
  {
    if from == to then 0
    else
      var input := h.obs[to - 1].input;
      Unvoiced(h, from, to - 1) +
      if input == FarVoice(false) || input == NearVoice(false) || input == Tick then SatSub(h.Clock(to), h.Clock(to - 1)) else 0
  }

  lemma EvaluateSilence(cfg: VadConfig, d: Det)
    ensures var (e, t) := Evaluated(cfg, d);
            e.silenceMs == if t.CallStarted? || (d.state.Wrap? && d.sessionActive) then 0 else d.silenceMs
  {
  }

  lemma StepSilenceIs(cfg: VadConfig, d: Det, now: nat, input: Input)
    requires d.state.Wrap? ==> !d.sessionActive
    ensures var (e, t) := Fed(cfg, d, now, input);
            e.silenceMs ==
            if input == FarVoice(true) || input == NearVoice(true) || t.CallStarted? || (d.state.Wrap? && input == SessionState(true)) then 0
            else d.silenceMs + if input == FarVoice(false) || input == NearVoice(false) || input == Tick then SatSub(now, d.nowMs) else 0
  {
    hide Evaluated;
    EvaluateSilence(cfg, Observed(d.(nowMs := now), input, SatSub(now, d.nowMs)));
  }

  /** The silence counter is exactly the unvoiced time since the silence was last broken. */
  lemma {:induction false} SilenceIs(h: History, n: nat)
    requires n <= |h.obs|
    ensures h.At(n).silenceMs == Unvoiced(h, SilentSince(h, n), n)
  {
    hide Fed, InWrap;
    if n > 0 {
      SilenceIs(h, n - 1);
      StandsIn(h, n - 1);
      ClockIs(h, n - 1);
      if h.At(n - 1).state.Wrap? { WrapIsInactive(h, n - 1); }
      Here(h, n - 1);
      StepSilenceIs(h.cfg, h.At(n - 1), h.obs[n - 1].nowMs, h.obs[n - 1].input);
    }
  }

  // ------------------------------------------------------- an exhausted arm

  /** An arm given up although the session was not found gone: it ran out of time. */
  predicate TimesOut(h: History, i: nat)
    requires i < |h.obs|
  {
    h.Out(i).ArmDiscarded? && (Session(h, i + 1) || SatSub(h.obs[i].nowMs, LastMove(h, i)) < h.cfg.debounceMs)
  }

  /** An arm ran out of time, and since then no session went Inactive, no user change ended a call and no call was reopened. */
  predicate Exhausted(h: History, n: nat)
    requires n <= |h.obs|
  {
    n > 0 && (TimesOut(h, n - 1) ||
              (Exhausted(h, n - 1) && h.obs[n - 1].input != SessionState(false) && !ClosedByUserChange(h, n - 1) && !Reopens(h, n - 1)))
  }

  lemma EvaluateExhausts(cfg: VadConfig, d: Det)
    ensures var (e, t) := Evaluated(cfg, d);
            && (t.ArmDiscarded? ==> d.state.Armed?)
            && e.armExhausted == if t.ArmDiscarded? then d.armExhausted || d.sessionActive || !Debounced(cfg, d)
                                 else d.armExhausted && !(t.ArmStarted? && d.state.Finalize?)
  {
  }

  lemma StepExhausts(cfg: VadConfig, d: Det, now: nat, input: Input)
    ensures var (e, t) := Fed(cfg, d, now, input);
            e.armExhausted ==
            ((t.ArmDiscarded? && (e.sessionActive || SatSub(now, d.lastTransitionMs) < cfg.debounceMs)) ||
             (d.armExhausted && input != SessionState(false) && !(input.UserChanged? && t == CallEnded(SignedOut)) &&
              !(t.ArmStarted? && d.state.Finalize?)))
  {
    hide Evaluated;
    EvaluateExhausts(cfg, Observed(d.(nowMs := now), input, SatSub(now, d.nowMs)));
    EvaluateWraps(cfg, Observed(d.(nowMs := now), input, SatSub(now, d.nowMs)));
    EvaluateReopens(cfg, Observed(d.(nowMs := now), input, SatSub(now, d.nowMs)));
  }

  lemma {:induction false} ExhaustedIs(h: History, n: nat)
    requires n <= |h.obs|
    ensures h.At(n).armExhausted == Exhausted(h, n)
  {
    hide Fed, JustHungUp, Session, LastMove;
    if n > 0 {
      ExhaustedIs(h, n - 1);
      FinalizingIff(h, n - 1);
      LastMoveIs(h, n - 1);
      SessionIs(h, n);
      Here(h, n - 1);
      StepExhausts(h.cfg, h.At(n - 1), h.obs[n - 1].nowMs, h.obs[n - 1].input);
    }
  }

  // -------------------------------------------------------- every transition

  predicate Waited(h: History, n: nat, ms: nat)
    requires n < |h.obs|
  {
    SatSub(h.obs[n].nowMs, LastMove(h, n)) >= ms
  }

  lemma StepArmIff(cfg: VadConfig, d: Det, now: nat, input: Input)
    requires d.enteredAtMs == d.lastTransitionMs
    ensures var (e, t) := Fed(cfg, d, now, input); var waited := SatSub(now, d.lastTransitionMs);
            t.ArmStarted? <==>
            && Weighed(input) && e.sessionActive
            && ((d.state.Idle? && !d.armExhausted && waited >= cfg.debounceMs) || (d.state.Finalize? && d.reopenAfterEnd))
  {
  }

  /** An arm begins: at rest, Active, not exhausted and debounced; or straight after a hangup with a reopen pending. */
  lemma ArmIff(h: History, n: nat)
    requires n < |h.obs|
    ensures h.Out(n).ArmStarted? <==>
            && Weighed(h.obs[n].input) && Session(h, n + 1)
            && ((Resting(h, n) && !Exhausted(h, n) && Waited(h, n, h.cfg.debounceMs)) || (JustHungUp(h, n) && ReopenPending(h, n)))
  {
    hide Fed, Session, Resting, Exhausted, LastMove, JustHungUp, ReopenPending, Phase;
    Here(h, n);
    PhaseIs(h, n);
    FinalizingIff(h, n);
    ReopenIff(h, n);
    ExhaustedIs(h, n);
    LastMoveIs(h, n);
    SessionIs(h, n + 1);
    StepArmIff(h.cfg, h.At(n), h.obs[n].nowMs, h.obs[n].input);
  }

  lemma StepDiscardIff(cfg: VadConfig, d: Det, now: nat, input: Input)
    requires d.enteredAtMs == d.lastTransitionMs
    ensures var (e, t) := Fed(cfg, d, now, input); var waited := SatSub(now, d.lastTransitionMs);
            var heard := if input == FarVoice(true) then SatSub(now, d.nowMs) else 0;
            && (t.ArmDiscarded? <==>
                && Weighed(input) && d.state.Armed? && d.armedSpeechMs + heard < cfg.speechMsToConfirm
                && ((!e.sessionActive && waited >= cfg.debounceMs) || waited >= cfg.armedTimeoutMs))
            && (t.CallStarted? <==> Weighed(input) && d.state.Armed? && d.armedSpeechMs + heard >= cfg.speechMsToConfirm)
  {
  }

  /** An arm becomes a call on enough far speech since it began. */
  lemma CallIff(h: History, n: nat)
    requires n < |h.obs|
    ensures h.Out(n).CallStarted? <==>
            && Weighed(h.obs[n].input) && ArmOn(h, n) && h.Last(ArmStarted, n) < n
            && h.FarSpeech(h.Last(ArmStarted, n) + 1, n + 1) >= h.cfg.speechMsToConfirm
  {
    hide Fed, ArmOn, History.Last, History.Out, LastMove;
    Here(h, n);
    StandsIn(h, n);
    LastMoveIs(h, n);
    StepDiscardIff(h.cfg, h.At(n), h.obs[n].nowMs, h.obs[n].input);
    if h.At(n).state.Armed? {
      ArmedSince(h, n);
      ClockIs(h, n);
    }
  }

  /** An arm is given up on too little speech, once the session is gone and debounced, or at the timeout. */
  lemma DiscardIff(h: History, n: nat)
    requires n < |h.obs|
    ensures h.Out(n).ArmDiscarded? <==>
            && Weighed(h.obs[n].input) && ArmOn(h, n) && h.Last(ArmStarted, n) < n
            && h.FarSpeech(h.Last(ArmStarted, n) + 1, n + 1) < h.cfg.speechMsToConfirm
            && ((!Session(h, n + 1) && Waited(h, n, h.cfg.debounceMs)) || Waited(h, n, h.cfg.armedTimeoutMs))
  {
    hide Fed, ArmOn, Session, History.Last, History.Out, LastMove;
    Here(h, n);
    StandsIn(h, n);
    LastMoveIs(h, n);
    SessionIs(h, n + 1);
    StepDiscardIff(h.cfg, h.At(n), h.obs[n].nowMs, h.obs[n].input);
    if h.At(n).state.Armed? {
      ArmedSince(h, n);
      ClockIs(h, n);
    }
  }

  lemma StepWrapIff(cfg: VadConfig, d: Det, now: nat, input: Input)
    requires d.enteredAtMs == d.lastTransitionMs
    ensures var (e, t) := Fed(cfg, d, now, input); var waited := SatSub(now, d.lastTransitionMs);
            && (t.WrapStarted? <==>
                && Weighed(input) && d.state.InCall? && !e.sessionActive && e.silenceMs >= cfg.hangupSilenceMs && waited >= cfg.debounceMs)
            && (t == CallEnded(Hangup) <==> Weighed(input) && d.state.Wrap? && !e.sessionActive && waited >= cfg.wrapMs)
  {
  }

  /**
   A hangup is suspected if and only if a call is open and not yet suspected, the session is Inactive,
   nobody has been heard for the hangup silence, and the last move is debounced.
   */
  lemma WrapIff(h: History, n: nat)
    requires n < |h.obs|
    ensures h.Out(n).WrapStarted? <==>
            && Weighed(h.obs[n].input) && h.CallOpen(n) && !InWrap(h, n) && !Session(h, n + 1)
            && Unvoiced(h, SilentSince(h, n + 1), n + 1) >= h.cfg.hangupSilenceMs
            && Waited(h, n, h.cfg.debounceMs)
  {
    hide Fed, InWrap, Session, Unvoiced, SilentSince, History.CallOpen, History.Out, LastMove;
    Here(h, n);
    StandsIn(h, n);
    OpenIsInCallOrWrap(h, n);
    LastMoveIs(h, n);
    SessionIs(h, n + 1);
    SilenceIs(h, n + 1);
    StepWrapIff(h.cfg, h.At(n), h.obs[n].nowMs, h.obs[n].input);
  }

  /** While a hangup is suspected, the suspicion is the last move. */
  lemma {:induction false} SuspectedAt(h: History, n: nat)
    requires n <= |h.obs| && InWrap(h, n)
    ensures var w := h.Last(WrapStarted, n); w < n && h.Out(w).WrapStarted? && LastMove(h, n) == h.obs[w].nowMs
  {
    hide Fed, JustHungUp;
    Here(h, n - 1);
    if !h.Out(n - 1).WrapStarted? {
      SuspectedAt(h, n - 1);
      StandsIn(h, n - 1);
      StandsIn(h, n);
      FinalizingIff(h, n - 1);
      StepWraps(h.cfg, h.At(n - 1), h.obs[n - 1].nowMs, h.obs[n - 1].input);
    }
  }

  /** A call hangs up if and only if it is suspected, the session stays Inactive, and the wrap time has passed since the suspicion. */
  lemma HangupIff(h: History, n: nat)
    requires n < |h.obs|
    ensures h.Out(n) == CallEnded(Hangup) <==>
            && Weighed(h.obs[n].input) && InWrap(h, n) && h.obs[n].input != SessionState(true) && h.Last(WrapStarted, n) < n
            && SatSub(h.obs[n].nowMs, h.obs[h.Last(WrapStarted, n)].nowMs) >= h.cfg.wrapMs
  {
    hide Fed, InWrap, LastMove, History.Last, History.Out;
    Here(h, n);
    StandsIn(h, n);
    LastMoveIs(h, n);
    StepWrapIff(h.cfg, h.At(n), h.obs[n].nowMs, h.obs[n].input);
    StepSession(h.cfg, h.At(n), h.obs[n].nowMs, h.obs[n].input);
    if InWrap(h, n) {
      WrapIsInactive(h, n);
      SuspectedAt(h, n);
    }
  }

  lemma StepOrderIff(cfg: VadConfig, d: Det, now: nat, input: Input)
    ensures var t := Fed(cfg, d, now, input).1;
            && (t.Unblocked? <==> input.Unblock? && d.state.Blocked?)
            && (forall why :: t == CaptureBlocked(why) <==> input == Block(why) && !Open(d.state))
            && (forall reason :: t == CallEnded(reason) && reason != Hangup <==>
                  && Open(d.state)
                  && match reason
                     case Hangup => false
                     case SignedOut => input == Block(NoUser) || (input.UserChanged? && d.userUid != Some(input.userUid))
                     case DeviceLost => input == Block(PinnedDeviceMissing)
                     case Failure => input == Block(OfflineGraceExpired)
                     case Revoked => input == Block(DeviceRevoked)
                     case Shutdown => input == Block(ServiceStop))
  {
  }

  /** The transitions that are ordered from outside: each exactly on its order, and a call's end with the reason for it. */
  lemma OrderIff(h: History, n: nat)
    requires n < |h.obs|
    ensures var input := h.obs[n].input;
            && (h.Out(n).Unblocked? <==> input.Unblock? && Shut(h, n))
            && (forall why :: h.Out(n) == CaptureBlocked(why) <==> input == Block(why) && !h.CallOpen(n))
            && (forall reason :: h.Out(n) == CallEnded(reason) && reason != Hangup <==>
                  && h.CallOpen(n)
                  && match reason
                     case Hangup => false
                     case SignedOut => input == Block(NoUser) || (input.UserChanged? && h.User(n) != Some(input.userUid))
                     case DeviceLost => input == Block(PinnedDeviceMissing)
                     case Failure => input == Block(OfflineGraceExpired)
                     case Revoked => input == Block(DeviceRevoked)
                     case Shutdown => input == Block(ServiceStop))
  {
    hide Fed, Shut, History.CallOpen, History.User;
    Here(h, n);
    StandsIn(h, n);
    OpenIsInCallOrWrap(h, n);
    UserIs(h, n);
    StepOrderIff(h.cfg, h.At(n), h.obs[n].nowMs, h.obs[n].input);
  }

  /** The reason of the last block; before any, that nobody is signed in. */
  function LastBlock(h: History, n: nat): BlockReason
    requires n <= |h.obs|
  {
    if n == 0 then NoUser else if h.obs[n - 1].input.Block? then h.obs[n - 1].input.reason else LastBlock(h, n - 1)
  }

  lemma StepBlocks(cfg: VadConfig, d: Det, now: nat, input: Input)
    ensures Fed(cfg, d, now, input).0.blockReason ==
            if input.Block? then Some(input.reason) else if input.Unblock? && d.state.Blocked? then None else d.blockReason
  {
  }

  /** A reason is given exactly while blocked, and it is the last one. */
  lemma {:induction false} ReasonIs(h: History, n: nat)
    requires n <= |h.obs|
    ensures h.At(n).blockReason == if Shut(h, n) then Some(LastBlock(h, n)) else None
  {
    hide Fed;
    if n > 0 {
      ReasonIs(h, n - 1);
      StandsIn(h, n - 1);
      Here(h, n - 1);
      StepBlocks(h.cfg, h.At(n - 1), h.obs[n - 1].nowMs, h.obs[n - 1].input);
    }
  }
}
