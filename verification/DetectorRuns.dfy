/**
 What the detector guarantees over whole histories of observations, stated in terms of the
 observations it was fed and the transitions it returned.
 */
module DetectorRuns {
  import opened Prelude
  import opened Media
  import opened Detector

  /** A timestamped observation. */
  datatype Obs = Obs(nowMs: nat, input: Input)

  /** A machine's settings and everything it was fed, in order. */
  datatype History = History(cfg: VadConfig, obs: seq<Obs>) {

    /** The machine after the first `n` observations. */
    function At(n: nat): Det
      requires n <= |obs|
    {
      if n == 0 then NEW else Fed(cfg, At(n - 1), obs[n - 1].nowMs, obs[n - 1].input).0
    }

    /** What observation `i` made the machine return. */
    function Out(i: nat): Transition
      requires i < |obs|
    {
      Fed(cfg, At(i), obs[i].nowMs, obs[i].input).1
    }

    predicate Monotone() { forall i, j :: 0 <= i < j < |obs| ==> obs[i].nowMs <= obs[j].nowMs }

    /** The clock after `n` observations. */
    function Clock(n: nat): nat
      requires n <= |obs|
    {
      if n == 0 then 0 else obs[n - 1].nowMs
    }

    // ------------------------------------------- read off inputs and outputs

    /** A call has been started and not ended, judging by the transitions alone. */
    predicate CallOpen(n: nat)
      requires n <= |obs|
    {
      n > 0 && (Out(n - 1).CallStarted? || (!Out(n - 1).CallEnded? && CallOpen(n - 1)))
    }

    /** The most recent observation among the first `n` that returned `t`. */
    function Last(t: Transition, n: nat): (i: nat)
      requires n <= |obs|
      ensures n > 0 ==> i < n
    {
      if n <= 1 || Out(n - 1) == t then SatSub(n, 1) else Last(t, n - 1)
    }

    /** The signed-in user as announced among the first `n` observations. */
    function User(n: nat): Option<string>
      requires n <= |obs|
    {
      if n == 0 then None
      else if obs[n - 1].input.UserChanged? then Some(obs[n - 1].input.userUid)
      else User(n - 1)
    }

    predicate Voiced(i: nat)
      requires i < |obs|
    {
      obs[i].input == FarVoice(true) || obs[i].input == NearVoice(true)
    }

    /** Far-channel speech observed by observations `from` up to but not including `to`. */
    function FarSpeech(from: nat, to: nat): nat
      requires from <= to <= |obs|
    {
      if from == to then 0
      else FarSpeech(from, to - 1) + (if obs[to - 1].input == FarVoice(true) then SatSub(Clock(to), Clock(to - 1)) else 0)
    }
  }

  // ------------------------------------------------------ one step at a time

  lemma EvaluateOpens(cfg: VadConfig, d: Det)
    ensures var (e, t) := Evaluated(cfg, d);
            && e.nowMs == d.nowMs && e.userUid == d.userUid
            && (Open(e.state) <==> t.CallStarted? || (Open(d.state) && !t.CallEnded?))
            && (t.CallStarted? ==> d.state.Armed? && e.silenceMs == 0)
            && (t.CallEnded? ==> Open(d.state))
  {
  }

  lemma StepUser(cfg: VadConfig, d: Det, now: nat, input: Input)
    ensures var (e, t) := Fed(cfg, d, now, input);
            && e.nowMs == now
            && e.userUid == (if input.UserChanged? then Some(input.userUid) else d.userUid)
            && (Open(d.state) && Open(e.state) ==> e.userUid == d.userUid)
  {
    hide Evaluated;
    EvaluateOpens(cfg, Observed(d.(nowMs := now), input, SatSub(now, d.nowMs)));
  }

  lemma StepOpens(cfg: VadConfig, d: Det, now: nat, input: Input)
    ensures var (e, t) := Fed(cfg, d, now, input);
            && (Open(e.state) <==> t.CallStarted? || (Open(d.state) && !t.CallEnded?))
            && (t.CallStarted? ==> d.state.Armed? && e.silenceMs == 0)
            && (t.CallEnded? ==> Open(d.state))
  {
    hide Evaluated;
    EvaluateOpens(cfg, Observed(d.(nowMs := now), input, SatSub(now, d.nowMs)));
  }

  lemma StepArms(cfg: VadConfig, d: Det, now: nat, input: Input)
    ensures var (e, t) := Fed(cfg, d, now, input);
            var heard := if input == FarVoice(true) then SatSub(now, d.nowMs) else 0;
            && (t.ArmStarted? ==> e.state.Armed? && e.armedSpeechMs == 0 && e.enteredAtMs == now)
            && (e.state.Armed? && !t.ArmStarted? ==>
                  t.Nothing? && d.state.Armed? && e.enteredAtMs == d.enteredAtMs && e.armedSpeechMs == d.armedSpeechMs + heard)
            && (d.state.Armed? && !input.Block? && !input.Unblock? && !input.UserChanged? ==>
                  (t.CallStarted? <==> d.armedSpeechMs + heard >= cfg.speechMsToConfirm))
  {
  }

  lemma EvaluateCounts(cfg: VadConfig, d: Det)
    ensures var e := Evaluated(cfg, d).0; e.silenceMs == d.silenceMs || e.silenceMs == 0
  {
  }

  lemma StepSilence(cfg: VadConfig, d: Det, now: nat, input: Input)
    ensures var e := Fed(cfg, d, now, input).0;
            && e.silenceMs <= d.silenceMs + SatSub(now, d.nowMs)
            && (input == FarVoice(true) || input == NearVoice(true) ==> e.silenceMs == 0)
  {
    hide Evaluated;
    EvaluateCounts(cfg, Observed(d.(nowMs := now), input, SatSub(now, d.nowMs)));
  }

  lemma EvaluateWraps(cfg: VadConfig, d: Det)
    ensures var (e, t) := Evaluated(cfg, d);
            && e.sessionActive == d.sessionActive
            && (t.WrapStarted? ==> e.state.Wrap? && d.state.InCall? && e.enteredAtMs == d.nowMs && !d.sessionActive &&
                                   e.silenceMs >= cfg.hangupSilenceMs)
            && (e.state.Wrap? && !t.WrapStarted? ==>
                  t.Nothing? && d.state.Wrap? && e.enteredAtMs == d.enteredAtMs && !d.sessionActive)
  {
  }

  lemma StepWraps(cfg: VadConfig, d: Det, now: nat, input: Input)
    ensures var (e, t) := Fed(cfg, d, now, input);
            && (t.WrapStarted? ==> e.state.Wrap? && d.state.InCall? && e.enteredAtMs == now && !e.sessionActive &&
                                   e.silenceMs >= cfg.hangupSilenceMs)
            && (e.state.Wrap? && !t.WrapStarted? ==> t.Nothing? && d.state.Wrap? && e.enteredAtMs == d.enteredAtMs)
  {
    hide Evaluated;
    EvaluateWraps(cfg, Observed(d.(nowMs := now), input, SatSub(now, d.nowMs)));
  }

  lemma StepStaysInactive(cfg: VadConfig, d: Det, now: nat, input: Input)
    ensures var (e, t) := Fed(cfg, d, now, input);
            e.state.Wrap? && !t.WrapStarted? && !d.sessionActive ==> !e.sessionActive && input != SessionState(true)
  {
    hide Evaluated;
    EvaluateWraps(cfg, Observed(d.(nowMs := now), input, SatSub(now, d.nowMs)));
  }

  /** The session is what was last announced. */
  lemma StepSession(cfg: VadConfig, d: Det, now: nat, input: Input)
    ensures Fed(cfg, d, now, input).0.sessionActive == if input.SessionState? then input.active else d.sessionActive
  {
    hide Evaluated;
    EvaluateWraps(cfg, Observed(d.(nowMs := now), input, SatSub(now, d.nowMs)));
  }

  lemma EvaluateReopens(cfg: VadConfig, d: Det)
    ensures var (e, t) := Evaluated(cfg, d);
            && (e.state.Finalize? <==> t == CallEnded(Hangup))
            && (t.CallEnded? ==> t == CallEnded(Hangup) && e.lastTransitionMs == d.nowMs && !d.sessionActive)
            && e.reopenAfterEnd == (d.reopenAfterEnd && !(t.ArmStarted? && d.state.Finalize?))
            && (t.ArmStarted? && !d.state.Finalize? ==> Debounced(cfg, d))
            && (d.state.Finalize? ==> (t.ArmStarted? <==> d.reopenAfterEnd && d.sessionActive))
  {
  }

  /** Observations that are only noted: they never move a machine that is not in a call or blocked. */
  predicate Passive(input: Input) { input.UserChanged? || input.Unblock? }

  /** The machine is finalizing exactly from a hangup on, until an observation is evaluated or it is blocked. */
  lemma StepFinalizes(cfg: VadConfig, d: Det, now: nat, input: Input)
    ensures var (e, t) := Fed(cfg, d, now, input);
            && (e.state.Finalize? <==> t == CallEnded(Hangup) || (d.state.Finalize? && Passive(input)))
            && (t == CallEnded(Hangup) ==> e.lastTransitionMs == now && !e.sessionActive)
            && (d.state.Finalize? && Passive(input) ==>
                  t.Nothing? && e.lastTransitionMs == d.lastTransitionMs && e.sessionActive == d.sessionActive)
  {
    hide Evaluated;
    EvaluateReopens(cfg, Observed(d.(nowMs := now), input, SatSub(now, d.nowMs)));
    EvaluateWraps(cfg, Observed(d.(nowMs := now), input, SatSub(now, d.nowMs)));
  }

  /** The reopen flag is set by every user change that closes a call, and used up by an arm out of finalizing. */
  lemma StepReopens(cfg: VadConfig, d: Det, now: nat, input: Input)
    ensures var (e, t) := Fed(cfg, d, now, input);
            e.reopenAfterEnd ==
            if input.UserChanged? && t == CallEnded(SignedOut) then d.sessionActive
            else d.reopenAfterEnd && !(t.ArmStarted? && d.state.Finalize?)
  {
    hide Evaluated;
    EvaluateReopens(cfg, Observed(d.(nowMs := now), input, SatSub(now, d.nowMs)));
  }

  /** The only arm that does not wait out the debounce is out of finalizing, on a pending reopen. */
  lemma StepRushes(cfg: VadConfig, d: Det, now: nat, input: Input)
    requires d.state.Finalize? ==> !d.sessionActive
    ensures var t := Fed(cfg, d, now, input).1; var soon := SatSub(now, d.lastTransitionMs) < cfg.debounceMs;
            t.ArmStarted? && soon <==> d.state.Finalize? && d.reopenAfterEnd && input == SessionState(true) && soon
  {
    hide Evaluated;
    EvaluateReopens(cfg, Observed(d.(nowMs := now), input, SatSub(now, d.nowMs)));
  }

  lemma StepHangsUp(cfg: VadConfig, d: Det, now: nat, input: Input)
    requires Fed(cfg, d, now, input).1 == CallEnded(Hangup)
    ensures d.state.Wrap? && input != SessionState(true) && SatSub(now, d.enteredAtMs) >= cfg.wrapMs
  {
  }

  /** The same facts along a history. */
  lemma Here(h: History, i: nat)
    requires i < |h.obs|
    ensures Fed(h.cfg, h.At(i), h.obs[i].nowMs, h.obs[i].input) == (h.At(i + 1), h.Out(i))
  {
  }

  // -------------------------------------------------- calls open and close

  lemma {:induction false} ClockIs(h: History, n: nat)
    requires n <= |h.obs|
    ensures h.At(n).nowMs == h.Clock(n)
  {
    hide Fed;
    if n > 0 {
      Here(h, n - 1);
      StepUser(h.cfg, h.At(n - 1), h.obs[n - 1].nowMs, h.obs[n - 1].input);
    }
  }

  /** Over every input sequence: a call is open, by the transitions, exactly when the machine is in InCall or Wrap. */
  lemma {:induction false} OpenIsInCallOrWrap(h: History, n: nat)
    requires n <= |h.obs|
    ensures h.CallOpen(n) <==> Open(h.At(n).state)
  {
    hide Fed;
    if n > 0 {
      OpenIsInCallOrWrap(h, n - 1);
      StepOpens(h.cfg, h.At(n - 1), h.obs[n - 1].nowMs, h.obs[n - 1].input);
    }
  }

  /** Starts and ends strictly alternate, beginning with a start. */
  lemma StartsAndEndsAlternate(h: History, i: nat)
    requires i < |h.obs|
    ensures h.Out(i).CallStarted? ==> !h.CallOpen(i) && h.CallOpen(i + 1)
    ensures h.Out(i).CallEnded? ==> h.CallOpen(i) && !h.CallOpen(i + 1)
    ensures h.CallOpen(i) != h.CallOpen(i + 1) ==> h.Out(i).CallStarted? || h.Out(i).CallEnded?
    ensures !h.CallOpen(0)
  {
    hide Fed;
    OpenIsInCallOrWrap(h, i);
    StepOpens(h.cfg, h.At(i), h.obs[i].nowMs, h.obs[i].input);
  }

  lemma {:induction false} UserIs(h: History, n: nat)
    requires n <= |h.obs|
    ensures h.At(n).userUid == h.User(n)
  {
    hide Fed;
    if n > 0 {
      UserIs(h, n - 1);
      StepUser(h.cfg, h.At(n - 1), h.obs[n - 1].nowMs, h.obs[n - 1].input);
    }
  }

  /** While a call is open there is a start to point at. */
  lemma {:induction false} OpenSince(h: History, n: nat)
    requires n <= |h.obs| && h.CallOpen(n)
    ensures h.Last(CallStarted, n) < n && h.Out(h.Last(CallStarted, n)).CallStarted?
    ensures forall i :: h.Last(CallStarted, n) < i < n ==> !h.Out(i).CallEnded? && !h.Out(i).CallStarted?
  {
    hide Fed, History.Out;
    if !h.Out(n - 1).CallStarted? {
      OpenSince(h, n - 1);
    }
  }

  /** One record, one identity: the user does not change between a call's start and its end. */
  lemma {:induction false} OneUserPerCall(h: History, n: nat)
    requires n <= |h.obs| && h.CallOpen(n)
    ensures h.User(n) == h.User(h.Last(CallStarted, n) + 1)
  {
    hide Fed;
    if !h.Out(n - 1).CallStarted? {
      OneUserPerCall(h, n - 1);
      OpenIsInCallOrWrap(h, n);
      OpenIsInCallOrWrap(h, n - 1);
      UserIs(h, n - 1);
      UserIs(h, n);
      StepUser(h.cfg, h.At(n - 1), h.obs[n - 1].nowMs, h.obs[n - 1].input);
    }
  }

  // ------------------------------------------------------ a call is confirmed

  /** While armed, the accumulator is exactly the far-channel speech observed since the arm. */
  lemma {:induction false} ArmedSince(h: History, n: nat)
    requires n <= |h.obs| && h.At(n).state.Armed?
    ensures var a := h.Last(ArmStarted, n);
            && a < n && h.Out(a).ArmStarted?
            && (forall i :: a < i < n ==> h.Out(i).Nothing?)
            && h.At(n).armedSpeechMs == h.FarSpeech(a + 1, n)
            && h.At(n).enteredAtMs == h.Clock(a + 1)
  {
    hide Fed, History.Out;
    assert n > 0;
    Here(h, n - 1);
    StepArms(h.cfg, h.At(n - 1), h.obs[n - 1].nowMs, h.obs[n - 1].input);
    if !h.Out(n - 1).ArmStarted? {
      ArmedSince(h, n - 1);
      ClockIs(h, n - 1);
    }
  }

  /**
   A call starts out of an arm, with nothing in between, on at least the configured amount of far
   speech since that arm; and it starts at the first observation at which that much has been heard.
   */
  lemma CallNeedsSpeech(h: History, n: nat)
    requires n < |h.obs|
    ensures h.Out(n).CallStarted? ==> h.At(n).state.Armed?
    ensures h.At(n).state.Armed? ==>
              var a := h.Last(ArmStarted, n);
              && a < n && h.Out(a).ArmStarted? && (forall i :: a < i < n ==> h.Out(i).Nothing?)
              && (var input := h.obs[n].input;
                  !input.Block? && !input.Unblock? && !input.UserChanged? ==>
                    (h.Out(n).CallStarted? <==> h.FarSpeech(a + 1, n + 1) >= h.cfg.speechMsToConfirm))
  {
    hide Fed, History.Out, History.Last;
    Here(h, n);
    StepOpens(h.cfg, h.At(n), h.obs[n].nowMs, h.obs[n].input);
    if h.At(n).state.Armed? {
      StepArms(h.cfg, h.At(n), h.obs[n].nowMs, h.obs[n].input);
      ArmedSince(h, n);
      ClockIs(h, n);
    }
  }

  // ----------------------------------------------------------- a call hangs up

  lemma ClockGrows(h: History, n: nat)
    requires 0 < n <= |h.obs| && h.Monotone()
    ensures h.Clock(n - 1) <= h.Clock(n)
  {
  }

  /** The silence counter never reaches back past the last voiced observation. */
  lemma {:induction false} SilenceSinceVoice(h: History, n: nat, i: nat)
    requires n <= |h.obs| && h.Monotone() && i < n && h.Voiced(i)
    ensures h.obs[i].nowMs + h.At(n).silenceMs <= h.Clock(n)
  {
    hide Fed, History.Monotone;
    Here(h, n - 1);
    StepSilence(h.cfg, h.At(n - 1), h.obs[n - 1].nowMs, h.obs[n - 1].input);
    ClockIs(h, n - 1);
    ClockGrows(h, n);
    if i < n - 1 { SilenceSinceVoice(h, n - 1, i); }
  }

  /** Nor past the start of the call that is open. */
  lemma {:induction false} SilenceSinceStart(h: History, n: nat)
    requires n <= |h.obs| && h.Monotone() && h.CallOpen(n)
    ensures h.Clock(h.Last(CallStarted, n) + 1) + h.At(n).silenceMs <= h.Clock(n)
  {
    hide Fed, History.Monotone;
    StepSilence(h.cfg, h.At(n - 1), h.obs[n - 1].nowMs, h.obs[n - 1].input);
    StepOpens(h.cfg, h.At(n - 1), h.obs[n - 1].nowMs, h.obs[n - 1].input);
    ClockIs(h, n - 1);
    ClockGrows(h, n);
    if !h.Out(n - 1).CallStarted? { SilenceSinceStart(h, n - 1); }
  }

  /** A suspected hangup comes only after the configured silence: nobody was heard in that interval. */
  lemma WrapNeedsSilence(h: History, n: nat, i: nat)
    requires n < |h.obs| && h.Monotone() && h.Out(n).WrapStarted? && i <= n && h.Voiced(i)
    ensures h.obs[i].nowMs + h.cfg.hangupSilenceMs <= h.obs[n].nowMs
  {
    hide Fed, History.Monotone;
    StepWraps(h.cfg, h.At(n), h.obs[n].nowMs, h.obs[n].input);
    SilenceSinceVoice(h, n + 1, i);
  }

  /** The facts carried while in Wrap, relative to the suspicion at `w` and the start at `s`. */
  ghost predicate Wrapping(h: History, n: nat, s: nat, w: nat)
    requires n <= |h.obs|
  {
    && s < w < n && h.Out(w).WrapStarted?
    && h.At(n).enteredAtMs == h.Clock(w + 1) && !h.At(n).sessionActive
    && (forall i :: w < i < n ==> h.obs[i].input != SessionState(true))
    && h.Clock(s + 1) + h.cfg.hangupSilenceMs <= h.Clock(w + 1)
  }

  lemma WrapBegins(h: History, n: nat)
    requires n < |h.obs| && h.Monotone() && h.Out(n).WrapStarted?
    ensures h.Last(WrapStarted, n + 1) == n && Wrapping(h, n + 1, h.Last(CallStarted, n + 1), n)
  {
    hide Fed, History.Monotone, History.CallOpen;
    Here(h, n);
    StepOpens(h.cfg, h.At(n), h.obs[n].nowMs, h.obs[n].input);
    StepWraps(h.cfg, h.At(n), h.obs[n].nowMs, h.obs[n].input);
    OpenIsInCallOrWrap(h, n + 1);
    OpenIsInCallOrWrap(h, n);
    OpenSince(h, n + 1);
    SilenceSinceStart(h, n + 1);
  }

  lemma WrapGoesOn(h: History, n: nat, s: nat, w: nat)
    requires n < |h.obs| && Wrapping(h, n, s, w) && h.At(n).state.Wrap?
    requires h.At(n + 1).state.Wrap? && !h.Out(n).WrapStarted?
    ensures Wrapping(h, n + 1, s, w) && h.Out(n).Nothing?
  {
    hide Fed, History.Out, History.Clock;
    Here(h, n);
    StepWraps(h.cfg, h.At(n), h.obs[n].nowMs, h.obs[n].input);
    StepStaysInactive(h.cfg, h.At(n), h.obs[n].nowMs, h.obs[n].input);
  }

  /** While in Wrap: entered by a suspected hangup of this very call, with no Active session since. */
  lemma {:induction false} WrapSince(h: History, n: nat)
    requires n <= |h.obs| && h.Monotone() && h.At(n).state.Wrap?
    ensures Wrapping(h, n, h.Last(CallStarted, n), h.Last(WrapStarted, n))
  {
    hide Fed, History.Out, History.Clock, History.Monotone, Wrapping;
    assert n > 0;
    Here(h, n - 1);
    StepWraps(h.cfg, h.At(n - 1), h.obs[n - 1].nowMs, h.obs[n - 1].input);
    if h.Out(n - 1).WrapStarted? {
      WrapBegins(h, n - 1);
    } else {
      WrapSince(h, n - 1);
      WrapGoesOn(h, n - 1, h.Last(CallStarted, n - 1), h.Last(WrapStarted, n - 1));
      LastSkips(h, CallStarted, n);
      LastSkips(h, WrapStarted, n);
    }
  }

  lemma LastSkips(h: History, t: Transition, n: nat)
    requires 1 < n <= |h.obs| && h.Out(n - 1) != t
    ensures h.Last(t, n) == h.Last(t, n - 1)
  {
    hide History.Out;
  }

  /**
   A hangup end: at least the wrap time after the last suspected hangup, with no Active session seen
   in between, and that suspicion at least the hangup silence after the start. So a call that ends
   by hangup lasted at least the two together.
   */
  lemma HangupTakesItsTime(h: History, n: nat)
    requires n < |h.obs| && h.Monotone() && h.Out(n) == CallEnded(Hangup)
    ensures var s, w := h.Last(CallStarted, n), h.Last(WrapStarted, n);
            && s < w < n && h.Out(s).CallStarted? && h.Out(w).WrapStarted?
            && (forall i :: w < i <= n ==> h.obs[i].input != SessionState(true))
            && h.obs[w].nowMs + h.cfg.wrapMs <= h.obs[n].nowMs
            && h.obs[s].nowMs + h.cfg.hangupSilenceMs <= h.obs[w].nowMs
            && h.obs[s].nowMs + h.cfg.hangupSilenceMs + h.cfg.wrapMs <= h.obs[n].nowMs
  {
    hide Fed, History.Out, History.Last, History.CallOpen, History.Monotone;
    Here(h, n);
    StepHangsUp(h.cfg, h.At(n), h.obs[n].nowMs, h.obs[n].input);
    WrapSince(h, n);
    OpenIsInCallOrWrap(h, n);
    OpenSince(h, n);
    assert h.obs[h.Last(WrapStarted, n)].nowMs <= h.obs[n].nowMs by { MonotoneAt(h, h.Last(WrapStarted, n), n); }
  }

  lemma MonotoneAt(h: History, i: nat, j: nat)
    requires h.Monotone() && i < j < |h.obs|
    ensures h.obs[i].nowMs <= h.obs[j].nowMs
  {
  }

  // ------------------------------------------------------ arms and debounce

  /** The session as last announced among the first `n` observations. */
  function Session(h: History, n: nat): bool
    requires n <= |h.obs|
  {
    n > 0 && if h.obs[n - 1].input.SessionState? then h.obs[n - 1].input.active else Session(h, n - 1)
  }

  /** A user change ended a call at `u`. */
  predicate ClosedByUserChange(h: History, u: nat)
    requires u < |h.obs|
  {
    h.obs[u].input.UserChanged? && h.Out(u) == CallEnded(SignedOut)
  }

  /** A hangup came last: since then nothing but user changes and unblocks. */
  predicate JustHungUp(h: History, n: nat)
    requires n <= |h.obs|
  {
    n > 0 &&
    var f := h.Last(CallEnded(Hangup), n);
    h.Out(f) == CallEnded(Hangup) && forall i :: f < i < n ==> Passive(h.obs[i].input)
  }

  /** An arm straight after a hangup, which is the one that uses up a pending reopen. */
  predicate Reopens(h: History, i: nat)
    requires i < |h.obs|
  {
    h.Out(i).ArmStarted? && JustHungUp(h, i)
  }

  /**
   The latest user change that ended a call found the session Active, and no arm straight after
   a hangup has come since.
   */
  ghost predicate ReopenPending(h: History, n: nat)
    requires n <= |h.obs|
  {
    exists u :: 0 <= u < n && ClosedByUserChange(h, u) && Session(h, u) && NothingSince(h, u, n)
  }

  predicate NothingSince(h: History, u: nat, n: nat)
    requires n <= |h.obs|
  {
    forall i :: u < i < n ==> !ClosedByUserChange(h, i) && !Reopens(h, i)
  }

  lemma {:induction false} SessionIs(h: History, n: nat)
    requires n <= |h.obs|
    ensures h.At(n).sessionActive == Session(h, n)
  {
    hide Fed;
    if n > 0 {
      SessionIs(h, n - 1);
      StepSession(h.cfg, h.At(n - 1), h.obs[n - 1].nowMs, h.obs[n - 1].input);
    }
  }

  lemma LastPassive(h: History, n: nat)
    requires n < |h.obs| && h.Out(n) != CallEnded(Hangup)
    ensures JustHungUp(h, n + 1) <==> JustHungUp(h, n) && Passive(h.obs[n].input)
    ensures n > 0 ==> h.Last(CallEnded(Hangup), n + 1) == h.Last(CallEnded(Hangup), n)
  {
    hide History.Out;
  }

  lemma LastHere(h: History, n: nat)
    requires n < |h.obs| && h.Out(n) == CallEnded(Hangup)
    ensures JustHungUp(h, n + 1) && h.Last(CallEnded(Hangup), n + 1) == n
  {
    hide History.Out;
  }

  /** Finalizing is having just hung up; the last transition is then the hangup, on an inactive session. */
  lemma {:induction false} FinalizingIff(h: History, n: nat)
    requires n <= |h.obs|
    ensures h.At(n).state.Finalize? <==> JustHungUp(h, n)
    ensures JustHungUp(h, n) ==>
              h.At(n).lastTransitionMs == h.obs[h.Last(CallEnded(Hangup), n)].nowMs && !h.At(n).sessionActive
  {
    hide Fed, JustHungUp, History.Out, History.Last, Passive;
    if n == 0 {
      NeverHungUp(h);
    } else {
      FinalizingIff(h, n - 1);
      Here(h, n - 1);
      StepFinalizes(h.cfg, h.At(n - 1), h.obs[n - 1].nowMs, h.obs[n - 1].input);
      if h.Out(n - 1) == CallEnded(Hangup) {
        LastHere(h, n - 1);
      } else {
        LastPassive(h, n - 1);
        NeverHungUp(h);
      }
    }
  }

  lemma NeverHungUp(h: History)
    ensures !JustHungUp(h, 0)
  {
  }

  lemma PendingNext(h: History, n: nat)
    requires n < |h.obs|
    ensures ReopenPending(h, n + 1) <==>
            if ClosedByUserChange(h, n) then Session(h, n) else ReopenPending(h, n) && !Reopens(h, n)
  {
    hide ClosedByUserChange, Reopens, Session;
    if ClosedByUserChange(h, n) {
      assert Session(h, n) ==> NothingSince(h, n, n + 1);
    }
    if u :| 0 <= u < n + 1 && ClosedByUserChange(h, u) && Session(h, u) && NothingSince(h, u, n + 1) {
      assert u < n ==> NothingSince(h, u, n) && !ClosedByUserChange(h, n) && !Reopens(h, n);
    }
    if u :| 0 <= u < n && ClosedByUserChange(h, u) && Session(h, u) && NothingSince(h, u, n) {
      assert !ClosedByUserChange(h, n) && !Reopens(h, n) ==> NothingSince(h, u, n + 1);
    }
  }

  /** The reopen flag, read off the history: exactly when a reopen is pending. */
  lemma {:induction false} ReopenIff(h: History, n: nat)
    requires n <= |h.obs|
    ensures h.At(n).reopenAfterEnd <==> ReopenPending(h, n)
  {
    hide Fed, ReopenPending, JustHungUp;
    if n == 0 {
      assert !ReopenPending(h, 0) by { NothingPending(h); }
    } else {
      ReopenIff(h, n - 1);
      Here(h, n - 1);
      StepReopens(h.cfg, h.At(n - 1), h.obs[n - 1].nowMs, h.obs[n - 1].input);
      FinalizingIff(h, n - 1);
      SessionIs(h, n - 1);
      PendingNext(h, n - 1);
    }
  }

  lemma NothingPending(h: History)
    ensures !ReopenPending(h, 0)
  {
  }

  /**
   An arm comes sooner than the debounce after the last transition if and only if: a hangup came
   last, a reopen is pending, and the observation is the session going Active less than the
   debounce after that hangup. Every other arm waits.
   */
  lemma ArmIsRushedIff(h: History, n: nat)
    requires n < |h.obs|
    ensures h.Out(n).ArmStarted? && SatSub(h.obs[n].nowMs, h.At(n).lastTransitionMs) < h.cfg.debounceMs <==>
            && JustHungUp(h, n) && ReopenPending(h, n) && h.obs[n].input == SessionState(true)
            && SatSub(h.obs[n].nowMs, h.obs[h.Last(CallEnded(Hangup), n)].nowMs) < h.cfg.debounceMs
  {
    hide Fed, ReopenPending, JustHungUp, History.Last;
    Here(h, n);
    FinalizingIff(h, n);
    ReopenIff(h, n);
    StepRushes(h.cfg, h.At(n), h.obs[n].nowMs, h.obs[n].input);
  }

  /** In particular every arm waits in a history in which no user change ever closed a call on an Active session. */
  lemma ArmIsDebounced(h: History, n: nat)
    requires n < |h.obs| && h.Out(n).ArmStarted?
    requires forall u :: 0 <= u < n ==> !(ClosedByUserChange(h, u) && Session(h, u))
    ensures SatSub(h.obs[n].nowMs, h.At(n).lastTransitionMs) >= h.cfg.debounceMs
  {
    hide Fed, JustHungUp, History.Last, History.Out, ClosedByUserChange, Session, NothingSince;
    ArmIsRushedIff(h, n);
  }

  lemma {:induction false} Extend(h: History, o: Obs, n: nat)
    requires n <= |h.obs|
    ensures h.(obs := h.obs + [o]).At(n) == h.At(n)
  {
    hide Fed;
    if n > 0 {
      Extend(h, o, n - 1);
      assert (h.obs + [o])[n - 1] == h.obs[n - 1];
    }
  }

  /** One more observation at the end of a history. */
  lemma Then(h: History, o: Obs) returns (more: History)
    ensures more == h.(obs := h.obs + [o]) && |more.obs| == |h.obs| + 1 && more.obs[|h.obs|] == o
    ensures more.At(|h.obs|) == h.At(|h.obs|)
    ensures (more.At(|h.obs| + 1), more.Out(|h.obs|)) == Fed(h.cfg, h.At(|h.obs|), o.nowMs, o.input)
  {
    hide Fed;
    more := h.(obs := h.obs + [o]);
    Extend(h, o, |h.obs|);
  }

  const QUICK := VadConfig(1, 100, 1, 1, 5)

  const READY := Det(Idle, 0, 0, 0, false, 0, 0, None, Some("a"), false, false)
  const ARMED := Det(Armed, 5, 5, 5, true, 0, 0, None, Some("a"), false, false)
  const TALKING := Det(InCall, 6, 6, 6, true, 1, 0, None, Some("a"), false, false)
  const REPLACED := Det(Idle, 6, 6, 6, true, 1, 0, None, Some("b"), true, false)
  const REARMED := Det(Armed, 11, 11, 11, true, 0, 5, None, Some("b"), true, false)
  const AGAIN := Det(InCall, 12, 12, 12, true, 1, 0, None, Some("b"), true, false)
  const QUIET := Det(InCall, 12, 12, 12, false, 1, 0, None, Some("b"), true, false)
  const WRAPPING := Det(Wrap, 17, 17, 17, false, 1, 5, None, Some("b"), true, false)
  const OVER := Det(Finalize, 18, 18, 18, false, 1, 6, None, Some("b"), true, false)

  // The run, observation by observation: a call, another user, a second call.

  lemma SignsIn()
    ensures Fed(QUICK, Fed(QUICK, NEW, 0, UserChanged("a")).0, 0, Unblock).0 == READY
  {
  }

  lemma CallsOnce()
    ensures Fed(QUICK, READY, 5, SessionState(true)) == (ARMED, ArmStarted)
    ensures Fed(QUICK, ARMED, 6, FarVoice(true)) == (TALKING, CallStarted)
  {
    assert Evaluated(QUICK, READY.(nowMs := 5, sessionActive := true)) == (ARMED, ArmStarted);
    assert Evaluated(QUICK, ARMED.(nowMs := 6, armedSpeechMs := 1)) == (TALKING, CallStarted);
  }

  lemma CallsAgain()
    ensures Fed(QUICK, TALKING, 6, UserChanged("b")).0 == REPLACED
    ensures Fed(QUICK, REPLACED, 11, Tick).0 == REARMED
    ensures Fed(QUICK, REARMED, 12, FarVoice(true)).0 == AGAIN
  {
    assert Evaluated(QUICK, REPLACED.(nowMs := 11, silenceMs := 5)) == (REARMED, ArmStarted);
    assert Evaluated(QUICK, REARMED.(nowMs := 12, armedSpeechMs := 1, silenceMs := 0)) == (AGAIN, CallStarted);
  }

  /** The second call hangs up, and the session flaps at once. */
  lemma HangsUpAndFlaps()
    ensures Fed(QUICK, AGAIN, 12, SessionState(false)).0 == QUIET
    ensures Fed(QUICK, QUIET, 17, Tick).0 == WRAPPING
    ensures Fed(QUICK, WRAPPING, 18, Tick).0 == OVER
    ensures Fed(QUICK, OVER, 18, SessionState(true)).1.ArmStarted?
  {
    assert Evaluated(QUICK, QUIET) == (QUIET, Nothing);
    assert Evaluated(QUICK, QUIET.(nowMs := 17, silenceMs := 5)) == (WRAPPING, WrapStarted);
    assert Evaluated(QUICK, WRAPPING.(nowMs := 18, silenceMs := 6)) == (OVER, CallEnded(Hangup));
  }

  lemma FirstCalls() returns (h: History)
    ensures h.cfg == QUICK && |h.obs| == 7 && h.At(7) == AGAIN
  {
    hide Fed;
    SignsIn();
    CallsOnce();
    CallsAgain();
    h := History(QUICK, []);
    h := Then(h, Obs(0, UserChanged("a")));
    h := Then(h, Obs(0, Unblock));
    h := Then(h, Obs(5, SessionState(true)));
    h := Then(h, Obs(6, FarVoice(true)));
    h := Then(h, Obs(6, UserChanged("b")));
    h := Then(h, Obs(11, Tick));
    h := Then(h, Obs(12, FarVoice(true)));
  }

  /** A sign-out mid-call, then a second call that hangs up, then the session flaps: armed at once. */
  lemma StaleReopenSkipsDebounce() returns (h: History)
    ensures |h.obs| == 11 && h.Out(10).ArmStarted? && h.obs[10].nowMs == h.At(10).lastTransitionMs && h.cfg.debounceMs == 5
  {
    hide Fed;
    HangsUpAndFlaps();
    h := FirstCalls();
    h := Then(h, Obs(12, SessionState(false)));
    h := Then(h, Obs(17, Tick));
    h := Then(h, Obs(18, Tick));
    h := Then(h, Obs(18, SessionState(true)));
  }
}
