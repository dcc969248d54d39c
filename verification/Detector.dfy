/**
 The call-detection state machine (client/sentinel-core/src/state.rs).
 */
module Detector {
  import opened Prelude
  import opened Media

  datatype VadConfig = VadConfig(speechMsToConfirm: nat, armedTimeoutMs: nat, hangupSilenceMs: nat, wrapMs: nat, debounceMs: nat)

  datatype CallState = Idle | Armed | InCall | Wrap | Finalize | Blocked

  datatype BlockReason = NoUser | PinnedDeviceMissing | OfflineGraceExpired | DeviceRevoked | ServiceStop

  datatype Input =
    | SessionState(active: bool)
    | FarVoice(voiced: bool)
    | NearVoice(voiced: bool)
    | Tick
    | Block(reason: BlockReason)
    | Unblock
    | UserChanged(userUid: string)

  datatype Transition =
    | Nothing
    | ArmStarted
    | CallStarted
    | WrapStarted
    | CallEnded(reason: EndReason)
    | ArmDiscarded
    | CaptureBlocked(why: BlockReason)
    | Unblocked

  /** The machine's fields. */
  datatype Det = Det(state: CallState, enteredAtMs: nat, nowMs: nat, lastTransitionMs: nat, sessionActive: bool,
                     armedSpeechMs: nat, silenceMs: nat, blockReason: Option<BlockReason>, userUid: Option<string>,
                     reopenAfterEnd: bool, armExhausted: bool)

  const NEW := Det(Blocked, 0, 0, 0, false, 0, 0, Some(NoUser), None, false, false)

  /** A call is open. */
  predicate Open(s: CallState) { s.InCall? || s.Wrap? }

  function EndReasonFor(reason: BlockReason): EndReason
  {
    match reason
    case NoUser => SignedOut
    case PinnedDeviceMissing => DeviceLost
    case OfflineGraceExpired => Failure
    case DeviceRevoked => Revoked
    case ServiceStop => Shutdown
  }

  function Goto(d: Det, next: CallState): Det { d.(state := next, enteredAtMs := d.nowMs, lastTransitionMs := d.nowMs) }

  predicate Debounced(cfg: VadConfig, d: Det) { SatSub(d.nowMs, d.lastTransitionMs) >= cfg.debounceMs }

  function TimeInState(d: Det): nat { SatSub(d.nowMs, d.enteredAtMs) }

  function Evaluated(cfg: VadConfig, d: Det): (Det, Transition)
  {
    match d.state
    case Blocked => (d, Nothing)
    case Idle =>
      if d.sessionActive && !d.armExhausted && Debounced(cfg, d) then (Goto(d.(armedSpeechMs := 0), Armed), ArmStarted)
      else (d, Nothing)
    case Armed =>
      if d.armedSpeechMs >= cfg.speechMsToConfirm then (Goto(d.(silenceMs := 0), InCall), CallStarted)
      else if !d.sessionActive && Debounced(cfg, d) then (Goto(d, Idle), ArmDiscarded)
      else if TimeInState(d) >= cfg.armedTimeoutMs then (Goto(d.(armExhausted := true), Idle), ArmDiscarded)
      else (d, Nothing)
    case InCall =>
      if !d.sessionActive && d.silenceMs >= cfg.hangupSilenceMs && Debounced(cfg, d) then (Goto(d, Wrap), WrapStarted)
      else (d, Nothing)
    case Wrap =>
      if d.sessionActive then (Goto(d.(silenceMs := 0), InCall), Nothing)
      else if TimeInState(d) >= cfg.wrapMs then (Goto(d, Finalize), CallEnded(Hangup))
      else (d, Nothing)
    case Finalize =>
      if d.reopenAfterEnd && d.sessionActive then
        (Goto(d.(reopenAfterEnd := false, armExhausted := false, armedSpeechMs := 0), Armed), ArmStarted)
      else (Goto(d, Idle), Nothing)
  }

  function BlockEntered(d: Det, reason: BlockReason): (Det, Transition)
  {
    (Goto(d.(blockReason := Some(reason)), Blocked),
     if Open(d.state) then CallEnded(EndReasonFor(reason)) else CaptureBlocked(reason))
  }

  function BlockLifted(d: Det): (Det, Transition)
  {
    if d.state == Blocked then (Goto(d.(blockReason := None), Idle), Unblocked) else (d, Nothing)
  }

  /** Another user ends an open call, to be reopened under the new name if the session is still Active. */
  function UserReplaced(d: Det, uid: string): (Det, Transition)
  {
    var e := d.(userUid := Some(uid));
    if d.userUid != Some(uid) && Open(d.state) then
      (Goto(e.(reopenAfterEnd := d.sessionActive, armExhausted := false), Idle), CallEnded(SignedOut))
    else (e, Nothing)
  }

  /** The accumulators after an observation of the session, of voice or of time passing. */
  function Observed(d: Det, input: Input, elapsed: nat): Det
  {
    if input.SessionState? then d.(sessionActive := input.active, armExhausted := input.active && d.armExhausted)
    else if input == FarVoice(true) then d.(armedSpeechMs := d.armedSpeechMs + elapsed, silenceMs := 0)
    else if input == NearVoice(true) then d.(silenceMs := 0)
    else d.(silenceMs := d.silenceMs + elapsed)
  }

  /** One observation: the new machine and what the caller must do. */
  function Fed(cfg: VadConfig, d0: Det, nowMs: nat, input: Input): (Det, Transition)
  {
    var d := d0.(nowMs := nowMs);
    match input
    case Block(reason) => BlockEntered(d, reason)
    case Unblock => BlockLifted(d)
    case UserChanged(uid) => UserReplaced(d, uid)
    case _ => Evaluated(cfg, Observed(d, input, SatSub(nowMs, d0.nowMs)))
  }

  class Detector {
    const cfg: VadConfig
    var state: CallState
    var enteredAtMs: nat
    var nowMs: nat
    var lastTransitionMs: nat
    var sessionActive: bool
    var armedSpeechMs: nat
    var silenceMs: nat
    var blockReason: Option<BlockReason>
    var userUid: Option<string>
    var reopenAfterEnd: bool
    var armExhausted: bool

    function State(): Det
      reads this
    {
      Det(state, enteredAtMs, nowMs, lastTransitionMs, sessionActive, armedSpeechMs, silenceMs, blockReason, userUid,
          reopenAfterEnd, armExhausted)
    }

    constructor (cfg: VadConfig)
      ensures this.cfg == cfg && State() == NEW
    {
      this.cfg := cfg;
      state, enteredAtMs, nowMs, lastTransitionMs := Blocked, 0, 0, 0;
      sessionActive, armedSpeechMs, silenceMs := false, 0, 0;
      blockReason, userUid, reopenAfterEnd, armExhausted := Some(NoUser), None, false, false;
    }

    /** Advance the clock and take one observation. */
    method Feed(now: nat, input: Input) returns (t: Transition)
      modifies this
      ensures (State(), t) == Fed(cfg, old(State()), now, input)
    {
      hide Evaluated, BlockEntered, BlockLifted, UserReplaced, Observed;
      var elapsed := SatSub(now, nowMs);
      nowMs := now;
      match input {
        case Block(reason) =>
          t := EnterBlocked(reason);
        case Unblock =>
          t := LiftBlock();
        case UserChanged(uid) =>
          t := ReplaceUser(uid);
        case _ =>
          Observe(input, elapsed);
          t := Evaluate();
      }
    }

    method LiftBlock() returns (t: Transition)
      modifies this
      ensures (State(), t) == BlockLifted(old(State()))
    {
      if state == Blocked {
        blockReason := None;
        t := Enter(Idle, Unblocked);
      } else {
        t := Nothing;
      }
    }

    method ReplaceUser(uid: string) returns (t: Transition)
      modifies this
      ensures (State(), t) == UserReplaced(old(State()), uid)
    {
      var changed := userUid != Some(uid);
      userUid := Some(uid);
      if changed && (state == InCall || state == Wrap) {
        reopenAfterEnd := sessionActive;
        armExhausted := false;
        t := Enter(Idle, CallEnded(SignedOut));
      } else {
        t := Nothing;
      }
    }

    /** The session, a voice decision or the passing of time. */
    method Observe(input: Input, elapsed: nat)
      modifies this
      ensures State() == Observed(old(State()), input, elapsed)
    {
      match input {
        case SessionState(active) =>
          if !active { armExhausted := false; }
          sessionActive := active;
        case FarVoice(voiced) =>
          if voiced {
            armedSpeechMs := armedSpeechMs + elapsed;
            silenceMs := 0;
          } else {
            silenceMs := silenceMs + elapsed;
          }
        case NearVoice(voiced) =>
          if voiced { silenceMs := 0; } else { silenceMs := silenceMs + elapsed; }
        case _ =>
          silenceMs := silenceMs + elapsed;
      }
    }

    method Evaluate() returns (t: Transition)
      modifies this
      ensures (State(), t) == Evaluated(cfg, old(State()))
    {
      match state {
        case Blocked => t := Nothing;
        case Idle =>
          if sessionActive && !armExhausted && Debounced(cfg, State()) {
            armedSpeechMs := 0;
            t := Enter(Armed, ArmStarted);
          } else {
            t := Nothing;
          }
        case Armed =>
          if armedSpeechMs >= cfg.speechMsToConfirm {
            silenceMs := 0;
            t := Enter(InCall, CallStarted);
          } else if !sessionActive && Debounced(cfg, State()) {
            t := Enter(Idle, ArmDiscarded);
          } else if TimeInState(State()) >= cfg.armedTimeoutMs {
            armExhausted := true;
            t := Enter(Idle, ArmDiscarded);
          } else {
            t := Nothing;
          }
        case InCall =>
          if !sessionActive && silenceMs >= cfg.hangupSilenceMs && Debounced(cfg, State()) {
            t := Enter(Wrap, WrapStarted);
          } else {
            t := Nothing;
          }
        case Wrap =>
          if sessionActive {
            silenceMs := 0;
            t := Enter(InCall, Nothing);
          } else if TimeInState(State()) >= cfg.wrapMs {
            t := Enter(Finalize, CallEnded(Hangup));
          } else {
            t := Nothing;
          }
        case Finalize =>
          if reopenAfterEnd && sessionActive {
            reopenAfterEnd, armExhausted, armedSpeechMs := false, false, 0;
            t := Enter(Armed, ArmStarted);
          } else {
            t := Enter(Idle, Nothing);
          }
      }
    }

    method EnterBlocked(reason: BlockReason) returns (t: Transition)
      modifies this
      ensures (State(), t) == BlockEntered(old(State()), reason)
    {
      var wasInCall := state == InCall || state == Wrap;
      blockReason := Some(reason);
      state, enteredAtMs, lastTransitionMs := Blocked, nowMs, nowMs;
      t := if wasInCall then CallEnded(EndReasonFor(reason)) else CaptureBlocked(reason);
    }

    method Enter(next: CallState, why: Transition) returns (t: Transition)
      modifies this`state, this`enteredAtMs, this`lastTransitionMs
      ensures State() == Goto(old(State()), next) && t == why
    {
      state, enteredAtMs, lastTransitionMs := next, nowMs, nowMs;
      t := why;
    }
  }
}
