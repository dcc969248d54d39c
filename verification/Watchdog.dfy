/**
 The agent watchdog: relaunch policy (client/sentinel-service/src/supervisor.rs,
 client/sentinel-core/src/backoff.rs) and the service loop that drives it
 (client/sentinel-service/src/main.rs). Clock readings are milliseconds.
 */
module Watchdog {
  import opened Prelude

  const HEALTHY_RUN_MS := 120_000
  const COUNTER_RESET_MS := 86_400_000
  const CAP_MS := 60_000

  // ----------------------------------------------------------------- backoff

  function Pow2(n: nat): (r: nat)
    ensures r > 0
  {
    if n == 0 then 1 else 2 * Pow2(n - 1)
  }

  /** The delay before the next relaunch, after `attempt` earlier ones. */
  function CeilingMs(attempt: nat): nat { Min(1000 * Pow2(Min(attempt, 20)), CAP_MS) }

  lemma {:induction false} Pow2Grows(a: nat, b: nat)
    requires a <= b
    ensures Pow2(a) <= Pow2(b)
  {
    if a < b {
      Pow2Grows(a, b - 1);
    }
  }

  lemma SmallPowers()
    ensures Pow2(0) == 1 && Pow2(1) == 2 && Pow2(2) == 4 && Pow2(3) == 8 && Pow2(4) == 16 && Pow2(5) == 32 && Pow2(6) == 64
  {
    assert Pow2(3) == 2 * Pow2(2);
    assert Pow2(4) == 2 * Pow2(3);
    assert Pow2(5) == 2 * Pow2(4);
    assert Pow2(6) == 2 * Pow2(5);
  }

  /** 1, 2, 4, 8, 16, 32 seconds, then a minute for ever. */
  lemma CeilingIs(attempt: nat)
    ensures CeilingMs(attempt) == if attempt < 6 then 1000 * Pow2(attempt) else CAP_MS
  {
    hide Pow2;
    SmallPowers();
    if attempt < 6 {
      Pow2Grows(attempt, 5);
    } else {
      Pow2Grows(6, Min(attempt, 20));
    }
  }

  lemma CeilingGrows(a: nat, b: nat)
    requires Min(b, 6) <= a
    ensures CeilingMs(b) <= CeilingMs(a)
  {
    hide CeilingMs, Pow2;
    CeilingIs(a);
    CeilingIs(b);
    SmallPowers();
    if a < 6 {
      Pow2Grows(b, a);
    } else if b < 6 {
      Pow2Grows(b, 5);
    }
  }

  /** The delays before the first `n` relaunches, added up. */
  function WaitedMs(n: nat): nat { if n == 0 then 0 else WaitedMs(n - 1) + CeilingMs(n - 1) }

  lemma {:induction false} WaitedIs(n: nat)
    requires n >= 6
    ensures WaitedMs(n) == 63_000 + 60_000 * (n - 6)
  {
    hide CeilingMs, Pow2;
    CeilingIs(n - 1);
    if n > 6 {
      WaitedIs(n - 1);
    } else {
      FirstSix();
    }
  }

  lemma FirstSix()
    ensures WaitedMs(6) == 63_000
  {
    hide CeilingMs, Pow2;
    SmallPowers();
    CeilingIs(0);
    CeilingIs(1);
    CeilingIs(2);
    CeilingIs(3);
    CeilingIs(4);
    CeilingIs(5);
    assert WaitedMs(1) == 1000;
    assert WaitedMs(2) == 3000;
    assert WaitedMs(3) == 7000;
    assert WaitedMs(4) == 15_000;
    assert WaitedMs(5) == 31_000;
  }

  // -------------------------------------------------------------- one session

  datatype Slot = Slot(running: bool, nextAttemptMs: nat, attempt: nat, startedMs: Option<nat>)

  type Sessions = map<nat, Slot>

  function LoggedOn(ss: Sessions, s: nat, now: nat): Sessions
  {
    if s in ss then ss else ss[s := Slot(false, now, 0, None)]
  }

  function SlotLaunched(slot: Slot, now: nat): Slot { slot.(running := true, startedMs := Some(now)) }

  function Launched(ss: Sessions, s: nat, now: nat): Sessions
  {
    if s in ss then ss[s := SlotLaunched(ss[s], now)] else ss
  }

  function LifetimeMs(slot: Slot, now: nat): nat
  {
    SatSub(now, if slot.startedMs.Some? then slot.startedMs.value else now)
  }

  function SlotExited(slot: Slot, now: nat, expected: bool): Slot
  {
    if expected then Slot(false, now, slot.attempt, None)
    else
      var attempt := if LifetimeMs(slot, now) >= HEALTHY_RUN_MS then 0 else slot.attempt;
      Slot(false, now + CeilingMs(attempt), Min(attempt + 1, U32_MAX), None)
  }

  function Exited(ss: Sessions, s: nat, now: nat, expected: bool): Sessions
  {
    if s in ss then ss[s := SlotExited(ss[s], now, expected)] else ss
  }

  // ------------------------------------------------------------------- polling

  datatype Action = Launch(session: nat) | Idle(nextDeadlineMs: Option<nat>)

  predicate Waiting(ss: Sessions, s: nat) { s in ss && !ss[s].running }

  predicate Due(ss: Sessions, s: nat, now: nat) { Waiting(ss, s) && now >= ss[s].nextAttemptMs }

  /** The lowest session that is due, or else the earliest deadline among those waiting. */
  ghost predicate Decides(ss: Sessions, now: nat, a: Action)
  {
    match a
    case Launch(s) => Due(ss, s, now) && forall u :: Due(ss, u, now) ==> s <= u
    case Idle(None) => forall u :: !Waiting(ss, u)
    case Idle(Some(d)) =>
      && (forall u :: !Due(ss, u, now))
      && (exists s :: Waiting(ss, s) && ss[s].nextAttemptMs == d)
      && (forall u :: Waiting(ss, u) ==> d <= ss[u].nextAttemptMs)
  }

  lemma LowestSession(ids: set<nat>) returns (s: nat)
    requires ids != {}
    ensures s in ids && forall u :: u in ids ==> s <= u
  {
    s := LeastOf(ids, (a: nat, b: nat) => a < b);
  }

  /** An answer to a poll is the only one. */
  lemma DecidesOnce(ss: Sessions, now: nat, a: Action, b: Action)
    requires Decides(ss, now, a) && Decides(ss, now, b)
    ensures a == b
  {
  }

  class Supervisor {
    var sessions: Sessions
    var restarts: nat
    var counterEpochMs: nat

    constructor (now: nat)
      ensures sessions == map[] && restarts == 0 && counterEpochMs == now
    {
      sessions, restarts, counterEpochMs := map[], 0, now;
    }

    method OnLogon(s: nat, now: nat)
      modifies this`sessions
      ensures sessions == LoggedOn(old(sessions), s, now)
    {
      if s !in sessions {
        sessions := sessions[s := Slot(false, now, 0, None)];
      }
    }

    method OnLogoff(s: nat)
      modifies this`sessions
      ensures sessions == old(sessions) - {s}
    {
      sessions := sessions - {s};
    }

    method OnLaunched(s: nat, now: nat)
      modifies this`sessions
      ensures sessions == Launched(old(sessions), s, now)
    {
      if s in sessions {
        sessions := sessions[s := sessions[s].(running := true, startedMs := Some(now))];
      }
    }

    method OnExited(s: nat, now: nat, expected: bool)
      modifies this`sessions, this`restarts
      ensures sessions == Exited(old(sessions), s, now, expected)
      ensures restarts == if s in old(sessions) && !expected then Min(old(restarts) + 1, U32_MAX) else old(restarts)
    {
      if s !in sessions {
        return;
      }
      var slot := sessions[s].(running := false);
      var lifetime := SatSub(now, if slot.startedMs.Some? then slot.startedMs.value else now);
      slot := slot.(startedMs := None);
      if expected {
        sessions := sessions[s := slot.(nextAttemptMs := now)];
        return;
      }
      if lifetime >= HEALTHY_RUN_MS {
        slot := slot.(attempt := 0);
      }
      var delay := CeilingMs(slot.attempt);
      slot := slot.(attempt := Min(slot.attempt + 1, U32_MAX));
      slot := slot.(nextAttemptMs := now + delay);
      sessions := sessions[s := slot];
      restarts := Min(restarts + 1, U32_MAX);
    }

    /** Reset the daily counter if it is time, then go through the sessions in order. */
    method Poll(now: nat) returns (a: Action)
      modifies this`restarts, this`counterEpochMs
      ensures Decides(sessions, now, a)
      ensures if SatSub(now, old(counterEpochMs)) >= 24 * 3_600_000 then restarts == 0 && counterEpochMs == now
              else restarts == old(restarts) && counterEpochMs == old(counterEpochMs)
    {
      if SatSub(now, counterEpochMs) >= COUNTER_RESET_MS {
        restarts, counterEpochMs := 0, now;
      }
      a := Scan(sessions, now);
    }
  }

  /** The loop over the sessions, lowest first. */
  method Scan(ss: Sessions, now: nat) returns (a: Action)
    ensures Decides(ss, now, a)
  {
    hide Due, Waiting;
    var left, next: Option<nat> := ss.Keys, None;
    while left != {}
      invariant left <= ss.Keys && Scanned(ss, ss.Keys - left, now, next) && Before(ss.Keys - left, left)
      decreases |left|
    {
      ghost var _ := LowestSession(left);
      var s :| s in left && forall u :: u in left ==> s <= u;
      TakeLeast(ss.Keys, left, s);
      var slot := ss[s];
      if slot.running {
        ScanRunning(ss, ss.Keys - left, now, next, s);
      } else if now >= slot.nextAttemptMs {
        ScanDue(ss, left, now, next, s);
        return Launch(s);
      } else {
        ScanWaiting(ss, ss.Keys - left, now, next, s);
        next := Some(if next.Some? then Min(next.value, slot.nextAttemptMs) else slot.nextAttemptMs);
      }
      left := left - {s};
    }
    ScanEnds(ss, now, next);
    a := Idle(next);
  }

  ghost predicate Before(a: set<nat>, b: set<nat>) { forall u, v :: u in a && v in b ==> u < v }

  lemma TakeLeast(all: set<nat>, left: set<nat>, s: nat)
    requires left <= all && s in left && Before(all - left, left) && forall u :: u in left ==> s <= u
    ensures all - (left - {s}) == (all - left) + {s} && Before(all - (left - {s}), left - {s})
  {
  }

  lemma ScanRunning(ss: Sessions, ids: set<nat>, now: nat, next: Option<nat>, s: nat)
    requires Scanned(ss, ids, now, next) && s in ss && ss[s].running
    ensures Scanned(ss, ids + {s}, now, next)
  {
  }

  lemma ScanWaiting(ss: Sessions, ids: set<nat>, now: nat, next: Option<nat>, s: nat)
    requires Scanned(ss, ids, now, next) && s in ss && !ss[s].running && now < ss[s].nextAttemptMs
    ensures var d := ss[s].nextAttemptMs; Scanned(ss, ids + {s}, now, Some(if next.Some? then Min(next.value, d) else d))
  {
    var d := ss[s].nextAttemptMs;
    assert Waiting(ss, s) && s in ids + {s};
    if next.Some? && next.value <= d {
      var u :| u in ids && Waiting(ss, u) && ss[u].nextAttemptMs == next.value;
      assert u in ids + {s};
    }
  }

  lemma ScanDue(ss: Sessions, left: set<nat>, now: nat, next: Option<nat>, s: nat)
    requires left <= ss.Keys && Scanned(ss, ss.Keys - left, now, next)
    requires s in left && (forall u :: u in left ==> s <= u) && !ss[s].running && now >= ss[s].nextAttemptMs
    ensures Decides(ss, now, Launch(s))
  {
    forall u | Due(ss, u, now) ensures s <= u {
      assert u in left;
    }
  }

  lemma ScanEnds(ss: Sessions, now: nat, next: Option<nat>)
    requires Scanned(ss, ss.Keys - {}, now, next)
    ensures Decides(ss, now, Idle(next))
  {
    assert ss.Keys - {} == ss.Keys;
  }

  /** None of these sessions is due, and `next` is the earliest deadline among those waiting. */
  ghost predicate Scanned(ss: Sessions, ids: set<nat>, now: nat, next: Option<nat>)
  {
    && (forall u :: u in ids ==> !Due(ss, u, now))
    && (next.None? ==> forall u :: u in ids ==> !Waiting(ss, u))
    && (next.Some? ==>
          && (exists s :: s in ids && Waiting(ss, s) && ss[s].nextAttemptMs == next.value)
          && (forall u :: u in ids && Waiting(ss, u) ==> next.value <= ss[u].nextAttemptMs))
  }

  /**
   A deadline is exact: with nothing happening, every poll before it idles until the same
   deadline, and every poll from it on launches. With no deadline there is never anything to do.
   */
  lemma DeadlineIsExact(ss: Sessions, now: nat, a: Action, t: nat, b: Action)
    requires Decides(ss, now, a) && a.Idle? && now <= t && Decides(ss, t, b)
    ensures a.nextDeadlineMs.None? ==> b == a
    ensures a.nextDeadlineMs.Some? ==> now < a.nextDeadlineMs.value
    ensures a.nextDeadlineMs.Some? && t < a.nextDeadlineMs.value ==> b == a
    ensures a.nextDeadlineMs.Some? && t >= a.nextDeadlineMs.value ==> b.Launch?
  {
    if a.nextDeadlineMs.Some? {
      var d := a.nextDeadlineMs.value;
      var s :| Waiting(ss, s) && ss[s].nextAttemptMs == d;
      assert !Due(ss, s, now);
      if t < d {
        assert Decides(ss, t, a);
        DecidesOnce(ss, t, a, b);
      } else {
        assert Due(ss, s, t);
      }
    } else {
      assert Decides(ss, t, a);
      DecidesOnce(ss, t, a, b);
    }
  }

  // ---------------------------------------------------------- the service loop

  /** The supervisor's sessions, the process table, and the clock. */
  datatype Service = Service(sessions: Sessions, processes: set<nat>, clockMs: nat)

  /**
   What a pass of the loop does, in any order and any number: reap an agent found dead, poll
   and launch (which may fail), hear of a logon or a logoff. Each reads the clock.
   */
  datatype Event =
    | Reap(session: nat, now: nat, stopping: bool)
    | Turn(now: nat, action: Action, ok: bool, at: nat, failedAt: nat)
    | Logon(session: nat, now: nat)
    | Logoff(session: nat, now: nat)

  ghost predicate Legal(v: Service, e: Event)
  {
    && v.clockMs <= e.now
    && match e
       case Reap(s, now, _) => s in v.processes
       case Turn(now, a, _, at, failedAt) => Decides(v.sessions, now, a) && now <= at <= failedAt
       case _ => true
  }

  function Next(v: Service, e: Event): Service
  {
    match e
    case Reap(s, now, stopping) => Service(Exited(v.sessions, s, now, stopping), v.processes - {s}, now)
    case Turn(now, Idle(_), _, _, _) => v.(clockMs := now)
    case Turn(now, Launch(s), ok, at, failedAt) =>
      if ok then Service(Launched(v.sessions, s, at), v.processes + {s}, at)
      else Service(Exited(Launched(v.sessions, s, at), s, failedAt, false), v.processes, failedAt)
    case Logon(s, now) => v.(sessions := LoggedOn(v.sessions, s, now), clockMs := now)
    case Logoff(s, now) => Service(v.sessions - {s}, v.processes - {s}, now)
  }

  const START := Service(map[], {}, 0)

  function After(evs: seq<Event>): Service
  {
    if evs == [] then START else Next(After(evs[..|evs| - 1]), evs[|evs| - 1])
  }

  ghost predicate AllLegal(evs: seq<Event>) { forall i :: 0 <= i < |evs| ==> Legal(After(evs[..i]), evs[i]) }

  lemma LegalPrefix(evs: seq<Event>)
    requires evs != [] && AllLegal(evs)
    ensures AllLegal(evs[..|evs| - 1]) && Legal(After(evs[..|evs| - 1]), evs[|evs| - 1])
  {
    hide Legal, After;
    var init := evs[..|evs| - 1];
    forall i | 0 <= i < |init| ensures Legal(After(init[..i]), init[i]) {
      assert init[..i] == evs[..i];
    }
  }

  /** A session runs exactly when it has a process, and started no later than now. */
  ghost predicate InStep(v: Service)
  {
    && (forall s :: s in v.processes <==> s in v.sessions && v.sessions[s].running)
    && (forall s :: s in v.sessions ==> SlotOk(v.sessions[s], v.clockMs))
  }

  predicate SlotOk(slot: Slot, now: nat)
  {
    if slot.running then slot.startedMs.Some? && slot.startedMs.value <= now else slot.startedMs.None?
  }

  lemma NextInStep(v: Service, e: Event)
    requires InStep(v) && Legal(v, e)
    ensures InStep(Next(v, e))
  {
    hide CeilingMs;
  }

  lemma {:induction false} AlwaysInStep(evs: seq<Event>)
    requires AllLegal(evs)
    ensures InStep(After(evs))
  {
    hide InStep, Legal, AllLegal, Next;
    if evs == [] {
      StartInStep();
    } else {
      LegalPrefix(evs);
      AlwaysInStep(evs[..|evs| - 1]);
      NextInStep(After(evs[..|evs| - 1]), evs[|evs| - 1]);
    }
  }

  lemma StartInStep()
    ensures InStep(START)
  {
  }

  /** In every run the process table is the set of running sessions, and no launch gives a session a second agent. */
  lemma NoSecondAgent(evs: seq<Event>, e: Event)
    requires AllLegal(evs) && Legal(After(evs), e)
    ensures forall s :: s in After(evs).processes <==> s in After(evs).sessions && After(evs).sessions[s].running
    ensures e.Turn? && e.action.Launch? ==> e.action.session !in After(evs).processes
  {
    hide After, AllLegal;
    AlwaysInStep(evs);
  }

  // --------------------------------------------------------------- crash loops

  /** A session's unbroken run of short-lived crashes: when the first was, and how many. */
  datatype Crashes = NoCrash | Crashes(firstMs: nat, count: nat)

  function Crashed(was: Crashes, slot: Slot, now: nat): Crashes
  {
    if was.NoCrash? || LifetimeMs(slot, now) >= HEALTHY_RUN_MS then Crashes(now, 1) else was.(count := was.count + 1)
  }

  function CrashesAfter(was: Crashes, v: Service, e: Event, s: nat): Crashes
  {
    match e
    case Reap(u, now, stopping) =>
      if u != s || s !in v.sessions then was else if stopping then NoCrash else Crashed(was, v.sessions[s], now)
    case Turn(_, Launch(u), ok, at, failedAt) =>
      if u != s || s !in v.sessions || ok then was else Crashed(was, SlotLaunched(v.sessions[s], at), failedAt)
    case Logoff(u, _) => if u == s then NoCrash else was
    case _ => was
  }

  function CrashLoop(evs: seq<Event>, s: nat): Crashes
  {
    if evs == [] then NoCrash
    else CrashesAfter(CrashLoop(evs[..|evs| - 1], s), After(evs[..|evs| - 1]), evs[|evs| - 1], s)
  }

  /** The delays add up: the next relaunch, or the one that is running, came after all of them. */
  predicate Spaced(slot: Slot, c: Crashes)
  {
    c.Crashes? ==>
      && c.count >= 1 && Min(c.count, 6) <= slot.attempt
      && (if slot.running then slot.startedMs.Some? && slot.startedMs.value >= c.firstMs + WaitedMs(c.count)
          else slot.nextAttemptMs >= c.firstMs + WaitedMs(c.count))
  }

  lemma CrashSpaced(slot: Slot, c: Crashes, now: nat)
    requires Spaced(slot, c) && slot.running && SlotOk(slot, now)
    ensures Spaced(SlotExited(slot, now, false), Crashed(c, slot, now))
  {
    hide CeilingMs;
    CeilingGrows(slot.attempt, 0);
    assert WaitedMs(1) == WaitedMs(0) + CeilingMs(0);
    if c.Crashes? {
      CeilingGrows(slot.attempt, c.count);
      assert WaitedMs(c.count + 1) == WaitedMs(c.count) + CeilingMs(c.count);
    }
  }

  lemma LaunchSpaced(slot: Slot, c: Crashes, at: nat)
    requires Spaced(slot, c) && !slot.running && at >= slot.nextAttemptMs
    ensures Spaced(SlotLaunched(slot, at), c)
  {
    hide WaitedMs;
  }

  ghost predicate SpacedIn(v: Service, c: Crashes, s: nat) { c.Crashes? ==> s in v.sessions && Spaced(v.sessions[s], c) }

  lemma NextSpaced(v: Service, e: Event, c: Crashes, s: nat)
    requires InStep(v) && Legal(v, e) && SpacedIn(v, c, s)
    ensures SpacedIn(Next(v, e), CrashesAfter(c, v, e, s), s)
  {
    hide Spaced, SlotExited, Crashed, WaitedMs, CeilingMs;
    match e {
      case Reap(u, now, stopping) =>
        if u == s && !stopping {
          NoCrashSpaced(v.sessions[s]);
          CrashSpaced(v.sessions[s], c, now);
        }
      case Turn(now, Launch(u), ok, at, failedAt) =>
        if u == s {
          NoCrashSpaced(v.sessions[s]);
          LaunchSpaced(v.sessions[s], c, at);
          CrashSpaced(SlotLaunched(v.sessions[s], at), c, failedAt);
        }
      case _ =>
    }
  }

  lemma NoCrashSpaced(slot: Slot)
    ensures Spaced(slot, NoCrash)
  {
  }

  lemma {:induction false} AlwaysSpaced(evs: seq<Event>, s: nat)
    requires AllLegal(evs)
    ensures SpacedIn(After(evs), CrashLoop(evs, s), s)
  {
    hide InStep, Legal, AllLegal, Next, Spaced, CrashesAfter;
    if evs != [] {
      var init := evs[..|evs| - 1];
      LegalPrefix(evs);
      AlwaysInStep(init);
      AlwaysSpaced(init, s);
      NextSpaced(After(init), evs[|evs| - 1], CrashLoop(init, s), s);
    }
  }

  /**
   In every run, the relaunch after the n-th crash of an unbroken crash loop comes no sooner
   after the first crash than the first n delays together: from the sixth on, 63 seconds and
   a minute for each further one. Whatever else the service does in between.
   */
  lemma RelaunchesAreSpaced(evs: seq<Event>, e: Event, s: nat)
    requires AllLegal(evs) && Legal(After(evs), e) && e.Turn? && e.action == Launch(s) && CrashLoop(evs, s).Crashes?
    ensures var c := CrashLoop(evs, s);
            && e.now >= c.firstMs + WaitedMs(c.count)
            && (c.count >= 6 ==> e.now >= c.firstMs + 63_000 + 60_000 * (c.count - 6))
  {
    hide After, AllLegal, CrashLoop, WaitedMs;
    AlwaysSpaced(evs, s);
    if CrashLoop(evs, s).count >= 6 {
      WaitedIs(CrashLoop(evs, s).count);
    }
  }

  // -------------------------------------------------- read off the events alone

  /** The session logged on and has not logged off since. */
  predicate Tracked(evs: seq<Event>, s: nat)
  {
    evs != [] &&
    var e := evs[|evs| - 1];
    e == Logon(s, e.now) || (e != Logoff(s, e.now) && Tracked(evs[..|evs| - 1], s))
  }

  /** When the session's agent was last launched. */
  function StartOf(evs: seq<Event>, s: nat): nat
  {
    if evs == [] then 0
    else
      var e := evs[|evs| - 1];
      if e.Turn? && e.action == Launch(s) then e.at else StartOf(evs[..|evs| - 1], s)
  }

  /** The last event ended the session's agent without being asked: when. */
  function Crash(evs: seq<Event>, s: nat): Option<nat>
    requires evs != []
  {
    match evs[|evs| - 1]
    case Reap(u, now, false) => if u == s && Tracked(evs, s) then Some(now) else None
    case Turn(_, Launch(u), false, _, failedAt) => if u == s then Some(failedAt) else None
    case _ => None
  }

  /** Crashes in a row: two minutes of running, or a new logon, start the count again. */
  function Streak(evs: seq<Event>, s: nat): nat
  {
    if evs == [] then 0
    else
      var init, e, crash := evs[..|evs| - 1], evs[|evs| - 1], Crash(evs, s);
      if crash.Some? then if SatSub(crash.value, StartOf(evs, s)) >= 120_000 then 1 else Streak(init, s) + 1
      else if e == Logoff(s, e.now) then 0
      else Streak(init, s)
  }

  /** The wait after the n-th crash in a row: 1, 2, 4, 8, 16, 32 seconds, then a minute. */
  function DelayAfter(n: nat): nat
  {
    match n
    case 0 => 0
    case 1 => 1000
    case 2 => 2000
    case 3 => 4000
    case 4 => 8000
    case 5 => 16_000
    case 6 => 32_000
    case _ => 60_000
  }

  /** When the session may next be launched: at logon, at an expected exit, or the wait after a crash. */
  function WakeOf(evs: seq<Event>, s: nat): nat
  {
    if evs == [] then 0
    else
      var init, e, crash := evs[..|evs| - 1], evs[|evs| - 1], Crash(evs, s);
      if crash.Some? then crash.value + DelayAfter(Streak(evs, s))
      else if e == Logon(s, e.now) && !Tracked(init, s) then e.now
      else if e.Reap? && e.session == s && Tracked(init, s) then e.now
      else WakeOf(init, s)
  }

  lemma DelayIs(attempt: nat)
    ensures CeilingMs(attempt) == DelayAfter(attempt + 1)
  {
    hide CeilingMs, Pow2;
    CeilingIs(attempt);
    SmallPowers();
  }

  /** What the events alone say of a tracked session. */
  ghost predicate AsTold(evs: seq<Event>, slot: Slot, s: nat)
  {
    && slot.attempt == Min(Streak(evs, s), U32_MAX)
    && (if slot.running then slot.startedMs == Some(StartOf(evs, s)) else slot.nextAttemptMs == WakeOf(evs, s))
  }

  ghost predicate Told(evs: seq<Event>, v: Service, s: nat)
  {
    (s in v.sessions <==> Tracked(evs, s)) && (s in v.sessions ==> AsTold(evs, v.sessions[s], s)) && (s !in v.sessions ==> Streak(evs, s) == 0)
  }

  lemma CrashTold(slot: Slot, now: nat, streak: nat, start: nat)
    requires slot.attempt == Min(streak, U32_MAX) && slot.startedMs == Some(start)
    ensures var n := if SatSub(now, start) >= 120_000 then 1 else streak + 1; var r := SlotExited(slot, now, false);
            !r.running && r.attempt == Min(n, U32_MAX) && r.nextAttemptMs == now + DelayAfter(n)
  {
    hide CeilingMs;
    DelayIs(0);
    DelayIs(slot.attempt);
  }

  lemma ReapTold(evs: seq<Event>, e: Event, v: Service, s: nat)
    requires InStep(v) && Legal(v, e) && Told(evs, v, s) && e.Reap?
    ensures Told(evs + [e], Next(v, e), s)
  {
    hide SlotExited, CeilingMs, DelayAfter;
    var all := evs + [e];
    assert all[..|all| - 1] == evs && all[|all| - 1] == e;
    assert Tracked(all, s) <==> Tracked(evs, s);
    if e.session == s && s in v.sessions {
      var slot := v.sessions[s];
      assert SlotOk(slot, v.clockMs) && slot.running;
      if e.stopping { ExpectedTold(slot, e.now); } else { CrashTold(slot, e.now, Streak(evs, s), StartOf(evs, s)); }
    }
  }

  lemma LaunchIsDue(v: Service, e: Event, s: nat)
    requires Legal(v, e) && e.Turn? && e.action == Launch(s)
    ensures s in v.sessions && !v.sessions[s].running
  {
  }

  lemma TurnTold(evs: seq<Event>, e: Event, v: Service, s: nat)
    requires Legal(v, e) && Told(evs, v, s) && e.Turn?
    ensures Told(evs + [e], Next(v, e), s)
  {
    hide SlotExited, CeilingMs, DelayAfter, Legal;
    var all := evs + [e];
    assert all[..|all| - 1] == evs && all[|all| - 1] == e;
    assert Tracked(all, s) <==> Tracked(evs, s);
    if e.action == Launch(s) {
      LaunchIsDue(v, e, s);
      if !e.ok { CrashTold(SlotLaunched(v.sessions[s], e.at), e.failedAt, Streak(evs, s), e.at); }
    } else {
      assert Crash(all, s).None?;
    }
  }

  lemma SessionTold(evs: seq<Event>, e: Event, v: Service, s: nat)
    requires Told(evs, v, s) && (e.Logon? || e.Logoff?)
    ensures Told(evs + [e], Next(v, e), s)
  {
    var all := evs + [e];
    assert all[..|all| - 1] == evs && all[|all| - 1] == e;
  }

  lemma NextTold(evs: seq<Event>, e: Event, v: Service, s: nat)
    requires InStep(v) && Legal(v, e) && Told(evs, v, s)
    ensures Told(evs + [e], Next(v, e), s)
  {
    hide *;
    match e
    case Reap(_, _, _) => ReapTold(evs, e, v, s);
    case Turn(_, _, _, _, _) => TurnTold(evs, e, v, s);
    case Logon(_, _) => SessionTold(evs, e, v, s);
    case Logoff(_, _) => SessionTold(evs, e, v, s);
  }

  lemma ExpectedTold(slot: Slot, now: nat)
    ensures var r := SlotExited(slot, now, true); !r.running && r.attempt == slot.attempt && r.nextAttemptMs == now
  {
  }

  lemma {:induction false} AlwaysTold(evs: seq<Event>, s: nat)
    requires AllLegal(evs)
    ensures Told(evs, After(evs), s)
  {
    hide InStep, Legal, AllLegal, Next, AsTold;
    if evs != [] {
      var init, e := evs[..|evs| - 1], evs[|evs| - 1];
      LegalPrefix(evs);
      AlwaysInStep(init);
      AlwaysTold(init, s);
      assert evs == init + [e];
      NextTold(init, e, After(init), s);
    }
  }

  /** Tracked, without an agent, and past its time. */
  ghost predicate Ready(evs: seq<Event>, s: nat, now: nat)
  {
    Tracked(evs, s) && s !in After(evs).processes && WakeOf(evs, s) <= now
  }

  /**
   In every run a poll launches a session if and only if it is the lowest that is logged on, has no
   agent, and has waited exactly what its crashes in a row ask for.
   */
  lemma LaunchIff(evs: seq<Event>, now: nat, a: Action, s: nat)
    requires AllLegal(evs) && Decides(After(evs).sessions, now, a)
    ensures a == Launch(s) <==> Ready(evs, s, now) && forall u :: Ready(evs, u, now) ==> s <= u
  {
    var v := After(evs);
    hide After, AllLegal, Tracked, WakeOf, Streak, StartOf;
    AlwaysInStep(evs);
    forall u ensures Ready(evs, u, now) <==> Due(v.sessions, u, now) { AlwaysTold(evs, u); }
    hide Ready;
    if Ready(evs, s, now) && forall u :: Ready(evs, u, now) ==> s <= u {
      assert Decides(v.sessions, now, Launch(s));
      DecidesOnce(v.sessions, now, a, Launch(s));
    }
  }
}
