/**
 Nightly reconciliation of captured calls against the dialer's call-detail export
 (server/pipeline/sentinel_pipeline/coverage.py).
 */
module Coverage {
  import opened Prelude

  datatype CdrCall = CdrCall(agentId: string, startedAt: int, durationMs: int, dialerId: Option<string>)

  datatype CapturedCall = CapturedCall(userUid: string, startedAt: int, durationMs: int, dialerId: Option<string>)

  /** Thirty seconds, in the microseconds a start time is measured in. */
  const MATCH_WINDOW := 30_000_000

  /** How one dialer row was settled, naming the captured call by position. */
  datatype Outcome = Unmatched | ById(call: nat) | ByWindow(call: nat)

  /** One agent's counters for the day. */
  datatype Tally = Tally(dialerCalls: nat, capturedCalls: nat, dialerMinutes: int, capturedMinutes: int)

  datatype GapReason = NothingCaptured | SomeMissing

  datatype CoverageRow = CoverageRow(uid: string, tally: Tally, gap: Option<GapReason>)

  /** An id counts only when present and not the empty string. */
  predicate Usable(id: Option<string>) { id.Some? && id.value != "" }

  function GapOf(t: Tally): Option<GapReason>
  {
    if t.dialerCalls == 0 then None
    else if t.capturedCalls == 0 then Some(NothingCaptured)
    else if 100 * t.capturedCalls < 90 * t.dialerCalls then Some(SomeMissing)
    else None
  }

  function RowFor(uid: string, t: Tally): CoverageRow { CoverageRow(uid, t, GapOf(t)) }

  /** One captured call per row, no call shared. */
  ghost predicate Injective(m: map<nat, nat>)
  {
    forall i, k :: i in m && k in m && m[i] == m[k] ==> i == k
  }

  /** `m` without `i`, whose value `a` inherits in place of its own. */
  ghost function Inherit(m: map<nat, nat>, i: nat, a: nat): (r: map<nat, nat>)
    requires Injective(m) && i in m && a in m && i != a
    ensures Injective(r) && r.Keys == m.Keys - {i} && |m| == |r| + 1
    ensures forall x :: x in r ==> r[x] != m[a]
    ensures forall x :: x in r ==> r[x] == if x == a then m[i] else m[x]
  {
    var r := map x | x in m && x != i :: if x == a then m[i] else m[x];
    assert r.Keys == m.Keys - {i};
    assert |m.Keys| == |r.Keys| + 1;
    r
  }

  /** The inputs of one reconciliation. */
  datatype Job = Job(cdr: seq<CdrCall>, captured: seq<CapturedCall>, agentFor: map<string, string>) {

    /** The identity-platform uid behind dialer row `i`. */
    function Uid(i: nat): string
      requires i < |cdr|
    {
      if cdr[i].agentId in agentFor then agentFor[cdr[i].agentId] else cdr[i].agentId
    }

    /** Same agent, and start times within the window. */
    predicate Fits(i: nat, j: nat)
      requires i < |cdr| && j < |captured|
    {
      captured[j].userUid == Uid(i) &&
      -MATCH_WINDOW <= captured[j].startedAt - cdr[i].startedAt <= MATCH_WINDOW
    }

    /** Dialer id to captured call over the first `n` captured calls; the last one wins. */
    function ByDialerId(n: nat): (r: map<string, nat>)
      requires n <= |captured|
      ensures forall id :: id in r ==> r[id] < n && captured[r[id]].dialerId == Some(id)
    {
      if n == 0 then map[]
      else
        var r := ByDialerId(n - 1);
        var id := captured[n - 1].dialerId;
        if Usable(id) then r[id.value := n - 1] else r
    }

    /** First position at or after `from` that is free and fits row `i`. */
    function FirstFit(i: nat, used: set<nat>, from: nat): (r: Option<nat>)
      requires i < |cdr| && from <= |captured|
      ensures r.Some? ==> from <= r.value < |captured| && r.value !in used && Fits(i, r.value)
      ensures forall j :: from <= j < (if r.Some? then r.value else |captured|) ==> j in used || !Fits(i, j)
      decreases |captured| - from
    {
      if from == |captured| then None
      else if from !in used && Fits(i, from) then Some(from)
      else FirstFit(i, used, from + 1)
    }

    /** How row `i` is settled once the rows before it are. */
    function OutcomeAt(i: nat): Outcome
      requires i < |cdr|
      decreases i, 1
    {
      var id := cdr[i].dialerId;
      if Usable(id) && id.value in ByDialerId(|captured|) then ById(ByDialerId(|captured|)[id.value])
      else
        match FirstFit(i, Used(i), 0)
        case Some(j) => ByWindow(j)
        case None => Unmatched
    }

    /** Positions consumed by the window rule over the first `n` rows. */
    function Used(n: nat): set<nat>
      requires n <= |cdr|
      decreases n, 0
    {
      if n == 0 then {}
      else
        match OutcomeAt(n - 1)
        case ByWindow(j) => Used(n - 1) + {j}
        case _ => Used(n - 1)
    }

    /** The counters of agent `uid` after `n` rows. */
    function TallyOf(uid: string, n: nat): Tally
      requires n <= |cdr|
    {
      if n == 0 then Tally(0, 0, 0, 0)
      else
        var t := TallyOf(uid, n - 1);
        if Uid(n - 1) != uid then t
        else AddRow(t, cdr[n - 1], OutcomeAt(n - 1))
    }

    function AddRow(t: Tally, row: CdrCall, o: Outcome): Tally
      requires o.Unmatched? || o.call < |captured|
    {
      var counted := t.(dialerCalls := t.dialerCalls + 1, dialerMinutes := t.dialerMinutes + row.durationMs / 60_000);
      if o.Unmatched? then counted
      else counted.(capturedCalls := t.capturedCalls + 1,
                    capturedMinutes := t.capturedMinutes + captured[o.call].durationMs / 60_000)
    }

    /** The agents of the first `n` rows. */
    function Agents(n: nat): set<string>
      requires n <= |cdr|
    {
      set i | 0 <= i < n :: Uid(i)
    }

    /** The coverage row of one agent. */
    function Report(uid: string): CoverageRow { RowFor(uid, TallyOf(uid, |cdr|)) }

    /** A dialer id that the captured calls know. */
    predicate KnownId(i: nat)
      requires i < |cdr|
    {
      Usable(cdr[i].dialerId) && cdr[i].dialerId.value in ByDialerId(|captured|)
    }

    /** The captured calls that some row names by id. */
    function Named(): set<nat>
    {
      set i | 0 <= i < |cdr| && KnownId(i) :: ByDialerId(|captured|)[cdr[i].dialerId.value]
    }

    /** No two rows name the same known id. */
    predicate NoSharedId()
    {
      forall i, k :: 0 <= i < k < |cdr| && KnownId(i) && KnownId(k) ==> cdr[i].dialerId != cdr[k].dialerId
    }

    /** No captured call settles two rows. */
    predicate CountedOnce()
    {
      forall i, k :: 0 <= i < k < |cdr| && !OutcomeAt(i).Unmatched? && !OutcomeAt(k).Unmatched? ==>
        OutcomeAt(i).call != OutcomeAt(k).call
    }

    // ------------------------------------- the reference: a settled export

    /** The uid behind a dialer row: the mapped one if there is one, otherwise the dialer's own. */
    ghost predicate Behind(i: nat, uid: string)
      requires i < |cdr|
    {
      if cdr[i].agentId in agentFor then uid == agentFor[cdr[i].agentId] else uid == cdr[i].agentId
    }

    /** Call `j` is the agent's, starts within thirty seconds of row `i`, and no earlier row took it by its time. */
    ghost predicate Free(o: seq<Outcome>, i: nat, j: nat)
      requires i < |cdr| == |o|
    {
      && j < |captured| && Behind(i, captured[j].userUid)
      && -30_000_000 <= captured[j].startedAt - cdr[i].startedAt <= 30_000_000
      && forall k :: 0 <= k < i ==> o[k] != ByWindow(j)
    }

    ghost predicate Carried(id: Option<string>) { exists j :: 0 <= j < |captured| && captured[j].dialerId == id }

    /** The last call that carries the row's id, if one does; otherwise the first free one, if there is one. */
    ghost predicate RightAt(o: seq<Outcome>, i: nat)
      requires i < |cdr| == |o|
    {
      var id := cdr[i].dialerId;
      if id != None && id != Some("") && Carried(id) then
        && o[i].ById? && o[i].call < |captured| && captured[o[i].call].dialerId == id
        && forall j :: o[i].call < j < |captured| ==> captured[j].dialerId != id
      else if o[i].Unmatched? then
        forall j :: 0 <= j < |captured| ==> !Free(o, i, j)
      else
        o[i].ByWindow? && Free(o, i, o[i].call) && forall j :: 0 <= j < o[i].call ==> !Free(o, i, j)
    }

    /** Every row is settled as the two lists demand, said without any search or state. */
    ghost predicate SettledRight(o: seq<Outcome>) { |o| == |cdr| && forall i :: 0 <= i < |cdr| ==> RightAt(o, i) }

    ghost function RowsBehind(uid: string): set<nat> { set i | 0 <= i < |cdr| && Behind(i, uid) }

    ghost function CapturedRows(o: seq<Outcome>, uid: string): set<nat>
      requires |o| == |cdr|
    {
      set i | 0 <= i < |cdr| && Behind(i, uid) && !o[i].Unmatched?
    }

    /** Whole minutes row by row, zero where the row is not the agent's. */
    ghost function DialerMinutes(uid: string): seq<int>
    {
      seq(|cdr|, i requires 0 <= i < |cdr| => if Behind(i, uid) then cdr[i].durationMs / 60_000 else 0)
    }

    ghost function CapturedMinutes(o: seq<Outcome>, uid: string): seq<int>
      requires SettledRight(o)
    {
      seq(|cdr|, i requires 0 <= i < |cdr| =>
        if i in CapturedRows(o, uid) then assert RightAt(o, i); captured[o[i].call].durationMs / 60_000 else 0)
    }

    // ------------------------------------------------ the reference: pairings

    /** The client sends no dialer id, so no captured call carries a usable one. */
    predicate NoCapturedIds()
    {
      forall j :: 0 <= j < |captured| ==> !Usable(captured[j].dialerId)
    }

    /** Each agent's rows and each agent's calls are in start order; agents may be interleaved or grouped anyhow. */
    predicate Sorted()
    {
      && (forall i, k :: 0 <= i < k < |cdr| && Uid(i) == Uid(k) ==> cdr[i].startedAt <= cdr[k].startedAt)
      && (forall j, k :: 0 <= j < k < |captured| && captured[j].userUid == captured[k].userUid ==>
            captured[j].startedAt <= captured[k].startedAt)
    }

    /** A legitimate pairing: agents agree, times are inside the window, no captured call is used twice. */
    ghost predicate Pairing(m: map<nat, nat>)
    {
      Injective(m) && forall i :: i in m ==> i < |cdr| && m[i] < |captured| && Fits(i, m[i])
    }

    /** The rows of a pairing that belong to one agent. */
    ghost function RowsOf(m: map<nat, nat>, uid: string): set<nat>
      requires Pairing(m)
    {
      set i | i in m && Uid(i) == uid
    }

    /** Rows of `uid` at or after `from` that the code settled with a captured call. */
    ghost function Settled(uid: string, from: nat): (r: set<nat>)
    {
      set i | from <= i < |cdr| && Uid(i) == uid && !OutcomeAt(i).Unmatched?
    }

    /** The pairing the code builds, when only the window rule is in play. */
    ghost function Built(): map<nat, nat>
    {
      map i | 0 <= i < |cdr| && OutcomeAt(i).ByWindow? :: OutcomeAt(i).call
    }
  }

  // ---------------------------------------------------------------- lemmas

  lemma {:induction false} NoIdsNoIndex(job: Job, n: nat)
    requires n <= |job.captured| && job.NoCapturedIds()
    ensures job.ByDialerId(n) == map[]
  {
    if n > 0 { NoIdsNoIndex(job, n - 1); }
  }

  lemma {:induction false} UsedGrows(job: Job, i: nat, n: nat)
    requires i <= n <= |job.cdr|
    ensures job.Used(i) <= job.Used(n)
    decreases n - i
  {
    if i < n { UsedGrows(job, i, n - 1); }
  }

  /** A used position was taken by exactly one earlier row, which it fits. */
  lemma {:induction false} UsedByRow(job: Job, n: nat, j: nat) returns (i: nat)
    requires n <= |job.cdr| && j in job.Used(n)
    ensures i < n && job.OutcomeAt(i) == ByWindow(j) && j < |job.captured| && job.Fits(i, j)
  {
    if job.OutcomeAt(n - 1) == ByWindow(j) { i := n - 1; } else { i := UsedByRow(job, n - 1, j); }
  }

  /** Two rows never take the same call by the window rule. */
  lemma LaterPickDiffers(job: Job, i: nat, k: nat)
    requires i < k < |job.cdr| && job.OutcomeAt(i).ByWindow? && job.OutcomeAt(k).ByWindow?
    ensures job.OutcomeAt(i).call != job.OutcomeAt(k).call
  {
    UsedGrows(job, i + 1, k);
  }

  /** The code's own choice is a legitimate pairing. */
  lemma BuiltIsPairing(job: Job)
    ensures job.Pairing(job.Built())
  {
    var m := job.Built();
    forall i, k | i in m && k in m && i != k ensures m[i] != m[k] {
      LaterPickDiffers(job, Min(i, k), Max(i, k));
    }
  }

  lemma SettledStep(job: Job, uid: string, i: nat)
    requires i < |job.cdr|
    ensures job.Settled(uid, i) == job.Settled(uid, i + 1) +
            (if job.Uid(i) == uid && !job.OutcomeAt(i).Unmatched? then {i} else {})
    ensures |job.Settled(uid, i)| == |job.Settled(uid, i + 1)| +
            (if job.Uid(i) == uid && !job.OutcomeAt(i).Unmatched? then 1 else 0)
  {
    assert i !in job.Settled(uid, i + 1);
  }

  /** The counter reported for an agent is the number of its rows the code settled. */
  lemma {:induction false} TallyCountsSettled(job: Job, uid: string, n: nat)
    requires n <= |job.cdr|
    ensures job.TallyOf(uid, n).capturedCalls == |job.Settled(uid, 0)| - |job.Settled(uid, n)|
    ensures job.TallyOf(uid, n).capturedCalls <= job.TallyOf(uid, n).dialerCalls
  {
    hide Job.OutcomeAt, Job.Settled, Job.Used;
    if n > 0 {
      TallyCountsSettled(job, uid, n - 1);
      SettledStep(job, uid, n - 1);
    }
  }

  lemma CapturedIsSettled(job: Job, uid: string)
    ensures job.TallyOf(uid, |job.cdr|).capturedCalls == |job.Settled(uid, 0)|
  {
    TallyCountsSettled(job, uid, |job.cdr|);
    assert job.Settled(uid, |job.cdr|) == {};
  }

  /**
   With start times in order, two rows and two calls that fit crosswise also fit the other way round.
   */
  lemma Uncross(job: Job, i: nat, a: nat, j: nat, b: nat)
    requires job.Sorted() && i < a < |job.cdr| && j < b < |job.captured| && job.Uid(i) == job.Uid(a)
    requires job.Fits(i, b) && job.Fits(a, j)
    ensures job.Fits(a, b)
  {
    assert job.cdr[i].startedAt <= job.cdr[a].startedAt;
    assert job.captured[j].startedAt <= job.captured[b].startedAt;
  }

  /** A pairing confined to rows of `uid` from `from` on, and to calls outside `used`. */
  ghost predicate Confined(job: Job, m: map<nat, nat>, uid: string, from: nat, used: set<nat>)
  {
    job.Pairing(m) && forall a :: a in m ==> a >= from && job.Uid(a) == uid && m[a] !in used
  }

  /** Giving up row `x`, which held call `j` or is row `from`, frees both for good. */
  lemma Drop(job: Job, uid: string, from: nat, used: set<nat>, m: map<nat, nat>, x: nat, j: nat)
    requires Confined(job, m, uid, from, used)
    requires forall a :: a in m && a != x ==> a != from && m[a] != j
    ensures Confined(job, m - {x}, uid, from + 1, used + {j})
    ensures |m| <= |m - {x}| + 1
  {
    assert (m - {x}).Keys == m.Keys - {x};
    assert |m| == |m.Keys| && |m - {x}| == |(m - {x}).Keys|;
  }

  /** Row `a` trades its call for the one row `i` gives up. */
  lemma Trade(job: Job, uid: string, i: nat, used: set<nat>, m: map<nat, nat>, a: nat) returns (rest: map<nat, nat>)
    requires Confined(job, m, uid, i, used) && i in m && a in m && i != a && job.Fits(a, m[i])
    ensures Confined(job, rest, uid, i + 1, used + {m[a]})
    ensures |m| == |rest| + 1
  {
    rest := Inherit(m, i, a);
    forall x | x in rest
      ensures x in m && x != i && rest[x] != m[a] && rest[x] == (if x == a then m[i] else m[x])
    {
    }
  }

  /** Row `i` and the holder `a` of first fit's choice `j` can trade. */
  lemma CanTrade(job: Job, uid: string, i: nat, j: nat, used: set<nat>, m: map<nat, nat>, a: nat)
    requires job.Sorted() && i < |job.cdr| && job.Uid(i) == uid && job.FirstFit(i, used, 0) == Some(j)
    requires Confined(job, m, uid, i, used) && i in m && a in m && m[a] == j && a != i
    ensures job.Fits(a, m[i])
  {
    assert m[i] > j;
    Uncross(job, i, a, j, m[i]);
  }

  /**
   The exchange step. A pairing loses at most one row when row `i` is given the call `j` that
   first fit chose for it: whoever held `j` takes over `i`'s old call.
   */
  lemma Exchange(job: Job, uid: string, i: nat, j: nat, used: set<nat>, m: map<nat, nat>) returns (rest: map<nat, nat>)
    requires job.Sorted() && i < |job.cdr| && job.Uid(i) == uid && job.FirstFit(i, used, 0) == Some(j)
    requires Confined(job, m, uid, i, used)
    ensures Confined(job, rest, uid, i + 1, used + {j}) && |m| <= |rest| + 1
  {
    assert Injective(m);
    hide Job.Sorted, Job.FirstFit, Job.Uid, Job.Fits, Job.Pairing, Confined;
    if a :| a in m && m[a] == j && a != i {
      if i in m {
        CanTrade(job, uid, i, j, used, m, a);
        rest := Trade(job, uid, i, used, m, a);
      } else {
        Drop(job, uid, i, used, m, a, j);
        rest := m - {a};
      }
    } else {
      Drop(job, uid, i, used, m, i, j);
      rest := m - {i};
    }
  }

  /** Without captured ids, a row is settled by first fit alone. */
  lemma WindowRuleOnly(job: Job, i: nat)
    requires i < |job.cdr| && job.NoCapturedIds()
    ensures var fit := job.FirstFit(i, job.Used(i), 0);
            && job.OutcomeAt(i) == (if fit.Some? then ByWindow(fit.value) else Unmatched)
            && job.Used(i + 1) == (if fit.Some? then job.Used(i) + {fit.value} else job.Used(i))
  {
    NoIdsNoIndex(job, |job.captured|);
  }

  /** A row that settles nothing for `uid` takes nothing from a pairing for `uid`. */
  lemma SkipRow(job: Job, uid: string, i: nat, used: set<nat>, m: map<nat, nat>)
    requires i < |job.cdr| && Confined(job, m, uid, i, used)
    requires job.Uid(i) != uid || job.FirstFit(i, used, 0).None?
    ensures var fit := job.FirstFit(i, used, 0);
            Confined(job, m, uid, i + 1, if fit.Some? then used + {fit.value} else used)
  {
    assert i !in m;
  }

  /** What one row costs a pairing is at most what that row settles. */
  lemma StepDown(job: Job, uid: string, i: nat, m: map<nat, nat>) returns (rest: map<nat, nat>)
    requires i < |job.cdr| && job.Sorted() && job.NoCapturedIds() && Confined(job, m, uid, i, job.Used(i))
    ensures Confined(job, rest, uid, i + 1, job.Used(i + 1))
    ensures |m| - |rest| <= |job.Settled(uid, i)| - |job.Settled(uid, i + 1)|
  {
    var used := job.Used(i);
    WindowRuleOnly(job, i);
    SettledStep(job, uid, i);
    var fit := job.FirstFit(i, used, 0);
    if job.Uid(i) == uid && fit.Some? {
      rest := Exchange(job, uid, i, fit.value, used, m);
    } else {
      SkipRow(job, uid, i, used, m);
      rest := m;
    }
  }

  lemma NothingPastTheEnd(job: Job, uid: string, used: set<nat>, m: map<nat, nat>)
    requires Confined(job, m, uid, |job.cdr|, used)
    ensures |m| == 0
  {
    assert m.Keys == {};
  }

  /** No pairing over the rows still to come beats what first fit settles from here. */
  lemma {:induction false} NoBetterFrom(job: Job, uid: string, i: nat, m: map<nat, nat>)
    requires i <= |job.cdr| && job.Sorted() && job.NoCapturedIds() && Confined(job, m, uid, i, job.Used(i))
    ensures |m| <= |job.Settled(uid, i)|
    decreases |job.cdr| - i
  {
    hide *;
    if i == |job.cdr| {
      NothingPastTheEnd(job, uid, job.Used(i), m);
    } else {
      var rest := StepDown(job, uid, i, m);
      NoBetterFrom(job, uid, i + 1, rest);
    }
  }

  /**
   First fit is a maximum matching: with each agent's rows and calls in start order and no captured dialer ids,
   no legitimate pairing gives any agent more captured calls than the code reports.
   */
  lemma GreedyIsMaximum(job: Job, uid: string, m: map<nat, nat>)
    requires job.Sorted() && job.NoCapturedIds() && job.Pairing(m)
    ensures |job.RowsOf(m, uid)| <= job.TallyOf(uid, |job.cdr|).capturedCalls
  {
    var mine := map i | i in job.RowsOf(m, uid) :: m[i];
    assert mine.Keys == job.RowsOf(m, uid);
    NoBetterFrom(job, uid, 0, mine);
    CapturedIsSettled(job, uid);
  }

  /** The reported number is reached: it is the size of the code's own pairing for that agent. */
  lemma ReportedIsBuilt(job: Job, uid: string)
    requires job.NoCapturedIds()
    ensures job.Pairing(job.Built())
    ensures |job.RowsOf(job.Built(), uid)| == job.TallyOf(uid, |job.cdr|).capturedCalls
  {
    BuiltIsPairing(job);
    NoIdsNoIndex(job, |job.captured|);
    CapturedIsSettled(job, uid);
    assert job.RowsOf(job.Built(), uid) == job.Settled(uid, 0);
  }

  /** A pair the code left unmatched was blocked by an earlier row of the same agent taking the call. */
  lemma Blocker(job: Job, a: nat, j: nat) returns (i: nat)
    requires a < |job.cdr| && j < |job.captured| && job.Fits(a, j) && job.OutcomeAt(a).Unmatched?
    ensures i in job.Settled(job.Uid(a), 0) && job.OutcomeAt(i) == ByWindow(j)
  {
    assert j in job.Used(a);
    i := UsedByRow(job, a, j);
  }

  /** Rows charged to distinct settled rows are no more than the settled rows. */
  lemma {:induction false} BlockedRows(job: Job, uid: string, m: map<nat, nat>, blocked: set<nat>) returns (taker: map<nat, nat>)
    requires job.Pairing(m) && blocked <= job.RowsOf(m, uid) && blocked !! job.Settled(uid, 0)
    ensures taker.Keys == blocked
    ensures forall a :: a in taker ==> taker[a] in job.Settled(uid, 0) && job.OutcomeAt(taker[a]) == ByWindow(m[a])
  {
    if blocked == {} {
      taker := map[];
    } else {
      var a :| a in blocked;
      var others := BlockedRows(job, uid, m, blocked - {a});
      var i := Blocker(job, a, m[a]);
      taker := others[a := i];
    }
  }

  /**
   Whatever the order of the two lists, the report is never below half of the best pairing:
   every pair left on the table is blocked by a settled row or by a call already used.
   */
  lemma GreedyIsHalfOptimal(job: Job, uid: string, m: map<nat, nat>)
    requires job.Pairing(m)
    ensures |job.RowsOf(m, uid)| <= 2 * job.TallyOf(uid, |job.cdr|).capturedCalls
  {
    CapturedIsSettled(job, uid);
    var rows, settled := job.RowsOf(m, uid), job.Settled(uid, 0);
    var blocked := rows - settled;
    var taker := BlockedRows(job, uid, m, blocked);
    InjectiveImageSize(taker, blocked, settled);
    SplitSize(rows, settled);
  }

  /**
   Out of order the maximum is missed: the early call, taken by the later row listed first,
   was the only one the earlier row could use.
   */
  lemma UnsortedExportMissesTheMaximum()
    ensures exists job: Job, m: map<nat, nat> ::
              job.NoCapturedIds() && job.Pairing(m) &&
              job.TallyOf("a", |job.cdr|).capturedCalls < |job.RowsOf(m, "a")|
  {
    var late, early := CdrCall("a", 50_000_000, 0, None), CdrCall("a", 0, 0, None);
    var c0, c1 := CapturedCall("a", 25_000_000, 0, None), CapturedCall("a", 60_000_000, 0, None);
    var job := Job([late, early], [c0, c1], map[]);
    var m: map<nat, nat> := map[0 := 1, 1 := 0];
    NoIdsNoIndex(job, 2);
    assert job.Fits(0, 0) && job.Fits(0, 1) && job.Fits(1, 0) && !job.Fits(1, 1);
    assert job.OutcomeAt(0) == ByWindow(0);
    assert job.Used(0) == {} && job.Used(1) == {0};
    assert job.FirstFit(1, {0}, 2) == None;
    assert job.OutcomeAt(1) == Unmatched;
    assert job.TallyOf("a", 0).capturedCalls == 0;
    assert job.TallyOf("a", 1).capturedCalls == 1;
    assert job.TallyOf("a", 2).capturedCalls == 1;
    assert job.RowsOf(m, "a") == {0, 1};
  }

  /** Nor does it help that the dialer's rows are in order, if the captured calls are not. */
  lemma UnsortedCapturesMissTheMaximum()
    ensures exists job: Job, m: map<nat, nat> ::
              job.NoCapturedIds() && job.Pairing(m) &&
              (forall i, k :: 0 <= i < k < |job.cdr| ==> job.cdr[i].startedAt <= job.cdr[k].startedAt) &&
              job.TallyOf("a", |job.cdr|).capturedCalls < |job.RowsOf(m, "a")|
  {
    var early, late := CdrCall("a", 30_000_000, 0, None), CdrCall("a", 80_000_000, 0, None);
    var c0, c1 := CapturedCall("a", 60_000_000, 0, None), CapturedCall("a", 10_000_000, 0, None);
    var job := Job([early, late], [c0, c1], map[]);
    var m: map<nat, nat> := map[0 := 1, 1 := 0];
    NoIdsNoIndex(job, 2);
    assert job.Fits(0, 0) && job.Fits(0, 1) && job.Fits(1, 0) && !job.Fits(1, 1);
    assert job.OutcomeAt(0) == ByWindow(0);
    assert job.Used(0) == {} && job.Used(1) == {0};
    assert job.FirstFit(1, {0}, 2) == None;
    assert job.OutcomeAt(1) == Unmatched;
    assert job.TallyOf("a", 0).capturedCalls == 0;
    assert job.TallyOf("a", 1).capturedCalls == 1;
    assert job.TallyOf("a", 2).capturedCalls == 1;
    assert job.RowsOf(m, "a") == {0, 1};
  }

  // ------------------------------------------------- when a call is counted once

  /** A row is settled by id exactly when its id is known, and otherwise by the window or not at all. */
  lemma SettledBy(job: Job, i: nat)
    requires i < |job.cdr|
    ensures job.KnownId(i) ==> job.OutcomeAt(i) == ById(job.ByDialerId(|job.captured|)[job.cdr[i].dialerId.value])
    ensures job.KnownId(i) ==> job.OutcomeAt(i).call in job.Named()
    ensures !job.KnownId(i) ==> !job.OutcomeAt(i).ById?
  {
  }

  lemma WindowUses(job: Job, i: nat)
    requires i < |job.cdr| && job.OutcomeAt(i).ByWindow?
    ensures job.OutcomeAt(i).call in job.Used(|job.cdr|)
  {
    UsedGrows(job, i + 1, |job.cdr|);
  }

  /** The row that names a call, and what it is settled with. */
  lemma NamedBy(job: Job, j: nat) returns (i: nat)
    requires j in job.Named()
    ensures i < |job.cdr| && job.KnownId(i) && job.OutcomeAt(i) == ById(j)
  {
    i :| 0 <= i < |job.cdr| && job.KnownId(i) && job.ByDialerId(|job.captured|)[job.cdr[i].dialerId.value] == j;
  }

  lemma NamedAndTaken(job: Job, j: nat)
    requires j in job.Named() && j in job.Used(|job.cdr|)
    ensures !job.CountedOnce()
  {
    hide Job.OutcomeAt, Job.Named, Job.Used, Job.KnownId;
    var i := NamedBy(job, j);
    var k := UsedByRow(job, |job.cdr|, j);
    assert i != k && job.OutcomeAt(i).call == job.OutcomeAt(k).call;
  }

  /** Two rows settled differently enough: by different ids, by the window, or one each way with the calls kept apart. */
  lemma DistinctCalls(job: Job, i: nat, k: nat)
    requires i < k < |job.cdr| && !job.OutcomeAt(i).Unmatched? && !job.OutcomeAt(k).Unmatched?
    requires job.NoSharedId() && job.Named() !! job.Used(|job.cdr|)
    ensures job.OutcomeAt(i).call != job.OutcomeAt(k).call
  {
    hide Job.OutcomeAt, Job.Named, Job.Used, Job.KnownId;
    SettledBy(job, i);
    SettledBy(job, k);
    if job.OutcomeAt(i).ByWindow? {
      WindowUses(job, i);
    }
    if job.OutcomeAt(k).ByWindow? {
      WindowUses(job, k);
    }
    if job.OutcomeAt(i).ByWindow? && job.OutcomeAt(k).ByWindow? {
      LaterPickDiffers(job, i, k);
    }
    if job.KnownId(i) && job.KnownId(k) {
      DistinctIds(job, i, k);
    }
  }

  lemma DistinctIds(job: Job, i: nat, k: nat)
    requires i < |job.cdr| && k < |job.cdr| && job.KnownId(i) && job.KnownId(k)
    ensures job.OutcomeAt(i).ById? && job.OutcomeAt(k).ById?
    ensures job.OutcomeAt(i).call == job.OutcomeAt(k).call <==> job.cdr[i].dialerId == job.cdr[k].dialerId
  {
    var index := job.ByDialerId(|job.captured|);
    var a, b := job.cdr[i].dialerId.value, job.cdr[k].dialerId.value;
    assert job.captured[index[a]].dialerId == Some(a) && job.captured[index[b]].dialerId == Some(b);
  }

  /**
   Every captured call is counted at most once if and only if no two rows name the same known id
   and the window rule never takes a call that a row names.
   */
  lemma CountedOnceIff(job: Job)
    ensures job.CountedOnce() <==> job.NoSharedId() && job.Named() !! job.Used(|job.cdr|)
  {
    hide Job.OutcomeAt, Job.Named, Job.Used, Job.KnownId;
    if job.NoSharedId() && job.Named() !! job.Used(|job.cdr|) {
      forall i, k | 0 <= i < k < |job.cdr| && !job.OutcomeAt(i).Unmatched? && !job.OutcomeAt(k).Unmatched?
        ensures job.OutcomeAt(i).call != job.OutcomeAt(k).call {
        DistinctCalls(job, i, k);
      }
    }
    if job.CountedOnce() {
      forall i, k | 0 <= i < k < |job.cdr| && job.KnownId(i) && job.KnownId(k)
        ensures job.cdr[i].dialerId != job.cdr[k].dialerId {
        DistinctIds(job, i, k);
      }
      forall j | j in job.Named() ensures j !in job.Used(|job.cdr|) {
        if j in job.Used(|job.cdr|) {
          NamedAndTaken(job, j);
        }
      }
    }
  }

  /** It is enough, and checkable on the two lists alone, that no row without a known id fits a named call. */
  lemma CountedOnceWhenApart(job: Job)
    requires job.NoSharedId()
    requires forall i, j :: 0 <= i < |job.cdr| && j in job.Named() && j < |job.captured| && !job.KnownId(i) ==> !job.Fits(i, j)
    ensures job.CountedOnce()
  {
    hide Job.OutcomeAt, Job.Named, Job.Used, Job.KnownId, Job.Fits;
    forall j | j in job.Named() ensures j !in job.Used(|job.cdr|) {
      if j in job.Used(|job.cdr|) {
        var k := UsedByRow(job, |job.cdr|, j);
        SettledBy(job, k);
      }
    }
    CountedOnceIff(job);
  }

  /** One call, two rows: the first names it, the second has no id and takes it again by its time. */
  const TWO_WAYS := Job([CdrCall("a", 0, 0, Some("x")), CdrCall("a", 0, 0, None)], [CapturedCall("a", 0, 0, Some("x"))], map[])

  lemma TwoWaysSettled()
    ensures TWO_WAYS.OutcomeAt(0) == ById(0) && TWO_WAYS.OutcomeAt(1) == ByWindow(0) && !TWO_WAYS.KnownId(1)
  {
    hide Job.TallyOf;
    var job := TWO_WAYS;
    assert job.ByDialerId(1) == job.ByDialerId(0)["x" := 0];
    assert job.OutcomeAt(0) == ById(0);
    assert job.Used(0) == {} && job.Used(1) == {};
    assert job.Fits(1, 0) && job.FirstFit(1, {}, 0) == Some(0);
  }

  lemma IdAndWindowCountTwice()
    ensures |TWO_WAYS.captured| == 1 && TWO_WAYS.NoSharedId() && TWO_WAYS.TallyOf("a", 2).capturedCalls == 2
  {
    TwoWaysSettled();
    CountTwoRows(TWO_WAYS, "a");
    OneKnownId(TWO_WAYS);
  }

  lemma CountTwoRows(job: Job, uid: string)
    requires |job.cdr| == 2 && job.Uid(0) == job.Uid(1) == uid
    requires !job.OutcomeAt(0).Unmatched? && !job.OutcomeAt(1).Unmatched?
    ensures job.TallyOf(uid, 2).capturedCalls == 2
  {
    hide Job.OutcomeAt, Job.Used;
    assert job.TallyOf(uid, 1).capturedCalls == 1;
  }

  lemma OneKnownId(job: Job)
    requires |job.cdr| == 2 && !job.KnownId(1)
    ensures job.NoSharedId()
  {
    hide Job.KnownId;
  }

  /** With dialer ids in play a captured call is counted once per row naming it. */
  lemma SharedDialerIdCountsTwice()
    ensures exists job: Job :: |job.captured| == 1 && job.TallyOf("a", |job.cdr|).capturedCalls == 2
  {
    var row, call := CdrCall("a", 0, 0, Some("x")), CapturedCall("a", 0, 0, Some("x"));
    var job := Job([row, row], [call], map[]);
    assert job.ByDialerId(1) == job.ByDialerId(0)["x" := 0];
    assert job.TallyOf("a", 1).capturedCalls == 1;
    assert job.TallyOf("a", 2).capturedCalls == 2;
  }

  // ----------------------------------------------- what the report says

  function Total(xs: seq<int>): int { if xs == [] then 0 else Total(xs[..|xs| - 1]) + xs[|xs| - 1] }

  lemma UidIsBehind(job: Job, i: nat, uid: string)
    requires i < |job.cdr|
    ensures job.Behind(i, uid) <==> job.Uid(i) == uid
  {
  }

  /** Every outcome so far, in order. */
  ghost function Outcomes(job: Job): (o: seq<Outcome>)
    ensures |o| == |job.cdr| && forall i :: 0 <= i < |o| ==> o[i] == job.OutcomeAt(i)
  {
    seq(|job.cdr|, i requires 0 <= i < |job.cdr| => job.OutcomeAt(i))
  }

  /** The index knows exactly the usable ids that are carried, each by its last carrier. */
  lemma {:induction false} IndexIs(job: Job, n: nat, id: string)
    requires n <= |job.captured|
    ensures id in job.ByDialerId(n) <==> id != "" && exists j :: 0 <= j < n && job.captured[j].dialerId == Some(id)
    ensures id in job.ByDialerId(n) ==> forall j :: job.ByDialerId(n)[id] < j < n ==> job.captured[j].dialerId != Some(id)
  {
    if n > 0 { IndexIs(job, n - 1, id); }
  }

  lemma FreeIs(job: Job, i: nat, j: nat)
    requires i < |job.cdr| && j < |job.captured|
    ensures job.Free(Outcomes(job), i, j) <==> job.Fits(i, j) && j !in job.Used(i)
  {
    hide Job.OutcomeAt, Job.Used, Job.FirstFit;
    UidIsBehind(job, i, job.captured[j].userUid);
    if j in job.Used(i) {
      var k := UsedByRow(job, i, j);
    } else {
      forall k | 0 <= k < i ensures job.OutcomeAt(k) != ByWindow(j) {
        TakenIsUsed(job, k, i);
      }
    }
  }

  lemma TakenIsUsed(job: Job, k: nat, i: nat)
    requires k < i <= |job.cdr|
    ensures job.OutcomeAt(k).ByWindow? ==> job.OutcomeAt(k).call in job.Used(i)
  {
    UsedGrows(job, k + 1, i);
  }

  lemma OutcomeRight(job: Job, i: nat)
    requires i < |job.cdr|
    ensures job.RightAt(Outcomes(job), i)
  {
    var o, id := Outcomes(job), job.cdr[i].dialerId;
    if id.Some? { IndexIs(job, |job.captured|, id.value); }
    forall j | 0 <= j < |job.captured| ensures job.Free(o, i, j) <==> job.Fits(i, j) && j !in job.Used(i) {
      FreeIs(job, i, j);
    }
    hide Job.Free, Job.Fits, Job.Used;
  }

  lemma OutcomesRight(job: Job)
    ensures job.SettledRight(Outcomes(job))
  {
    hide Job.RightAt;
    forall i | 0 <= i < |job.cdr| ensures job.RightAt(Outcomes(job), i) { OutcomeRight(job, i); }
  }

  /** The two lists leave no choice: there is one way to settle an export. */
  lemma {:induction false} SettledOneWay(job: Job, a: seq<Outcome>, b: seq<Outcome>, n: nat)
    requires job.SettledRight(a) && job.SettledRight(b) && n <= |job.cdr|
    ensures a[..n] == b[..n]
  {
    if n > 0 {
      SettledOneWay(job, a, b, n - 1);
      var i := n - 1;
      assert forall k :: 0 <= k < i ==> a[k] == a[..i][k] && b[k] == b[..i][k];
      assert forall j :: job.Free(a, i, j) <==> job.Free(b, i, j);
      assert job.RightAt(a, i) && job.RightAt(b, i);
      hide Job.Free, Job.Behind;
      assert a[i] == b[i];
      assert a[..n] == a[..i] + [a[i]] && b[..n] == b[..i] + [b[i]];
    }
  }

  ghost function Part(s: set<nat>, n: nat): set<nat> { set i | i in s && i < n }

  /** The counters after `n` rows, from the two lists. */
  lemma {:induction false} TallyIs(job: Job, uid: string, n: nat)
    requires n <= |job.cdr| && job.SettledRight(Outcomes(job))
    ensures var t, o := job.TallyOf(uid, n), Outcomes(job);
            && t.dialerCalls == |Part(job.RowsBehind(uid), n)|
            && t.capturedCalls == |Part(job.CapturedRows(o, uid), n)|
            && t.dialerMinutes == Total(job.DialerMinutes(uid)[..n])
            && t.capturedMinutes == Total(job.CapturedMinutes(o, uid)[..n])
  {
    hide Job.OutcomeAt, Job.SettledRight, Job.Behind;
    var o := Outcomes(job);
    if n > 0 {
      var i := n - 1;
      TallyIs(job, uid, i);
      UidIsBehind(job, i, uid);
      PartGrows(job.RowsBehind(uid), i);
      PartGrows(job.CapturedRows(o, uid), i);
      TotalSnoc(job.DialerMinutes(uid), i);
      TotalSnoc(job.CapturedMinutes(o, uid), i);
    } else {
      assert Part(job.RowsBehind(uid), 0) == {} && Part(job.CapturedRows(o, uid), 0) == {};
    }
  }

  lemma PartGrows(s: set<nat>, i: nat)
    ensures |Part(s, i + 1)| == |Part(s, i)| + if i in s then 1 else 0
  {
    assert Part(s, i + 1) == if i in s then Part(s, i) + {i} else Part(s, i);
  }

  lemma TotalSnoc(xs: seq<int>, i: nat)
    requires i < |xs|
    ensures Total(xs[..i + 1]) == Total(xs[..i]) + xs[i]
  {
    assert xs[..i + 1][..i] == xs[..i];
  }

  /** One agent's line of the report, as the export and the captured calls alone decide it. */
  ghost predicate Says(job: Job, o: seq<Outcome>, r: CoverageRow)
    requires job.SettledRight(o)
  {
    && r.tally.dialerCalls == |job.RowsBehind(r.uid)|
    && r.tally.capturedCalls == |job.CapturedRows(o, r.uid)|
    && r.tally.dialerMinutes == Total(job.DialerMinutes(r.uid))
    && r.tally.capturedMinutes == Total(job.CapturedMinutes(o, r.uid))
    && (r.gap == Some(NothingCaptured) <==> job.CapturedRows(o, r.uid) == {} && job.RowsBehind(r.uid) != {})
    && (r.gap == Some(SomeMissing) <==>
          0 < |job.CapturedRows(o, r.uid)| && 10 * |job.CapturedRows(o, r.uid)| < 9 * |job.RowsBehind(r.uid)|)
  }

  lemma ReportSays(job: Job, uid: string)
    requires job.SettledRight(Outcomes(job))
    ensures job.Report(uid).uid == uid && Says(job, Outcomes(job), job.Report(uid))
  {
    hide Job.TallyOf, Job.SettledRight, Job.OutcomeAt;
    var o, n := Outcomes(job), |job.cdr|;
    TallyIs(job, uid, n);
    assert Part(job.RowsBehind(uid), n) == job.RowsBehind(uid);
    assert Part(job.CapturedRows(o, uid), n) == job.CapturedRows(o, uid);
    assert job.DialerMinutes(uid)[..n] == job.DialerMinutes(uid);
    assert job.CapturedMinutes(o, uid)[..n] == job.CapturedMinutes(o, uid);
  }

  // -------------------------------------------------------------- the program

  /** Scan the captured calls for the first free one that fits. */
  method FindFirstFit(job: Job, i: nat, matched: set<nat>) returns (r: Option<nat>)
    requires i < |job.cdr|
    ensures r == job.FirstFit(i, matched, 0)
  {
    var j := 0;
    while j < |job.captured|
      invariant 0 <= j <= |job.captured|
      invariant job.FirstFit(i, matched, 0) == job.FirstFit(i, matched, j)
    {
      if j !in matched && job.Fits(i, j) {
        return Some(j);
      }
      j := j + 1;
    }
    r := None;
  }

  /** Index the captured calls by dialer id. */
  method IndexById(job: Job) returns (r: map<string, nat>)
    ensures r == job.ByDialerId(|job.captured|)
  {
    r := map[];
    for j := 0 to |job.captured|
      invariant r == job.ByDialerId(j)
    {
      var id := job.captured[j].dialerId;
      if Usable(id) { r := r[id.value := j]; }
    }
  }

  /** Settle one dialer row: by id if the index knows it, otherwise by first fit. */
  method SettleRow(job: Job, i: nat, byDialerId: map<string, nat>, matched: set<nat>)
    returns (outcome: Outcome, matched': set<nat>)
    requires i < |job.cdr| && byDialerId == job.ByDialerId(|job.captured|) && matched == job.Used(i)
    ensures outcome == job.OutcomeAt(i) && matched' == job.Used(i + 1)
    ensures outcome.Unmatched? || outcome.call < |job.captured|
  {
    var id := job.cdr[i].dialerId;
    outcome, matched' := Unmatched, matched;
    if Usable(id) && id.value in byDialerId {
      outcome := ById(byDialerId[id.value]);
    } else {
      var fit := FindFirstFit(job, i, matched);
      if fit.Some? {
        outcome, matched' := ByWindow(fit.value), matched + {fit.value};
      }
    }
  }

  /** Match the two sides and count per agent. */
  method CountPerAgent(job: Job) returns (perAgent: map<string, Tally>)
    ensures perAgent.Keys == job.Agents(|job.cdr|)
    ensures forall uid :: uid in perAgent ==> perAgent[uid] == job.TallyOf(uid, |job.cdr|)
  {
    var byDialerId := IndexById(job);
    var matched: set<nat> := {};
    perAgent := map[];
    for i := 0 to |job.cdr|
      invariant matched == job.Used(i)
      invariant perAgent.Keys == job.Agents(i)
      invariant forall uid :: uid in perAgent ==> perAgent[uid] == job.TallyOf(uid, i)
      invariant forall uid :: uid !in perAgent ==> job.TallyOf(uid, i) == Tally(0, 0, 0, 0)
    {
      var uid := job.Uid(i);
      var outcome, matched' := SettleRow(job, i, byDialerId, matched);
      var before := if uid in perAgent then perAgent[uid] else Tally(0, 0, 0, 0);
      perAgent := perAgent[uid := job.AddRow(before, job.cdr[i], outcome)];
      matched := matched';
      assert job.Agents(i + 1) == job.Agents(i) + {uid};
    }
  }

  /** The rows come out in strictly increasing uid order. */
  ghost predicate InUidOrder(rows: seq<CoverageRow>)
  {
    forall a, b :: 0 <= a < b < |rows| ==> TextLess(rows[a].uid, rows[b].uid)
  }

  /** One row per agent, in uid order. */
  method RowsInOrder(perAgent: map<string, Tally>) returns (rows: seq<CoverageRow>)
    ensures InUidOrder(rows)
    ensures forall r :: r in rows <==> r.uid in perAgent && r == RowFor(r.uid, perAgent[r.uid])
  {
    hide TextLess;
    var uids := SortedTexts(perAgent.Keys);
    rows := [];
    for i := 0 to |uids|
      invariant |rows| == i && forall a :: 0 <= a < i ==> rows[a] == RowFor(uids[a], perAgent[uids[a]])
    {
      rows := rows + [RowFor(uids[i], perAgent[uids[i]])];
    }
    forall r: CoverageRow | r.uid in perAgent && r == RowFor(r.uid, perAgent[r.uid]) ensures r in rows {
      var a :| 0 <= a < |uids| && uids[a] == r.uid;
      assert rows[a] == r;
    }
  }

  /** The agent behind a dialer row has a line. */
  ghost predicate Listed(job: Job, rows: seq<CoverageRow>, i: nat)
    requires i < |job.cdr|
  {
    exists r :: r in rows && job.Behind(i, r.uid)
  }

  /**
   One coverage row per agent seen in the export, in uid order, each saying what the one right way
   to settle the export says. Together with `GreedyIsMaximum` the reported captured count is the
   best any matching could do.
   */
  method Reconcile(job: Job) returns (rows: seq<CoverageRow>, ghost settled: seq<Outcome>)
    ensures InUidOrder(rows)
    ensures forall r :: r in rows <==> r.uid in job.Agents(|job.cdr|) && r == job.Report(r.uid)
    ensures job.SettledRight(settled)
    ensures forall r :: r in rows ==> Says(job, settled, r)
    ensures forall r :: r in rows ==> job.RowsBehind(r.uid) != {}
    ensures forall i :: 0 <= i < |job.cdr| ==> Listed(job, rows, i)
  {
    hide Job.Behind, Says, Job.SettledRight, Job.TallyOf, Job.OutcomeAt;
    settled := Outcomes(job);
    OutcomesRight(job);
    var perAgent := CountPerAgent(job);
    rows := RowsInOrder(perAgent);
    forall r | r in rows ensures Says(job, settled, r) { ReportSays(job, r.uid); }
    forall r | r in rows ensures job.RowsBehind(r.uid) != {} {
      var i :| 0 <= i < |job.cdr| && job.Uid(i) == r.uid;
      UidIsBehind(job, i, r.uid);
      assert i in job.RowsBehind(r.uid);
    }
    forall i | 0 <= i < |job.cdr| ensures Listed(job, rows, i) {
      UidIsBehind(job, i, job.Uid(i));
      assert job.Uid(i) in job.Agents(|job.cdr|) && job.Report(job.Uid(i)) in rows;
    }
  }
}
