/**
 Compliance flags and promises to pay: what a re-run of the pipeline writes
 (server/pipeline/sentinel_pipeline/persistence.py) beside what people write
 (server/gateway/internal/store/queries.go).
 */
module Findings {
  import opened Prelude
  import opened ObjectKeys

  datatype Status = Open | Assigned | Upheld | Dismissed

  /** The columns a run writes. */
  datatype Machine = Machine(ruleSetVersion: int, severity: string, spanStartMs: Option<int>, spanEndMs: Option<int>,
                             evidence: Option<string>, rationale: Option<string>, confidence: Option<real>)

  /** The columns people write. */
  datatype Human = Human(status: Status, reviewerUid: Option<string>, reviewerNote: Option<string>,
                         agentResponse: Option<string>, resolvedAt: Option<int>)

  datatype Flag = Flag(machine: Machine, human: Human)

  datatype Key = Key(call: string, rule: string, tier: nat)

  type Flags = map<Key, Flag>

  const UNTOUCHED := Human(Open, None, None, None, None)

  datatype Finding = Finding(rule: string, tier: nat, severity: string, spanStartMs: Option<int>, spanEndMs: Option<int>,
                             evidence: Option<string>, rationale: Option<string>, confidence: Option<real>)

  function MachineOf(version: int, f: Finding): Machine
  {
    Machine(version, f.severity, f.spanStartMs, f.spanEndMs, f.evidence, f.rationale, f.confidence)
  }

  function KeyOf(call: string, f: Finding): Key { Key(call, f.rule, f.tier) }

  // -------------------------------------------------------- rule and tier as text

  function RuleTier(rule: string, tier: nat): string { rule + ":" + Dec(tier) }

  predicate NoColon(s: string) { ':' !in s }

  lemma ColonIsLast(a: string, x: string, b: string, y: string)
    requires NoColon(x) && a + ":" + x == b + ":" + y
    ensures |b| <= |a|
  {
    var p := a + ":" + x;
    assert (b + ":" + y)[|b|] == ':';
    assert p[|b|] == ':' && |b| < |p|;
    forall i | |a| < i < |p| ensures p[i] != ':' {
      assert p[i] == x[i - |a| - 1];
      assert x[i - |a| - 1] in x;
    }
  }

  lemma LastColon(a: string, x: string, b: string, y: string)
    requires NoColon(x) && NoColon(y) && a + ":" + x == b + ":" + y
    ensures a == b && x == y
  {
    var p, q := a + ":" + x, b + ":" + y;
    ColonIsLast(a, x, b, y);
    ColonIsLast(b, y, a, x);
    assert a == p[..|a|] && b == q[..|a|];
    assert x == p[|a| + 1..] && y == q[|a| + 1..];
  }

  /** The text a run compares names exactly one rule and tier, whatever colons the rule holds. */
  lemma RuleTierInjective(r: string, t: nat, r': string, t': nat)
    requires RuleTier(r, t) == RuleTier(r', t')
    ensures r == r' && t == t'
  {
    hide Dec, Value;
    DecReads(t);
    DecReads(t');
    LastColon(r, Dec(t), r', Dec(t'));
  }

  function Names(findings: seq<Finding>): (ns: seq<string>)
    ensures |ns| == |findings| && forall i :: 0 <= i < |ns| ==> ns[i] == RuleTier(findings[i].rule, findings[i].tier)
  {
    seq(|findings|, i requires 0 <= i < |findings| => RuleTier(findings[i].rule, findings[i].tier))
  }

  ghost predicate Found(call: string, findings: seq<Finding>, k: Key)
  {
    exists i :: 0 <= i < |findings| && KeyOf(call, findings[i]) == k
  }

  lemma NamesAgree(call: string, findings: seq<Finding>, k: Key)
    requires k.call == call
    ensures RuleTier(k.rule, k.tier) in Names(findings) <==> Found(call, findings, k)
  {
    hide RuleTier;
    if RuleTier(k.rule, k.tier) in Names(findings) {
      var i :| 0 <= i < |findings| && RuleTier(findings[i].rule, findings[i].tier) == RuleTier(k.rule, k.tier);
      RuleTierInjective(findings[i].rule, findings[i].tier, k.rule, k.tier);
      assert KeyOf(call, findings[i]) == k;
    }
    if Found(call, findings, k) {
      var i :| 0 <= i < |findings| && KeyOf(call, findings[i]) == k;
      assert Names(findings)[i] == RuleTier(k.rule, k.tier);
    }
  }

  // ----------------------------------------------------------------- one write

  /** Somebody has looked at it, as far as its columns show. */
  predicate Touched(h: Human)
  {
    h.status != Open || h.reviewerUid.Some? || h.reviewerNote.Some? || h.agentResponse.Some?
  }

  function Upsert(flags: Flags, call: string, version: int, f: Finding): Flags
  {
    var k := KeyOf(call, f);
    flags[k := Flag(MachineOf(version, f), if k in flags then flags[k].human else UNTOUCHED)]
  }

  function Upserted(flags: Flags, call: string, version: int, findings: seq<Finding>): Flags
  {
    if findings == [] then flags
    else Upsert(Upserted(flags, call, version, findings[..|findings| - 1]), call, version, findings[|findings| - 1])
  }

  predicate Stale(flag: Flag, k: Key, call: string, names: seq<string>)
  {
    k.call == call && !Touched(flag.human) && RuleTier(k.rule, k.tier) !in names
  }

  function Saved(flags: Flags, call: string, version: int, findings: seq<Finding>): Flags
  {
    var all := Upserted(flags, call, version, findings);
    map k | k in all && !Stale(all[k], k, call, Names(findings)) :: all[k]
  }

  class FindingsTable {
    var flags: Flags

    method SaveFindings(call: string, version: int, findings: seq<Finding>)
      modifies this
      ensures flags == Saved(old(flags), call, version, findings)
    {
      hide RuleTier;
      var names: seq<string> := [];
      for i := 0 to |findings|
        invariant names == Names(findings)[..i]
      {
        names := names + [RuleTier(findings[i].rule, findings[i].tier)];
      }
      assert Names(findings)[..|findings|] == Names(findings);
      for i := 0 to |findings|
        invariant flags == Upserted(old(flags), call, version, findings[..i])
      {
        assert findings[..i + 1][..i] == findings[..i];
        var k := KeyOf(call, findings[i]);
        if k in flags {
          flags := flags[k := flags[k].(machine := MachineOf(version, findings[i]))];
        } else {
          flags := flags[k := Flag(MachineOf(version, findings[i]), UNTOUCHED)];
        }
      }
      assert findings[..|findings|] == findings;
      flags := map k | k in flags && !Stale(flags[k], k, call, names) :: flags[k];
    }
  }

  /** What the upserts make of one row. */
  lemma {:induction false} UpsertedAt(flags: Flags, call: string, version: int, findings: seq<Finding>, k: Key)
    ensures var all := Upserted(flags, call, version, findings);
            && (k in all <==> k in flags || Found(call, findings, k))
            && (k in flags ==> all[k].human == flags[k].human)
            && (k !in flags && k in all ==> all[k].human == UNTOUCHED)
            && (k in flags && !Found(call, findings, k) ==> all[k] == flags[k])
  {
    if findings != [] {
      var n := |findings| - 1;
      UpsertedAt(flags, call, version, findings[..n], k);
      FoundSnoc(call, findings, k);
    }
  }

  lemma FoundSnoc(call: string, findings: seq<Finding>, k: Key)
    requires findings != []
    ensures var n := |findings| - 1; Found(call, findings, k) <==> Found(call, findings[..n], k) || KeyOf(call, findings[n]) == k
  {
    var n := |findings| - 1;
    if Found(call, findings, k) {
      var i :| 0 <= i < |findings| && KeyOf(call, findings[i]) == k;
      assert i < n ==> KeyOf(call, findings[..n][i]) == k;
    }
    if Found(call, findings[..n], k) {
      var i :| 0 <= i < n && KeyOf(call, findings[..n][i]) == k;
      assert KeyOf(call, findings[i]) == k;
    }
    assert KeyOf(call, findings[n]) == k ==> Found(call, findings, k);
  }

  /**
   A write leaves exactly its findings, the rows somebody has touched, and other calls' rows;
   it changes no human column, and no column at all of a row it did not find.
   */
  lemma SavedExactly(flags: Flags, call: string, version: int, findings: seq<Finding>, k: Key)
    ensures var after := Saved(flags, call, version, findings);
            && (k in after <==> Found(call, findings, k) || (k in flags && (k.call != call || Touched(flags[k].human))))
            && (k in after && k in flags ==> after[k].human == flags[k].human)
            && (k in after && k !in flags ==> after[k].human == UNTOUCHED)
            && (k in after && !Found(call, findings, k) ==> after[k] == flags[k])
  {
    hide Upserted, RuleTier, Touched;
    UpsertedAt(flags, call, version, findings, k);
    if k.call == call {
      NamesAgree(call, findings, k);
    }
  }

  /** The last finding for a key is what its row says. */
  lemma {:induction false} LastFindingWins(flags: Flags, call: string, version: int, findings: seq<Finding>, i: nat)
    requires i < |findings| && forall j :: i < j < |findings| ==> KeyOf(call, findings[j]) != KeyOf(call, findings[i])
    ensures var k := KeyOf(call, findings[i]);
            && k in Upserted(flags, call, version, findings)
            && Upserted(flags, call, version, findings)[k].machine == MachineOf(version, findings[i])
  {
    var n := |findings| - 1;
    if i < n {
      LastFindingWins(flags, call, version, findings[..n], i);
    }
  }

  lemma MachineIsLastFinding(flags: Flags, call: string, version: int, findings: seq<Finding>, i: nat)
    requires i < |findings| && forall j :: i < j < |findings| ==> KeyOf(call, findings[j]) != KeyOf(call, findings[i])
    ensures var k := KeyOf(call, findings[i]); var after := Saved(flags, call, version, findings);
            k in after && after[k].machine == MachineOf(version, findings[i])
  {
    hide Upserted, RuleTier;
    LastFindingWins(flags, call, version, findings, i);
    var k := KeyOf(call, findings[i]);
    assert Found(call, findings, k);
    SavedExactly(flags, call, version, findings, k);
  }

  /** Some finding for the key is the last one. */
  lemma {:induction false} SomeLast(call: string, findings: seq<Finding>, k: Key) returns (i: nat)
    requires Found(call, findings, k)
    ensures i < |findings| && KeyOf(call, findings[i]) == k && forall j :: i < j < |findings| ==> KeyOf(call, findings[j]) != k
  {
    var n := |findings| - 1;
    if KeyOf(call, findings[n]) == k {
      i := n;
    } else {
      FoundSnoc(call, findings, k);
      i := SomeLast(call, findings[..n], k);
    }
  }

  /** Writing the same findings twice is writing them once. */
  lemma SavedTwice(flags: Flags, call: string, version: int, findings: seq<Finding>)
    ensures Saved(Saved(flags, call, version, findings), call, version, findings) == Saved(flags, call, version, findings)
  {
    hide Saved, Found, Touched;
    var once := Saved(flags, call, version, findings);
    var twice := Saved(once, call, version, findings);
    forall k ensures k in twice <==> k in once
             ensures k in once ==> twice[k] == once[k] {
      SavedExactly(flags, call, version, findings, k);
      SavedExactly(once, call, version, findings, k);
      if Found(call, findings, k) {
        var i := SomeLast(call, findings, k);
        MachineIsLastFinding(flags, call, version, findings, i);
        MachineIsLastFinding(once, call, version, findings, i);
      }
    }
  }

  // -------------------------------------------------------------- people's edits

  /** A review: each part left empty keeps what is there. */
  datatype Edit =
    | Review(status: Option<Status>, uid: string, note: string, at: int)
    | Respond(response: string)

  function OrKeep(text: string, now: Option<string>): Option<string> { if text == "" then now else Some(text) }

  function Edited(h: Human, e: Edit): Human
  {
    match e
    case Review(status, uid, note, at) =>
      Human(if status.Some? then status.value else h.status, OrKeep(uid, h.reviewerUid), OrKeep(note, h.reviewerNote),
            h.agentResponse, if status == Some(Upheld) || status == Some(Dismissed) then Some(at) else h.resolvedAt)
    case Respond(response) => h.(agentResponse := Some(response))
  }

  datatype Event = Write(call: string, version: int, findings: seq<Finding>) | Person(key: Key, edit: Edit)

  function Applied(flags: Flags, ev: Event): Flags
  {
    match ev
    case Write(call, version, findings) => Saved(flags, call, version, findings)
    case Person(k, e) => if k in flags then flags[k := flags[k].(human := Edited(flags[k].human, e))] else flags
  }

  function Run(flags: Flags, evs: seq<Event>): Flags
  {
    if evs == [] then flags else Applied(Run(flags, evs[..|evs| - 1]), evs[|evs| - 1])
  }

  /** The edits people made to one row, in order. */
  function EditsTo(evs: seq<Event>, k: Key): seq<Edit>
  {
    if evs == [] then []
    else
      var last := evs[|evs| - 1];
      EditsTo(evs[..|evs| - 1], k) + (if last.Person? && last.key == k then [last.edit] else [])
  }

  function AllEdits(h: Human, es: seq<Edit>): Human
  {
    if es == [] then h else Edited(AllEdits(h, es[..|es| - 1]), es[|es| - 1])
  }

  /** A name, a note or an answer is on the row. */
  predicate Signed(h: Human) { h.reviewerUid.Some? || h.reviewerNote.Some? || h.agentResponse.Some? }

  lemma {:induction false} SignedStays(h: Human, es: seq<Edit>)
    requires Signed(h)
    ensures Signed(AllEdits(h, es)) && Touched(AllEdits(h, es))
  {
    if es != [] {
      SignedStays(h, es[..|es| - 1]);
    }
  }

  lemma EditsSnoc(h: Human, es: seq<Edit>, e: Edit)
    ensures AllEdits(h, es + [e]) == Edited(AllEdits(h, es), e)
  {
    assert (es + [e])[..|es|] == es;
  }

  /** A write to the row's call that does not find it. */
  ghost predicate Misses(ev: Event, k: Key) { ev.Write? && ev.call == k.call && !Found(k.call, ev.findings, k) }

  /** One event deletes a row exactly when it misses it untouched, and otherwise leaves its human columns to people. */
  lemma EventOn(flags: Flags, ev: Event, k: Key)
    requires k in flags
    ensures k in Applied(flags, ev) <==> (Misses(ev, k) ==> Touched(flags[k].human))
    ensures k in Applied(flags, ev) ==>
              Applied(flags, ev)[k].human == if ev.Person? && ev.key == k then Edited(flags[k].human, ev.edit) else flags[k].human
  {
    hide Saved, Edited, Touched, Found;
    if ev.Write? {
      SavedExactly(flags, ev.call, ev.version, ev.findings, k);
      if ev.call != k.call {
        OtherCall(ev.call, ev.findings, k);
      }
    }
  }

  lemma OtherCall(call: string, findings: seq<Finding>, k: Key)
    requires call != k.call
    ensures !Found(call, findings, k)
  {
  }

  ghost predicate NeverDeleted(flags: Flags, evs: seq<Event>, k: Key) { forall n :: 0 <= n <= |evs| ==> k in Run(flags, evs[..n]) }

  /** Whenever a write misses the row, people's edits so far show on it. */
  ghost predicate AlwaysTouched(h: Human, evs: seq<Event>, k: Key)
  {
    forall i :: 0 <= i < |evs| && Misses(evs[i], k) ==> Touched(AllEdits(h, EditsTo(evs[..i], k)))
  }

  lemma NeverDeletedSnoc(flags: Flags, evs: seq<Event>, k: Key)
    requires evs != []
    ensures NeverDeleted(flags, evs, k) <==> NeverDeleted(flags, evs[..|evs| - 1], k) && k in Run(flags, evs)
  {
    hide Run;
    var init := evs[..|evs| - 1];
    assert evs[..|evs|] == evs;
    assert forall n :: 0 <= n <= |init| ==> init[..n] == evs[..n];
    if NeverDeleted(flags, init, k) && k in Run(flags, evs) {
      forall n | 0 <= n <= |evs| ensures k in Run(flags, evs[..n]) {
        if n < |evs| { assert init[..n] == evs[..n]; }
      }
    }
    if NeverDeleted(flags, evs, k) {
      forall n | 0 <= n <= |init| ensures k in Run(flags, init[..n]) {
        assert init[..n] == evs[..n];
      }
    }
  }

  lemma AlwaysTouchedSnoc(h: Human, evs: seq<Event>, k: Key)
    requires evs != []
    ensures var n := |evs| - 1;
            AlwaysTouched(h, evs, k) <==>
            AlwaysTouched(h, evs[..n], k) && (Misses(evs[n], k) ==> Touched(AllEdits(h, EditsTo(evs[..n], k))))
  {
    hide Misses, Touched, AllEdits, EditsTo;
    var init := evs[..|evs| - 1];
    forall i | 0 <= i < |init| ensures init[..i] == evs[..i] && init[i] == evs[i] {
    }
  }

  /**
   Over every interleaving of writes and edits, a row is never deleted if and only if it shows as
   touched at every write that misses it; and then its human columns are exactly what people made them.
   */
  lemma {:induction false} SurvivesIff(flags: Flags, evs: seq<Event>, k: Key)
    requires k in flags
    ensures NeverDeleted(flags, evs, k) <==> AlwaysTouched(flags[k].human, evs, k)
    ensures NeverDeleted(flags, evs, k) ==>
              k in Run(flags, evs) && Run(flags, evs)[k].human == AllEdits(flags[k].human, EditsTo(evs, k))
  {
    hide Applied, Edited, NeverDeleted, AlwaysTouched, Misses, Touched;
    if evs == [] {
      EmptySurvives(flags, k);
    } else {
      var n := |evs| - 1;
      var init, last := evs[..n], evs[n];
      SurvivesIff(flags, init, k);
      NeverDeletedSnoc(flags, evs, k);
      AlwaysTouchedSnoc(flags[k].human, evs, k);
      if NeverDeleted(flags, init, k) {
        EventOn(Run(flags, init), last, k);
        assert EditsTo(init, k) + [] == EditsTo(init, k);
        if last.Person? {
          EditsSnoc(flags[k].human, EditsTo(init, k), last.edit);
        }
      }
    }
  }

  lemma EmptySurvives(flags: Flags, k: Key)
    requires k in flags
    ensures NeverDeleted(flags, [], k) && AlwaysTouched(flags[k].human, [], k)
  {
  }

  /** In particular a signed row is never deleted, whatever else happens. */
  lemma SignedSurvives(flags: Flags, evs: seq<Event>, k: Key)
    requires k in flags && Signed(flags[k].human)
    ensures k in Run(flags, evs)
    ensures Run(flags, evs)[k].human == AllEdits(flags[k].human, EditsTo(evs, k)) && Signed(Run(flags, evs)[k].human)
  {
    hide Run, Touched, Signed, EditsTo;
    forall i | 0 <= i < |evs| && Misses(evs[i], k) ensures Touched(AllEdits(flags[k].human, EditsTo(evs[..i], k))) {
      SignedStays(flags[k].human, EditsTo(evs[..i], k));
    }
    SurvivesIff(flags, evs, k);
    SignedStays(flags[k].human, EditsTo(evs, k));
  }

  /** An edit that signs the row, for good. */
  predicate Signs(e: Edit) { e.Respond? || e.uid != "" || e.note != "" }

  /** The status the edits leave, starting from an open row. */
  function LastStatus(es: seq<Edit>): Status
  {
    if es == [] then Open
    else
      var e := es[|es| - 1];
      if e.Review? && e.status.Some? then e.status.value else LastStatus(es[..|es| - 1])
  }

  /**
   Which edits keep a row from being deleted: those that sign it, for ever; and unsigned ones
   exactly while the last status given is not `Open`.
   */
  lemma {:induction false} TouchedIff(es: seq<Edit>)
    ensures var h := AllEdits(UNTOUCHED, es);
            && h.status == LastStatus(es)
            && (Signed(h) <==> exists i :: 0 <= i < |es| && Signs(es[i]))
            && (Touched(h) <==> LastStatus(es) != Open || exists i :: 0 <= i < |es| && Signs(es[i]))
  {
    if es != [] {
      var init, e := es[..|es| - 1], es[|es| - 1];
      TouchedIff(init);
      if i :| 0 <= i < |init| && Signs(init[i]) {
        assert Signs(es[i]);
      }
      if i :| 0 <= i < |es| && Signs(es[i]) {
        assert i < |init| ==> Signs(init[i]);
      }
      assert Signs(e) ==> Signs(es[|es| - 1]);
    }
  }

  /** So a row dismissed and reopened without a name or a note is deleted by the next run that does not find it. */
  lemma UnsignedReopenIsForgotten(flags: Flags, k: Key, machine: Machine, version: int)
    requires k in flags && flags[k] == Flag(machine, UNTOUCHED)
    ensures k !in Run(flags, [Person(k, Review(Some(Dismissed), "", "", 1)), Person(k, Review(Some(Open), "", "", 2)), Write(k.call, version, [])])
  {
    hide Saved;
    var a, b := Person(k, Review(Some(Dismissed), "", "", 1)), Person(k, Review(Some(Open), "", "", 2));
    var c := Write(k.call, version, []);
    assert [a, b, c][..2] == [a, b] && [a, b][..1] == [a] && [a][..0] == [];
    assert Run(flags, [a]) == Applied(flags, a);
    var before := Run(flags, [a, b]);
    assert !Touched(before[k].human);
    SavedExactly(before, k.call, version, [], k);
  }

  // ------------------------------------------------------------ promises to pay

  datatype Extracted = Extracted(amountPaise: Option<int>, dueDate: Option<string>, confidence: real, span: Option<(int, int)>)

  datatype Agent = Agent(confirmed: Option<bool>, amountPaise: Option<int>, dueDate: Option<string>, correctedAt: Option<int>)

  datatype Ptp = Ptp(extracted: Extracted, agent: Agent)

  const NO_AGENT := Agent(None, None, None, None)

  /** What a run makes of a call's promise: it may be extracted afresh, retracted, or left to the agent. */
  function SavedPtp(row: Option<Ptp>, seen: Option<Extracted>): Option<Ptp>
  {
    if row.Some? && row.value.agent.correctedAt.Some? then row
    else if seen.None? then None
    else Some(Ptp(seen.value, if row.Some? then row.value.agent else NO_AGENT))
  }

  class PtpTable {
    var rows: map<string, Ptp>

    function At(call: string): Option<Ptp>
      reads this
    {
      if call in rows then Some(rows[call]) else None
    }

    method SavePtp(call: string, seen: Option<Extracted>)
      modifies this
      ensures At(call) == SavedPtp(old(At(call)), seen)
      ensures forall other :: other != call ==> At(other) == old(At(other))
    {
      if seen.Some? {
        if call !in rows {
          rows := rows[call := Ptp(seen.value, NO_AGENT)];
        } else if rows[call].agent.correctedAt.None? {
          rows := rows[call := rows[call].(extracted := seen.value)];
        }
      } else if call in rows && rows[call].agent.correctedAt.None? {
        rows := rows - {call};
      }
    }
  }

  datatype PtpEvent = Extract(seen: Option<Extracted>) | Confirm(present: bool, amountPaise: Option<int>, dueDate: Option<string>, at: int)

  function Confirmed(row: Option<Ptp>, e: PtpEvent): Option<Ptp>
    requires e.Confirm?
  {
    var agent := Agent(Some(e.present), e.amountPaise, e.dueDate, Some(e.at));
    Some(if row.Some? then row.value.(agent := agent) else Ptp(Extracted(None, None, 0.0, None), agent))
  }

  function PtpRun(row: Option<Ptp>, evs: seq<PtpEvent>): Option<Ptp>
  {
    if evs == [] then row
    else
      var before := PtpRun(row, evs[..|evs| - 1]);
      var e := evs[|evs| - 1];
      if e.Extract? then SavedPtp(before, e.seen) else Confirmed(before, e)
  }

  /** The last confirmation, if any. */
  function LastConfirm(evs: seq<PtpEvent>): Option<PtpEvent>
  {
    if evs == [] then None else if evs[|evs| - 1].Confirm? then Some(evs[|evs| - 1]) else LastConfirm(evs[..|evs| - 1])
  }

  /** Once an agent has spoken, their last word stands through every later run, and nothing is retracted. */
  lemma {:induction false} LastWordStands(row: Option<Ptp>, evs: seq<PtpEvent>)
    requires row.Some? ==> row.value.agent == NO_AGENT
    ensures var r := PtpRun(row, evs);
            match LastConfirm(evs)
            case None => r.Some? ==> r.value.agent == NO_AGENT
            case Some(c) => c.Confirm? && r.Some? && r.value.agent == Agent(Some(c.present), c.amountPaise, c.dueDate, Some(c.at))
  {
    if evs != [] {
      LastWordStands(row, evs[..|evs| - 1]);
    }
  }

  /** Until an agent speaks, the row is exactly the last extraction, and absent if that saw no promise. */
  lemma BeforeConfirmation(row: Option<Ptp>, evs: seq<PtpEvent>)
    requires (row.Some? ==> row.value.agent == NO_AGENT) && evs != [] && forall i :: 0 <= i < |evs| ==> evs[i].Extract?
    ensures PtpRun(row, evs) == match evs[|evs| - 1].seen case None => None case Some(seen) => Some(Ptp(seen, NO_AGENT))
  {
    var init := evs[..|evs| - 1];
    LastWordStands(row, init);
    NobodySpoke(init);
  }

  lemma {:induction false} NobodySpoke(evs: seq<PtpEvent>)
    requires forall i :: 0 <= i < |evs| ==> evs[i].Extract?
    ensures LastConfirm(evs).None?
  {
    if evs != [] { NobodySpoke(evs[..|evs| - 1]); }
  }

  /** The agent's word keeps the extraction it answered, and no later extraction changes anything. */
  lemma {:induction false} AfterConfirmation(row: Option<Ptp>, evs: seq<PtpEvent>, c: PtpEvent, later: seq<PtpEvent>)
    requires row.Some? ==> row.value.agent == NO_AGENT
    requires c.Confirm? && forall i :: 0 <= i < |later| ==> later[i].Extract?
    ensures var was, r := PtpRun(row, evs), PtpRun(row, evs + [c] + later);
            && r.Some? && r.value.agent == Agent(Some(c.present), c.amountPaise, c.dueDate, Some(c.at))
            && r.value.extracted == if was.Some? then was.value.extracted else Extracted(None, None, 0.0, None)
    decreases |later|
  {
    var all := evs + [c] + later;
    if later == [] {
      assert all == evs + [c] && all[..|all| - 1] == evs;
    } else {
      AfterConfirmation(row, evs, c, later[..|later| - 1]);
      assert all[..|all| - 1] == evs + [c] + later[..|later| - 1] && all[|all| - 1] == later[|later| - 1];
    }
  }

  // ------------------------------------------------- what the human columns say

  /** The last edit for which a column is set, read back from the end. */
  function LastReviewer(es: seq<Edit>): Option<string>
  {
    if es == [] then None
    else
      var e := es[|es| - 1];
      if e.Review? && e.uid != "" then Some(e.uid) else LastReviewer(es[..|es| - 1])
  }

  function LastNote(es: seq<Edit>): Option<string>
  {
    if es == [] then None
    else
      var e := es[|es| - 1];
      if e.Review? && e.note != "" then Some(e.note) else LastNote(es[..|es| - 1])
  }

  function LastResponse(es: seq<Edit>): Option<string>
  {
    if es == [] then None
    else
      var e := es[|es| - 1];
      if e.Respond? then Some(e.response) else LastResponse(es[..|es| - 1])
  }

  function LastResolution(es: seq<Edit>): Option<int>
  {
    if es == [] then None
    else
      var e := es[|es| - 1];
      if e.Review? && e.status in {Some(Upheld), Some(Dismissed)} then Some(e.at) else LastResolution(es[..|es| - 1])
  }

  /** Every human column is what was last said for it; a flag's resolution time is that of the last verdict on it. */
  lemma {:induction false} ColumnsAre(es: seq<Edit>)
    ensures AllEdits(UNTOUCHED, es) == Human(LastStatus(es), LastReviewer(es), LastNote(es), LastResponse(es), LastResolution(es))
  {
    if es != [] { ColumnsAre(es[..|es| - 1]); }
  }
}
