/**
 The spool's operations (client/sentinel-core/src/spool.rs), each a method on the tables proved
 against a function of the tables, and what every sequence of them keeps.
 */
module Spool {
  import opened Prelude
  import opened Media
  import opened SpoolTables

  datatype CallRow = CallRow(startJson: string, endJson: Option<string>, rejected: bool, createdMs: nat)

  datatype ChannelKey = ChannelKey(call: string, channel: Channel)

  datatype Tables = Tables(segments: Table, calls: map<string, CallRow>, acks: map<ChannelKey, u32>)

  datatype ClientEvent = SpoolEviction(atMs: nat, count: nat, detail: string)

  datatype PushResult = Refused(call: string) | Accepted(event: Option<ClientEvent>)

  // ----------------------------------------------- what each statement does

  function ChannelOf(k: Key): ChannelKey { ChannelKey(k.call, k.channel) }

  /** A call the server rejected for good. */
  predicate IsSealed(t: Tables, call: string) { call in t.calls && t.calls[call].rejected }

  /** `ON CONFLICT DO NOTHING`: the first row under a key stays. */
  function Inserted(t: Table, k: Key, row: Row): Table { if k in t then t else t[k := row] }

  function Pushed(t: Tables, limits: Limits, k: Key, row: Row): Tables
  {
    t.(segments := Enforced(Inserted(t.segments, k, row), limits, row.createdMs))
  }

  /** The watermark a cumulative ack leaves: it never moves backwards. */
  function Watermark(acks: map<ChannelKey, u32>, c: ChannelKey, through: u32): u32
  {
    if c in acks && acks[c] > through then acks[c] else through
  }

  /** The rows an ack through `through` leaves. */
  function Unacked(t: Table, c: ChannelKey, through: u32): Table
  {
    map k | k in t && !(ChannelOf(k) == c && k.num <= through) :: t[k]
  }

  function Acked(t: Tables, c: ChannelKey, through: u32): Tables
  {
    var effective := Watermark(t.acks, c, through);
    t.(acks := t.acks[c := effective], segments := Unacked(t.segments, c, effective))
  }

  function RowsOutside(t: Table, call: string): Table { map k | k in t && k.call != call :: t[k] }

  function Sealed(t: Tables, call: string): Tables
  {
    t.(segments := RowsOutside(t.segments, call),
       calls := if call in t.calls then t.calls[call := t.calls[call].(rejected := true)] else t.calls)
  }

  function Vacuumed(t: Tables): Tables
  {
    t.(calls := map c | c in t.calls && (t.calls[c].endJson.None? || exists k :: k in t.segments && k.call == c) :: t.calls[c])
  }

  function Begun(t: Tables, call: string, startJson: string, nowMs: nat): Tables
  {
    if call in t.calls then t else t.(calls := t.calls[call := CallRow(startJson, None, false, nowMs)])
  }

  function Ended(t: Tables, call: string, endJson: string): Tables
  {
    if call in t.calls then t.(calls := t.calls[call := t.calls[call].(endJson := Some(endJson))]) else t
  }

  /** The rows of a call still to be sent. */
  function Pending(t: Tables, call: string): set<Key>
  {
    set k | k in t.segments && k.call == call && (ChannelOf(k) in t.acks ==> k.num > t.acks[ChannelOf(k)])
  }

  /** Keys of one call by channel and sequence number. */
  function InSendOrder(keys: set<Key>): seq<Rank> { Ascending(set k | k in keys :: Rank(0, k)) }

  // ------------------------------------------------------------- the object

  class Spool {
    const limits: Limits
    var segments: Table
    var calls: map<string, CallRow>
    var acks: map<ChannelKey, u32>

    function State(): Tables
      reads this
    {
      Tables(segments, calls, acks)
    }

    /** Opening creates what is missing and keeps what is on disk. */
    constructor (onDisk: Option<Tables>, limits: Limits)
      ensures this.limits == limits
      ensures State() == if onDisk.Some? then onDisk.value else Tables(map[], map[], map[])
    {
      this.limits := limits;
      var Tables(rows, starts, marks) := if onDisk.Some? then onDisk.value else Tables(map[], map[], map[]);
      segments, calls, acks := rows, starts, marks;
    }

    method BeginCall(call: string, startJson: string, nowMs: nat)
      modifies this`calls
      ensures State() == Begun(old(State()), call, startJson, nowMs)
      ensures call in calls && calls[call] == if call in old(calls) then old(calls)[call] else CallRow(startJson, None, false, nowMs)
      ensures forall c :: c != call ==> (c in calls <==> c in old(calls)) && (c in calls ==> calls[c] == old(calls)[c])
    {
      if call !in calls {
        calls := calls[call := CallRow(startJson, None, false, nowMs)];
      }
    }

    method EndCall(call: string, endJson: string)
      modifies this`calls
      ensures State() == Ended(old(State()), call, endJson)
      ensures calls.Keys == old(calls).Keys
      ensures forall c :: c in calls ==>
                calls[c] == if c == call then old(calls)[c].(endJson := Some(endJson)) else old(calls)[c]
    {
      if call in calls {
        calls := calls[call := calls[call].(endJson := Some(endJson))];
      }
    }

    /** Append one segment, then honour the caps. */
    method Push(k: Key, row: Row) returns (r: PushResult)
      modifies this`segments
      ensures IsSealed(old(State()), k.call) ==> r == Refused(k.call) && State() == old(State())
      ensures !IsSealed(old(State()), k.call) ==>
                && State() == Pushed(old(State()), limits, k, row)
                && r == Accepted(CapEvent(EnforcedCount(Inserted(old(segments), k, row), limits, row.createdMs), row.createdMs))
    {
      if k.call in calls && calls[k.call].rejected {
        return Refused(k.call);
      }
      if k !in segments {
        segments := segments[k := row];
      }
      var event := EnforceLimits(row.createdMs);
      r := Accepted(event);
    }

    /** Evict oldest first until both caps are satisfied. */
    method EnforceLimits(nowMs: nat) returns (event: Option<ClientEvent>)
      modifies this`segments
      ensures segments == Enforced(old(segments), limits, nowMs)
      ensures event == CapEvent(EnforcedCount(old(segments), limits, nowMs), nowMs)
      ensures HeldBytes(segments) <= limits.maxBytes
      ensures forall k :: k in segments ==> k in old(segments) && segments[k] == old(segments)[k] && segments[k].createdMs + limits.maxAgeMs >= nowMs
      ensures event.None? <==> segments == old(segments)
      ensures event.Some? ==> event.value.atMs == nowMs && event.value.count + |segments| == |old(segments)|
    {
      EnforcedReport(segments, limits, nowMs);
      hide HeldBytes, DropOldest, BatchedCount, Sizes;
      var cutoff := SatSub(nowMs, limits.maxAgeMs);
      AgeCutSubset(segments, cutoff);
      var young := AgeCut(segments, cutoff);
      var evicted := |segments| - |young|;
      segments := young;
      var n := EvictToSize();
      event := CapEvent(evicted + n, nowMs);
    }

    /** Delete batches of the oldest rows until the size cap holds. */
    method EvictToSize() returns (evicted: nat)
      modifies this`segments
      ensures evicted == BatchedCount(Sizes(old(segments)), limits.maxBytes)
      ensures segments == DropOldest(old(segments), evicted)
    {
      hide *;
      evicted := 0;
      ghost var due := BatchedCount(Sizes(segments), limits.maxBytes);
      ghost var goal := DropOldest(segments, due);
      while true
        invariant DropOldest(segments, BatchedCount(Sizes(segments), limits.maxBytes)) == goal
        invariant evicted + BatchedCount(Sizes(segments), limits.maxBytes) == due
        decreases |segments|
      {
        BatchStep(segments, limits.maxBytes);
        var bytes := HeldBytes(segments);
        if bytes <= limits.maxBytes { break; }
        var batch := BatchFor(bytes - limits.maxBytes);
        var n := Min(batch, |segments|);
        segments := DropOldest(segments, n);
        if n == 0 { break; }
        evicted := evicted + n;
      }
    }

    /** Unacked segments of a call, by channel and sequence number, at most `limit`. */
    method TakePending(call: string, limit: nat) returns (rows: seq<(Key, Row)>)
      ensures var all := InSendOrder(Pending(State(), call));
              |rows| == Min(limit, |all|) && forall i :: 0 <= i < |rows| ==>
                && all[i].key in segments && rows[i] == (all[i].key, segments[all[i].key])
      ensures forall i, j :: 0 <= i < j < |rows| ==>
                || (rows[i].0.channel == Far && rows[j].0.channel == Near)
                || (rows[i].0.channel == rows[j].0.channel && rows[i].0.num < rows[j].0.num)
      ensures forall i :: 0 <= i < |rows| ==>
                var (k, row) := rows[i];
                && k.call == call && k in segments && segments[k] == row
                && (ChannelKey(call, k.channel) in acks ==> k.num > acks[ChannelKey(call, k.channel)])
      ensures forall k :: k in segments && k.call == call && (ChannelKey(call, k.channel) in acks ==> k.num > acks[ChannelKey(call, k.channel)]) ==>
                || (k, segments[k]) in rows
                || (|rows| == limit && forall i :: 0 <= i < |rows| ==>
                      || (rows[i].0.channel == Far && k.channel == Near)
                      || (rows[i].0.channel == k.channel && rows[i].0.num < k.num))
    {
      var all, table := InSendOrder(Pending(State(), call)), segments;
      PendingListed(State(), call);
      ghost var t := State();
      SendOrderIs(t, call);
      PendingIff(t, call);
      hide Pending, InSendOrder, Increasing;
      rows := seq(if limit < |all| then limit else |all|,
                  i requires 0 <= i < |all| && all[i].key in table => (all[i].key, table[all[i].key]));
      forall k | k in Pending(t, call)
        ensures (k, table[k]) in rows || (|rows| == limit && forall i :: 0 <= i < |rows| ==> SentBefore(rows[i].0, k))
      {
        var n :| 0 <= n < |all| && all[n].key == k;
        if n < |rows| { assert rows[n] == (k, table[k]); }
      }
      forall i | 0 <= i < |rows| ensures rows[i].0 in Pending(t, call) {
        assert rows[i].0 == all[i].key;
      }
    }

    /** Apply a cumulative ack; returns how many rows it let go. */
    method Ack(c: ChannelKey, through: u32) returns (deleted: nat)
      modifies this`segments, this`acks
      ensures State() == Acked(old(State()), c, through)
      ensures deleted == |old(segments)| - |segments|
    {
      var effective := through;
      if c in acks && acks[c] > through { effective := acks[c]; }
      acks := acks[c := effective];
      var kept := Unacked(segments, c, effective);
      SubsetSize(kept.Keys, segments.Keys);
      deleted := |segments| - |kept|;
      segments := kept;
    }

    /** Drop everything of a call the server rejected, and say how much. */
    method Seal(call: string, reason: string, nowMs: nat) returns (event: ClientEvent)
      modifies this`segments, this`calls
      ensures State() == Sealed(old(State()), call)
      ensures event == SpoolEviction(nowMs, event.count, "call rejected: " + reason)
      ensures event.count == |old(segments)| - |segments|
      ensures forall k :: k in segments <==> k in old(segments) && k.call != call
      ensures forall k :: k in segments ==> segments[k] == old(segments)[k]
    {
      var kept := RowsOutside(segments, call);
      SubsetSize(kept.Keys, segments.Keys);
      event := SpoolEviction(nowMs, |segments| - |kept|, "call rejected: " + reason);
      segments := kept;
      if call in calls {
        calls := calls[call := calls[call].(rejected := true)];
      }
    }

    /** Forget calls that have ended and hold no segments. */
    method VacuumFinishedCalls() returns (deleted: nat)
      modifies this`calls
      ensures State() == Vacuumed(old(State()))
      ensures deleted == |old(calls)| - |calls|
      ensures forall c :: c in old(calls) ==>
                (c !in calls <==> old(calls)[c].endJson.Some? && forall k :: k in segments ==> k.call != c)
    {
      var kept := Vacuumed(State()).calls;
      SubsetSize(kept.Keys, calls.Keys);
      deleted := |calls| - |kept|;
      calls := kept;
    }
  }

  /** No event for no loss; otherwise one that carries the count. */
  function CapEvent(evicted: nat, nowMs: nat): Option<ClientEvent>
  {
    if evicted == 0 then None else Some(SpoolEviction(nowMs, evicted, "spool cap reached"))
  }

  /** What both caps leave, and the report that goes with it. */
  lemma EnforcedReport(t: Table, limits: Limits, nowMs: nat)
    ensures var kept, event := Enforced(t, limits, nowMs), CapEvent(EnforcedCount(t, limits, nowMs), nowMs);
            && HeldBytes(kept) <= limits.maxBytes
            && (forall k :: k in kept ==> k in t && kept[k] == t[k] && kept[k].createdMs + limits.maxAgeMs >= nowMs)
            && (event.None? <==> kept == t)
            && (event.Some? ==> event.value.atMs == nowMs && event.value.count + |kept| == |t|)
  {
    hide Enforced, EnforcedCount, HeldBytes;
    EnforcedWithinCaps(t, limits, nowMs);
    EnforcedIsPrefix(t, limits, nowMs);
  }

  /** One pass of the size loop: either the cap holds, or the batch is the first part of what is due. */
  lemma BatchStep(t: Table, maxBytes: nat)
    ensures HeldBytes(t) <= maxBytes ==> BatchedCount(Sizes(t), maxBytes) == 0 && DropOldest(t, 0) == t
    ensures HeldBytes(t) > maxBytes ==>
              var n: int := Min(BatchFor(HeldBytes(t) - maxBytes), |t|);
              var rest := DropOldest(t, n);
              && 0 < n && |rest| < |t|
              && BatchedCount(Sizes(t), maxBytes) == n + BatchedCount(Sizes(rest), maxBytes)
              && DropOldest(t, BatchedCount(Sizes(t), maxBytes)) == DropOldest(rest, BatchedCount(Sizes(rest), maxBytes))
  {
    if HeldBytes(t) > maxBytes {
      var n := Min(BatchFor(HeldBytes(t) - maxBytes), |t|);
      var sizes := Sizes(t);
      assert sizes != [];
      assert BatchedCount(sizes, maxBytes) == n + BatchedCount(sizes[n..], maxBytes);
      hide DropOldest, Sizes, BatchedCount, BatchFor, Sum;
      SizesAfterDrop(t, n);
      DropOldestIsPrefix(t, n);
      DropOldestAdds(t, n, BatchedCount(Sizes(t)[n..], maxBytes));
    }
  }

  lemma PendingIff(t: Tables, call: string)
    ensures forall k :: k in Pending(t, call) <==>
                        && k in t.segments && k.call == call
                        && (ChannelKey(call, k.channel) in t.acks ==> k.num > t.acks[ChannelKey(call, k.channel)])
  {
  }

  predicate SentBefore(a: Key, b: Key)
  {
    (a.channel == Far && b.channel == Near) || (a.channel == b.channel && a.num < b.num)
  }

  /** The rows to send: the call's rows above its watermarks, far before near, by number. */
  lemma SendOrderIs(t: Tables, call: string)
    ensures var all := InSendOrder(Pending(t, call));
            && (forall i, j :: 0 <= i < j < |all| ==> SentBefore(all[i].key, all[j].key))
            && (forall k :: k in Pending(t, call) <==> exists i :: 0 <= i < |all| && all[i].key == k)
  {
    var keys := Pending(t, call);
    var ranks := set k | k in keys :: Rank(0, k);
    var all := InSendOrder(keys);
    AscendingIncreases(ranks);
    AscendingMembers(ranks);
    forall k | k in keys ensures exists i :: 0 <= i < |all| && all[i].key == k {
      assert Rank(0, k) in all;
    }
    hide Ascending;
    forall i | 0 <= i < |all| ensures all[i].key in keys && all[i].createdMs == 0 {
      assert all[i] in all;
    }
    forall i, j | 0 <= i < j < |all| ensures SentBefore(all[i].key, all[j].key) {
      assert RankLess(all[i], all[j]);
      if TextLess(call, call) { TextLessAsym(call, call); }
    }
  }

  lemma PendingListed(t: Tables, call: string)
    ensures forall i :: 0 <= i < |InSendOrder(Pending(t, call))| ==> InSendOrder(Pending(t, call))[i].key in t.segments
  {
    var all := InSendOrder(Pending(t, call));
    SendOrderMembers(Pending(t, call));
    forall i | 0 <= i < |all| ensures all[i].key in t.segments {
      assert all[i] in all;
    }
  }

  lemma SendOrderMembers(keys: set<Key>)
    ensures forall r :: r in InSendOrder(keys) <==> r.key in keys && r == Rank(0, r.key)
    ensures |InSendOrder(keys)| == |set k | k in keys :: Rank(0, k)|
  {
    AscendingMembers(set k | k in keys :: Rank(0, k));
  }

  // --------------------------------------------- acks commute and collapse

  datatype Ack = Ack(channel: ChannelKey, through: u32)

  function AckedAll(t: Tables, acks: seq<Ack>): Tables
    decreases |acks|
  {
    if acks == [] then t else AckedAll(Acked(t, acks[0].channel, acks[0].through), acks[1..])
  }

  /** The highest ack for a channel in a batch, if there is one. */
  function Highest(acks: seq<Ack>, c: ChannelKey): (r: Option<u32>)
    ensures r.Some? <==> exists i :: 0 <= i < |acks| && acks[i].channel == c
    ensures r.Some? ==> forall i :: 0 <= i < |acks| && acks[i].channel == c ==> acks[i].through <= r.value
    ensures r.Some? ==> exists i :: 0 <= i < |acks| && acks[i].channel == c && acks[i].through == r.value
  {
    if acks == [] then None
    else
      var rest := Highest(acks[1..], c);
      if acks[0].channel != c then rest
      else if rest.Some? && rest.value > acks[0].through then rest
      else Some(acks[0].through)
  }

  function Mark(acks: map<ChannelKey, u32>, c: ChannelKey): Option<u32> { if c in acks then Some(acks[c]) else None }

  /** The higher of two watermarks, either of which may be missing. */
  function Join(a: Option<u32>, b: Option<u32>): Option<u32>
  {
    if a.None? then b else if b.None? || a.value >= b.value then a else b
  }

  /** After any batch of acks, a channel's watermark is the higher of the old one and the batch's highest. */
  lemma {:induction false} WatermarkAfter(t: Tables, acks: seq<Ack>, c: ChannelKey)
    ensures Mark(AckedAll(t, acks).acks, c) == Join(Mark(t.acks, c), Highest(acks, c))
    decreases |acks|
  {
    if acks != [] { WatermarkAfter(Acked(t, acks[0].channel, acks[0].through), acks[1..], c); }
  }

  /** The rows an acked batch leaves: those above the watermark on the channels it names. */
  ghost predicate Survives(t: Tables, acks: seq<Ack>, k: Key)
  {
    var hi := Highest(acks, ChannelOf(k));
    hi.Some? ==> k.num > Join(Mark(t.acks, ChannelOf(k)), hi).value
  }

  lemma {:induction false} RowsAfter(t: Tables, acks: seq<Ack>, k: Key)
    ensures var t' := AckedAll(t, acks);
            && (k in t'.segments <==> k in t.segments && Survives(t, acks, k))
            && (k in t'.segments ==> t'.segments[k] == t.segments[k])
            && t'.calls == t.calls
    decreases |acks|
  {
    if acks != [] { RowsAfter(Acked(t, acks[0].channel, acks[0].through), acks[1..], k); }
  }

  /** Two batches with the same highest ack per channel leave the same tables. */
  lemma OnlyMaximaMatter(t: Tables, a: seq<Ack>, b: seq<Ack>)
    requires forall c :: Highest(a, c) == Highest(b, c)
    ensures AckedAll(t, a) == AckedAll(t, b)
  {
    var x, y := AckedAll(t, a), AckedAll(t, b);
    hide AckedAll, Highest;
    RowsAfter(t, a, Key("", Far, 0));
    RowsAfter(t, b, Key("", Far, 0));
    forall c ensures Mark(x.acks, c) == Mark(y.acks, c) {
      WatermarkAfter(t, a, c);
      WatermarkAfter(t, b, c);
    }
    SameMarks(x.acks, y.acks);
    forall k ensures (k in x.segments <==> k in y.segments) && (k in x.segments ==> x.segments[k] == y.segments[k]) {
      RowsAfter(t, a, k);
      RowsAfter(t, b, k);
      assert Highest(a, ChannelOf(k)) == Highest(b, ChannelOf(k));
    }
    assert x.segments == y.segments;
  }

  lemma SameMarks(x: map<ChannelKey, u32>, y: map<ChannelKey, u32>)
    requires forall c :: Mark(x, c) == Mark(y, c)
    ensures x == y
  {
    forall c ensures (c in x <==> c in y) && (c in x ==> x[c] == y[c]) {
      assert Mark(x, c) == Mark(y, c);
    }
  }

  lemma HighestWithin(a: seq<Ack>, b: seq<Ack>, c: ChannelKey)
    requires forall x :: x in a ==> x in b
    ensures Highest(a, c).Some? ==> Highest(b, c).Some? && Highest(a, c).value <= Highest(b, c).value
  {
    if Highest(a, c).Some? {
      var i :| 0 <= i < |a| && a[i].channel == c && a[i].through == Highest(a, c).value;
      assert a[i] in b;
      var j :| 0 <= j < |b| && b[j] == a[i];
    }
  }

  /** Lost, repeated or reordered acks: only which acks arrived matters, not when or how often. */
  lemma AckOrderIsIrrelevant(t: Tables, a: seq<Ack>, b: seq<Ack>)
    requires forall x :: x in a <==> x in b
    ensures AckedAll(t, a) == AckedAll(t, b)
  {
    forall c ensures Highest(a, c) == Highest(b, c) {
      HighestWithin(a, b, c);
      HighestWithin(b, a, c);
    }
    OnlyMaximaMatter(t, a, b);
  }

  // ------------------------------------------------ no loss is ever silent

  datatype Op =
    | BeginCall(call: string, startJson: string, nowMs: nat)
    | EndCall(call: string, endJson: string)
    | PushSegment(key: Key, row: Row)
    | AckThrough(channel: ChannelKey, through: u32)
    | SealCall(call: string)
    | Vacuum

  function Step(t: Tables, limits: Limits, op: Op): Tables
  {
    match op
    case BeginCall(call, json, now) => Begun(t, call, json, now)
    case EndCall(call, json) => Ended(t, call, json)
    case PushSegment(k, row) => if IsSealed(t, k.call) then t else Pushed(t, limits, k, row)
    case AckThrough(c, n) => Acked(t, c, n)
    case SealCall(call) => Sealed(t, call)
    case Vacuum => Vacuumed(t)
  }

  /** What an operation inserts, what its returned count releases, and what its event admits to losing. */
  datatype Totals = Totals(inserted: int, released: int, reported: int)

  function Effect(t: Tables, limits: Limits, op: Op): Totals
  {
    match op
    case PushSegment(k, row) =>
      if IsSealed(t, k.call) then Totals(0, 0, 0)
      else
        var event := CapEvent(EnforcedCount(Inserted(t.segments, k, row), limits, row.createdMs), row.createdMs);
        Totals(if k in t.segments then 0 else 1, 0, if event.None? then 0 else event.value.count)
    case AckThrough(c, n) => Totals(0, |t.segments| - |Acked(t, c, n).segments|, 0)
    case SealCall(call) => Totals(0, 0, |t.segments| - |Sealed(t, call).segments|)
    case _ => Totals(0, 0, 0)
  }

  function Run(t: Tables, limits: Limits, ops: seq<Op>): Tables
    decreases |ops|
  {
    if ops == [] then t else Run(Step(t, limits, ops[0]), limits, ops[1..])
  }

  function Effects(t: Tables, limits: Limits, ops: seq<Op>): Totals
    decreases |ops|
  {
    if ops == [] then Totals(0, 0, 0)
    else
      var e, rest := Effect(t, limits, ops[0]), Effects(Step(t, limits, ops[0]), limits, ops[1..]);
      Totals(e.inserted + rest.inserted, e.released + rest.released, e.reported + rest.reported)
  }

  lemma PushBalances(t: Table, limits: Limits, k: Key, row: Row)
    ensures var with := Inserted(t, k, row); var event := CapEvent(EnforcedCount(with, limits, row.createdMs), row.createdMs);
            |t| + (if k in t then 0 else 1) == |Enforced(with, limits, row.createdMs)| + if event.None? then 0 else event.value.count
  {
    hide Enforced, EnforcedCount;
    var with := Inserted(t, k, row);
    assert with.Keys == t.Keys + {k};
    EnforcedIsPrefix(with, limits, row.createdMs);
  }

  lemma StepBalances(t: Tables, limits: Limits, op: Op)
    ensures var e := Effect(t, limits, op);
            |t.segments| + e.inserted == |Step(t, limits, op).segments| + e.released + e.reported
  {
    hide Enforced, EnforcedCount, Inserted, CapEvent;
    if op.PushSegment? { PushBalances(t.segments, limits, op.key, op.row); }
  }

  /**
   Over every run: rows in, plus rows ever inserted, equal rows still held, plus rows released by
   acks, plus rows admitted lost in events. Nothing leaves the spool unaccounted.
   */
  lemma {:induction false} NoSilentLoss(t: Tables, limits: Limits, ops: seq<Op>)
    ensures var e := Effects(t, limits, ops);
            |t.segments| + e.inserted == |Run(t, limits, ops).segments| + e.released + e.reported
    decreases |ops|
  {
    if ops != [] {
      StepBalances(t, limits, ops[0]);
      NoSilentLoss(Step(t, limits, ops[0]), limits, ops[1..]);
    }
  }

  // --------------------------------------------------- a row is as pushed

  /** No operation changes a row it leaves, and only the push of that row adds it. */
  lemma RowsAreAsPushed(t: Tables, limits: Limits, op: Op, k: Key)
    requires k in Step(t, limits, op).segments
    ensures if k in t.segments then Step(t, limits, op).segments[k] == t.segments[k]
            else op == PushSegment(k, Step(t, limits, op).segments[k])
  {
    if op.PushSegment? && !IsSealed(t, op.key.call) {
      hide Enforced;
      EnforcedIsPrefix(Inserted(t.segments, op.key, op.row), limits, op.row.createdMs);
    }
  }

  // ------------------------------------------------- a rejected call stays shut

  /** Every push to the call is refused, and it holds nothing. */
  ghost predicate Shut(t: Tables, limits: Limits, call: string)
  {
    && (forall k: Key, row: Row :: k.call == call ==> Step(t, limits, PushSegment(k, row)) == t)
    && (forall k :: k in t.segments ==> k.call != call)
  }

  /** A vacuum that finds the call ended, and forgets it. */
  predicate Forgets(t: Tables, op: Op, call: string) { op.Vacuum? && call in t.calls && t.calls[call].endJson.Some? }

  lemma SealedIsShut(t: Tables, limits: Limits, call: string)
    requires IsSealed(t, call) && forall k :: k in t.segments ==> k.call != call
    ensures Shut(t, limits, call)
  {
    hide Pushed;
  }

  lemma SealedStep(t: Tables, limits: Limits, op: Op, call: string)
    requires IsSealed(t, call) && (forall k :: k in t.segments ==> k.call != call) && !Forgets(t, op, call)
    ensures var u := Step(t, limits, op); IsSealed(u, call) && forall k :: k in u.segments ==> k.call != call
  {
    if op.PushSegment? && !IsSealed(t, op.key.call) {
      hide Enforced;
      EnforcedIsPrefix(Inserted(t.segments, op.key, op.row), limits, op.row.createdMs);
    }
  }

  /**
   Once a known call is rejected it stays shut over every run, until a vacuum finds it ended and
   forgets it.
   */
  lemma {:induction false} RejectedStaysShut(t: Tables, limits: Limits, call: string, ops: seq<Op>)
    requires call in t.calls
    ensures var u := Sealed(t, call);
            || Shut(Run(u, limits, ops), limits, call)
            || exists i :: 0 <= i < |ops| && Shut(Run(u, limits, ops[..i]), limits, call) && Forgets(Run(u, limits, ops[..i]), ops[i], call)
  {
    hide Shut;
    SealedRun(Sealed(t, call), limits, call, ops);
  }

  lemma {:induction false} SealedRun(u: Tables, limits: Limits, call: string, ops: seq<Op>)
    requires IsSealed(u, call) && forall k :: k in u.segments ==> k.call != call
    ensures || Shut(Run(u, limits, ops), limits, call)
            || exists i :: 0 <= i < |ops| && Shut(Run(u, limits, ops[..i]), limits, call) && Forgets(Run(u, limits, ops[..i]), ops[i], call)
    decreases |ops|
  {
    hide Shut, Step;
    SealedIsShut(u, limits, call);
    if ops != [] {
      if Forgets(u, ops[0], call) {
        assert Run(u, limits, ops[..0]) == u;
      } else {
        var v := Step(u, limits, ops[0]);
        SealedStep(u, limits, ops[0], call);
        SealedRun(v, limits, call, ops[1..]);
        if !Shut(Run(v, limits, ops[1..]), limits, call) {
          var i :| 0 <= i < |ops[1..]| && Shut(Run(v, limits, ops[1..][..i]), limits, call) &&
                  Forgets(Run(v, limits, ops[1..][..i]), ops[1..][i], call);
          assert ops[..i + 1][0] == ops[0] && ops[..i + 1][1..] == ops[1..][..i];
        }
      }
    }
  }

  /** Nothing else shuts a call: a run in which it is not rejected leaves its pushes accepted. */
  lemma {:induction false} OnlyRejectionShuts(t: Tables, limits: Limits, call: string, ops: seq<Op>)
    requires !IsSealed(t, call) && SealCall(call) !in ops
    ensures !IsSealed(Run(t, limits, ops), call)
    decreases |ops|
  {
    if ops != [] {
      OpenStays(t, limits, ops[0], call);
      OnlyRejectionShuts(Step(t, limits, ops[0]), limits, call, ops[1..]);
    }
  }

  lemma OpenStays(t: Tables, limits: Limits, op: Op, call: string)
    requires !IsSealed(t, call) && op != SealCall(call)
    ensures !IsSealed(Step(t, limits, op), call)
  {
    hide Enforced;
  }
}
