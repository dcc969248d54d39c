/**
 What to re-send after a reconnect (client/sentinel-agent/src/uplink/resume.rs), and why it
 agrees with applying the server's watermarks to the spool.
 */
module Resume {
  import opened Prelude
  import opened Media
  import opened SpoolTables
  import opened Spool

  datatype ResumePoint = ResumePoint(fromSeq: map<Channel, u32>)

  /** The channel number as the text a JSON object key is. */
  function ChannelName(ch: Channel): string { if ch.Far? then "0" else "1" }

  function FromSeq(p: ResumePoint, ch: Channel): u32 { if ch in p.fromSeq then p.fromSeq[ch] else 0 }

  predicate ShouldSend(p: ResumePoint, k: Key) { k.num >= FromSeq(p, k.channel) }

  function Entry<K>(m: map<K, u32>, k: K): Option<u32> { if k in m then Some(m[k]) else None }

  /** One past an acknowledged number, saturating at the top; zero when nothing is acknowledged. */
  function OnePast(acked: Option<u32>): u32
  {
    match acked
    case None => 0
    case Some(a) => if a == U32_MAX then U32_MAX else a + 1
  }

  function PlanOf(local: map<Channel, u32>, server: map<string, u32>): ResumePoint
  {
    ResumePoint(map ch | ch in {Far, Near} :: OnePast(Join(Entry(local, ch), Entry(server, ChannelName(ch)))))
  }

  /** A number not yet acknowledged; the very last one counts as not acknowledged, since nothing comes after it. */
  predicate Above(n: u32, acked: Option<u32>) { acked.None? || n > acked.value || n == U32_MAX }

  /** Neither side has acknowledged the row: not our spool, nor the server under the channel's number. */
  predicate Unacknowledged(local: map<Channel, u32>, server: map<string, u32>, k: Key)
  {
    && (k.channel in local ==> Above(k.num, Some(local[k.channel])))
    && (k.channel == Far && "0" in server ==> Above(k.num, Some(server["0"])))
    && (k.channel == Near && "1" in server ==> Above(k.num, Some(server["1"])))
  }

  lemma SendsAbove(local: map<Channel, u32>, server: map<string, u32>, k: Key)
    ensures ShouldSend(PlanOf(local, server), k) <==> Unacknowledged(local, server, k)
  {
    var ours, theirs := Entry(local, k.channel), Entry(server, ChannelName(k.channel));
    assert FromSeq(PlanOf(local, server), k.channel) == OnePast(Join(ours, theirs));
    assert Unacknowledged(local, server, k) <==> Above(k.num, ours) && Above(k.num, theirs);
  }

  lemma PlanSends(local: map<Channel, u32>, server: map<string, u32>)
    ensures forall k :: ShouldSend(PlanOf(local, server), k) <==> Unacknowledged(local, server, k)
  {
    forall k ensures ShouldSend(PlanOf(local, server), k) <==> Unacknowledged(local, server, k) { SendsAbove(local, server, k); }
  }

  /** Combine our watermark with the server's: the higher claim wins on each channel. */
  method Plan(local: map<Channel, u32>, server: map<string, u32>) returns (p: ResumePoint)
    ensures p == PlanOf(local, server)
    ensures p.fromSeq.Keys == {Far, Near}
    ensures forall k :: ShouldSend(p, k) <==> Unacknowledged(local, server, k)
  {
    var channels := [Far, Near];
    var fromSeq: map<Channel, u32> := map[];
    for i := 0 to |channels|
      invariant fromSeq.Keys == set j | 0 <= j < i :: channels[j]
      invariant forall ch :: ch in fromSeq ==>
                  fromSeq[ch] == OnePast(Join(Entry(local, ch), Entry(server, ChannelName(ch))))
    {
      var ch := channels[i];
      var ours, theirs := Entry(local, ch), Entry(server, ChannelName(ch));
      var acked :=
        match (ours, theirs)
        case (Some(l), Some(s)) => Some(if l >= s then l else s)
        case (Some(l), None) => Some(l)
        case (None, Some(s)) => Some(s)
        case (None, None) => None;
      fromSeq := fromSeq[ch := OnePast(acked)];
    }
    p := ResumePoint(fromSeq);
    assert channels[0] in fromSeq && channels[1] in fromSeq;
    assert fromSeq == PlanOf(local, server).fromSeq;
    PlanSends(local, server);
  }

  // ------------------------------------------------------ against the spool

  /** The watermarks the spool holds for one call. */
  function LocalMarks(t: Tables, call: string): map<Channel, u32>
  {
    map ch | ch in {Far, Near} && ChannelKey(call, ch) in t.acks :: t.acks[ChannelKey(call, ch)]
  }

  lemma LocalMarksAre(t: Tables, call: string, ch: Channel)
    ensures ch in LocalMarks(t, call) <==> ChannelKey(call, ch) in t.acks
    ensures ch in LocalMarks(t, call) ==> LocalMarks(t, call)[ch] == t.acks[ChannelKey(call, ch)]
  {
  }

  function AckFor(call: string, server: map<string, u32>, ch: Channel): seq<Ack>
  {
    if ChannelName(ch) in server then [Ack(ChannelKey(call, ch), server[ChannelName(ch)])] else []
  }

  /** The acks the server's resume frame amounts to. */
  function ServerAcks(call: string, server: map<string, u32>): seq<Ack>
  {
    AckFor(call, server, Far) + AckFor(call, server, Near)
  }

  lemma ServerHighest(call: string, server: map<string, u32>, ch: Channel)
    ensures Highest(ServerAcks(call, server), ChannelKey(call, ch)) == Entry(server, ChannelName(ch))
  {
    var acks := ServerAcks(call, server);
    var c := ChannelKey(call, ch);
    if ChannelName(ch) in server {
      assert Ack(c, server[ChannelName(ch)]) in acks;
    }
  }

  /** The one corner where the two part: the server has acknowledged the very last number and we still hold it. */
  predicate AtTheTop(server: map<string, u32>, k: Key)
  {
    k.num == U32_MAX && Entry(server, ChannelName(k.channel)) == Some(U32_MAX)
  }

  lemma KeepsOrSends(t: Tables, call: string, server: map<string, u32>, k: Key)
    requires k in Pending(t, call)
    ensures k in Pending(AckedAll(t, ServerAcks(call, server)), call) <==>
            ShouldSend(PlanOf(LocalMarks(t, call), server), k) && !AtTheTop(server, k)
  {
    hide AckedAll, Highest, ServerAcks;
    ServerHighest(call, server, k.channel);
    WatermarkAfter(t, ServerAcks(call, server), ChannelOf(k));
    RowsAfter(t, ServerAcks(call, server), k);
  }

  lemma NothingNewPending(t: Tables, call: string, server: map<string, u32>)
    ensures Pending(AckedAll(t, ServerAcks(call, server)), call) <= Pending(t, call)
  {
    hide AckedAll, Highest, ServerAcks;
    var acks := ServerAcks(call, server);
    forall k | k in Pending(AckedAll(t, acks), call) ensures k in Pending(t, call) {
      WatermarkAfter(t, acks, ChannelOf(k));
      RowsAfter(t, acks, k);
    }
  }

  /**
   Filtering the pending rows by the resume plan sends exactly what would be pending had the
   server's watermarks been applied to the spool, if and only if the top-of-range corner is absent.
   */
  lemma ResumeAgreesWithAcks(t: Tables, call: string, server: map<string, u32>)
    ensures (set k | k in Pending(t, call) && ShouldSend(PlanOf(LocalMarks(t, call), server), k))
            == Pending(AckedAll(t, ServerAcks(call, server)), call)
            <==> forall k :: k in Pending(t, call) ==> !AtTheTop(server, k)
  {
    hide AckedAll, Pending, PlanOf, ServerAcks;
    var p := PlanOf(LocalMarks(t, call), server);
    var sends := set k | k in Pending(t, call) && ShouldSend(p, k);
    NothingNewPending(t, call, server);
    forall k | k in Pending(t, call)
      ensures k in Pending(AckedAll(t, ServerAcks(call, server)), call) <==> ShouldSend(p, k) && !AtTheTop(server, k)
    {
      KeepsOrSends(t, call, server, k);
    }
    forall k | k in Pending(t, call) && AtTheTop(server, k) ensures k in sends {
    }
  }

  /** The rows the plan lets through, in the order they are sent. */
  ghost function Sent(p: ResumePoint, all: seq<Rank>): seq<Rank>
  {
    if all == [] then []
    else if ShouldSend(p, all[0].key) then [all[0]] + Sent(p, all[1..])
    else Sent(p, all[1..])
  }

  lemma {:induction false} SentMembers(p: ResumePoint, all: seq<Rank>)
    ensures forall r :: r in Sent(p, all) <==> r in all && ShouldSend(p, r.key)
  {
    if all != [] {
      SentMembers(p, all[1..]);
      assert forall r :: r in all <==> r == all[0] || r in all[1..];
    }
  }

  lemma {:induction false} SentIncreases(p: ResumePoint, all: seq<Rank>)
    requires Increasing(all)
    ensures Increasing(Sent(p, all))
  {
    if all != [] {
      SentIncreases(p, all[1..]);
      SentMembers(p, all[1..]);
      assert forall r :: r in all[1..] ==> RankLess(all[0], r);
      assert forall r :: r in Sent(p, all[1..]) ==> RankLess(all[0], r);
    }
  }

  /** The agreement holds for the ordered list the uplink walks, not just for the set of rows. */
  lemma ResumeAgreesInOrder(t: Tables, call: string, server: map<string, u32>)
    requires forall k :: k in Pending(t, call) ==> !AtTheTop(server, k)
    ensures Sent(PlanOf(LocalMarks(t, call), server), InSendOrder(Pending(t, call)))
            == InSendOrder(Pending(AckedAll(t, ServerAcks(call, server)), call))
  {
    hide AckedAll, Pending, PlanOf, ServerAcks, Ascending, Sent;
    var p, all := PlanOf(LocalMarks(t, call), server), InSendOrder(Pending(t, call));
    var before, after := Pending(t, call), Pending(AckedAll(t, ServerAcks(call, server)), call);
    ResumeAgreesWithAcks(t, call, server);
    assert after == set k | k in before && ShouldSend(p, k);
    SendOrderMembers(before);
    SentMembers(p, all);
    AscendingIncreases(set k | k in before :: Rank(0, k));
    SentIncreases(p, all);
    IncreasingUnique(Sent(p, all), set k | k in after :: Rank(0, k));
  }
}
