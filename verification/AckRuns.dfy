/**
 When a channel is told again: which acks the gateway can still announce, over every run of the
 delivery path, and what becomes of rows whose ack never comes.
 */
module AckRuns {
  import opened Prelude
  import opened Media
  import opened SpoolTables
  import opened Spool
  import G = Gateway
  import opened Delivery

  /** Each ack on a channel is higher than every one announced before it. */
  lemma NewAckIsNews(s: System, limits: Limits, a: Action, ack: Ack)
    requires Inv(s) && Enabled(s, a) && ack in Next(s, limits, a).announced && ack !in s.announced
    ensures a.AckDue? && ack.channel == a.channel
    ensures forall b :: b in s.announced && b.channel == ack.channel ==> b.through < ack.through
  {
    hide Split, G.AtFirstHole, Within, Covered, Sound, Accounted, Faithful;
  }

  /** A step that delivers no ack on the channel releases nothing from it. */
  lemma HeldStep(s: System, limits: Limits, a: Action, k: Key)
    requires Inv(s) && Enabled(s, a) && !(a.DeliverAck? && a.ack.channel == ChannelOf(k))
    requires k in s.client.segments || k in s.lost
    ensures k in Next(s, limits, a).client.segments || k in Next(s, limits, a).lost
  {
    hide Inv, Enforced, EnforcedCount, G.Advanced;
  }

  /** The lowest number on a channel that no persisted watermark covers. */
  function DueNum(s: System, c: ChannelKey): nat { if c in s.server.marks then var m: nat := s.server.marks[c]; m + 1 else 0 }

  /** That number's row is still in the spool, or has been on the wire at least once. */
  predicate CanBeTold(s: System, c: ChannelKey)
  {
    var n := DueNum(s, c);
    n <= U32_MAX && (Key(c.call, c.channel, n) in s.client.segments || Key(c.call, c.channel, n) in s.sent)
  }

  predicate NoPush(run: seq<Action>, c: ChannelKey) { forall a :: a in run ==> !(a.Push? && ChannelOf(a.key) == c) }

  // ------------------------------------------------- without it, never again

  /** A connection vouches only for what was stored, and only what was sent is stored. */
  lemma VouchedIsSent(s: System, c: ChannelKey, n: u32)
    requires Inv(s) && c in s.server.links && s.server.links[c].chan.started && n <= s.server.links[c].chan.through
    ensures Key(c.call, c.channel, n) in s.sent
  {
    hide Split, G.AtFirstHole, Accounted, InStep;
    var k := Key(c.call, c.channel, n);
    assert ChannelOf(k) == c && G.Knows(s.server.links[c].chan, k.num);
  }

  /** So no connection is past the hole. */
  lemma HoleLink(s: System, c: ChannelKey)
    requires Inv(s) && !CanBeTold(s, c) && c in s.server.links && s.server.links[c].chan.started
    ensures c in s.server.marks && s.server.links[c].chan.through == s.server.marks[c]
    ensures s.server.links[c].acked == Some(s.server.marks[c])
  {
    hide Split, G.AtFirstHole, Accounted, Truthful, Faithful;
    if DueNum(s, c) <= s.server.links[c].chan.through {
      VouchedIsSent(s, c, DueNum(s, c));
    }
  }

  lemma PushElsewhere(s: System, limits: Limits, k: Key, row: Row, j: Key)
    requires j != k && j !in s.client.segments
    ensures j !in AfterPush(s, limits, k, row).client.segments
  {
    hide EnforcedCount, Enforced;
    EnforcedIsPrefix(Inserted(s.client.segments, k, row), limits, row.createdMs);
  }

  lemma HoleStays(s: System, limits: Limits, a: Action, c: ChannelKey)
    requires Inv(s) && Enabled(s, a) && !CanBeTold(s, c) && !(a.Push? && ChannelOf(a.key) == c)
    ensures !CanBeTold(Next(s, limits, a), c)
    ensures forall ack :: ack in Next(s, limits, a).announced && ack.channel == c ==> ack in s.announced
  {
    hide Inv, Enforced, EnforcedCount, G.Advanced, Opened, Stored;
    if !a.AckDue? {
      ServerSteps(s, limits, a);
    } else if a.channel == c {
      HoleLink(s, c);
    }
    if a.Push? && DueNum(s, c) <= U32_MAX {
      PushElsewhere(s, limits, a.key, a.row, Key(c.call, c.channel, DueNum(s, c)));
    }
  }

  /** Only an ack falling due touches the persisted watermarks. */
  lemma ServerSteps(s: System, limits: Limits, a: Action)
    requires Enabled(s, a) && !a.AckDue?
    ensures Next(s, limits, a).server.marks == s.server.marks
  {
    hide Enforced, EnforcedCount, G.Advanced;
  }

  /**
   From a hole on, whatever is resent, reconnected or repeated, no new ack comes on the channel. If
   none of the earlier ones is delivered either, every row spooled on it stays until a cap evicts
   it and reports it lost, durable or not. session.go:315-316 and rule 5.2 of wire.md say it is told again.
   */
  lemma {:induction false} LostAckIsNeverRepeated(s: System, limits: Limits, run: seq<Action>, c: ChannelKey, k: Key)
    requires Inv(s) && !CanBeTold(s, c) && Possible(s, limits, run) && NoPush(run, c) && ChannelOf(k) == c
    ensures forall ack :: ack in After(s, limits, run).announced && ack.channel == c ==> ack in s.announced
    ensures (k in s.client.segments || k in s.lost) && (forall a :: a in run ==> !(a.DeliverAck? && a.ack.channel == c)) ==>
              k in After(s, limits, run).client.segments || k in After(s, limits, run).lost
    decreases |run|
  {
    hide Inv, CanBeTold, Next, Enabled;
    if run != [] {
      assert run[0] in run;
      HoleStays(s, limits, run[0], c);
      StepKeeps(s, limits, run[0]);
      if (k in s.client.segments || k in s.lost) && !(run[0].DeliverAck? && run[0].ack.channel == c) {
        HeldStep(s, limits, run[0], k);
      }
      LostAckIsNeverRepeated(Next(s, limits, run[0]), limits, run[1..], c, k);
    }
  }

  // ------------------------------------------------------- with it, once more

  /** No ack the client has applied is ahead of the persisted watermarks. */
  ghost predicate Behind(s: System)
  {
    forall c :: c in s.client.acks ==> c in s.server.marks && s.client.acks[c] <= s.server.marks[c]
  }

  lemma BehindStep(s: System, limits: Limits, a: Action)
    requires Inv(s) && Enabled(s, a) && Behind(s)
    ensures Behind(Next(s, limits, a))
  {
    hide Faithful, Accounted, Truthful, Enforced, EnforcedCount, G.Advanced, LinkInStep, Opened, Stored;
    if !a.AckDue? {
      ServerSteps(s, limits, a);
    }
  }

  lemma {:induction false} AlwaysBehind(s: System, limits: Limits, run: seq<Action>)
    requires Inv(s) && Behind(s) && Possible(s, limits, run)
    ensures Inv(After(s, limits, run)) && Behind(After(s, limits, run))
    decreases |run|
  {
    hide Inv, Behind, Next, Enabled;
    if run != [] {
      StepKeeps(s, limits, run[0]);
      BehindStep(s, limits, run[0]);
      AlwaysBehind(Next(s, limits, run[0]), limits, run[1..]);
    }
  }

  /** On a fresh connection, a record just above the watermark moves it and is acknowledged. */
  lemma StoredAndTold(s: System, limits: Limits, k: Key) returns (run: seq<Action>)
    requires InStep(s) && k in s.sent && k.num == DueNum(s, ChannelOf(k))
    ensures Possible(s, limits, run) && NoPush(run, ChannelOf(k))
    ensures Ack(ChannelOf(k), k.num) in After(s, limits, run).announced
  {
    hide Possible, After, G.Advanced, Opened, Stored, InStep, Enabled, Next;
    var c := ChannelOf(k);
    var s2, s3 := Reconnect(s, limits, k);
    var s4, s5 := ReceiveAndTell(s3, limits, k);
    run := EmptyRun(s5, limits);
    Prepend(s4, limits, AckDue(c, true), run);
    run := [AckDue(c, true)] + run;
    Prepend(s3, limits, Receive(k, true), run);
    run := [Receive(k, true)] + run;
    CallStartEnabled(s2, k.call);
    Prepend(s2, limits, CallStart(k.call), run);
    run := [CallStart(k.call)] + run;
    ConnectEnabled(s);
    Prepend(s, limits, Connect, run);
    run := [Connect] + run;
  }

  lemma ConnectEnabled(s: System)
    ensures Enabled(s, Connect)
  {
  }

  lemma Reconnect(s: System, limits: Limits, k: Key) returns (s2: System, s3: System)
    ensures Enabled(s, Connect) && s2 == Next(s, limits, Connect)
    ensures Enabled(s2, CallStart(k.call)) && s3 == Next(s2, limits, CallStart(k.call))
    ensures s3.sent == s.sent && s3.server.marks == s.server.marks && k.call in s3.server.open
    ensures var c := ChannelOf(k);
            LinkOf(s3.server, c) ==
            if c in s.server.marks then Link(G.Chan(s.server.marks[c], true, {}), Some(s.server.marks[c])) else Link(G.FRESH, None)
  {
    hide Enforced, EnforcedCount, AfterPush, AfterSeal, AfterAck, G.Advanced;
    s2 := Next(s, limits, Connect);
    s3 := Next(s2, limits, CallStart(k.call));
  }

  lemma AdvanceByOne(m: u32, n: u32)
    requires n == m + 1
    ensures G.Advanced(G.Chan(m, true, {}), n) == G.Chan(n, true, {})
    ensures G.Advanced(G.FRESH, 0) == G.Chan(0, true, {})
  {
  }

  lemma ReceiveAndTell(s3: System, limits: Limits, k: Key) returns (s4: System, s5: System)
    requires k in s3.sent && k.call in s3.server.open && k.num == DueNum(s3, ChannelOf(k))
    requires var c := ChannelOf(k);
             LinkOf(s3.server, c) ==
             if c in s3.server.marks then Link(G.Chan(s3.server.marks[c], true, {}), Some(s3.server.marks[c])) else Link(G.FRESH, None)
    ensures Enabled(s3, Receive(k, true)) && s4 == Next(s3, limits, Receive(k, true))
    ensures Enabled(s4, AckDue(ChannelOf(k), true)) && s5 == Next(s4, limits, AckDue(ChannelOf(k), true))
    ensures Ack(ChannelOf(k), k.num) in s5.announced
  {
    hide Enforced, EnforcedCount, AfterPush, AfterSeal, AfterAck, G.Advanced;
    var c := ChannelOf(k);
    s4 := Next(s3, limits, Receive(k, true));
    if c in s3.server.marks {
      AdvanceByOne(s3.server.marks[c], k.num);
    } else {
      AdvanceByOne(0, 1);
    }
    assert s4.server.links[c].chan == G.Chan(k.num, true, {});
    s5 := Next(s4, limits, AckDue(c, true));
  }

  /** A spooled row just above the watermark is still to be sent. */
  lemma SendFirst(s: System, limits: Limits, k: Key) returns (s1: System)
    requires Behind(s) && k in s.client.segments && k.num == DueNum(s, ChannelOf(k))
    ensures Enabled(s, Transmit(k)) && s1 == Next(s, limits, Transmit(k))
    ensures k in s1.sent && s1.server == s.server && s1.announced == s.announced
  {
    hide Enforced, EnforcedCount, AfterPush, AfterSeal, AfterAck, G.Advanced, Opened, Stored;
    s1 := Next(s, limits, Transmit(k));
  }

  lemma ToldOnceMore(s: System, limits: Limits, c: ChannelKey) returns (run: seq<Action>)
    requires Inv(s) && Behind(s) && CanBeTold(s, c)
    ensures Possible(s, limits, run) && NoPush(run, c)
    ensures exists ack :: ack in After(s, limits, run).announced && ack.channel == c && ack !in s.announced
  {
    hide Possible, After, Next, Enabled, Faithful, Accounted, Truthful, LinkInStep, Behind;
    var k := Key(c.call, c.channel, DueNum(s, c));
    assert ChannelOf(k) == c;
    if k in s.sent {
      run := StoredAndTold(s, limits, k);
    } else {
      var s1 := SendFirst(s, limits, k);
      StillInStep(s, s1);
      run := StoredAndTold(s1, limits, k);
      Prepend(s, limits, Transmit(k), run);
      run := [Transmit(k)] + run;
    }
    NotYetAnnounced(s, c);
    assert Ack(c, k.num) in After(s, limits, run).announced;
  }

  lemma NotYetAnnounced(s: System, c: ChannelKey)
    requires InStep(s) && DueNum(s, c) <= U32_MAX
    ensures Ack(c, DueNum(s, c)) !in s.announced
  {
    hide LinkInStep;
  }

  /** Some run with no new audio on the channel brings a new ack on it. */
  ghost predicate ToldAgain(s: System, limits: Limits, c: ChannelKey)
  {
    exists run, ack ::
      Possible(s, limits, run) && NoPush(run, c) && ack in After(s, limits, run).announced && ack.channel == c && ack !in s.announced
  }

  /**
   Without new audio on a channel, some run brings a new ack on it if and only if the row just
   above its persisted watermark is still spooled or was ever sent. An eviction that opens a hole
   there stops the channel for good, although every later row may be durable.
   */
  lemma ToldAgainIff(s: System, limits: Limits, c: ChannelKey)
    requires Inv(s) && Behind(s)
    ensures ToldAgain(s, limits, c) <==> CanBeTold(s, c)
  {
    hide Inv, Behind, CanBeTold, Possible, After, NoPush;
    if CanBeTold(s, c) {
      var run := ToldOnceMore(s, limits, c);
    } else {
      forall run, ack | Possible(s, limits, run) && NoPush(run, c) && ack in After(s, limits, run).announced && ack.channel == c
        ensures ack in s.announced {
        LostAckIsNeverRepeated(s, limits, run, c, Key(c.call, c.channel, 0));
      }
    }
  }

  /** The same for every state a run reaches. */
  lemma ToldAgainAnywhere(limits: Limits, past: seq<Action>, c: ChannelKey)
    requires Possible(START, limits, past)
    ensures var s := After(START, limits, past); ToldAgain(s, limits, c) <==> CanBeTold(s, c)
  {
    hide ToldAgain, CanBeTold, Inv, Possible, After;
    StartHolds();
    AlwaysBehind(START, limits, past);
    ToldAgainIff(After(START, limits, past), limits, c);
  }

  // ----------------------------------------------------------- two ways there

  /** Everything ever accepted on the channel is at or below the watermark the gateway has persisted. */
  ghost predicate Quiet(s: System, c: ChannelKey)
  {
    c in s.server.marks && forall k :: k in s.pushed && ChannelOf(k) == c ==> k.num <= s.server.marks[c]
  }

  /** A quiet channel is one: its next row was never pushed. */
  lemma QuietIsOver(s: System, c: ChannelKey)
    requires Faithful(s) && Quiet(s, c)
    ensures !CanBeTold(s, c)
  {
    if DueNum(s, c) <= U32_MAX {
      assert ChannelOf(Key(c.call, c.channel, DueNum(s, c))) == c;
    }
  }

  lemma OneSmallRowStays(k: Key, row: Row, limits: Limits)
    requires row.payload == [] && row.createdMs == 0
    ensures Enforced(map[k := row], limits, 0) == map[k := row]
  {
    var t: Table := map[k := row];
    assert OldestKey(t) == k && t - {k} == map[];
    assert Sizes(t) == [0] && Sum([0]) == 0 + Sum([0][1..]);
    NothingToEvict(t, limits, 0);
    EnforcedIsPrefix(t, limits, 0);
  }

  lemma Prepend(s: System, limits: Limits, a: Action, rest: seq<Action>)
    requires Enabled(s, a) && Possible(Next(s, limits, a), limits, rest)
    ensures Possible(s, limits, [a] + rest) && After(s, limits, [a] + rest) == After(Next(s, limits, a), limits, rest)
  {
    hide Enabled, Next;
    assert ([a] + rest)[0] == a && ([a] + rest)[1..] == rest;
  }

  lemma PushThenTransmit(limits: Limits, k: Key, row: Row) returns (s1: System, s2: System)
    requires row.payload == [] && row.createdMs == 0
    ensures Enabled(START, Push(k, row)) && s1 == Next(START, limits, Push(k, row))
    ensures Enabled(s1, Transmit(k)) && s2 == Next(s1, limits, Transmit(k))
    ensures s2.client == Tables(map[k := row], map[], map[]) && s2.sent == s2.pushed == map[k := row] && s2.server == START.server
  {
    hide Enforced, EnforcedCount;
    OneSmallRowStays(k, row, limits);
    s1 := Next(START, limits, Push(k, row));
    assert Inserted(map[], k, row) == map[k := row];
    s2 := Next(s1, limits, Transmit(k));
  }

  lemma StoreThenAcknowledge(s2: System, limits: Limits, k: Key) returns (s3: System, s4: System, s5: System)
    requires k in s2.sent && s2.server == START.server && k.num == 0
    ensures s3 == Next(s2, limits, CallStart(k.call))
    ensures Enabled(s3, Receive(k, true)) && s4 == Next(s3, limits, Receive(k, true))
    ensures Enabled(s4, AckDue(ChannelOf(k), true)) && s5 == Next(s4, limits, AckDue(ChannelOf(k), true))
    ensures s5.client == s2.client && s5.pushed == s2.pushed && k in s5.server.durable
    ensures s5.server.marks == map[ChannelOf(k) := 0] && k.call in s5.server.open && s5.sent == s2.sent
    ensures Ack(ChannelOf(k), 0) in s5.announced && s5.server.links == map[ChannelOf(k) := Link(G.Chan(0, true, {}), Some(0))]
  {
    hide Enforced, EnforcedCount, AfterPush, AfterSeal, AfterAck;
    s3 := Next(s2, limits, CallStart(k.call));
    assert s3.server.links == map[];
    s4 := Next(s3, limits, Receive(k, true));
    assert G.Advanced(G.FRESH, 0) == G.Chan(0, true, {});
    assert s4.server.links[ChannelOf(k)] == Link(G.Chan(0, true, {}), None);
    s5 := Next(s4, limits, AckDue(ChannelOf(k), true));
  }

  /** The first row of a call pushed, sent, stored and acknowledged, with the ack still on its way. */
  lemma FirstRowAcked(limits: Limits, k: Key, row: Row, rest: seq<Action>) returns (s: System, run: seq<Action>)
    requires k.num == 0 && row.payload == [] && row.createdMs == 0
    ensures s.client == Tables(map[k := row], map[], map[]) && s.sent == s.pushed == map[k := row] && k in s.server.durable
    ensures s.server.marks == map[ChannelOf(k) := 0] && k.call in s.server.open && Ack(ChannelOf(k), 0) in s.announced
    ensures s.server.links == map[ChannelOf(k) := Link(G.Chan(0, true, {}), Some(0))]
    ensures Possible(s, limits, rest) ==> Possible(START, limits, run) && After(START, limits, run) == After(s, limits, rest)
    ensures forall a :: a in run ==> !a.DeliverAck? || a in rest
  {
    hide Enabled, Next, Possible, After;
    var s1, s2 := PushThenTransmit(limits, k, row);
    var s3, s4, s5 := StoreThenAcknowledge(s2, limits, k);
    s := s5;
    run := [Push(k, row)] + ([Transmit(k)] + ([CallStart(k.call)] + ([Receive(k, true)] + ([AckDue(ChannelOf(k), true)] + rest))));
    if Possible(s, limits, rest) {
      Prepend(s4, limits, AckDue(ChannelOf(k), true), rest);
      Prepend(s3, limits, Receive(k, true), [AckDue(ChannelOf(k), true)] + rest);
      CallStartEnabled(s2, k.call);
      Prepend(s2, limits, CallStart(k.call), [Receive(k, true)] + ([AckDue(ChannelOf(k), true)] + rest));
      Prepend(s1, limits, Transmit(k), [CallStart(k.call)] + ([Receive(k, true)] + ([AckDue(ChannelOf(k), true)] + rest)));
      Prepend(START, limits, Push(k, row), run[1..]);
    }
  }

  /** A quiet channel whose last ack is lost: the shortest of calls. */
  lemma StuckIsReachable(limits: Limits) returns (run: seq<Action>, k: Key)
    ensures Possible(START, limits, run) && forall a :: a in run ==> !a.DeliverAck?
    ensures var s := After(START, limits, run);
            Inv(s) && Quiet(s, ChannelOf(k)) && k in s.client.segments && k in s.server.durable
  {
    hide Enabled, Next, Possible, After, Inv;
    k := Key("c", Far, 0);
    var s;
    s, run := FirstRowAcked(limits, k, Row(0, MediaFlags(false, false), [], 0), []);
    var none := EmptyRun(s, limits);
    StartHolds();
    RunKeeps(START, limits, run);
  }

  lemma OneBigRowGoes(k: Key, row: Row, limits: Limits)
    requires |row.payload| == 11 && row.createdMs == 0 && limits.maxBytes == 10
    ensures Enforced(map[k := row], limits, 0) == map[]
  {
    var t: Table := map[k := row];
    assert OldestKey(t) == k && t - {k} == map[];
    assert Sizes(t) == [11] && Sum([11]) == 11 + Sum([11][1..]);
    assert AgeCut(t, 0) == t;
    assert BatchedCount(Sizes(t), 10) == 1;
    DropOldestIsPrefix(t, 1);
  }

  /** The ack arrives; the next row is too large to keep; the one after it goes out and is stored. */
  lemma HoleOpens(s: System, limits: Limits, k0: Key, big: Row, small: Row) returns (s1: System, s2: System, s3: System)
    requires s.client.segments.Keys == {k0} && s.client.calls == map[] && s.client.acks == map[] && k0.num == 0 && s.pushed.Keys == {k0}
    requires Ack(ChannelOf(k0), 0) in s.announced
    requires |big.payload| == 11 && big.createdMs == 0 && small.payload == [] && small.createdMs == 0 && limits.maxBytes == 10
    ensures var k1, k2 := Key(k0.call, k0.channel, 1), Key(k0.call, k0.channel, 2);
            && Enabled(s, DeliverAck(Ack(ChannelOf(k0), 0))) && s1 == Next(s, limits, DeliverAck(Ack(ChannelOf(k0), 0)))
            && Enabled(s1, Push(k1, big)) && s2 == Next(s1, limits, Push(k1, big))
            && Enabled(s2, Push(k2, small)) && s3 == Next(s2, limits, Push(k2, small))
            && s3.client == Tables(map[k2 := small], map[], map[ChannelOf(k0) := 0])
            && s3.server == s.server && s3.sent == s.sent
  {
    hide Enforced, EnforcedCount, G.Advanced, Opened, Stored;
    var k1, k2 := Key(k0.call, k0.channel, 1), Key(k0.call, k0.channel, 2);
    s1 := Next(s, limits, DeliverAck(Ack(ChannelOf(k0), 0)));
    assert s1.client.segments == map[];
    OneBigRowGoes(k1, big, limits);
    assert Inserted(map[], k1, big) == map[k1 := big];
    s2 := Next(s1, limits, Push(k1, big));
    assert s2.client.segments == map[];
    OneSmallRowStays(k2, small, limits);
    assert Inserted(map[], k2, small) == map[k2 := small];
    s3 := Next(s2, limits, Push(k2, small));
  }

  lemma StoredBeyond(s3: System, limits: Limits, k2: Key) returns (s4: System, s5: System)
    requires k2.num == 2 && s3.client.segments.Keys == {k2} && s3.client.acks == map[ChannelOf(k2) := 0] && k2.call in s3.server.open
    requires s3.server.marks == map[ChannelOf(k2) := 0] && s3.server.links == map[ChannelOf(k2) := Link(G.Chan(0, true, {}), Some(0))]
    requires s3.sent.Keys == {Key(k2.call, k2.channel, 0)}
    ensures Enabled(s3, Transmit(k2)) && s4 == Next(s3, limits, Transmit(k2))
    ensures Enabled(s4, Receive(k2, true)) && s5 == Next(s4, limits, Receive(k2, true))
    ensures k2 in s5.client.segments && k2 in s5.server.durable && !CanBeTold(s5, ChannelOf(k2))
    ensures s5.server.marks == map[ChannelOf(k2) := 0]
  {
    hide Enforced, EnforcedCount, G.Advanced, Opened, AfterPush, AfterSeal, AfterAck;
    s4 := Next(s3, limits, Transmit(k2));
    s5 := Next(s4, limits, Receive(k2, true));
    assert s5.server.marks == map[ChannelOf(k2) := 0];
    assert s5.client.segments.Keys == {k2} && s5.sent.Keys == {Key(k2.call, k2.channel, 0), k2};
  }

  /** An eviction before sending opens a hole: a later row is durable and spooled, and its ack can never come. */
  lemma HoleIsReachable() returns (limits: Limits, run: seq<Action>, k: Key)
    ensures Possible(START, limits, run)
    ensures var s := After(START, limits, run);
            Inv(s) && !Quiet(s, ChannelOf(k)) && !CanBeTold(s, ChannelOf(k)) && k in s.client.segments && k in s.server.durable
  {
    hide Enabled, Next, Possible, After, Inv, CanBeTold;
    limits := Limits(10, 0);
    var k0, k1 := Key("c", Far, 0), Key("c", Far, 1);
    k := Key("c", Far, 2);
    var small := Row(0, MediaFlags(false, false), [], 0);
    var big := Row(0, MediaFlags(false, false), [0, 0, 0, 0, 0, 0, 0, 0, 0, 0, 0], 0);
    var r4: seq<Action> := [Receive(k, true)] + [];
    var r3 := [Transmit(k)] + r4;
    var r2 := [Push(k, small)] + r3;
    var r1 := [Push(k1, big)] + r2;
    var s;
    s, run := FirstRowAcked(limits, k0, small, [DeliverAck(Ack(ChannelOf(k0), 0))] + r1);
    var s1, s2, s3 := HoleOpens(s, limits, k0, big, small);
    var s4, s5 := StoredBeyond(s3, limits, k);
    var none := EmptyRun(s5, limits);
    Prepend(s4, limits, Receive(k, true), []);
    Prepend(s3, limits, Transmit(k), r4);
    Prepend(s2, limits, Push(k, small), r3);
    Prepend(s1, limits, Push(k1, big), r2);
    Prepend(s, limits, DeliverAck(Ack(ChannelOf(k0), 0)), r1);
    StartHolds();
    RunKeeps(START, limits, run);
    HeldAbove(After(START, limits, run), k);
  }

  lemma HeldAbove(s: System, k: Key)
    requires Inv(s) && k in s.client.segments && (ChannelOf(k) in s.server.marks ==> k.num > s.server.marks[ChannelOf(k)])
    ensures !Quiet(s, ChannelOf(k))
  {
    hide Split, Truthful, InStep, Accounted;
  }

  lemma EmptyRun(s: System, limits: Limits) returns (run: seq<Action>)
    ensures run == [] && Possible(s, limits, run) && After(s, limits, run) == s
  {
    run := [];
  }

  lemma CallStartEnabled(s: System, call: string)
    ensures Enabled(s, CallStart(call))
  {
  }
}
