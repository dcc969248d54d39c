/**
 The whole delivery path: the client's spool, a network that loses, repeats and reorders, and
 the gateway with its durable store, its persisted watermarks and its per-connection state.
 */
module Delivery {
  import opened Prelude
  import opened Media
  import opened SpoolTables
  import opened Spool
  import opened Gateway

  /** A channel on the current connection, and the last watermark acknowledged on it. */
  datatype Link = Link(chan: Chan, acked: Option<u32>)

  datatype Server = Server(durable: Table, marks: map<ChannelKey, u32>, open: set<string>, links: map<ChannelKey, Link>)

  /**
   `sent` is every record ever put on the wire and `announced` every ack ever emitted: either may
   arrive at any later time, any number of times, or never. `pushed`, `released` and `lost` record
   what the spool accepted, let go on an ack, and gave up with an event.
   */
  datatype System = System(client: Tables, server: Server, sent: Table, announced: set<Ack>,
                           pushed: Table, released: set<Key>, lost: set<Key>, reported: int)

  const START := System(Tables(map[], map[], map[]), Server(map[], map[], {}, map[]), map[], {}, map[], {}, {}, 0)

  datatype Action =
    | Begin(call: string, startJson: string, nowMs: nat)
    | End(call: string, endJson: string)
    | Push(key: Key, row: Row)
    | Seal(call: string)
    | Vacuum
    | Transmit(key: Key)
    | DeliverAck(ack: Ack)
    | Connect
    | CallStart(call: string)
    | Receive(key: Key, putOk: bool)
    | AckDue(channel: ChannelKey, setOk: bool)

  /** When an action may happen. A key is pushed once: sequence numbers are not reused within a call. */
  predicate Enabled(s: System, a: Action)
  {
    match a
    case Push(k, _) => k !in s.pushed
    case Transmit(k) => k in Pending(s.client, k.call)
    case DeliverAck(ack) => ack in s.announced
    case Receive(k, _) => k in s.sent && k.call in s.server.open
    case AckDue(c, _) => c in s.server.links && s.server.links[c].chan.started
    case _ => true
  }

  function Next(s: System, limits: Limits, a: Action): System
    requires Enabled(s, a)
  {
    match a
    case Begin(call, json, now) => s.(client := Begun(s.client, call, json, now))
    case End(call, json) => s.(client := Ended(s.client, call, json))
    case Vacuum => s.(client := Vacuumed(s.client))
    case Push(k, row) => AfterPush(s, limits, k, row)
    case Seal(call) => AfterSeal(s, call)
    case Transmit(k) => s.(sent := s.sent[k := s.client.segments[k]])
    case DeliverAck(ack) => AfterAck(s, ack)
    case Connect => s.(server := s.server.(open := {}, links := map[]))
    case CallStart(call) => s.(server := Opened(s.server, call))
    case Receive(k, putOk) => s.(server := Stored(s.server, k, s.sent[k], putOk))
    case AckDue(c, setOk) => Acknowledge(s, c, setOk)
  }

  function AfterPush(s: System, limits: Limits, k: Key, row: Row): System
  {
    if IsSealed(s.client, k.call) then s
    else
      var client := Pushed(s.client, limits, k, row);
      var with := Inserted(s.client.segments, k, row);
      s.(client := client,
         pushed := s.pushed[k := row],
         lost := s.lost + (with.Keys - client.segments.Keys),
         reported := s.reported + EnforcedCount(with, limits, row.createdMs))
  }

  function AfterSeal(s: System, call: string): System
  {
    var client := Sealed(s.client, call);
    s.(client := client,
       lost := s.lost + (s.client.segments.Keys - client.segments.Keys),
       reported := s.reported + |s.client.segments| - |client.segments|)
  }

  function AfterAck(s: System, ack: Ack): System
  {
    var client := Acked(s.client, ack.channel, ack.through);
    s.(client := client, released := s.released + (s.client.segments.Keys - client.segments.Keys))
  }

  function LinkOf(v: Server, c: ChannelKey): Link { if c in v.links then v.links[c] else Link(FRESH, None) }

  /** `call.start`: the persisted watermarks of the call are loaded into the connection. */
  function Opened(v: Server, call: string): Server
  {
    v.(open := v.open + {call},
       links := map c | c in v.links.Keys + v.marks.Keys && (c in v.links || c.call == call) ::
         if c.call == call && c in v.marks then
           Link(LinkOf(v, c).chan.(through := v.marks[c], started := true), Some(v.marks[c]))
         else v.links[c])
  }

  /** A media record: dropped if already covered, otherwise stored once and counted. */
  function Stored(v: Server, k: Key, row: Row, putOk: bool): Server
  {
    var c := ChannelOf(k);
    var link := LinkOf(v, c);
    if (link.chan.started && k.num <= link.chan.through) || !putOk then v.(links := v.links[c := link])
    else
      v.(durable := if k in v.durable then v.durable else v.durable[k := row],
         links := v.links[c := link.(chan := Advanced(link.chan, k.num))])
  }

  /** An ack falls due: nothing if nothing is new, otherwise persist the watermark and then announce it. */
  function Acknowledge(s: System, c: ChannelKey, setOk: bool): System
    requires c in s.server.links
  {
    var v, link := s.server, s.server.links[c];
    if link.acked == Some(link.chan.through) || !setOk then s
    else
      s.(server := v.(marks := v.marks[c := Watermark(v.marks, c, link.chan.through)],
                      links := v.links[c := link.(acked := Some(link.chan.through))]),
         announced := s.announced + {Ack(c, link.chan.through)})
  }

  // ------------------------------------------------------------- invariants

  /** Everything up to `through` on a channel is in the durable store. */
  ghost predicate Covered(durable: Table, c: ChannelKey, through: u32)
  {
    forall k: Key :: ChannelOf(k) == c && k.num <= through ==> k in durable
  }

  ghost predicate Within(a: Table, b: Table) { forall k :: k in a ==> k in b && a[k] == b[k] }

  /** `all` falls into three parts with nothing shared and nothing left over. */
  ghost predicate Split(all: set<Key>, a: set<Key>, b: set<Key>, c: set<Key>)
  {
    all == a + b + c && a !! b && a !! c && b !! c
  }

  /** Copies of a segment along the way are the segment that was pushed. */
  ghost predicate Faithful(s: System)
  {
    Within(s.client.segments, s.pushed) && Within(s.sent, s.pushed) && Within(s.server.durable, s.sent)
  }

  /** Every accepted segment is held, released on proof of durability, or admitted lost, and the count is right. */
  ghost predicate Accounted(s: System)
  {
    && Split(s.pushed.Keys, s.client.segments.Keys, s.released, s.lost)
    && s.released <= s.server.durable.Keys
    && s.reported == |s.lost|
  }

  /** A connection's channel vouches only for stored segments. */
  ghost predicate Sound(durable: Table, c: ChannelKey, chan: Chan)
  {
    forall k: Key :: ChannelOf(k) == c && Knows(chan, k.num) ==> k in durable
  }

  /** Every watermark anywhere names only durable segments. */
  ghost predicate Truthful(s: System)
  {
    var d := s.server.durable;
    && (forall c :: c in s.server.marks ==> Covered(d, c, s.server.marks[c]))
    && (forall c :: c in s.server.links ==> Sound(d, c, s.server.links[c].chan))
    && (forall a :: a in s.announced ==> Covered(d, a.channel, a.through))
    && (forall c :: c in s.client.acks ==> Covered(d, c, s.client.acks[c]))
  }

  /** Bookkeeping of the current connection: what it has acknowledged is what the database holds. */
  ghost predicate InStep(s: System)
  {
    var v := s.server;
    && (forall c :: c in v.links ==> c.call in v.open && LinkInStep(v.marks, c, v.links[c]))
    && (forall c :: c in v.marks && c.call in v.open ==> c in v.links)
    && (forall a :: a in s.announced ==> a.channel in v.marks && a.through <= v.marks[a.channel])
  }

  ghost predicate LinkInStep(marks: map<ChannelKey, u32>, c: ChannelKey, link: Link)
  {
    && AtFirstHole(link.chan)
    && link.acked == Mark(marks, c)
    && (c in marks ==> link.chan.started && link.chan.through >= marks[c])
  }

  // ------------------------------------------------------- step by step

  /** Storing a segment keeps the channel sound and never lowers its watermark. */
  lemma AdvancedSound(d: Table, k: Key, chan: Chan)
    requires k in d && Sound(d, ChannelOf(k), chan) && AtFirstHole(chan)
    requires !(chan.started && k.num <= chan.through)
    ensures var on := Advanced(chan, k.num);
            && Sound(d, ChannelOf(k), on) && AtFirstHole(on)
            && (chan.started ==> on.started && on.through >= chan.through)
  {
    hide Absorb, Advanced, AtFirstHole, Knows;
    AdvanceExact(chan, k.num, 0);
    forall j: Key | ChannelOf(j) == ChannelOf(k) && Knows(Advanced(chan, k.num), j.num) ensures j in d {
      AdvanceExact(chan, k.num, j.num);
    }
  }

  ghost predicate Inv(s: System) { Faithful(s) && Accounted(s) && Truthful(s) && InStep(s) }

  /** Only the client's side of the ledger moved, and only with the parts the other invariants read unchanged. */
  lemma ClientOnly(s: System, s': System)
    requires Truthful(s) && InStep(s) && s'.server == s.server && s'.announced == s.announced && s'.client.acks == s.client.acks
    ensures Truthful(s') && InStep(s')
  {
  }

  /** Moving part of `a` into `c`. */
  lemma Move(all: set<Key>, a: set<Key>, b: set<Key>, c: set<Key>, kept: set<Key>)
    requires Split(all, a, b, c) && kept <= a
    ensures Split(all, kept, b, c + (a - kept)) && Split(all, kept, c + (a - kept), b)
    ensures |c + (a - kept)| == |c| + |a| - |kept|
  {
    assert a == kept + (a - kept);
    assert |a| == |kept| + |a - kept|;
  }

  lemma AddKey(all: set<Key>, a: set<Key>, b: set<Key>, c: set<Key>, k: Key)
    requires Split(all, a, b, c) && k !in all
    ensures Split(all + {k}, a + {k}, b, c)
  {
  }

  /** What the caps keep of a table with one row more. */
  lemma PushKept(t: Table, limits: Limits, k: Key, row: Row)
    requires k !in t
    ensures var kept := Enforced(Inserted(t, k, row), limits, row.createdMs);
            && Within(kept, t[k := row]) && kept.Keys <= t.Keys + {k}
            && |t.Keys + {k}| == |kept.Keys| + EnforcedCount(Inserted(t, k, row), limits, row.createdMs)
    ensures Inserted(t, k, row).Keys == t.Keys + {k}
  {
    hide Enforced, EnforcedCount;
    EnforcedIsPrefix(t[k := row], limits, row.createdMs);
    assert t[k := row].Keys == t.Keys + {k};
    assert |t[k := row]| == |t[k := row].Keys|;
  }

  lemma WithinTrans(a: Table, b: Table, c: Table)
    requires Within(a, b) && Within(b, c)
    ensures Within(a, c)
  {
  }

  lemma WithinExtended(a: Table, b: Table, k: Key, row: Row)
    requires Within(a, b) && k !in b
    ensures Within(a, b[k := row]) && Within(a[k := row], b[k := row]) && k !in a
  {
  }

  lemma PushFaithful(s: System, limits: Limits, k: Key, row: Row)
    requires Faithful(s) && k !in s.pushed
    ensures Faithful(AfterPush(s, limits, k, row))
  {
    hide Enforced, EnforcedCount, Inserted, Within;
    if !IsSealed(s.client, k.call) {
      WithinExtended(s.client.segments, s.pushed, k, row);
      WithinExtended(s.sent, s.pushed, k, row);
      PushKept(s.client.segments, limits, k, row);
      WithinTrans(Pushed(s.client, limits, k, row).segments, s.client.segments[k := row], s.pushed[k := row]);
    }
  }

  lemma PushSets(all: set<Key>, a: set<Key>, b: set<Key>, c: set<Key>, k: Key, kept: set<Key>, count: int)
    requires Split(all, a, b, c) && k !in all && kept <= a + {k} && |a + {k}| == |kept| + count
    ensures Split(all + {k}, kept, b, c + (a + {k} - kept)) && |c + (a + {k} - kept)| == |c| + count
  {
    hide Split;
    AddKey(all, a, b, c, k);
    Move(all + {k}, a + {k}, b, c, kept);
  }

  lemma PushAccounts(pushed: Table, t: Table, limits: Limits, k: Key, row: Row, released: set<Key>, lost: set<Key>)
    requires Split(pushed.Keys, t.Keys, released, lost) && Within(t, pushed) && k !in pushed
    ensures var with := Inserted(t, k, row); var kept := Enforced(with, limits, row.createdMs).Keys;
            && Split(pushed[k := row].Keys, kept, released, lost + (with.Keys - kept))
            && |lost + (with.Keys - kept)| == |lost| + EnforcedCount(with, limits, row.createdMs)
  {
    hide *;
    WithinExtended(t, pushed, k, row);
    PushKept(t, limits, k, row);
    KeysWith(pushed, k, row);
    PushSets(pushed.Keys, t.Keys, released, lost, k, Enforced(Inserted(t, k, row), limits, row.createdMs).Keys,
             EnforcedCount(Inserted(t, k, row), limits, row.createdMs));
  }

  lemma KeysWith(t: Table, k: Key, row: Row)
    ensures t[k := row].Keys == t.Keys + {k}
  {
  }

  lemma PushAccounted(s: System, limits: Limits, k: Key, row: Row)
    requires Faithful(s) && Accounted(s) && k !in s.pushed
    ensures Accounted(AfterPush(s, limits, k, row))
  {
    hide Enforced, EnforcedCount, Inserted, Split, Within;
    PushAccounts(s.pushed, s.client.segments, limits, k, row, s.released, s.lost);
  }

  lemma SealKept(t: Table, call: string)
    ensures Within(RowsOutside(t, call), t) && RowsOutside(t, call).Keys <= t.Keys
  {
  }

  lemma SealKeeps(s: System, call: string)
    requires Faithful(s) && Accounted(s)
    ensures Faithful(AfterSeal(s, call)) && Accounted(AfterSeal(s, call))
  {
    hide Split, Within, RowsOutside;
    var kept := RowsOutside(s.client.segments, call);
    SealKept(s.client.segments, call);
    WithinTrans(kept, s.client.segments, s.pushed);
    Move(s.pushed.Keys, s.client.segments.Keys, s.released, s.lost, kept.Keys);
  }

  lemma AckKept(t: Table, durable: Table, c: ChannelKey, through: u32)
    requires Covered(durable, c, through)
    ensures var kept := Unacked(t, c, through);
            Within(kept, t) && kept.Keys <= t.Keys && t.Keys - kept.Keys <= durable.Keys
  {
  }

  /** An announced ack covers what it deletes, however stale: so does the watermark it is joined with. */
  lemma AckCovers(s: System, ack: Ack)
    requires Truthful(s) && ack in s.announced
    ensures Covered(s.server.durable, ack.channel, Watermark(s.client.acks, ack.channel, ack.through))
  {
    hide Covered, Sound;
  }

  lemma SplitSwap(all: set<Key>, a: set<Key>, b: set<Key>, c: set<Key>)
    requires Split(all, a, b, c)
    ensures Split(all, a, c, b)
  {
  }

  /** A delivered ack releases only durable segments, whatever order acks arrive in. */
  lemma AckKeeps(s: System, ack: Ack)
    requires Faithful(s) && Accounted(s) && Truthful(s) && ack in s.announced
    ensures Faithful(AfterAck(s, ack)) && Accounted(AfterAck(s, ack))
  {
    hide Split, Truthful, Covered, Unacked, Within;
    var through := Watermark(s.client.acks, ack.channel, ack.through);
    var kept := Unacked(s.client.segments, ack.channel, through);
    AckCovers(s, ack);
    AckKept(s.client.segments, s.server.durable, ack.channel, through);
    WithinTrans(kept, s.client.segments, s.pushed);
    SplitSwap(s.pushed.Keys, s.client.segments.Keys, s.released, s.lost);
    Move(s.pushed.Keys, s.client.segments.Keys, s.lost, s.released, kept.Keys);
  }

  lemma AckTruthful(s: System, ack: Ack)
    requires Truthful(s) && ack in s.announced
    ensures Truthful(AfterAck(s, ack))
  {
    hide Covered, Unacked, Sound;
    AckCovers(s, ack);
  }

  // -------------------------------------------------- the gateway's steps

  /** Putting a held segment on the wire. */
  lemma TransmitKeeps(s: System, limits: Limits, k: Key)
    requires Inv(s) && k in Pending(s.client, k.call)
    ensures Inv(Next(s, limits, Transmit(k)))
  {
    hide Split, Covered, Sound, LinkInStep;
  }

  lemma ConnectKeeps(s: System, limits: Limits)
    requires Inv(s)
    ensures Inv(Next(s, limits, Connect))
  {
    hide Split, Covered, Sound, LinkInStep, Within;
  }

  /** Loading a persisted watermark into a channel leaves it sound, in step and at its first hole. */
  lemma Reloaded(d: Table, marks: map<ChannelKey, u32>, c: ChannelKey, link: Link)
    requires c in marks && Covered(d, c, marks[c]) && Sound(d, c, link.chan)
    requires LinkInStep(marks, c, link) || link == Link(FRESH, None)
    ensures var loaded := Link(link.chan.(through := marks[c], started := true), Some(marks[c]));
            Sound(d, c, loaded.chan) && LinkInStep(marks, c, loaded)
  {
  }

  lemma FreshSound(d: Table, c: ChannelKey)
    ensures Sound(d, c, FRESH)
  {
  }

  lemma OpenedLink(v: Server, call: string, c: ChannelKey)
    requires c in Opened(v, call).links
    requires forall b :: b in v.marks ==> Covered(v.durable, b, v.marks[b])
    requires forall b :: b in v.links ==> Sound(v.durable, b, v.links[b].chan) && LinkInStep(v.marks, b, v.links[b])
    ensures Sound(v.durable, c, Opened(v, call).links[c].chan) && LinkInStep(v.marks, c, Opened(v, call).links[c])
  {
    hide Covered, Sound, LinkInStep;
    FreshSound(v.durable, c);
    if c.call == call && c in v.marks {
      Reloaded(v.durable, v.marks, c, LinkOf(v, c));
    }
  }

  lemma CallStartKeeps(s: System, limits: Limits, call: string)
    requires Inv(s)
    ensures Inv(Next(s, limits, CallStart(call)))
  {
    hide Split, Covered, Sound, LinkInStep, Within;
    var v := Opened(s.server, call);
    forall c | c in v.links
      ensures Sound(v.durable, c, v.links[c].chan) && LinkInStep(v.marks, c, v.links[c])
    {
      OpenedLink(s.server, call, c);
    }
  }

  lemma CoveredGrows(d: Table, e: Table, c: ChannelKey, n: u32)
    requires Covered(d, c, n) && d.Keys <= e.Keys
    ensures Covered(e, c, n)
  {
  }

  lemma SoundGrows(d: Table, e: Table, c: ChannelKey, chan: Chan)
    requires Sound(d, c, chan) && d.Keys <= e.Keys
    ensures Sound(e, c, chan)
  {
  }

  /** The channel a media record lands on. */
  lemma StoredLink(v: Server, k: Key, row: Row, putOk: bool)
    requires Sound(v.durable, ChannelOf(k), LinkOf(v, ChannelOf(k)).chan)
    requires LinkInStep(v.marks, ChannelOf(k), LinkOf(v, ChannelOf(k)))
    ensures var w := Stored(v, k, row, putOk);
            && v.durable.Keys <= w.durable.Keys
            && Sound(w.durable, ChannelOf(k), w.links[ChannelOf(k)].chan)
            && LinkInStep(w.marks, ChannelOf(k), w.links[ChannelOf(k)])
  {
    hide Advanced, Sound, AtFirstHole, Knows;
    var c := ChannelOf(k);
    var w, chan := Stored(v, k, row, putOk), LinkOf(v, c).chan;
    if !((chan.started && k.num <= chan.through) || !putOk) {
      SoundGrows(v.durable, w.durable, c, chan);
      AdvancedSound(w.durable, k, chan);
    }
  }

  /** On a connection that has opened the call, a channel without a link is one with no watermark yet. */
  lemma FreshInStep(s: System, c: ChannelKey)
    requires Truthful(s) && InStep(s) && c.call in s.server.open
    ensures Sound(s.server.durable, c, LinkOf(s.server, c).chan) && LinkInStep(s.server.marks, c, LinkOf(s.server, c))
  {
    FreshSound(s.server.durable, c);
  }

  lemma ReceiveTruthful(s: System, k: Key, putOk: bool)
    requires Truthful(s) && InStep(s) && k in s.sent && k.call in s.server.open
    ensures Truthful(s.(server := Stored(s.server, k, s.sent[k], putOk)))
    ensures InStep(s.(server := Stored(s.server, k, s.sent[k], putOk)))
  {
    hide Covered, Sound, LinkInStep, Advanced;
    var v, w := s.server, Stored(s.server, k, s.sent[k], putOk);
    FreshInStep(s, ChannelOf(k));
    StoredLink(v, k, s.sent[k], putOk);
    forall c, n | Covered(v.durable, c, n) ensures Covered(w.durable, c, n) { CoveredGrows(v.durable, w.durable, c, n); }
    forall c, chan | Sound(v.durable, c, chan) ensures Sound(w.durable, c, chan) { SoundGrows(v.durable, w.durable, c, chan); }
  }

  lemma ReceiveKeeps(s: System, limits: Limits, k: Key, putOk: bool)
    requires Inv(s) && k in s.sent && k.call in s.server.open
    ensures Inv(Next(s, limits, Receive(k, putOk)))
  {
    hide Split, Covered, Sound, LinkInStep, Advanced;
    ReceiveTruthful(s, k, putOk);
  }

  lemma AckDueLink(v: Server, c: ChannelKey)
    requires c in v.links && v.links[c].chan.started && Sound(v.durable, c, v.links[c].chan) && LinkInStep(v.marks, c, v.links[c])
    ensures var link := v.links[c]; var n := link.chan.through;
            && Covered(v.durable, c, n) && Watermark(v.marks, c, n) == n
            && LinkInStep(v.marks[c := n], c, link.(acked := Some(n)))
  {
    hide AtFirstHole;
  }

  lemma OtherLink(marks: map<ChannelKey, u32>, c: ChannelKey, n: u32, b: ChannelKey, link: Link)
    requires LinkInStep(marks, b, link) && b != c
    ensures LinkInStep(marks[c := n], b, link)
  {
    hide AtFirstHole;
  }

  lemma AckDueTruthful(s: System, c: ChannelKey, setOk: bool)
    requires Truthful(s) && InStep(s) && c in s.server.links && s.server.links[c].chan.started
    ensures Truthful(Acknowledge(s, c, setOk))
  {
    hide Covered, Sound, LinkInStep, Watermark;
    AckDueLink(s.server, c);
  }

  lemma AckDueInStep(s: System, c: ChannelKey, setOk: bool)
    requires Truthful(s) && InStep(s) && c in s.server.links && s.server.links[c].chan.started
    ensures InStep(Acknowledge(s, c, setOk))
  {
    hide Covered, Sound, LinkInStep, Watermark, Truthful;
    TruthfulLink(s, c);
    AckDueLink(s.server, c);
    RaisedAnnounced(s, c);
    forall b | b in s.server.links && b != c
      ensures LinkInStep(s.server.marks[c := s.server.links[c].chan.through], b, s.server.links[b]) {
      OtherLink(s.server.marks, c, s.server.links[c].chan.through, b, s.server.links[b]);
    }
  }

  lemma TruthfulLink(s: System, c: ChannelKey)
    requires Truthful(s) && c in s.server.links
    ensures Sound(s.server.durable, c, s.server.links[c].chan)
  {
    hide Covered, Sound;
  }

  /** What was announced on the channel is no higher than its new watermark. */
  lemma RaisedAnnounced(s: System, c: ChannelKey)
    requires InStep(s) && c in s.server.links
    ensures forall a :: a in s.announced && a.channel == c ==> a.through <= s.server.links[c].chan.through
  {
    hide AtFirstHole;
  }

  /** The watermark is announced only after it is persisted, and only when it is news. */
  lemma AckDueKeeps(s: System, limits: Limits, c: ChannelKey, setOk: bool)
    requires Inv(s) && c in s.server.links && s.server.links[c].chan.started
    ensures Inv(Next(s, limits, AckDue(c, setOk)))
  {
    hide Split, Within, Truthful, InStep, Watermark;
    AckDueTruthful(s, c, setOk);
    AckDueInStep(s, c, setOk);
  }

  // ------------------------------------------------------- over whole runs

  lemma StepKeeps(s: System, limits: Limits, a: Action)
    requires Inv(s) && Enabled(s, a)
    ensures Inv(Next(s, limits, a))
  {
    hide Faithful, Accounted, Truthful, InStep;
    match a
    case Push(k, row) =>
      PushFaithful(s, limits, k, row);
      PushAccounted(s, limits, k, row);
      ClientOnly(s, Next(s, limits, a));
    case Seal(call) =>
      SealKeeps(s, call);
      ClientOnly(s, Next(s, limits, a));
    case DeliverAck(ack) =>
      AckKeeps(s, ack);
      AckTruthful(s, ack);
      StillInStep(s, Next(s, limits, a));
    case Transmit(k) => TransmitKeeps(s, limits, k);
    case Connect => ConnectKeeps(s, limits);
    case CallStart(call) => CallStartKeeps(s, limits, call);
    case Receive(k, putOk) => ReceiveKeeps(s, limits, k, putOk);
    case AckDue(c, setOk) => AckDueKeeps(s, limits, c, setOk);
    case _ => Bookkeeping(s, limits, a);
  }

  lemma StillInStep(s: System, s': System)
    requires InStep(s) && s'.server == s.server && s'.announced == s.announced
    ensures InStep(s')
  {
  }

  lemma Bookkeeping(s: System, limits: Limits, a: Action)
    requires Inv(s) && (a.Begin? || a.End? || a.Vacuum?)
    ensures Inv(Next(s, limits, a))
  {
    hide Split, Covered, Sound, LinkInStep, Within;
  }

  ghost predicate Possible(s: System, limits: Limits, run: seq<Action>)
    decreases |run|
  {
    run == [] || (Enabled(s, run[0]) && Possible(Next(s, limits, run[0]), limits, run[1..]))
  }

  ghost function After(s: System, limits: Limits, run: seq<Action>): System
    requires Possible(s, limits, run)
    decreases |run|
  {
    if run == [] then s else After(Next(s, limits, run[0]), limits, run[1..])
  }

  lemma {:induction false} RunKeeps(s: System, limits: Limits, run: seq<Action>)
    requires Inv(s) && Possible(s, limits, run)
    ensures Inv(After(s, limits, run))
    decreases |run|
  {
    hide Inv;
    if run != [] {
      StepKeeps(s, limits, run[0]);
      RunKeeps(Next(s, limits, run[0]), limits, run[1..]);
    }
  }

  lemma StartHolds()
    ensures Inv(START)
  {
  }

  /**
   In every run, with acks and media lost, repeated, delayed or reordered across reconnects: each
   segment the spool ever accepted is still in the spool unchanged, or is stored unchanged at the
   gateway, or is one of exactly as many lost segments as the eviction and seal events admit to.
   */
  lemma NothingIsLostSilently(limits: Limits, run: seq<Action>, k: Key)
    requires Possible(START, limits, run) && k in After(START, limits, run).pushed
    ensures var s := After(START, limits, run);
            || (k in s.client.segments && s.client.segments[k] == s.pushed[k])
            || (k in s.server.durable && s.server.durable[k] == s.pushed[k])
            || k in s.lost
    ensures After(START, limits, run).reported == |After(START, limits, run).lost|
  {
    StartHolds();
    RunKeeps(START, limits, run);
  }

  /** A row never leaves on an ack unless its own audio is durable at that moment. */
  lemma ReleasedIsDurable(limits: Limits, run: seq<Action>, k: Key)
    requires Possible(START, limits, run) && k in After(START, limits, run).released
    ensures var s := After(START, limits, run);
            k in s.pushed && k in s.server.durable && s.server.durable[k] == s.pushed[k] && k !in s.lost
  {
    StartHolds();
    RunKeeps(START, limits, run);
  }
}
