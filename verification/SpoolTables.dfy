/**
 The spool's tables as values, its oldest-first order, and eviction
 (client/sentinel-core/src/spool.rs).
 */
module SpoolTables {
  import opened Prelude
  import opened Media

  /** Primary key of the segments table; `num` is the sequence number. */
  datatype Key = Key(call: string, channel: Channel, num: u32)

  datatype Row = Row(timestampMs: nat, flags: MediaFlags, payload: seq<byte>, createdMs: nat)

  type Table = map<Key, Row>

  datatype Limits = Limits(maxBytes: nat, maxAgeMs: nat)

  // ---------------------------------------------------- the eviction order

  /** The columns of `ORDER BY created_ms, call_id, channel, seq`. */
  datatype Rank = Rank(createdMs: nat, key: Key)

  predicate KeyLess(a: Key, b: Key)
  {
    TextLess(a.call, b.call) ||
    (a.call == b.call && (
       (a.channel.Far? && b.channel.Near?) ||
       (a.channel == b.channel && a.num < b.num)))
  }

  predicate RankLess(a: Rank, b: Rank)
  {
    a.createdMs < b.createdMs || (a.createdMs == b.createdMs && KeyLess(a.key, b.key))
  }

  lemma RankTotal(a: Rank, b: Rank)
    ensures a == b || RankLess(a, b) || RankLess(b, a)
  {
    TextLessTotal(a.key.call, b.key.call);
  }

  lemma RankAsym(a: Rank, b: Rank)
    requires RankLess(a, b)
    ensures !RankLess(b, a) && a != b
  {
    if TextLess(a.key.call, b.key.call) { TextLessAsym(a.key.call, b.key.call); }
    if TextLess(b.key.call, a.key.call) { TextLessAsym(b.key.call, a.key.call); }
  }

  lemma RankTrans(a: Rank, b: Rank, c: Rank)
    requires RankLess(a, b) && RankLess(b, c)
    ensures RankLess(a, c)
  {
    if TextLess(a.key.call, b.key.call) && TextLess(b.key.call, c.key.call) {
      TextLessTrans(a.key.call, b.key.call, c.key.call);
    }
  }

  predicate IsLeast(r: Rank, s: set<Rank>)
  {
    r in s && forall q :: q in s ==> q == r || RankLess(r, q)
  }

  lemma HasLeast(s: set<Rank>) returns (r: Rank)
    requires s != {}
    ensures IsLeast(r, s)
  {
    hide RankLess;
    forall a, b ensures a == b || RankLess(a, b) || RankLess(b, a) { RankTotal(a, b); }
    forall a, b, c | RankLess(a, b) && RankLess(b, c) ensures RankLess(a, c) { RankTrans(a, b, c); }
    r := LeastOf(s, RankLess);
  }

  lemma LeastUnique(r: Rank, q: Rank, s: set<Rank>)
    requires IsLeast(r, s) && IsLeast(q, s)
    ensures r == q
  {
    if RankLess(r, q) { RankAsym(r, q); }
  }

  /** The row that eviction would take first. */
  function Least(s: set<Rank>): (r: Rank)
    requires s != {}
    ensures IsLeast(r, s)
  {
    assert exists r :: IsLeast(r, s) by { var r := HasLeast(s); }
    assert forall r, q :: IsLeast(r, s) && IsLeast(q, s) ==> r == q by {
      forall r, q | IsLeast(r, s) && IsLeast(q, s) ensures r == q { LeastUnique(r, q, s); }
    }
    var r :| r in s && IsLeast(r, s);
    r
  }

  /** A set of ranks in increasing order. */
  function Ascending(s: set<Rank>): (r: seq<Rank>)
    ensures |r| == |s|
  {
    if s == {} then [] else [Least(s)] + Ascending(s - {Least(s)})
  }

  ghost predicate Increasing(r: seq<Rank>)
  {
    forall i, j :: 0 <= i < j < |r| ==> RankLess(r[i], r[j])
  }

  lemma {:induction false} AscendingMembers(s: set<Rank>)
    ensures forall x :: x in Ascending(s) <==> x in s
  {
    if s != {} { AscendingMembers(s - {Least(s)}); }
  }

  lemma {:induction false} AscendingIncreases(s: set<Rank>)
    ensures Increasing(Ascending(s))
  {
    if s != {} {
      var rest := s - {Least(s)};
      AscendingIncreases(rest);
      AscendingMembers(rest);
      assert forall x :: x in Ascending(rest) ==> RankLess(Least(s), x);
    }
  }

  ghost predicate Lists(a: seq<Rank>, s: set<Rank>)
  {
    Increasing(a) && forall x :: x in a <==> x in s
  }

  lemma ListHead(a: seq<Rank>, s: set<Rank>)
    requires Lists(a, s) && a != []
    ensures IsLeast(a[0], s) && a[0] in s && s != {}
  {
    assert a[0] in a;
    forall q | q in s ensures q == a[0] || RankLess(a[0], q) {
      assert q in a;
    }
  }

  lemma ListTail(a: seq<Rank>, s: set<Rank>)
    requires Lists(a, s) && a != []
    ensures Lists(a[1..], s - {a[0]})
  {
    forall x ensures x in a[1..] <==> x in s - {a[0]} {
      if x in a[1..] {
        assert x in a;
        RankAsym(a[0], x);
      }
      if x in s - {a[0]} { assert x in a; }
    }
  }

  /** An increasing listing of a set is its ascending order: the order leaves no choice. */
  lemma {:induction false} IncreasingUnique(a: seq<Rank>, s: set<Rank>)
    requires Lists(a, s)
    ensures a == Ascending(s)
  {
    hide RankLess, IsLeast, Increasing;
    if a == [] {
      assert s == {};
    } else {
      ListHead(a, s);
      ListTail(a, s);
      LeastUnique(a[0], Least(s), s);
      IncreasingUnique(a[1..], s - {a[0]});
      assert a == [a[0]] + a[1..];
    }
  }

  // ----------------------------------------------------------- the segments

  function RankOf(t: Table, k: Key): Rank
    requires k in t
  {
    Rank(t[k].createdMs, k)
  }

  function Ranks(t: Table): set<Rank> { set k | k in t :: RankOf(t, k) }

  /** The rows of the table in the order eviction considers them. */
  function Order(t: Table): seq<Rank> { Ascending(Ranks(t)) }

  function OldestKey(t: Table): (k: Key)
    requires t != map[]
    ensures k in t && RankOf(t, k) in Ranks(t) && RankOf(t, k) == Least(Ranks(t))
    ensures forall j :: j in t ==> t[k].createdMs <= t[j].createdMs
  {
    assert Ranks(t) != {} by { var k :| k in t.Keys; assert RankOf(t, k) in Ranks(t); }
    assert forall j :: j in t ==> RankOf(t, j) in Ranks(t);
    Least(Ranks(t)).key
  }

  lemma RanksWithout(t: Table, k: Key)
    requires k in t
    ensures Ranks(t - {k}) == Ranks(t) - {RankOf(t, k)}
  {
    forall r ensures r in Ranks(t - {k}) <==> r in Ranks(t) - {RankOf(t, k)} {
      if r in Ranks(t) && r != RankOf(t, k) { assert r.key in t - {k} && RankOf(t - {k}, r.key) == r; }
    }
  }

  lemma {:induction false} RanksCount(t: Table)
    ensures |Ranks(t)| == |t|
    decreases |t|
  {
    if t != map[] {
      var k := OldestKey(t);
      assert |t - {k}| == |t| - 1 by { assert (t - {k}).Keys == t.Keys - {k}; }
      RanksWithout(t, k);
      RanksCount(t - {k});
    }
  }

  /** The table without its `n` oldest rows. */
  function DropOldest(t: Table, n: nat): Table
    decreases n
  {
    if n == 0 || t == map[] then t else DropOldest(t - {OldestKey(t)}, n - 1)
  }

  lemma DropOne(t: Table)
    requires t != map[]
    ensures var k := OldestKey(t);
            && |t - {k}| == |t| - 1
            && Order(t) == [RankOf(t, k)] + Order(t - {k})
  {
    var k := OldestKey(t);
    assert (t - {k}).Keys == t.Keys - {k};
    RanksWithout(t, k);
  }

  /** Eviction removes exactly a prefix of the order, and leaves every other row as it was. */
  lemma {:induction false} DropOldestIsPrefix(t: Table, n: nat)
    requires n <= |t|
    ensures |Order(t)| == |t|
    ensures Order(DropOldest(t, n)) == Order(t)[n..]
    ensures |DropOldest(t, n)| == |t| - n
    ensures forall k :: k in DropOldest(t, n) ==> k in t && DropOldest(t, n)[k] == t[k]
    decreases n
  {
    RanksCount(t);
    if n > 0 {
      DropOne(t);
      DropOldestIsPrefix(t - {OldestKey(t)}, n - 1);
    }
  }

  /** What goes ranks before what stays. */
  lemma {:induction false} DropTakesFirst(t: Table, n: nat, j: Key, k: Key)
    requires j in t && j !in DropOldest(t, n) && k in DropOldest(t, n)
    ensures k in t && RankLess(RankOf(t, j), RankOf(t, k))
    decreases n
  {
    var o := OldestKey(t);
    hide RankLess, Least;
    if o == j {
      DropKeeps(t - {o}, n - 1, k);
      assert RankOf(t, k) in Ranks(t);
    } else {
      DropTakesFirst(t - {o}, n - 1, j, k);
    }
  }

  lemma {:induction false} DropKeeps(t: Table, n: nat, k: Key)
    requires k in DropOldest(t, n)
    ensures k in t
    decreases n
  {
    if n > 0 && t != map[] { DropKeeps(t - {OldestKey(t)}, n - 1, k); }
  }

  lemma {:induction false} DropOldestAdds(t: Table, a: nat, b: nat)
    requires a + b <= |t|
    ensures DropOldest(DropOldest(t, a), b) == DropOldest(t, a + b)
    decreases a
  {
    if a > 0 {
      DropOne(t);
      DropOldestAdds(t - {OldestKey(t)}, a - 1, b);
    }
  }

  // --------------------------------------------------------------- the sizes

  function Sum(s: seq<nat>): nat { if s == [] then 0 else s[0] + Sum(s[1..]) }

  /** Payload sizes in eviction order. */
  function Sizes(t: Table): (r: seq<nat>)
    ensures |r| == |t|
    decreases |t|
  {
    if t == map[] then []
    else
      DropOne(t);
      [|t[OldestKey(t)].payload|] + Sizes(t - {OldestKey(t)})
  }

  /** `SELECT sum(length(payload)) FROM segments`. */
  function HeldBytes(t: Table): nat { Sum(Sizes(t)) }

  /** The size of a table, whatever the order: each row counts once, by its payload. */
  lemma {:induction false} HeldBytesSplit(t: Table, k: Key)
    requires k in t
    ensures HeldBytes(map[]) == 0 && HeldBytes(t) == |t[k].payload| + HeldBytes(t - {k})
    decreases |t|
  {
    hide HeldBytes, OldestKey;
    var o := HeldBytesOldest(t);
    if k != o {
      HeldBytesSplit(t - {o}, k);
      assert |t - {k}| < |t| by { assert (t - {k}).Keys == t.Keys - {k}; }
      HeldBytesSplit(t - {k}, o);
      assert t - {o} - {k} == t - {k} - {o};
    }
  }

  lemma HeldBytesOldest(t: Table) returns (o: Key)
    requires t != map[]
    ensures o in t && |t - {o}| < |t|
    ensures HeldBytes(map[]) == 0 && HeldBytes(t) == |t[o].payload| + HeldBytes(t - {o})
  {
    o := OldestKey(t);
    DropOne(t);
    hide OldestKey, Order;
  }

  lemma {:induction false} SizesAfterDrop(t: Table, n: nat)
    requires n <= |t|
    ensures Sizes(DropOldest(t, n)) == Sizes(t)[n..]
    decreases n
  {
    if n > 0 {
      DropOne(t);
      var k := OldestKey(t);
      SizesAfterDrop(t - {k}, n - 1);
      assert Sizes(t) == [|t[k].payload|] + Sizes(t - {k});
      hide *;
    }
  }

  ghost predicate PayloadsWithin(t: Table, cap: nat) { forall k :: k in t ==> |t[k].payload| <= cap }

  lemma {:induction false} SizesWithin(t: Table, cap: nat)
    requires PayloadsWithin(t, cap)
    ensures forall i :: 0 <= i < |t| ==> Sizes(t)[i] <= cap
    decreases |t|
  {
    if t != map[] {
      DropOne(t);
      SizesWithin(t - {OldestKey(t)}, cap);
    }
  }

  /** Rows deleted per pass for an overshoot of `over` bytes. */
  function BatchFor(over: nat): (n: nat)
    ensures 1 <= n <= 1_000
  {
    Max(1, Min(over / 3_000, 1_000))
  }

  /** Rows the batched size loop deletes in all. */
  function BatchedCount(sizes: seq<nat>, maxBytes: nat): (n: nat)
    ensures n <= |sizes|
    decreases |sizes|
  {
    if Sum(sizes) <= maxBytes then 0
    else
      var n := Min(BatchFor(Sum(sizes) - maxBytes), |sizes|);
      n + BatchedCount(sizes[n..], maxBytes)
  }

  /** Rows a one-at-a-time loop would delete: the least number that gets under the cap. */
  function ShortestCount(sizes: seq<nat>, maxBytes: nat): (n: nat)
    ensures n <= |sizes| && Sum(sizes[n..]) <= maxBytes
    decreases |sizes|
  {
    if Sum(sizes) <= maxBytes then
      assert sizes[0..] == sizes;
      0
    else
      var n := ShortestCount(sizes[1..], maxBytes);
      assert sizes[1..][n..] == sizes[n + 1..];
      n + 1
  }

  lemma {:induction false} SumSplit(s: seq<nat>, n: nat)
    requires n <= |s|
    ensures Sum(s) == Sum(s[..n]) + Sum(s[n..])
  {
    if n == 0 {
      assert s[..0] == [] && s[0..] == s;
    } else {
      SumSplit(s[1..], n - 1);
      assert s[..n][1..] == s[1..][..n - 1] && s[1..][n - 1..] == s[n..];
    }
  }

  lemma {:induction false} SumBound(s: seq<nat>, cap: nat)
    requires forall i :: 0 <= i < |s| ==> s[i] <= cap
    ensures Sum(s) <= |s| * cap
  {
    if s != [] { SumBound(s[1..], cap); }
  }

  lemma {:induction false} SumConstant(n: nat, size: nat)
    ensures Sum(seq(n, _ => size)) == n * size
  {
    if n > 0 {
      assert seq(n, _ => size)[1..] == seq(n - 1, _ => size);
      SumConstant(n - 1, size);
    }
  }

  /** Nothing shorter would have done. */
  lemma {:induction false} ShortestIsLeast(sizes: seq<nat>, maxBytes: nat, m: nat)
    requires m < ShortestCount(sizes, maxBytes)
    ensures Sum(sizes[m..]) > maxBytes
  {
    if m == 0 {
      assert sizes[0..] == sizes;
    } else {
      ShortestIsLeast(sizes[1..], maxBytes, m - 1);
      assert sizes[1..][m - 1..] == sizes[m..];
    }
  }

  /** Dropping rows that any solution must drop shortens the solution by as many. */
  lemma {:induction false} ShortestAfter(sizes: seq<nat>, maxBytes: nat, n: nat)
    requires n <= ShortestCount(sizes, maxBytes)
    ensures ShortestCount(sizes, maxBytes) == n + ShortestCount(sizes[n..], maxBytes)
  {
    if n == 0 {
      assert sizes[0..] == sizes;
    } else {
      ShortestAfter(sizes[1..], maxBytes, n - 1);
      assert sizes[1..][n - 1..] == sizes[n..];
    }
  }

  /** Payload size up to which no batch can overshoot: 999 such rows still weigh less than 3,000,000 bytes. */
  const BATCH_SAFE_BYTES := 3_003

  /** Rows of safe size that cover the overshoot are at least as many as the batch. */
  lemma EnoughRows(over: nat, s: nat)
    requires 0 < over <= s * BATCH_SAFE_BYTES
    ensures BatchFor(over) <= s
  {
    assert over / 3_000 * 3_000 <= over;
  }

  /** One batch never deletes more than is needed when payloads are small. */
  lemma BatchIsNeeded(sizes: seq<nat>, maxBytes: nat)
    requires Sum(sizes) > maxBytes
    requires forall i :: 0 <= i < |sizes| ==> sizes[i] <= BATCH_SAFE_BYTES
    ensures Min(BatchFor(Sum(sizes) - maxBytes), |sizes|) <= ShortestCount(sizes, maxBytes)
  {
    var s := ShortestCount(sizes, maxBytes);
    SumSplit(sizes, s);
    SumBound(sizes[..s], BATCH_SAFE_BYTES);
    EnoughRows(Sum(sizes) - maxBytes, s);
  }

  lemma {:induction false} BatchedIsShortest(sizes: seq<nat>, maxBytes: nat)
    requires forall i :: 0 <= i < |sizes| ==> sizes[i] <= BATCH_SAFE_BYTES
    ensures BatchedCount(sizes, maxBytes) == ShortestCount(sizes, maxBytes)
    decreases |sizes|
  {
    if Sum(sizes) > maxBytes {
      var n := Min(BatchFor(Sum(sizes) - maxBytes), |sizes|);
      BatchIsNeeded(sizes, maxBytes);
      ShortestAfter(sizes, maxBytes, n);
      BatchedIsShortest(sizes[n..], maxBytes);
    }
  }

  /** A thousand and one rows just over the safe size: 999 deletions suffice, the batch makes 1,000. */
  lemma BatchOvershoots(cap: nat) returns (sizes: seq<nat>, maxBytes: nat)
    requires cap > BATCH_SAFE_BYTES
    ensures forall i :: 0 <= i < |sizes| ==> sizes[i] <= cap
    ensures BatchedCount(sizes, maxBytes) > ShortestCount(sizes, maxBytes)
  {
    var size := BATCH_SAFE_BYTES + 1;
    sizes := seq(1_001, _ => size);
    maxBytes := 1_001 * size - 3_000_000;
    SumConstant(1_001, size);
    assert BatchFor(3_000_000) == 1_000;
    assert BatchedCount(sizes, maxBytes) >= 1_000;
    if ShortestCount(sizes, maxBytes) > 999 {
      ShortestIsLeast(sizes, maxBytes, 999);
      assert sizes[999..] == seq(2, _ => size);
      SumConstant(2, size);
      assert false;
    }
  }

  /**
   The batched loop refines one-row-at-a-time eviction on every spool whose payloads stay within
   `cap` exactly when `cap` is at most 3,003 bytes.
   */
  lemma BatchedIsShortestIff(cap: nat)
    ensures (forall sizes: seq<nat>, maxBytes: nat ::
               (forall i :: 0 <= i < |sizes| ==> sizes[i] <= cap) ==>
               BatchedCount(sizes, maxBytes) == ShortestCount(sizes, maxBytes))
            <==> cap <= BATCH_SAFE_BYTES
  {
    if cap <= BATCH_SAFE_BYTES {
      forall sizes: seq<nat>, maxBytes: nat | forall i :: 0 <= i < |sizes| ==> sizes[i] <= cap
        ensures BatchedCount(sizes, maxBytes) == ShortestCount(sizes, maxBytes)
      {
        BatchedIsShortest(sizes, maxBytes);
      }
    } else {
      var sizes, maxBytes := BatchOvershoots(cap);
    }
  }

  lemma SumShrinks(sizes: seq<nat>, a: nat, b: nat)
    requires a <= b <= |sizes|
    ensures Sum(sizes[b..]) <= Sum(sizes[a..])
  {
    SumSplit(sizes[a..], b - a);
    assert sizes[a..][b - a..] == sizes[b..];
  }

  /** Whatever the payloads, the loop ends under the cap. */
  lemma {:induction false} BatchedIsSufficient(sizes: seq<nat>, maxBytes: nat)
    ensures Sum(sizes[BatchedCount(sizes, maxBytes)..]) <= maxBytes
    decreases |sizes|
  {
    if Sum(sizes) <= maxBytes {
      assert sizes[0..] == sizes;
    } else {
      var n := Min(BatchFor(Sum(sizes) - maxBytes), |sizes|);
      var b := BatchedCount(sizes[n..], maxBytes);
      BatchedIsSufficient(sizes[n..], maxBytes);
      assert sizes[n..][b..] == sizes[n + b..];
    }
  }

  /** Whatever the payloads, it deletes at least the shortest sufficient prefix and fewer than 1,000 rows more. */
  lemma {:induction false} OvershootUnderOneBatch(sizes: seq<nat>, maxBytes: nat)
    ensures ShortestCount(sizes, maxBytes) <= BatchedCount(sizes, maxBytes) < ShortestCount(sizes, maxBytes) + 1_000
    decreases |sizes|
  {
    BatchedIsSufficient(sizes, maxBytes);
    if BatchedCount(sizes, maxBytes) < ShortestCount(sizes, maxBytes) {
      ShortestIsLeast(sizes, maxBytes, BatchedCount(sizes, maxBytes));
    }
    if Sum(sizes) > maxBytes {
      var n, s := Min(BatchFor(Sum(sizes) - maxBytes), |sizes|), ShortestCount(sizes, maxBytes);
      if n <= s {
        ShortestAfter(sizes, maxBytes, n);
        OvershootUnderOneBatch(sizes[n..], maxBytes);
      } else {
        SumShrinks(sizes, s, n);
      }
    }
  }

  // ------------------------------------------------------ enforcing both caps

  /** `DELETE FROM segments WHERE created_ms < cutoff`. */
  function AgeCut(t: Table, cutoff: nat): Table { map k | k in t && t[k].createdMs >= cutoff :: t[k] }

  function Cutoff(limits: Limits, nowMs: nat): nat { SatSub(nowMs, limits.maxAgeMs) }

  lemma AgeCutSubset(t: Table, cutoff: nat)
    ensures |AgeCut(t, cutoff)| <= |t|
  {
    SubsetSize(AgeCut(t, cutoff).Keys, t.Keys);
  }

  /** Rows the two caps evict together. */
  function EnforcedCount(t: Table, limits: Limits, nowMs: nat): nat
  {
    var young := AgeCut(t, Cutoff(limits, nowMs));
    AgeCutSubset(t, Cutoff(limits, nowMs));
    |t| - |young| + BatchedCount(Sizes(young), limits.maxBytes)
  }

  /** The table after the age delete and the batched size loop. */
  function Enforced(t: Table, limits: Limits, nowMs: nat): Table
  {
    var young := AgeCut(t, Cutoff(limits, nowMs));
    DropOldest(young, BatchedCount(Sizes(young), limits.maxBytes))
  }

  ghost predicate WithinCaps(t: Table, limits: Limits, nowMs: nat)
  {
    HeldBytes(t) <= limits.maxBytes && forall k :: k in t ==> t[k].createdMs + limits.maxAgeMs >= nowMs
  }

  /** The reference policy: while a cap is exceeded, delete the single oldest row. */
  ghost function OneAtATime(t: Table, limits: Limits, nowMs: nat): nat
    decreases |t|
  {
    if t == map[] || WithinCaps(t, limits, nowMs) then 0
    else
      DropOne(t);
      1 + OneAtATime(t - {OldestKey(t)}, limits, nowMs)
  }

  /** The age cap, too, takes a prefix: the rows below the cutoff are the oldest ones. */
  lemma {:induction false} AgeCutIsPrefix(t: Table, cutoff: nat)
    ensures |AgeCut(t, cutoff)| <= |t|
    ensures AgeCut(t, cutoff) == DropOldest(t, |t| - |AgeCut(t, cutoff)|)
    decreases |t|
  {
    AgeCutSubset(t, cutoff);
    if t != map[] {
      var k := OldestKey(t);
      if t[k].createdMs >= cutoff {
        assert AgeCut(t, cutoff) == t;
      } else {
        assert AgeCut(t, cutoff) == AgeCut(t - {k}, cutoff);
        DropOne(t);
        AgeCutIsPrefix(t - {k}, cutoff);
      }
    }
  }

  /** Both caps together remove exactly the reported number of rows, oldest first. */
  lemma EnforcedIsPrefix(t: Table, limits: Limits, nowMs: nat)
    ensures var n := EnforcedCount(t, limits, nowMs);
            && n <= |t|
            && Enforced(t, limits, nowMs) == DropOldest(t, n)
            && |Enforced(t, limits, nowMs)| == |t| - n
    ensures forall k :: k in Enforced(t, limits, nowMs) ==> k in t && Enforced(t, limits, nowMs)[k] == t[k]
  {
    var young := AgeCut(t, Cutoff(limits, nowMs));
    var n := BatchedCount(Sizes(young), limits.maxBytes);
    hide DropOldest, AgeCut, Sizes, BatchedCount, Cutoff, Order, Ranks, RankOf;
    AgeCutIsPrefix(t, Cutoff(limits, nowMs));
    DropOldestAdds(t, |t| - |young|, n);
    DropOldestIsPrefix(t, |t| - |young| + n);
  }

  /** An evicted row and a kept one, field by field: older, or as old and before it by call, channel and number. */
  lemma EvictedBeforeKept(t: Table, limits: Limits, nowMs: nat, j: Key, k: Key)
    requires j in t && j !in Enforced(t, limits, nowMs) && k in Enforced(t, limits, nowMs)
    ensures k in t
    ensures || t[j].createdMs < t[k].createdMs
            || (t[j].createdMs == t[k].createdMs && TextLess(j.call, k.call))
            || (t[j].createdMs == t[k].createdMs && j.call == k.call && j.channel == Far && k.channel == Near)
            || (t[j].createdMs == t[k].createdMs && j.call == k.call && j.channel == k.channel && j.num < k.num)
  {
    EnforcedIsPrefix(t, limits, nowMs);
    DropTakesFirst(t, EnforcedCount(t, limits, nowMs), j, k);
  }

  /** Afterwards both caps hold. */
  lemma EnforcedWithinCaps(t: Table, limits: Limits, nowMs: nat)
    ensures WithinCaps(Enforced(t, limits, nowMs), limits, nowMs)
  {
    var young := AgeCut(t, Cutoff(limits, nowMs));
    var n := BatchedCount(Sizes(young), limits.maxBytes);
    hide DropOldest, Sizes, BatchedCount, Sum;
    SizesAfterDrop(young, n);
    BatchedIsSufficient(Sizes(young), limits.maxBytes);
    DropOldestIsPrefix(young, n);
  }

  /** A table inside both caps is left alone. */
  lemma NothingToEvict(t: Table, limits: Limits, nowMs: nat)
    requires WithinCaps(t, limits, nowMs)
    ensures EnforcedCount(t, limits, nowMs) == 0
  {
    assert AgeCut(t, Cutoff(limits, nowMs)) == t;
  }

  /** Otherwise the batched form takes the oldest row and one more than it takes from the rest. */
  lemma EvictOneMore(t: Table, limits: Limits, nowMs: nat)
    requires t != map[] && !WithinCaps(t, limits, nowMs) && PayloadsWithin(t, BATCH_SAFE_BYTES)
    ensures EnforcedCount(t, limits, nowMs) == 1 + EnforcedCount(t - {OldestKey(t)}, limits, nowMs)
  {
    var k, cutoff := OldestKey(t), Cutoff(limits, nowMs);
    var rest := t - {k};
    DropOne(t);
    if t[k].createdMs < cutoff {
      assert AgeCut(t, cutoff) == AgeCut(rest, cutoff);
    } else {
      assert AgeCut(t, cutoff) == t && AgeCut(rest, cutoff) == rest;
      SizesWithin(t, BATCH_SAFE_BYTES);
      SizesWithin(rest, BATCH_SAFE_BYTES);
      BatchedIsShortest(Sizes(t), limits.maxBytes);
      BatchedIsShortest(Sizes(rest), limits.maxBytes);
      assert Sizes(t)[1..] == Sizes(rest);
    }
  }

  /**
   With payloads of at most 3,003 bytes, batched eviction under both caps is exactly the
   one-row-at-a-time policy, so it never deletes a row it could have kept.
   */
  lemma {:induction false} EnforcedIsOneAtATime(t: Table, limits: Limits, nowMs: nat)
    requires PayloadsWithin(t, BATCH_SAFE_BYTES)
    ensures EnforcedCount(t, limits, nowMs) == OneAtATime(t, limits, nowMs)
    decreases |t|
  {
    if WithinCaps(t, limits, nowMs) {
      NothingToEvict(t, limits, nowMs);
    } else if t == map[] {
      assert WithinCaps(t, limits, nowMs);
    } else {
      EvictOneMore(t, limits, nowMs);
      DropOne(t);
      EnforcedIsOneAtATime(t - {OldestKey(t)}, limits, nowMs);
    }
  }

  /** The row eviction reaches last. */
  function NewestKey(t: Table): Key
    requires t != map[]
  {
    RanksCount(t);
    Order(t)[|t| - 1].key
  }

  lemma NewestInTable(t: Table)
    requires t != map[]
    ensures NewestKey(t) in t
  {
    RanksCount(t);
    AscendingMembers(Ranks(t));
    assert Order(t)[|t| - 1] in Order(t);
  }

  /** A newest row that is young enough and small enough stops the reference policy before it is reached. */
  lemma {:induction false} StopsBeforeNewest(t: Table, limits: Limits, nowMs: nat)
    requires t != map[] && NewestKey(t) in t
    requires t[NewestKey(t)].createdMs >= Cutoff(limits, nowMs) && |t[NewestKey(t)].payload| <= limits.maxBytes
    ensures OneAtATime(t, limits, nowMs) < |t|
    decreases |t|
  {
    var k := OldestKey(t);
    var rest := t - {k};
    DropOne(t);
    RanksCount(t);
    RanksCount(rest);
    if |t| == 1 {
      assert rest == map[];
      assert t.Keys == {k};
      assert Sizes(rest) == [] && Sizes(t) == [|t[k].payload|];
      SumOfTwo(0, |t[k].payload|);
    } else {
      assert rest != map[];
      assert NewestKey(rest) == NewestKey(t);
      NewestInTable(rest);
      StopsBeforeNewest(rest, limits, nowMs);
    }
  }

  /** A full spool still accepts the newest audio, while payloads stay within the safe size. */
  lemma NewestSurvives(t: Table, limits: Limits, nowMs: nat)
    requires t != map[] && PayloadsWithin(t, BATCH_SAFE_BYTES) && NewestKey(t) in t
    requires t[NewestKey(t)].createdMs >= Cutoff(limits, nowMs) && |t[NewestKey(t)].payload| <= limits.maxBytes
    ensures NewestKey(t) in Enforced(t, limits, nowMs)
  {
    StopsBeforeNewest(t, limits, nowMs);
    EnforcedIsOneAtATime(t, limits, nowMs);
    EnforcedIsPrefix(t, limits, nowMs);
    var n := EnforcedCount(t, limits, nowMs);
    var left := DropOldest(t, n);
    DropOldestIsPrefix(t, n);
    AscendingMembers(Ranks(left));
    assert Order(left)[|left| - 1] == Order(t)[|t| - 1];
    assert Order(t)[|t| - 1] in Order(left);
  }

  /** Everything about a table of two rows, one older than the other. */
  lemma TwoRows(t: Table, k0: Key, k1: Key)
    requires t.Keys == {k0, k1} && k0 != k1 && t[k0].createdMs < t[k1].createdMs
    ensures t != map[] && OldestKey(t) == k0 && NewestKey(t) == k1
    ensures t - {k0} != map[] && OldestKey(t - {k0}) == k1 && DropOldest(t, 2) == map[]
    ensures Sizes(t) == [|t[k0].payload|, |t[k1].payload|] && Sizes(t - {k0}) == [|t[k1].payload|]
  {
    assert k0 in t;
    var rest := t - {k0};
    assert k1 in rest && rest.Keys == {k1};
    assert rest - {k1} == map[];
    DropOne(t);
    DropOne(rest);
    RanksCount(t);
    assert Order(map[]) == [];
    assert DropOldest(rest, 1) == DropOldest(map[], 0);
  }

  lemma SumOfTwo(a: nat, b: nat)
    ensures Sum([a, b]) == a + b && Sum([b]) == b
  {
    assert [a, b][1..] == [b] && [b][1..] == [];
    assert Sum([b]) == b + Sum([b][1..]);
    assert Sum([a, b]) == a + Sum([a, b][1..]);
  }

  /** With larger payloads the newest row can be lost although deleting one old row was enough. */
  lemma NewestCanBeLost() returns (t: Table, limits: Limits)
    ensures t != map[] && NewestKey(t) in t && |t[NewestKey(t)].payload| <= limits.maxBytes
    ensures OneAtATime(t, limits, 0) == 1 && Enforced(t, limits, 0) == map[]
  {
    var k0, k1 := Key("c", Far, 0), Key("c", Far, 1);
    var big, small := seq(9_000, _ => 0), seq(100, _ => 0);
    t := map[k0 := Row(0, MediaFlags(false, false), big, 0), k1 := Row(0, MediaFlags(false, false), small, 1)];
    limits := Limits(3_100, 0);
    TwoRows(t, k0, k1);
    SumOfTwo(9_000, 100);
    assert AgeCut(t, 0) == t;
    hide DropOldest, Sizes, Sum;
    assert BatchedCount(Sizes(t), 3_100) == 2;
    assert !WithinCaps(t, limits, 0) && WithinCaps(t - {k0}, limits, 0);
  }

  // ----------------------------------- when the newest row is safe, exactly

  /** A newest row inside the age cap that fits under the size cap is still there afterwards. */
  ghost predicate KeepsNewest(t: Table, limits: Limits, nowMs: nat)
  {
    t != map[] && NewestKey(t) in t &&
    t[NewestKey(t)].createdMs >= Cutoff(limits, nowMs) && |t[NewestKey(t)].payload| <= limits.maxBytes ==>
      NewestKey(t) in Enforced(t, limits, nowMs)
  }

  function JustTooLarge(): (r: Row)
    ensures |r.payload| == BATCH_SAFE_BYTES + 1 && r.createdMs == 0
  {
    Row(0, MediaFlags(false, false), seq(BATCH_SAFE_BYTES + 1, _ => 0), 0)
  }

  /** `n` rows of one byte more than the safe size. */
  function Crowd(n: u32): (t: Table)
    ensures forall k :: k in t ==> k.num < n && |t[k].payload| == BATCH_SAFE_BYTES + 1
    ensures |t| == n
  {
    if n == 0 then map[] else Crowd(n - 1)[Key("c", Far, n - 1) := JustTooLarge()]
  }

  lemma {:induction false} SizesEqual(t: Table, size: nat)
    requires forall k :: k in t ==> |t[k].payload| == size
    ensures Sizes(t) == seq(|t|, _ => size)
    decreases |t|
  {
    if t != map[] {
      DropOne(t);
      SizesEqual(t - {OldestKey(t)}, size);
    }
  }

  lemma OneBatchTakesAll()
    ensures BatchedCount(seq(1_000, _ => BATCH_SAFE_BYTES + 1), 4_000) == 1_000
  {
    var sizes := seq(1_000, _ => BATCH_SAFE_BYTES + 1);
    SumConstant(1_000, BATCH_SAFE_BYTES + 1);
    assert BatchFor(Sum(sizes) - 4_000) == 1_000;
    assert sizes[1_000..] == [];
  }

  lemma CrowdIsTaken(t: Table, limits: Limits)
    requires |t| == 1_000 && (forall k :: k in t ==> |t[k].payload| == BATCH_SAFE_BYTES + 1) && limits.maxBytes == 4_000
    ensures Enforced(t, limits, 0) == map[]
  {
    hide Sizes, BatchedCount, Sum;
    assert AgeCut(t, 0) == t;
    SizesEqual(t, BATCH_SAFE_BYTES + 1);
    OneBatchTakesAll();
    DropOldestIsPrefix(t, 1_000);
  }

  /** A thousand rows just over the safe size are taken in one batch, the newest with them, although it fits. */
  lemma CrowdLosesNewest() returns (t: Table, limits: Limits)
    ensures PayloadsWithin(t, BATCH_SAFE_BYTES + 1) && !KeepsNewest(t, limits, 0) && OneAtATime(t, limits, 0) < |t|
  {
    hide NewestKey, Enforced, OneAtATime, Crowd;
    t, limits := Crowd(1_000), Limits(4_000, 0);
    NewestInTable(t);
    StopsBeforeNewest(t, limits, 0);
    CrowdIsTaken(t, limits);
  }

  /** The newest row is safe in every spool with payloads up to a cap if and only if the cap is at most 3,003 bytes. */
  lemma NewestSurvivesIff(cap: nat)
    ensures (forall t: Table, limits: Limits, nowMs: nat :: PayloadsWithin(t, cap) ==> KeepsNewest(t, limits, nowMs)) <==> cap <= BATCH_SAFE_BYTES
  {
    hide Enforced, NewestKey, Cutoff;
    if cap <= BATCH_SAFE_BYTES {
      forall t: Table, limits: Limits, nowMs: nat | PayloadsWithin(t, cap) ensures KeepsNewest(t, limits, nowMs) {
        if t != map[] && NewestKey(t) in t && t[NewestKey(t)].createdMs >= Cutoff(limits, nowMs) &&
           |t[NewestKey(t)].payload| <= limits.maxBytes {
          NewestSurvives(t, limits, nowMs);
        }
      }
    } else {
      var t, limits := CrowdLosesNewest();
      assert PayloadsWithin(t, cap);
    }
  }
}
