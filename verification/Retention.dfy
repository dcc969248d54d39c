/**
 The nightly purge (server/pipeline/sentinel_pipeline/retention.py) over the tables its
 statements read and delete (server/pipeline/sentinel_pipeline/persistence.py).

 Storage is adversarial: `broken` is the set of keys whose deletion raises, every time.
 Times are whole seconds.
 */
module Retention {
  import opened Prelude
  import opened ObjectKeys

  datatype RowKey = RowKey(call: string, channel: nat, num: nat)

  datatype Row = Row(tenant: string, receivedAt: int, s3Key: string)

  type Rows = map<RowKey, Row>

  function Expired(rows: Rows, tenant: string, cutoff: int): set<RowKey>
  {
    set k | k in rows && rows[k].tenant == tenant && rows[k].receivedAt < cutoff
  }

  /** Expired rows whose object cannot be deleted. */
  function Stuck(rows: Rows, tenant: string, cutoff: int, broken: set<string>): set<RowKey>
  {
    set k | k in Expired(rows, tenant, cutoff) && rows[k].s3Key in broken
  }

  function ObjectsOf(rows: Rows, keys: set<RowKey>): set<string>
    requires keys <= rows.Keys
  {
    set k | k in keys :: rows[k].s3Key
  }

  function AsSet<T>(s: seq<T>): set<T> { set x | x in s }

  ghost predicate Distinct<T>(s: seq<T>) { forall i, j :: 0 <= i < j < |s| ==> s[i] != s[j] }

  /** What the query may return: distinct expired rows, as many as there are up to the limit. */
  ghost predicate IsBatch(rows: Rows, tenant: string, cutoff: int, limit: nat, batch: seq<RowKey>)
  {
    && Distinct(batch) && AsSet(batch) <= Expired(rows, tenant, cutoff)
    && |batch| == Min(limit, |Expired(rows, tenant, cutoff)|)
  }

  // ----------------------------------------------------------- one batch

  /** The rows of a batch whose objects can go. */
  function Clearable(rows: Rows, batch: set<RowKey>, broken: set<string>): set<RowKey>
    requires batch <= rows.Keys
  {
    set k | k in batch && rows[k].s3Key !in broken
  }

  datatype Snapshot = Snapshot(rows: Rows, objects: set<string>)

  /** No row has gone whose object is still there. */
  ghost predicate ObjectFirst(was: Rows, s: Snapshot)
  {
    forall k :: k in was && k !in s.rows ==> was[k].s3Key !in s.objects
  }

  /** And so at every point of a stretch of the trail. */
  ghost predicate AlwaysObjectFirst(was: Rows, trail: seq<Snapshot>, from: nat)
  {
    forall i :: from <= i < |trail| ==> ObjectFirst(was, trail[i])
  }

  lemma StillObjectFirst(was: Rows, trail: seq<Snapshot>, from: nat, s: Snapshot)
    requires AlwaysObjectFirst(was, trail, from) && ObjectFirst(was, s)
    ensures AlwaysObjectFirst(was, trail + [s], from)
  {
    hide ObjectFirst;
  }

  lemma ObjectGoes(was: Rows, rows: Rows, objects: set<string>, key: string)
    requires ObjectFirst(was, Snapshot(rows, objects))
    ensures ObjectFirst(was, Snapshot(rows, objects - {key}))
  {
  }

  /** `rows` is what is left of `was`. */
  ghost predicate LeftOf(rows: Rows, was: Rows) { rows.Keys <= was.Keys && forall k :: k in rows ==> rows[k] == was[k] }

  lemma RowsGo(was: Rows, rows: Rows, objects: set<string>, keys: set<RowKey>)
    requires LeftOf(rows, was) && keys <= rows.Keys && ObjectFirst(was, Snapshot(rows, objects))
    requires objects !! ObjectsOf(rows, keys)
    ensures LeftOf(rows - keys, was) && ObjectFirst(was, Snapshot(rows - keys, objects))
  {
    forall k | k in was && k !in rows - keys ensures was[k].s3Key !in objects {
      if k in keys {
        assert rows[k].s3Key in ObjectsOf(rows, keys);
      }
    }
  }

  lemma {:induction false} DistinctSize<T>(s: seq<T>)
    requires Distinct(s)
    ensures |AsSet(s)| == |s|
  {
    if s != [] {
      var init, last := s[..|s| - 1], s[|s| - 1];
      DistinctSize(init);
      AsSetSnoc(init, last);
      assert s == init + [last];
      assert last !in init;
    }
  }

  lemma AsSetSnoc<T>(s: seq<T>, x: T)
    ensures AsSet(s + [x]) == AsSet(s) + {x}
  {
  }

  lemma FullBatch(rows: Rows, tenant: string, cutoff: int, limit: nat, batch: seq<RowKey>)
    requires IsBatch(rows, tenant, cutoff, limit, batch)
    ensures |AsSet(batch)| == |batch|
    ensures |batch| < limit ==> AsSet(batch) == Expired(rows, tenant, cutoff)
  {
    DistinctSize(batch);
    if |batch| < limit {
      SameSize(AsSet(batch), Expired(rows, tenant, cutoff));
    }
  }

  lemma BatchIs(rows: Rows, tenant: string, cutoff: int, limit: nat, batch: seq<RowKey>)
    requires IsBatch(rows, tenant, cutoff, limit, batch)
    ensures forall i :: 0 <= i < |batch| ==> batch[i] in rows && rows[batch[i]].tenant == tenant && rows[batch[i]].receivedAt < cutoff
    ensures |batch| < limit ==> forall k :: k in rows && rows[k].tenant == tenant && rows[k].receivedAt < cutoff ==> k in batch
  {
    FullBatch(rows, tenant, cutoff, limit, batch);
    forall i | 0 <= i < |batch| ensures batch[i] in Expired(rows, tenant, cutoff) {
      assert batch[i] in AsSet(batch);
    }
    if |batch| < limit {
      forall k | k in rows && rows[k].tenant == tenant && rows[k].receivedAt < cutoff ensures k in batch {
        assert k in AsSet(batch);
      }
    }
  }

  /** Exactly the tenant's expired rows with a deletable object have gone, each with its object; every other row is as it was. */
  ghost predicate OnlyExpiredWent(was: Rows, rows: Rows, objects: set<string>, tenant: string, cutoff: int, broken: set<string>)
  {
    && (forall k :: k in rows ==> k in was && rows[k] == was[k])
    && (forall k :: k in was && (was[k].tenant != tenant || was[k].receivedAt >= cutoff || was[k].s3Key in broken) ==> k in rows)
    && (forall k :: k in was && was[k].tenant == tenant && was[k].receivedAt < cutoff && was[k].s3Key !in broken ==>
          k !in rows && was[k].s3Key !in objects)
  }

  lemma RowByRow(was: Rows, objects: set<string>, tenant: string, cutoff: int, broken: set<string>, cleared: set<RowKey>)
    requires cleared == Expired(was, tenant, cutoff) - Stuck(was, tenant, cutoff, broken)
    requires cleared <= was.Keys && objects !! ObjectsOf(was, cleared)
    ensures OnlyExpiredWent(was, was - cleared, objects, tenant, cutoff, broken)
  {
    forall k | k in was && was[k].tenant == tenant && was[k].receivedAt < cutoff && was[k].s3Key !in broken
      ensures k in cleared && was[k].s3Key !in objects {
      assert was[k].s3Key in ObjectsOf(was, cleared);
    }
  }

  lemma SameSize<T>(a: set<T>, b: set<T>)
    requires a <= b && |a| == |b|
    ensures a == b
  {
    if x :| x in b && x !in a {
      SubsetSize(a, b - {x});
    }
  }

  // -------------------------------------------------- what the passes leave

  lemma ExpiredWithout(rows: Rows, tenant: string, cutoff: int, broken: set<string>, gone: set<RowKey>)
    requires gone !! Stuck(rows, tenant, cutoff, broken)
    ensures Expired(rows, tenant, cutoff) <= rows.Keys
    ensures Expired(rows - gone, tenant, cutoff) == Expired(rows, tenant, cutoff) - gone
    ensures Stuck(rows - gone, tenant, cutoff, broken) == Stuck(rows, tenant, cutoff, broken)
  {
  }

  /** A full batch larger than the stuck rows always has something to clear. */
  lemma SomeClears(rows: Rows, tenant: string, cutoff: int, broken: set<string>, batch: set<RowKey>)
    requires batch <= Expired(rows, tenant, cutoff) && |Stuck(rows, tenant, cutoff, broken)| < |batch|
    ensures Clearable(rows, batch, broken) != {}
  {
    if Clearable(rows, batch, broken) == {} {
      forall k | k in batch ensures k in Stuck(rows, tenant, cutoff, broken) {
        assert k !in Clearable(rows, batch, broken);
      }
      SubsetSize(batch, Stuck(rows, tenant, cutoff, broken));
    }
  }

  /** The rows after some passes of the loop. */
  function Passed(rows: Rows, passes: seq<set<RowKey>>, broken: set<string>): Rows
  {
    if passes == [] then rows
    else
      var before := Passed(rows, passes[..|passes| - 1], broken);
      before - Clearable(before, passes[|passes| - 1] * before.Keys, broken)
  }

  lemma {:induction false} StuckStay(rows: Rows, tenant: string, cutoff: int, broken: set<string>, passes: seq<set<RowKey>>)
    ensures Stuck(rows, tenant, cutoff, broken) <= Stuck(Passed(rows, passes, broken), tenant, cutoff, broken)
    ensures Passed(rows, passes, broken).Keys <= rows.Keys
  {
    if passes != [] {
      StuckStay(rows, tenant, cutoff, broken, passes[..|passes| - 1]);
    }
  }

  /**
   With at least a batch of stuck rows the loop never ends: after any number of passes, over
   any batches, the next batch is full again.
   */
  lemma NeverEnds(rows: Rows, tenant: string, cutoff: int, broken: set<string>, limit: nat, passes: seq<set<RowKey>>, next: seq<RowKey>)
    requires 0 < limit <= |Stuck(rows, tenant, cutoff, broken)|
    requires IsBatch(Passed(rows, passes, broken), tenant, cutoff, limit, next)
    ensures next != [] && !(|next| < limit)
  {
    hide Passed;
    StuckStay(rows, tenant, cutoff, broken, passes);
    var now := Passed(rows, passes, broken);
    SubsetSize(Stuck(rows, tenant, cutoff, broken), Expired(now, tenant, cutoff));
  }

  // ----------------------------------------------------------- days and keys

  const DAY := 86_400

  function Day(t: int): int { t / DAY }

  /** The first day the sweep leaves alone. */
  function Horizon(cutoff: int): int { Day(cutoff - DAY) }

  /** How dates are written, and how the sweep reads them. */
  ghost predicate Calendar(iso: int -> string, parse: string -> Option<int>)
  {
    forall d :: NoSlash(iso(d)) && iso(d) != "" && parse(iso(d)) == Some(d)
  }

  /** What the sweep removes: a tenant's objects under a day that reads as before the horizon. */
  predicate Doomed(tenant: string, parse: string -> Option<int>, horizon: int, failing: set<string>, key: string)
  {
    && TenantPrefix(tenant) <= key
    && var day := Head(key[|TenantPrefix(tenant)|..]);
       && DayPrefix(tenant, day) <= key && OldDay(tenant, parse, horizon, failing, day)
  }

  predicate OldDay(tenant: string, parse: string -> Option<int>, horizon: int, failing: set<string>, day: string)
  {
    day != "" && parse(day).Some? && parse(day).value < horizon && DayPrefix(tenant, day) !in failing
  }

  lemma HeadUnderPrefix(tenant: string, day: string, key: string)
    requires NoSlash(day) && DayPrefix(tenant, day) <= key
    ensures TenantPrefix(tenant) <= key && Head(key[|TenantPrefix(tenant)|..]) == day
  {
    hide Head;
    var t, p := TenantPrefix(tenant), DayPrefix(tenant, day);
    var x := key[|p|..];
    assert p == t + (day + "/");
    assert key == p + x;
    assert key == t + (day + "/" + x);
    assert key[..|t|] == t && key[|t|..] == day + "/" + x;
    HeadOfComponent(day, x);
  }

  /** The sweep takes a segment exactly when it is the tenant's and its day lies before the horizon. */
  lemma DoomedIff(tenant: string, parse: string -> Option<int>, iso: int -> string, horizon: int, failing: set<string>,
                  owner: string, day: int, call: string, channel: nat, num: nat)
    requires Calendar(iso, parse) && NoSlash(tenant) && NoSlash(owner)
    ensures Doomed(tenant, parse, horizon, failing, SegmentKey(owner, iso(day), call, channel, num)) <==>
            owner == tenant && day < horizon && DayPrefix(tenant, iso(day)) !in failing
  {
    hide SegmentKey, DayPrefix, TenantPrefix, Head;
    var key := SegmentKey(owner, iso(day), call, channel, num);
    TenantPrefixCovers(tenant, owner, iso(day), call, channel, num);
    if owner == tenant {
      DayPrefixCovers(tenant, iso(day), owner, iso(day), call, channel, num);
      HeadUnderPrefix(tenant, iso(day), key);
    }
  }

  lemma DaysApart(a: int, b: int)
    requires a - DAY <= b
    ensures Day(a - DAY) <= Day(b)
  {
  }

  /** The object of an unexpired row is never swept while the upload clock is at most a day behind. */
  lemma SweepSparesLive(tenant: string, parse: string -> Option<int>, iso: int -> string, cutoff: int, failing: set<string>,
                        row: Row, k: RowKey, uploadedAt: int)
    requires Calendar(iso, parse) && NoSlash(tenant) && NoSlash(row.tenant)
    requires row.s3Key == SegmentKey(row.tenant, iso(Day(uploadedAt)), k.call, k.channel, k.num)
    requires row.receivedAt >= cutoff && row.receivedAt - uploadedAt <= DAY
    ensures !Doomed(tenant, parse, Horizon(cutoff), failing, row.s3Key)
  {
    hide SegmentKey, DayPrefix, Doomed, Calendar;
    DoomedIff(tenant, parse, iso, Horizon(cutoff), failing, row.tenant, Day(uploadedAt), k.call, k.channel, k.num);
    DaysApart(cutoff, uploadedAt);
  }

  /** One second more than a day is too much. */
  lemma SkewBeyondADayIsSwept(tenant: string, parse: string -> Option<int>, iso: int -> string, k: RowKey)
    requires Calendar(iso, parse) && NoSlash(tenant)
    ensures var row := Row(tenant, 2 * DAY, SegmentKey(tenant, iso(Day(DAY - 1)), k.call, k.channel, k.num));
            Doomed(tenant, parse, Horizon(2 * DAY), {}, row.s3Key)
  {
    hide SegmentKey, DayPrefix, Doomed, Calendar;
    DoomedIff(tenant, parse, iso, Horizon(2 * DAY), {}, tenant, Day(DAY - 1), k.call, k.channel, k.num);
  }

  // --------------------------------------------------------------- the program

  datatype TranscriptKey = TranscriptKey(call: string, channel: nat)

  datatype Transcript = Transcript(tenant: string, createdAt: int)

  function OldTranscripts(ts: map<TranscriptKey, Transcript>, tenant: string, cutoff: int): set<TranscriptKey>
  {
    set k | k in ts && ts[k].tenant == tenant && ts[k].createdAt < cutoff
  }

  /** Exactly the tenant's transcripts from before the cutoff have gone; every other one is as it was. */
  ghost predicate OnlyStaleWent(was: map<TranscriptKey, Transcript>, ts: map<TranscriptKey, Transcript>, tenant: string, cutoff: int)
  {
    && (forall k :: k in ts ==> k in was && ts[k] == was[k])
    && (forall k :: k in was ==> (k !in ts <==> was[k].tenant == tenant && was[k].createdAt < cutoff))
  }

  /** Objects filed at most a day before their row came in are kept for every row of another tenant or not yet expired. */
  ghost predicate LiveKept(was: Rows, had: set<string>, objects: set<string>, tenant: string, cutoff: int, uploadedAt: RowKey -> int)
  {
    forall k :: k in was && was[k].s3Key in had && (was[k].tenant != tenant || was[k].receivedAt >= cutoff) ==>
      was[k].receivedAt - uploadedAt(k) <= 86_400 ==> was[k].s3Key in objects
  }

  class RetentionJob {
    const batchSize: nat
    const broken: set<string>
    var rows: Rows
    var objects: set<string>
    var transcripts: map<TranscriptKey, Transcript>
    var errors: nat
    /** Every state the two stores have been in, for anyone looking in between. */
    ghost var trail: seq<Snapshot>

    method AudioKeysBefore(tenant: string, cutoff: int) returns (batch: seq<RowKey>)
      ensures IsBatch(rows, tenant, cutoff, batchSize, batch)
      ensures forall i :: 0 <= i < |batch| ==>
                batch[i] in rows && rows[batch[i]].tenant == tenant && rows[batch[i]].receivedAt < cutoff
      ensures |batch| < batchSize ==>
                forall k :: k in rows && rows[k].tenant == tenant && rows[k].receivedAt < cutoff ==> k in batch
    {
      var left := Expired(rows, tenant, cutoff);
      ghost var expired := left;
      batch := [];
      while |batch| < batchSize && left != {}
        invariant Distinct(batch) && AsSet(batch) == expired - left && left <= expired
        invariant |batch| <= batchSize && |batch| + |left| == |expired|
        decreases |left|
      {
        var k :| k in left;
        AsSetSnoc(batch, k);
        assert k !in AsSet(batch);
        batch := batch + [k];
        left := left - {k};
      }
      BatchIs(rows, tenant, cutoff, batchSize, batch);
    }

    method DeleteObject(key: string) returns (ok: bool)
      modifies this`objects, this`trail
      ensures ok == (key !in broken) && objects == (if ok then old(objects) - {key} else old(objects))
      ensures trail == old(trail) + [Snapshot(rows, objects)]
    {
      ok := key !in broken;
      if ok {
        objects := objects - {key};
      }
      trail := trail + [Snapshot(rows, objects)];
    }

    method DeleteMediaRows(keys: set<RowKey>) returns (n: nat)
      requires keys <= rows.Keys
      modifies this`rows, this`trail
      ensures rows == old(rows) - keys && n == |keys|
      ensures trail == old(trail) + [Snapshot(rows, objects)]
    {
      rows := rows - keys;
      n := |keys|;
      trail := trail + [Snapshot(rows, objects)];
    }

    method DeleteObjects(batch: seq<RowKey>, ghost was: Rows, ghost from: nat) returns (cleared: set<RowKey>)
      requires AsSet(batch) <= rows.Keys && ObjectFirst(was, Snapshot(rows, objects)) && AlwaysObjectFirst(was, trail, from)
      modifies this`objects, this`errors, this`trail
      ensures cleared == Clearable(rows, AsSet(batch), broken) && objects == old(objects) - ObjectsOf(rows, cleared)
      ensures ObjectFirst(was, Snapshot(rows, objects)) && AlwaysObjectFirst(was, trail, from)
    {
      hide ObjectFirst, AlwaysObjectFirst;
      cleared := {};
      for i := 0 to |batch|
        invariant AsSet(batch[..i]) <= rows.Keys && cleared == Clearable(rows, AsSet(batch[..i]), broken)
        invariant objects == old(objects) - ObjectsOf(rows, cleared)
        invariant ObjectFirst(was, Snapshot(rows, objects)) && AlwaysObjectFirst(was, trail, from)
      {
        NextInBatch(rows, batch, i, broken);
        ObjectGoes(was, rows, objects, rows[batch[i]].s3Key);
        ghost var before := trail;
        var ok := DeleteObject(rows[batch[i]].s3Key);
        StillObjectFirst(was, before, from, Snapshot(rows, objects));
        if ok {
          OneMoreObject(rows, cleared, batch[i]);
          cleared := cleared + {batch[i]};
        } else {
          errors := errors + 1;
        }
      }
      assert batch[..|batch|] == batch;
    }

    /** Delete the objects of a batch, then the rows whose objects went. */
    method PurgeBatch(batch: seq<RowKey>, ghost was: Rows, ghost from: nat) returns (n: nat)
      requires AsSet(batch) <= rows.Keys && LeftOf(rows, was)
      requires ObjectFirst(was, Snapshot(rows, objects)) && AlwaysObjectFirst(was, trail, from)
      modifies this`rows, this`objects, this`errors, this`trail
      ensures var clear := Clearable(old(rows), AsSet(batch), broken);
              && rows == old(rows) - clear && objects == old(objects) - ObjectsOf(old(rows), clear) && n == |clear|
      ensures LeftOf(rows, was) && ObjectFirst(was, Snapshot(rows, objects)) && AlwaysObjectFirst(was, trail, from)
    {
      hide ObjectFirst, AlwaysObjectFirst, LeftOf, ObjectsOf, AsSet;
      var cleared := DeleteObjects(batch, was, from);
      DisjointAfter(old(objects), ObjectsOf(rows, cleared));
      RowsGo(was, rows, objects, cleared);
      n := 0;
      if cleared != {} {
        ghost var before := trail;
        n := DeleteMediaRows(cleared);
        StillObjectFirst(was, before, from, Snapshot(rows, objects));
      } else {
        NothingGoes(rows);
      }
    }

    /**
     The audio loop. It ends if and only if fewer rows are stuck than fit in a batch (or the
     batch is empty); it leaves exactly the stuck ones.
     */
    method AudioLoop(tenant: string, cutoff: int) returns (n: nat)
      requires batchSize == 0 || |Stuck(rows, tenant, cutoff, broken)| < batchSize
      modifies this`rows, this`objects, this`errors, this`trail
      ensures batchSize == 0 ==> n == 0 && rows == old(rows) && objects == old(objects)
      ensures batchSize > 0 ==>
                var cleared := Expired(old(rows), tenant, cutoff) - Stuck(old(rows), tenant, cutoff, broken);
                && rows == old(rows) - cleared && objects == old(objects) - ObjectsOf(old(rows), cleared) && n == |cleared|
      ensures AlwaysObjectFirst(old(rows), trail, |old(trail)|)
    {
      hide ObjectFirst, AlwaysObjectFirst, ObjectsOf, Expired, Stuck, Clearable, LeftOf, AsSet, Cleared;
      n := 0;
      ghost var was, had, from := rows, objects, |trail|;
      ghost var all := Expired(was, tenant, cutoff) - Stuck(was, tenant, cutoff, broken);
      ghost var gone: set<RowKey> := {};
      AudioStarts(was, had, trail);
      while true
        invariant gone <= all && Cleared(was, had, gone, rows, objects, n) && (batchSize == 0 ==> gone == {})
        invariant LeftOf(rows, was) && ObjectFirst(was, Snapshot(rows, objects)) && AlwaysObjectFirst(was, trail, from)
        decreases |all - gone|
      {
        var batch := AudioKeysBefore(tenant, cutoff);
        IsCleared(was, had, gone, rows, objects, n);
        if batchSize > 0 {
          PassClears(was, tenant, cutoff, broken, gone, batchSize, batch);
        }
        if batch == [] {
          break;
        }
        ghost var clear := Clearable(rows, AsSet(batch), broken);
        ClearedMore(was, had, gone, clear, n);
        SmallerRest(all, gone, clear);
        var m := PurgeBatch(batch, was, from);
        n := n + m;
        gone := gone + clear;
        if |batch| < batchSize {
          break;
        }
      }
      IsCleared(was, had, gone, rows, objects, n);
    }

    /** What the loop leaves, row by row. */
    method PurgeAudio(tenant: string, cutoff: int) returns (n: nat)
      requires batchSize == 0 || |Stuck(rows, tenant, cutoff, broken)| < batchSize
      modifies this`rows, this`objects, this`errors, this`trail
      ensures batchSize == 0 ==> n == 0 && rows == old(rows) && objects == old(objects)
      ensures batchSize > 0 ==>
                && OnlyExpiredWent(old(rows), rows, objects, tenant, cutoff, broken) && n + |rows| == |old(rows)|
                && var cleared := Expired(old(rows), tenant, cutoff) - Stuck(old(rows), tenant, cutoff, broken);
                   cleared <= old(rows).Keys && objects == old(objects) - ObjectsOf(old(rows), cleared)
      ensures AlwaysObjectFirst(old(rows), trail, |old(trail)|)
    {
      hide AlwaysObjectFirst, ObjectsOf, Expired, Stuck, OnlyExpiredWent;
      ghost var was, had := rows, objects;
      ghost var cleared := Expired(was, tenant, cutoff) - Stuck(was, tenant, cutoff, broken);
      ExpiredAreRows(was, tenant, cutoff);
      n := AudioLoop(tenant, cutoff);
      if batchSize > 0 {
        DisjointAfter(had, ObjectsOf(was, cleared));
        RowByRow(was, objects, tenant, cutoff, broken, cleared);
        RowsGone(was, cleared);
      }
    }

    /** Delete whole days that lie before the horizon. What cannot be listed, read or deleted stays. */
    method SweepExpiredDays(tenant: string, cutoff: int, parse: string -> Option<int>, listing: Listing, failing: set<string>)
      returns (swept: nat, days: nat)
      modifies this`objects, this`errors
      ensures objects == if listing.Lists? then Swept(old(objects), tenant, parse, Horizon(cutoff), failing) else old(objects)
      ensures swept + |objects| == |old(objects)|
      ensures days == if listing.Lists? then |OldDays(old(objects), tenant, parse, Horizon(cutoff), failing)| else 0
    {
      hide DayPrefix, TenantPrefix, Under, Doomed, LastName, TextOrdered, OldDays, DaysAmong;
      swept, days := 0, 0;
      if listing.CannotList? {
        return;
      }
      if listing.ListFails? {
        errors := errors + 1;
        return;
      }
      var horizon := Horizon(cutoff);
      ghost var had := objects;
      var present := ListChildren(objects, TenantPrefix(tenant));
      NotSweptYet(had, tenant, parse, horizon, failing, present);
      NoDaysYet(tenant, parse, horizon, failing, present);
      for i := 0 to |present|
        invariant objects == SweptUnder(had, tenant, parse, horizon, failing, present[..i])
        invariant swept + |objects| == |had|
        invariant days == |DaysAmong(tenant, parse, horizon, failing, present[..i])|
      {
        OneMoreDay(had, tenant, parse, horizon, failing, present, i);
        var day := LastName(present[i]);
        SweepOne(had, tenant, parse, horizon, failing, present, i);
        if parse(day).Some? && parse(day).value < horizon {
          if DayPrefix(tenant, day) in failing {
            errors := errors + 1;
          } else {
            var doomed := Under(objects, DayPrefix(tenant, day));
            UnderSize(objects, DayPrefix(tenant, day));
            objects := objects - doomed;
            swept := swept + |doomed|;
            days := days + 1;
          }
        }
      }
      AllSwept(had, tenant, parse, horizon, failing, present);
      AllDays(had, tenant, parse, horizon, failing, present);
    }

    method DeleteTranscriptsBefore(tenant: string, cutoff: int) returns (n: nat)
      modifies this`transcripts
      ensures exists gone :: gone <= OldTranscripts(old(transcripts), tenant, cutoff) && n == |gone| &&
                n == Min(batchSize, |OldTranscripts(old(transcripts), tenant, cutoff)|) && transcripts == old(transcripts) - gone
    {
      hide OldTranscripts;
      var doomed := OldTranscripts(transcripts, tenant, cutoff);
      var gone: set<TranscriptKey> := {};
      while |gone| < batchSize && doomed - gone != {}
        invariant gone <= doomed && |gone| <= batchSize
        decreases doomed - gone
      {
        var k :| k in doomed - gone;
        gone := gone + {k};
      }
      SubsetSize(gone, doomed);
      assert doomed - gone == {} ==> gone == doomed;
      n := |gone|;
      transcripts := transcripts - gone;
    }

    /** The transcript loop. An empty batch would repeat for ever. */
    method TranscriptLoop(tenant: string, cutoff: int) returns (total: nat)
      requires batchSize > 0
      modifies this`transcripts
      ensures transcripts == old(transcripts) - OldTranscripts(old(transcripts), tenant, cutoff)
      ensures total == |OldTranscripts(old(transcripts), tenant, cutoff)|
    {
      hide OldTranscripts;
      total := 0;
      ghost var was, doomed := transcripts, OldTranscripts(transcripts, tenant, cutoff);
      ghost var gone: set<TranscriptKey> := {};
      assert was - {} == was;
      while true
        invariant gone <= doomed && transcripts == was - gone && total == |gone|
        decreases |doomed| - |gone|
      {
        OldWithout(was, tenant, cutoff, gone);
        var n := DeleteTranscriptsBefore(tenant, cutoff);
        ghost var more :| more <= doomed - gone && n == |more| && n == Min(batchSize, |doomed - gone|) && transcripts == was - gone - more;
        TranscriptsJoin(was, gone, more);
        SubsetSize(gone + more, doomed);
        total := total + n;
        ghost var before := gone;
        gone := gone + more;
        if n < batchSize {
          SameSize(more, doomed - before);
          assert gone == doomed;
          break;
        }
      }
    }

    /** What that loop leaves, one by one. */
    method PurgeTranscripts(tenant: string, cutoff: int) returns (total: nat)
      requires batchSize > 0
      modifies this`transcripts
      ensures OnlyStaleWent(old(transcripts), transcripts, tenant, cutoff) && total + |transcripts| == |old(transcripts)|
    {
      TranscriptByTranscript(transcripts, tenant, cutoff);
      hide OldTranscripts, OnlyStaleWent;
      total := TranscriptLoop(tenant, cutoff);
    }

    /**
     One tenant's purge: expired audio, then orphaned days, then transcripts. It ends if and
     only if fewer rows are stuck than a batch holds.

     `iso` and `uploadedAt` say how objects were filed; only the promise about them speaks of it.
     */
    method PurgeTenant(tenant: string, now: int, audioDays: nat, transcriptDays: nat,
                       parse: string -> Option<int>, listing: Listing, failing: set<string>,
                       ghost iso: int -> string, ghost uploadedAt: RowKey -> int) returns (r: PurgeResult)
      requires |Stuck(rows, tenant, now - audioDays * DAY, broken)| < batchSize
      modifies this
      ensures OnlyExpiredWent(old(rows), rows, objects, tenant, now - audioDays * 86_400, broken)
      ensures objects <= old(objects)
      ensures WellFiled(old(rows), iso, uploadedAt) && Calendar(iso, parse) && NoSlash(tenant) ==>
                LiveKept(old(rows), old(objects), objects, tenant, now - audioDays * 86_400, uploadedAt)
      ensures r.audioSegments + |rows| == |old(rows)|
      ensures OnlyStaleWent(old(transcripts), transcripts, tenant, now - transcriptDays * 86_400)
      ensures r.transcripts + |transcripts| == |old(transcripts)|
      ensures var cutoff := now - audioDays * DAY;
              var cleared := Expired(old(rows), tenant, cutoff) - Stuck(old(rows), tenant, cutoff, broken);
              && cleared <= old(rows).Keys
              && objects == Purged(old(objects) - ObjectsOf(old(rows), cleared), tenant, parse, Horizon(cutoff), listing, failing)
              && r.sweptObjects + |objects| == |old(objects) - ObjectsOf(old(rows), cleared)| && !r.dryRun
              && r.sweptDays == if listing.Lists? then
                   |OldDays(old(objects) - ObjectsOf(old(rows), cleared), tenant, parse, Horizon(cutoff), failing)| else 0
      ensures AlwaysObjectFirst(old(rows), trail, |old(trail)|)
    {
      hide Expired, Stuck, ObjectsOf, OldTranscripts, Swept, AlwaysObjectFirst, OnlyExpiredWent, OnlyStaleWent;
      hide LiveKept, WellFiled, Calendar, NoSlash, Horizon, OldDays;
      var cutoff := now - audioDays * DAY;
      ghost var was, had := rows, objects;
      ghost var cleared := Expired(was, tenant, cutoff) - Stuck(was, tenant, cutoff, broken);
      ExpiredAreRows(rows, tenant, cutoff);
      var n := PurgeAudio(tenant, cutoff);
      ghost var left := objects;
      var swept, days := SweepExpiredDays(tenant, cutoff, parse, listing, failing);
      SweptShrinks(left, tenant, parse, Horizon(cutoff), failing);
      StillGone(was, rows, left, objects, tenant, cutoff, broken);
      if WellFiled(was, iso, uploadedAt) && Calendar(iso, parse) && NoSlash(tenant) {
        LiveStay(was, had, tenant, cutoff, cleared, iso, parse, uploadedAt, listing, failing);
      }
      var m := PurgeTranscripts(tenant, now - transcriptDays * DAY);
      r := PurgeResult(n, m, swept, days, false);
    }

    /** The dry run: what would go, counted and left alone. */
    method PreviewTenant(tenant: string, now: int, audioDays: nat, transcriptDays: nat) returns (r: PurgeResult)
      ensures r.audioSegments == |set k | k in rows && rows[k].tenant == tenant && rows[k].receivedAt < now - audioDays * 86_400|
      ensures r.transcripts ==
              |set k | k in transcripts && transcripts[k].tenant == tenant && transcripts[k].createdAt < now - transcriptDays * 86_400|
      ensures r.sweptObjects == 0 && r.sweptDays == 0 && r.dryRun
    {
      var audio := Expired(rows, tenant, now - audioDays * DAY);
      var stale := OldTranscripts(transcripts, tenant, now - transcriptDays * DAY);
      r := PurgeResult(|audio|, |stale|, 0, 0, true);
    }
  }

  datatype PurgeResult = PurgeResult(audioSegments: nat, transcripts: nat, sweptObjects: nat, sweptDays: nat, dryRun: bool)

  /** Whether the store can enumerate prefixes, and whether it does when asked. */
  datatype Listing = CannotList | ListFails | Lists

  function Swept(objects: set<string>, tenant: string, parse: string -> Option<int>, horizon: int, failing: set<string>): set<string>
  {
    set k | k in objects && !Doomed(tenant, parse, horizon, failing, k)
  }

  function Purged(objects: set<string>, tenant: string, parse: string -> Option<int>, horizon: int, listing: Listing,
                  failing: set<string>): set<string>
  {
    if listing.Lists? then Swept(objects, tenant, parse, horizon, failing) else objects
  }

  /** The prefix a key's day is listed under. */
  function DayOf(tenant: string, key: string): string
    requires TenantPrefix(tenant) <= key
  {
    DayPrefix(tenant, Head(key[|TenantPrefix(tenant)|..]))
  }

  function SweptUnder(objects: set<string>, tenant: string, parse: string -> Option<int>, horizon: int, failing: set<string>,
                      prefixes: seq<string>): set<string>
  {
    set k | k in objects && !(Doomed(tenant, parse, horizon, failing, k) && TenantPrefix(tenant) <= k && DayOf(tenant, k) in prefixes)
  }

  // ------------------------------------------- the last name of a listed prefix

  function StripSlashes(s: string): string { if s != [] && s[|s| - 1] == '/' then StripSlashes(s[..|s| - 1]) else s }

  function AfterLastSlash(s: string): string
  {
    if s == [] || s[|s| - 1] == '/' then "" else AfterLastSlash(s[..|s| - 1]) + [s[|s| - 1]]
  }

  function LastName(prefix: string): string { AfterLastSlash(StripSlashes(prefix)) }

  lemma {:induction false} AfterSlash(p: string, d: string)
    requires NoSlash(d) && p != "" && p[|p| - 1] == '/'
    ensures AfterLastSlash(p + d) == d
    decreases |d|
  {
    if d == [] {
      assert p + d == p;
    } else {
      AfterSlash(p, d[..|d| - 1]);
      assert (p + d)[..|p + d| - 1] == p + d[..|d| - 1];
    }
  }

  lemma LastNameOfDay(tenant: string, d: string)
    requires NoSlash(d) && d != ""
    ensures Below(TenantPrefix(tenant), d) == DayPrefix(tenant, d) && LastName(DayPrefix(tenant, d)) == d
  {
    var p := TenantPrefix(tenant);
    var b := Below(p, d);
    assert b == DayPrefix(tenant, d);
    assert b[..|b| - 1] == p + d && b[|b| - 1] == '/';
    assert (p + d)[|p + d| - 1] == d[|d| - 1] && d[|d| - 1] in d;
    assert StripSlashes(b) == p + d;
    AfterSlash(p, d);
  }

  // ------------------------------------------------------------ the sweep's steps

  lemma NotSweptYet(had: set<string>, tenant: string, parse: string -> Option<int>, horizon: int, failing: set<string>, present: seq<string>)
    ensures SweptUnder(had, tenant, parse, horizon, failing, present[..0]) == had
  {
    hide Doomed, DayOf;
  }

  ghost predicate Listed(had: set<string>, tenant: string, present: seq<string>)
  {
    forall p :: p in present <==> exists d :: d in Children(had, TenantPrefix(tenant)) && p == Below(TenantPrefix(tenant), d)
  }

  /** One listed day: its objects go exactly if they are doomed. */
  lemma SweepOne(had: set<string>, tenant: string, parse: string -> Option<int>, horizon: int, failing: set<string>,
                 present: seq<string>, i: nat)
    requires i < |present| && Listed(had, tenant, present)
    ensures var day := LastName(present[i]); var objects := SweptUnder(had, tenant, parse, horizon, failing, present[..i]);
            SweptUnder(had, tenant, parse, horizon, failing, present[..i + 1]) ==
            if parse(day).Some? && parse(day).value < horizon && DayPrefix(tenant, day) !in failing
            then objects - Under(objects, DayPrefix(tenant, day)) else objects
  {
    hide Doomed, DayOf, LastName, Children, Under, DayPrefix, TenantPrefix;
    assert present[i] in present;
    var d :| d in Children(had, TenantPrefix(tenant)) && present[i] == Below(TenantPrefix(tenant), d);
    ChildIsName(had, TenantPrefix(tenant), d);
    LastNameOfDay(tenant, d);
    var more, fewer := SweptUnder(had, tenant, parse, horizon, failing, present[..i + 1]),
                       SweptUnder(had, tenant, parse, horizon, failing, present[..i]);
    assert present[..i + 1] == present[..i] + [present[i]];
    forall k | k in had
      ensures k in more <==> k in fewer && !(OldDay(tenant, parse, horizon, failing, d) && DayPrefix(tenant, d) <= k) {
      DoomedUnder(tenant, parse, horizon, failing, d, k);
    }
    UnderIs(fewer, DayPrefix(tenant, d));
  }

  /** The tenant's day names present that lie before the horizon and can be deleted. */
  ghost function OldDays(objects: set<string>, tenant: string, parse: string -> Option<int>, horizon: int, failing: set<string>): set<string>
  {
    set d | d in Children(objects, TenantPrefix(tenant)) && OldDay(tenant, parse, horizon, failing, d)
  }

  ghost function DaysAmong(tenant: string, parse: string -> Option<int>, horizon: int, failing: set<string>, prefixes: seq<string>): set<string>
  {
    set p | p in prefixes && OldDay(tenant, parse, horizon, failing, LastName(p)) :: LastName(p)
  }

  lemma NoDaysYet(tenant: string, parse: string -> Option<int>, horizon: int, failing: set<string>, present: seq<string>)
    ensures DaysAmong(tenant, parse, horizon, failing, present[..0]) == {}
  {
  }

  lemma ListedName(had: set<string>, tenant: string, present: seq<string>, p: string)
    requires p in present && Listed(had, tenant, present)
    ensures LastName(p) != "" && DayPrefix(tenant, LastName(p)) == p && LastName(p) in Children(had, TenantPrefix(tenant))
  {
    hide Children, LastName;
    var d :| d in Children(had, TenantPrefix(tenant)) && p == Below(TenantPrefix(tenant), d);
    ChildIsName(had, TenantPrefix(tenant), d);
    LastNameOfDay(tenant, d);
  }

  lemma OneMoreDay(had: set<string>, tenant: string, parse: string -> Option<int>, horizon: int, failing: set<string>,
                   present: seq<string>, i: nat)
    requires i < |present| && Listed(had, tenant, present) && TextOrdered(present)
    ensures var day := LastName(present[i]);
            |DaysAmong(tenant, parse, horizon, failing, present[..i + 1])| ==
            |DaysAmong(tenant, parse, horizon, failing, present[..i])| +
            if parse(day).Some? && parse(day).value < horizon && DayPrefix(tenant, day) !in failing then 1 else 0
  {
    hide LastName, Listed, DayPrefix, TextLess;
    var fewer := DaysAmong(tenant, parse, horizon, failing, present[..i]);
    ListedName(had, tenant, present, present[i]);
    assert present[..i + 1] == present[..i] + [present[i]];
    forall j | 0 <= j < i ensures LastName(present[j]) != LastName(present[i]) {
      ListedName(had, tenant, present, present[j]);
      assert TextLess(present[j], present[i]);
      TextLessAsym(present[j], present[i]);
    }
    assert DaysAmong(tenant, parse, horizon, failing, present[..i + 1]) ==
           if OldDay(tenant, parse, horizon, failing, LastName(present[i])) then fewer + {LastName(present[i])} else fewer;
  }

  lemma AllDays(had: set<string>, tenant: string, parse: string -> Option<int>, horizon: int, failing: set<string>, present: seq<string>)
    requires Listed(had, tenant, present)
    ensures DaysAmong(tenant, parse, horizon, failing, present[..|present|]) == OldDays(had, tenant, parse, horizon, failing)
  {
    hide LastName, Children, OldDay;
    assert present[..|present|] == present;
    var among := DaysAmong(tenant, parse, horizon, failing, present);
    forall d | d in OldDays(had, tenant, parse, horizon, failing) ensures d in among {
      ChildIsName(had, TenantPrefix(tenant), d);
      LastNameOfDay(tenant, d);
      assert Below(TenantPrefix(tenant), d) in present;
    }
    forall d | d in among ensures d in OldDays(had, tenant, parse, horizon, failing) {
      var p :| p in present && OldDay(tenant, parse, horizon, failing, LastName(p)) && d == LastName(p);
      ListedName(had, tenant, present, p);
    }
  }

  lemma ChildIsName(objects: set<string>, prefix: string, d: string)
    requires d in Children(objects, prefix)
    ensures NoSlash(d) && d != ""
  {
  }

  lemma UnderIs(objects: set<string>, prefix: string)
    ensures forall k :: k in Under(objects, prefix) <==> k in objects && prefix <= k
  {
  }

  lemma UnderSize(objects: set<string>, prefix: string)
    ensures |objects - Under(objects, prefix)| + |Under(objects, prefix)| == |objects|
  {
    assert objects == (objects - Under(objects, prefix)) + Under(objects, prefix);
  }

  /** Being doomed under a given day is being under that day's prefix, if the day is old. */
  lemma DoomedUnder(tenant: string, parse: string -> Option<int>, horizon: int, failing: set<string>, d: string, k: string)
    requires NoSlash(d) && d != ""
    ensures Doomed(tenant, parse, horizon, failing, k) && TenantPrefix(tenant) <= k && DayOf(tenant, k) == DayPrefix(tenant, d) <==>
            OldDay(tenant, parse, horizon, failing, d) && DayPrefix(tenant, d) <= k
  {
    hide DayPrefix, TenantPrefix, Head;
    if DayPrefix(tenant, d) <= k {
      HeadUnderPrefix(tenant, d, k);
    }
    if TenantPrefix(tenant) <= k && DayOf(tenant, k) == DayPrefix(tenant, d) {
      PrefixNames(tenant, Head(k[|TenantPrefix(tenant)|..]), d);
    }
  }

  lemma PrefixNames(tenant: string, d: string, e: string)
    ensures DayPrefix(tenant, d) == DayPrefix(tenant, e) ==> d == e
  {
    assert DayPrefix(tenant, d) == Below(TenantPrefix(tenant), d) && DayPrefix(tenant, e) == Below(TenantPrefix(tenant), e);
    BelowInjective(TenantPrefix(tenant), d, e);
  }

  lemma AllSwept(had: set<string>, tenant: string, parse: string -> Option<int>, horizon: int, failing: set<string>, present: seq<string>)
    requires Listed(had, tenant, present)
    ensures SweptUnder(had, tenant, parse, horizon, failing, present[..|present|]) == Swept(had, tenant, parse, horizon, failing)
  {
    hide DayPrefix, TenantPrefix;
    assert present[..|present|] == present;
    forall k | k in had && Doomed(tenant, parse, horizon, failing, k) ensures DayOf(tenant, k) in present {
      var d := Head(k[|TenantPrefix(tenant)|..]);
      assert d in Children(had, TenantPrefix(tenant));
      LastNameOfDay(tenant, d);
    }
  }

  lemma TranscriptByTranscript(was: map<TranscriptKey, Transcript>, tenant: string, cutoff: int)
    ensures var stale := OldTranscripts(was, tenant, cutoff);
            OnlyStaleWent(was, was - stale, tenant, cutoff) && |stale| + |was - stale| == |was|
  {
    RowsGone(was, OldTranscripts(was, tenant, cutoff));
  }

  lemma OldWithout(was: map<TranscriptKey, Transcript>, tenant: string, cutoff: int, gone: set<TranscriptKey>)
    ensures OldTranscripts(was - gone, tenant, cutoff) == OldTranscripts(was, tenant, cutoff) - gone
  {
  }

  lemma TranscriptsJoin(was: map<TranscriptKey, Transcript>, gone: set<TranscriptKey>, more: set<TranscriptKey>)
    requires more !! gone
    ensures was - gone - more == was - (gone + more) && |gone + more| == |gone| + |more|
  {
  }

  lemma ExpiredAreRows(rows: Rows, tenant: string, cutoff: int)
    ensures Expired(rows, tenant, cutoff) <= rows.Keys
  {
  }

  // ------------------------------------------------------ what survives a purge

  /** Every row's key is the one its upload filed it under. */
  ghost predicate WellFiled(rows: Rows, iso: int -> string, uploadedAt: RowKey -> int)
  {
    forall k :: k in rows ==>
      && NoSlash(rows[k].tenant) && NoSlash(k.call)
      && rows[k].s3Key == SegmentKey(rows[k].tenant, iso(Day(uploadedAt(k))), k.call, k.channel, k.num)
  }

  lemma RowsHaveTheirOwnObjects(rows: Rows, iso: int -> string, parse: string -> Option<int>, uploadedAt: RowKey -> int, a: RowKey, b: RowKey)
    requires WellFiled(rows, iso, uploadedAt) && Calendar(iso, parse) && a in rows && b in rows && rows[a].s3Key == rows[b].s3Key
    ensures a == b
  {
    hide SegmentKey;
    KeyInjective(rows[a].tenant, iso(Day(uploadedAt(a))), a.call, a.channel, a.num,
                 rows[b].tenant, iso(Day(uploadedAt(b))), b.call, b.channel, b.num);
  }

  /** A purge keeps the object of every row it does not purge for age, while the upload clock is at most a day behind. */
  lemma LiveObjectsSurvive(rows: Rows, objects: set<string>, tenant: string, cutoff: int, cleared: set<RowKey>,
                           iso: int -> string, parse: string -> Option<int>, uploadedAt: RowKey -> int,
                           listing: Listing, failing: set<string>, k: RowKey)
    requires WellFiled(rows, iso, uploadedAt) && Calendar(iso, parse) && NoSlash(tenant)
    requires k in rows && (rows[k].tenant != tenant || rows[k].receivedAt >= cutoff) && rows[k].s3Key in objects
    requires cleared <= Expired(rows, tenant, cutoff) && cleared <= rows.Keys
    requires rows[k].receivedAt - uploadedAt(k) <= DAY
    ensures rows[k].s3Key in Purged(objects - ObjectsOf(rows, cleared), tenant, parse, Horizon(cutoff), listing, failing)
  {
    hide SegmentKey, Doomed, Calendar, DayPrefix;
    forall j | j in cleared ensures rows[j].s3Key != rows[k].s3Key {
      if rows[j].s3Key == rows[k].s3Key {
        RowsHaveTheirOwnObjects(rows, iso, parse, uploadedAt, j, k);
      }
    }
    if rows[k].tenant == tenant {
      SweepSparesLive(tenant, parse, iso, cutoff, failing, rows[k], k, uploadedAt(k));
    } else {
      DoomedIff(tenant, parse, iso, Horizon(cutoff), failing, rows[k].tenant, Day(uploadedAt(k)), k.call, k.channel, k.num);
    }
  }

  lemma LiveStay(rows: Rows, objects: set<string>, tenant: string, cutoff: int, cleared: set<RowKey>,
                 iso: int -> string, parse: string -> Option<int>, uploadedAt: RowKey -> int, listing: Listing, failing: set<string>)
    requires WellFiled(rows, iso, uploadedAt) && Calendar(iso, parse) && NoSlash(tenant)
    requires cleared <= Expired(rows, tenant, cutoff) && cleared <= rows.Keys
    ensures var left := Purged(objects - ObjectsOf(rows, cleared), tenant, parse, Horizon(cutoff), listing, failing);
            LiveKept(rows, objects, left, tenant, cutoff, uploadedAt)
  {
    hide WellFiled, Calendar, NoSlash, Expired, Purged, ObjectsOf, Horizon;
    var left := Purged(objects - ObjectsOf(rows, cleared), tenant, parse, Horizon(cutoff), listing, failing);
    forall k | k in rows && rows[k].s3Key in objects && rows[k].receivedAt - uploadedAt(k) <= 86_400 &&
               (rows[k].tenant != tenant || rows[k].receivedAt >= cutoff)
      ensures rows[k].s3Key in left {
      LiveObjectsSurvive(rows, objects, tenant, cutoff, cleared, iso, parse, uploadedAt, listing, failing, k);
    }
  }

  lemma SweptShrinks(objects: set<string>, tenant: string, parse: string -> Option<int>, horizon: int, failing: set<string>)
    ensures Swept(objects, tenant, parse, horizon, failing) <= objects
  {
  }

  /** Fewer objects are no harm to what is promised of the rows. */
  lemma StillGone(was: Rows, rows: Rows, before: set<string>, objects: set<string>, tenant: string, cutoff: int, broken: set<string>)
    requires OnlyExpiredWent(was, rows, before, tenant, cutoff, broken) && objects <= before
    ensures OnlyExpiredWent(was, rows, objects, tenant, cutoff, broken)
  {
  }

  /** With no stuck rows, a committed purge counts what the dry run counted. */
  lemma DryRunCountsTheSame(rows: Rows, tenant: string, cutoff: int, broken: set<string>)
    ensures |Expired(rows, tenant, cutoff) - Stuck(rows, tenant, cutoff, broken)| == |Expired(rows, tenant, cutoff)| <==>
            Stuck(rows, tenant, cutoff, broken) == {}
  {
    var e, s := Expired(rows, tenant, cutoff), Stuck(rows, tenant, cutoff, broken);
    if s == {} {
      assert e - s == e;
    } else {
      var k :| k in s;
      SubsetSize(e - s, e - {k});
    }
  }

  /** The stores once the rows `gone` have been purged. */
  ghost predicate Cleared(was: Rows, had: set<string>, gone: set<RowKey>, rows: Rows, objects: set<string>, n: nat)
  {
    gone <= was.Keys && rows == was - gone && objects == had - ObjectsOf(was, gone) && n == |gone|
  }

  lemma IsCleared(was: Rows, had: set<string>, gone: set<RowKey>, rows: Rows, objects: set<string>, n: nat)
    requires Cleared(was, had, gone, rows, objects, n)
    ensures gone <= was.Keys && rows == was - gone && objects == had - ObjectsOf(was, gone) && n == |gone|
    ensures gone == {} ==> rows == was && objects == had
  {
    hide ObjectsOf;
    assert gone == {} ==> ObjectsOf(was, gone) == {} by { NoObjects(was); }
  }

  lemma NoObjects(was: Rows)
    ensures ObjectsOf(was, {}) == {}
  {
  }

  lemma ClearedMore(was: Rows, had: set<string>, gone: set<RowKey>, clear: set<RowKey>, n: nat)
    requires gone <= was.Keys && clear <= was.Keys - gone && n == |gone|
    ensures Cleared(was, had, gone + clear, was - gone - clear,
                    had - ObjectsOf(was, gone) - ObjectsOf(was - gone, clear), n + |clear|)
  {
    assert ObjectsOf(was - gone, clear) == ObjectsOf(was, clear);
    assert ObjectsOf(was, gone + clear) == ObjectsOf(was, gone) + ObjectsOf(was, clear);
  }

  lemma SmallerRest<T>(all: set<T>, gone: set<T>, clear: set<T>)
    requires gone <= all && clear <= all - gone
    ensures gone + clear <= all && (clear != {} ==> |all - (gone + clear)| < |all - gone|)
  {
    assert all - gone == (all - (gone + clear)) + clear;
  }

  lemma NextInBatch(rows: Rows, batch: seq<RowKey>, i: nat, broken: set<string>)
    requires i < |batch| && AsSet(batch) <= rows.Keys
    ensures batch[i] in rows
    ensures AsSet(batch[..i]) <= rows.Keys && AsSet(batch[..i + 1]) <= rows.Keys
    ensures Clearable(rows, AsSet(batch[..i + 1]), broken) ==
            Clearable(rows, AsSet(batch[..i]), broken) + if rows[batch[i]].s3Key in broken then {} else {batch[i]}
  {
    assert batch[i] in AsSet(batch);
    assert batch[..i + 1] == batch[..i] + [batch[i]];
    AsSetSnoc(batch[..i], batch[i]);
  }

  lemma OneMoreObject(rows: Rows, cleared: set<RowKey>, k: RowKey)
    requires cleared <= rows.Keys && k in rows
    ensures ObjectsOf(rows, cleared + {k}) == ObjectsOf(rows, cleared) + {rows[k].s3Key}
  {
  }

  lemma DisjointAfter<T>(a: set<T>, b: set<T>)
    ensures a - b !! b
  {
  }

  lemma RowsGone<K, V>(was: map<K, V>, gone: set<K>)
    requires gone <= was.Keys
    ensures |gone| + |was - gone| == |was|
  {
    assert was.Keys == (was - gone).Keys + gone;
  }

  lemma NothingGoes(rows: Rows)
    ensures rows - {} == rows
  {
  }

  lemma AudioStarts(was: Rows, had: set<string>, trail: seq<Snapshot>)
    ensures Cleared(was, had, {}, was, had, 0) && LeftOf(was, was)
    ensures ObjectFirst(was, Snapshot(was, had)) && AlwaysObjectFirst(was, trail, |trail|)
  {
  }

  /** A pass clears rows that were expired and not stuck; a short batch clears all that are left, a full one some. */
  lemma PassClears(was: Rows, tenant: string, cutoff: int, broken: set<string>, gone: set<RowKey>, limit: nat, batch: seq<RowKey>)
    requires gone <= Expired(was, tenant, cutoff) - Stuck(was, tenant, cutoff, broken)
    requires IsBatch(was - gone, tenant, cutoff, limit, batch)
    requires |Stuck(was, tenant, cutoff, broken)| < limit
    ensures AsSet(batch) <= (was - gone).Keys
    ensures var clear, all := Clearable(was - gone, AsSet(batch), broken),
                              Expired(was, tenant, cutoff) - Stuck(was, tenant, cutoff, broken);
            && clear <= all - gone && clear <= was.Keys - gone
            && (|batch| < limit ==> gone + clear == all)
            && (|batch| >= limit ==> clear != {})
            && (batch == [] ==> gone == all)
  {
    var rows, expired, stuck := was - gone, Expired(was, tenant, cutoff), Stuck(was, tenant, cutoff, broken);
    var b := AsSet(batch);
    ExpiredWithout(was, tenant, cutoff, broken, gone);
    FullBatch(rows, tenant, cutoff, limit, batch);
    ClearsOf(was, tenant, cutoff, broken, gone, b);
    if |batch| < limit {
      ShortBatch(expired, stuck, gone, b);
    } else {
      SomeClears(rows, tenant, cutoff, broken, b);
    }
  }

  lemma ClearsOf(was: Rows, tenant: string, cutoff: int, broken: set<string>, gone: set<RowKey>, batch: set<RowKey>)
    requires batch <= Expired(was, tenant, cutoff) - gone
    ensures batch <= (was - gone).Keys && batch <= was.Keys - gone
    ensures Clearable(was - gone, batch, broken) == batch - Stuck(was, tenant, cutoff, broken)
  {
  }

  lemma ShortBatch<T>(expired: set<T>, stuck: set<T>, gone: set<T>, batch: set<T>)
    requires gone <= expired - stuck && batch == expired - gone
    ensures gone + (batch - stuck) == expired - stuck
  {
  }
}
