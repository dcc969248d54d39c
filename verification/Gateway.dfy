/**
 The gateway's side of a channel (server/gateway/internal/ingest/session.go): the contiguous
 watermark that decides what may be acknowledged.
 */
module Gateway {
  import opened Prelude

  /** One channel of one call on one connection. */
  datatype Chan = Chan(through: u32, started: bool, ahead: set<u32>)

  const FRESH := Chan(0, false, {})

  /** The next sequence number, wrapping as a 32-bit counter does. */
  function Next(n: u32): u32 { if n == U32_MAX then 0 else n + 1 }

  /** Take in whatever was waiting right above the watermark. */
  function Absorb(c: Chan): Chan
    decreases |c.ahead|
  {
    if Next(c.through) in c.ahead then
      Absorb(Chan(Next(c.through), c.started, c.ahead - {Next(c.through)}))
    else c
  }

  function Advanced(c: Chan, num: u32): Chan
  {
    if !c.started then
      if num == 0 then Absorb(Chan(0, true, c.ahead)) else c.(ahead := c.ahead + {num})
    else if num == Next(c.through) then Absorb(c.(through := num))
    else c.(ahead := c.ahead + {num})
  }

  class ChannelState {
    var through: u32
    var started: bool
    var ahead: set<u32>

    function State(): Chan
      reads this
    {
      Chan(through, started, ahead)
    }

    constructor ()
      ensures State() == FRESH
    {
      through, started, ahead := 0, false, {};
    }

    /** Move the watermark over a newly stored number and over anything buffered behind it. */
    method Advance(num: u32)
      modifies this
      ensures State() == Advanced(old(State()), num)
    {
      if !started {
        if num == 0 {
          through, started := 0, true;
        } else {
          ahead := ahead + {num};
          return;
        }
      } else if num == Next(through) {
        through := num;
      } else {
        ahead := ahead + {num};
        return;
      }
      while Next(through) in ahead
        invariant Absorb(State()) == Advanced(old(State()), num)
        decreases |ahead|
      {
        ahead, through := ahead - {Next(through)}, Next(through);
      }
    }
  }

  // -------------------------------------------------- what the watermark means

  /** The numbers a channel vouches for: everything up to the watermark, and what waits above it. */
  ghost predicate Knows(c: Chan, n: u32) { (c.started && n <= c.through) || n in c.ahead }

  /** The watermark stands exactly at the first hole. */
  ghost predicate AtFirstHole(c: Chan)
  {
    && (forall a :: a in c.ahead ==> if c.started then a > c.through else a > 0)
    && (c.started && c.through < U32_MAX ==> c.through + 1 !in c.ahead)
  }

  lemma {:induction false} AbsorbKnows(c: Chan, n: u32)
    requires c.started && forall a :: a in c.ahead ==> a > c.through
    ensures Knows(Absorb(c), n) <==> Knows(c, n)
    ensures AtFirstHole(Absorb(c)) && Absorb(c).started && Absorb(c).through >= c.through
    decreases |c.ahead|
  {
    var next := Next(c.through);
    if next in c.ahead {
      AbsorbKnows(Chan(next, c.started, c.ahead - {next}), n);
    }
  }

  /**
   Storing a number that is not already covered adds exactly that number to what the channel
   vouches for, and leaves the watermark at the first hole.
   */
  lemma AdvanceExact(c: Chan, num: u32, n: u32)
    requires AtFirstHole(c) && !(c.started && num <= c.through)
    ensures AtFirstHole(Advanced(c, num))
    ensures Knows(Advanced(c, num), n) <==> Knows(c, n) || n == num
    ensures c.started ==> Advanced(c, num).started && Advanced(c, num).through >= c.through
  {
    if !c.started && num == 0 {
      AbsorbKnows(Chan(0, true, c.ahead), n);
    } else if c.started && num == Next(c.through) {
      AbsorbKnows(c.(through := num, ahead := c.ahead - {num}), n);
      assert c.ahead - {num} == c.ahead;
    }
  }

  /** Every number stored on a connection, in any order, from a watermark the database already held. */
  function StoredAll(c: Chan, nums: seq<u32>): Chan
    decreases |nums|
  {
    if nums == [] then c
    else if c.started && nums[0] <= c.through then StoredAll(c, nums[1..])
    else StoredAll(Advanced(c, nums[0]), nums[1..])
  }

  /**
   However segments arrive, the watermark is the highest number with no hole below it: all of
   0..through arrived or was already durable, and through + 1 did not and was not.
   */
  lemma {:induction false} WatermarkIsFirstHole(c: Chan, nums: seq<u32>, n: u32)
    requires AtFirstHole(c)
    ensures var d := StoredAll(c, nums);
            && (Knows(d, n) <==> Knows(c, n) || n in nums)
            && AtFirstHole(d)
            && (d.started && n <= d.through ==> Knows(c, n) || n in nums)
            && (d.started && d.through < U32_MAX && n == d.through + 1 ==> !Knows(c, n) && n !in nums)
            && (!d.started ==> !Knows(c, 0) && 0 !in nums)
    decreases |nums|
  {
    if nums != [] {
      if !(c.started && nums[0] <= c.through) {
        AdvanceExact(c, nums[0], n);
        AdvanceExact(c, nums[0], 0);
        WatermarkIsFirstHole(Advanced(c, nums[0]), nums[1..], n);
      } else {
        WatermarkIsFirstHole(c, nums[1..], n);
      }
    }
  }
}
