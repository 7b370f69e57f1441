/** Phasing of scheduled reconnects over a fleet of redundant connections, in nanoseconds. */
module Recycle {
  import opened Prelude

  const NANOS: nat := 1_000_000_000
  const U8_MAX: nat := 255

  /** Offset of connection `connId` of `connections`, `None` when recycling is off. */
  function RecycleOffset(connId: nat, connections: nat, intervalSecs: nat): Option<nat> {
    if intervalSecs == 0 || connections < 2 then None
    else Some(intervalSecs * NANOS * (connId + 1) / connections)
  }

  /** Shards times redundant copies, phased copy-major and shard-minor. */
  function MarketRecycleOffset(
    shardId: nat, copy: nat, numShards: nat, redundancy: nat, intervalSecs: nat): Option<nat>
  {
    if redundancy < 2 then None
    else
      var total, slot := numShards * redundancy, copy * numShards + shardId;
      if total > U8_MAX || slot > U8_MAX then None
      else RecycleOffset(slot, total, intervalSecs)
  }

  /** The `round`-th recycle of a connection with this offset: first at the offset, then every period. */
  function Tick(offset: nat, period: nat, round: nat): nat {
    offset + round * period
  }

  // ---------- Division facts ----------

  /** `q` is the quotient as soon as its multiple fits and the next one does not. */
  lemma {:induction false} Quotient(x: nat, n: nat, q: nat)
    requires n > 0 && q * n <= x < (q + 1) * n
    ensures x / n == q
  {
    var r := x / n;
    assert r * n <= x < (r + 1) * n by {
      assert x == r * n + x % n;
    }
    if r < q {
      Mul(r + 1, q, n);
    } else if q < r {
      Mul(q + 1, r, n);
    }
  }

  lemma {:induction false} Mul(a: nat, b: nat, n: nat)
    requires a <= b
    ensures a * n <= b * n
  {
  }

  lemma {:induction false} Floor(x: nat, n: nat) returns (q: nat, r: nat)
    requires n > 0
    ensures q == x / n && r == x % n && x == q * n + r && r < n
  {
    q, r := x / n, x % n;
  }

  lemma {:induction false} QuotientAdds(x: nat, y: nat, n: nat)
    requires n > 0
    ensures x / n + y / n <= (x + y) / n <= x / n + y / n + 1
  {
    var q, r := Floor(x, n);
    var q', r' := Floor(y, n);
    if r + r' < n {
      assert (q + q') * n == q * n + q' * n;
      assert (q + q' + 1) * n == q * n + q' * n + n;
      Quotient(x + y, n, q + q');
    } else {
      assert (q + q' + 1) * n == q * n + q' * n + n;
      assert (q + q' + 2) * n == q * n + q' * n + n + n;
      Quotient(x + y, n, q + q' + 1);
    }
  }

  lemma {:induction false} QuotientShifts(x: nat, k: nat, n: nat)
    requires n > 0
    ensures (x + k * n) / n == x / n + k
  {
    var q, r := Floor(x, n);
    assert (q + k) * n == q * n + k * n;
    assert (q + k + 1) * n == q * n + k * n + n;
    Quotient(x + k * n, n, q + k);
  }

  lemma {:induction false} QuotientGrows(x: nat, y: nat, n: nat)
    requires n > 0 && x <= y
    ensures x / n <= y / n
  {
    QuotientAdds(x, y - x, n);
  }

  // ---------- The fleet as one grid ----------

  /** Time of grid point `m`: `m` slots of `period / total` each, rounded down. */
  function Grid(period: nat, total: nat, m: nat): nat
    requires total > 0
  {
    period * m / total
  }

  /** Every recycle of every connection is a grid point, a different one each. */
  lemma {:induction false} TickOnGrid(slot: nat, total: nat, intervalSecs: nat, round: nat)
    requires intervalSecs > 0 && total >= 2
    ensures RecycleOffset(slot, total, intervalSecs).Some?
    ensures Tick(RecycleOffset(slot, total, intervalSecs).value, intervalSecs * NANOS, round)
         == Grid(intervalSecs * NANOS, total, slot + 1 + round * total)
  {
    var period := intervalSecs * NANOS;
    QuotientShifts(period * (slot + 1), round * period, total);
    calc {
      period * (slot + 1 + round * total);
      period * (slot + 1) + period * (round * total);
      { MulSwap(period, round, total); }
      period * (slot + 1) + round * period * total;
    }
  }

  lemma {:induction false} MulSwap(a: nat, b: nat, c: nat)
    ensures a * (b * c) == b * a * c
  {
  }

  lemma {:induction false} GridGap(period: nat, total: nat, a: nat, b: nat)
    requires total > 0 && a < b
    ensures Grid(period, total, a) + period / total <= Grid(period, total, b)
  {
    assert period * b == period * a + period * (b - a);
    assert period <= period * (b - a) by { Mul(1, b - a, period); }
    QuotientAdds(period * a, period * (b - a), total);
    QuotientGrows(period, period * (b - a), total);
  }

  lemma {:induction false} SlotsOnGrid(slot: nat, round: nat, slot': nat, round': nat, total: nat)
    requires slot < total && slot' < total && (slot, round) != (slot', round')
    ensures slot + 1 + round * total != slot' + 1 + round' * total
  {
    if round < round' {
      Mul(round + 1, round', total);
      assert (round + 1) * total == round * total + total;
    } else if round' < round {
      Mul(round' + 1, round, total);
      assert (round' + 1) * total == round' * total + total;
    }
  }

  /** Offsets lie in `(0, period]`: none fires at boot. */
  lemma {:induction false} OffsetInPeriod(slot: nat, total: nat, intervalSecs: nat)
    requires intervalSecs > 0 && 2 <= total <= U8_MAX && slot < total
    ensures RecycleOffset(slot, total, intervalSecs).Some?
    ensures 0 < RecycleOffset(slot, total, intervalSecs).value <= intervalSecs * 1_000_000_000
    ensures slot == total - 1 ==> RecycleOffset(slot, total, intervalSecs).value == intervalSecs * 1_000_000_000
  {
    var period := intervalSecs * NANOS;
    assert total <= period by { Mul(1, intervalSecs, NANOS); }
    Quotient(period * total, total, period);
    assert period * total <= period * total < (period + 1) * total;
    Mul(slot + 1, total, period);
    QuotientGrows(period * (slot + 1), period * total, total);
    assert total * 1 <= period * (slot + 1) by { Mul(1, slot + 1, period); }
    QuotientGrows(total, period * (slot + 1), total);
    Quotient(total, total, 1);
  }

  /** Any two recycles of the fleet, over all connections and unboundedly many periods, are at least
      one slot apart. */
  lemma {:induction false} RecyclesApart(
    slot: nat, round: nat, slot': nat, round': nat, total: nat, intervalSecs: nat)
    requires intervalSecs > 0 && 2 <= total <= U8_MAX && slot < total && slot' < total
    requires (slot, round) != (slot', round')
    ensures RecycleOffset(slot, total, intervalSecs).Some? && RecycleOffset(slot', total, intervalSecs).Some?
    ensures var period := intervalSecs * NANOS;
            var t := Tick(RecycleOffset(slot, total, intervalSecs).value, period, round);
            var t' := Tick(RecycleOffset(slot', total, intervalSecs).value, period, round');
            0 < period / total && (t + period / total <= t' || t' + period / total <= t)
  {
    var period := intervalSecs * NANOS;
    TickOnGrid(slot, total, intervalSecs, round);
    TickOnGrid(slot', total, intervalSecs, round');
    SlotsOnGrid(slot, round, slot', round', total);
    var a, b := slot + 1 + round * total, slot' + 1 + round' * total;
    if a < b {
      GridGap(period, total, a, b);
    } else {
      GridGap(period, total, b, a);
    }
    assert total <= period by { Mul(1, intervalSecs, NANOS); }
    QuotientGrows(total, period, total);
    Quotient(total, total, 1);
  }

  /** Copy and shard name different slots, all below the total. */
  lemma {:induction false} SlotInRange(shard: nat, copy: nat, shards: nat, redundancy: nat)
    requires shard < shards && copy < redundancy
    ensures copy * shards + shard < shards * redundancy
  {
    Mul(copy + 1, redundancy, shards);
    assert (copy + 1) * shards == copy * shards + shards;
    assert redundancy * shards == shards * redundancy;
  }

  lemma {:induction false} SlotsDiffer(shard: nat, copy: nat, shard': nat, copy': nat, shards: nat)
    requires shard < shards && shard' < shards && (shard, copy) != (shard', copy')
    ensures copy * shards + shard != copy' * shards + shard'
  {
    if copy < copy' {
      Mul(copy + 1, copy', shards);
      assert (copy + 1) * shards == copy * shards + shards;
    } else if copy' < copy {
      Mul(copy' + 1, copy, shards);
      assert (copy' + 1) * shards == copy' * shards + shards;
    }
  }

  /** The market fan-out: distinct connections never recycle within one slot of each other. */
  lemma {:induction false} MarketRecyclesApart(
    shard: nat, copy: nat, round: nat, shard': nat, copy': nat, round': nat,
    shards: nat, redundancy: nat, intervalSecs: nat)
    requires intervalSecs > 0 && redundancy >= 2 && shards * redundancy <= U8_MAX
    requires shard < shards && shard' < shards && copy < redundancy && copy' < redundancy
    requires (shard, copy) != (shard', copy')
    ensures MarketRecycleOffset(shard, copy, shards, redundancy, intervalSecs).Some?
    ensures MarketRecycleOffset(shard', copy', shards, redundancy, intervalSecs).Some?
    ensures var period, total := intervalSecs * NANOS, shards * redundancy;
            var t := Tick(MarketRecycleOffset(shard, copy, shards, redundancy, intervalSecs).value, period, round);
            var t' := Tick(MarketRecycleOffset(shard', copy', shards, redundancy, intervalSecs).value, period, round');
            total > 0 && 0 < period / total && (t + period / total <= t' || t' + period / total <= t)
  {
    SlotInRange(shard, copy, shards, redundancy);
    SlotInRange(shard', copy', shards, redundancy);
    SlotsDiffer(shard, copy, shard', copy', shards);
    assert shards * redundancy >= 2 by { Mul(1, shards, redundancy); }
    RecyclesApart(copy * shards + shard, round, copy' * shards + shard', round', shards * redundancy, intervalSecs);
  }

  /** The copy recycling next after `copy`, and its round: the last copy is followed by copy 0 of the
      next period. */
  function NextCopy(copy: nat, redundancy: nat): nat {
    if copy + 1 < redundancy then copy + 1 else 0
  }

  function NextRound(copy: nat, redundancy: nat, round: nat): nat {
    if copy + 1 < redundancy then round else round + 1
  }

  lemma {:induction false} NextSlot(shard: nat, copy: nat, shards: nat, redundancy: nat, round: nat)
    requires shard < shards && copy < redundancy
    ensures var total := shards * redundancy;
            NextCopy(copy, redundancy) * shards + shard + 1 + NextRound(copy, redundancy, round) * total
            == copy * shards + shard + 1 + round * total + shards
  {
    assert (copy + 1) * shards == copy * shards + shards;
    assert (round + 1) * (shards * redundancy) == round * (shards * redundancy) + shards * redundancy;
    if copy + 1 == redundancy {
      assert redundancy * shards == shards * redundancy;
    }
  }

  /** Recycling is off exactly without an interval or a second connection. */
  lemma {:induction false} FleetOffIff(connId: nat, connections: nat, intervalSecs: nat)
    requires connId < connections
    ensures RecycleOffset(connId, connections, intervalSecs).None? <==> intervalSecs == 0 || connections == 1
  {
  }

  /** A market fan-out's recycling is off exactly without an interval, without a second copy, or beyond
      255 connections: all its connections recycle or none does. */
  lemma {:induction false} MarketOffIff(shard: nat, copy: nat, shards: nat, redundancy: nat, intervalSecs: nat)
    requires shard < shards && copy < redundancy
    ensures MarketRecycleOffset(shard, copy, shards, redundancy, intervalSecs).None?
       <==> intervalSecs == 0 || redundancy == 1 || shards * redundancy > 255
  {
    SlotInRange(shard, copy, shards, redundancy);
    assert redundancy <= shards * redundancy by { Mul(1, shards, redundancy); }
  }

  /** On the grid, a shard's next copy recycles `shards` points further along. */
  lemma {:induction false} CopyTicks(
    shard: nat, copy: nat, round: nat, shards: nat, redundancy: nat, intervalSecs: nat)
    requires intervalSecs > 0 && redundancy >= 2 && shards * redundancy <= U8_MAX
    requires shard < shards && copy < redundancy
    ensures MarketRecycleOffset(shard, copy, shards, redundancy, intervalSecs).Some? && shards * redundancy > 0
    ensures Tick(MarketRecycleOffset(shard, copy, shards, redundancy, intervalSecs).value, intervalSecs * NANOS, round)
         == Grid(intervalSecs * NANOS, shards * redundancy, copy * shards + shard + 1 + round * (shards * redundancy))
  {
    hide Tick, Grid, RecycleOffset;
    SlotInRange(shard, copy, shards, redundancy);
    assert shards * redundancy >= 2 by { Mul(1, shards, redundancy); }
    TickOnGrid(copy * shards + shard, shards * redundancy, intervalSecs, round);
  }

  /** Successive recycles of a shard's copies, in every period and from one period into the next, are
      `period / redundancy` apart to within one nanosecond, and exactly so if and only if `redundancy`
      divides the period. */
  lemma {:induction false} CopiesApart(
    shard: nat, copy: nat, round: nat, shards: nat, redundancy: nat, intervalSecs: nat)
    requires intervalSecs > 0 && redundancy >= 2 && shards * redundancy <= U8_MAX
    requires shard < shards && copy < redundancy
    ensures MarketRecycleOffset(shard, copy, shards, redundancy, intervalSecs).Some?
    ensures MarketRecycleOffset(shard, NextCopy(copy, redundancy), shards, redundancy, intervalSecs).Some?
    ensures var period, next := intervalSecs * NANOS, NextCopy(copy, redundancy);
            var t := Tick(MarketRecycleOffset(shard, copy, shards, redundancy, intervalSecs).value, period, round);
            var t' := Tick(MarketRecycleOffset(shard, next, shards, redundancy, intervalSecs).value, period,
                           NextRound(copy, redundancy, round));
            && period / redundancy <= t' - t <= period / redundancy + 1
            && ((t' - t) * redundancy == period <==> period % redundancy == 0)
  {
    hide Tick, Grid, MarketRecycleOffset, NextRound;
    var period := intervalSecs * NANOS;
    CopyTicks(shard, copy, round, shards, redundancy, intervalSecs);
    CopyTicks(shard, NextCopy(copy, redundancy), NextRound(copy, redundancy, round), shards, redundancy, intervalSecs);
    NextSlot(shard, copy, shards, redundancy, round);
    GapBetween(period, copy * shards + shard + 1 + round * (shards * redundancy), shards, redundancy);
    if period % redundancy != 0 {
      NotAMultiple(period, redundancy);
    }
  }

  /** `shards` slots further along the grid is `period / redundancy` later, up to rounding. */
  lemma {:induction false} GapBetween(period: nat, m: nat, shards: nat, redundancy: nat)
    requires shards > 0 && redundancy > 0 && shards * redundancy > 0
    ensures var gap := Grid(period, shards * redundancy, m + shards) - Grid(period, shards * redundancy, m);
            && period / redundancy <= gap <= period / redundancy + 1
            && (period % redundancy == 0 ==> gap * redundancy == period)
  {
    var total := shards * redundancy;
    assert period * (m + shards) == period * m + period * shards;
    QuotientAdds(period * m, period * shards, total);
    Cancel(period, shards, redundancy);
    if period % redundancy == 0 {
      var k := period / redundancy;
      assert period == k * redundancy;
      assert period * shards == k * total by { MulSwap(shards, k, redundancy); }
      QuotientShifts(period * m, k, total);
    }
  }

  lemma {:induction false} NotAMultiple(period: nat, redundancy: nat)
    requires redundancy > 0 && period % redundancy != 0
    ensures forall gap: nat :: gap * redundancy != period
  {
    forall gap: nat ensures gap * redundancy != period {
      if gap * redundancy == period {
        Quotient(period, redundancy, gap);
      }
    }
  }

  lemma {:induction false} Cancel(period: nat, shards: nat, redundancy: nat)
    requires shards > 0 && redundancy > 0
    ensures shards * redundancy > 0 && period * shards / (shards * redundancy) == period / redundancy
  {
    assert 1 * redundancy <= shards * redundancy by { Mul(1, shards, redundancy); }
    var q, r := Floor(period, redundancy);
    calc {
      q * (shards * redundancy);
      { MulSwap(q, shards, redundancy); }
      shards * q * redundancy;
      { MulSwap(shards, q, redundancy); MulSwap(q, shards, redundancy); }
      shards * (q * redundancy);
    }
    assert (q + 1) * (shards * redundancy) == q * (shards * redundancy) + shards * redundancy;
    assert period * shards == shards * (q * redundancy) + shards * r;
    assert shards * r + shards <= shards * redundancy by { Mul(r + 1, redundancy, shards); }
    Quotient(period * shards, shards * redundancy, q);
  }
}
