/** Packing the planned calls into relayer submissions under a call cap and a gas budget. */
module GasChunks {
  import opened Prelude
  import opened Planner

  /** A half-open range of the planned-call list. */
  datatype Range = Range(lo: nat, hi: nat)

  function GasBefore(planned: seq<PlannedCall>, k: nat): nat
    requires k <= |planned|
  {
    if k == 0 then 0 else GasBefore(planned, k - 1) + planned[k - 1].gas
  }

  lemma {:induction false} GasGrows(planned: seq<PlannedCall>, i: nat, j: nat)
    requires i <= j <= |planned|
    ensures GasBefore(planned, i) <= GasBefore(planned, j)
  {
    if i < j {
      GasGrows(planned, i, j - 1);
    }
  }

  /** Gas of a range as the 64-bit accumulator sees it. */
  function RangeGas(planned: seq<PlannedCall>, lo: nat, hi: nat): nat
    requires lo <= hi <= |planned|
  {
    GasGrows(planned, lo, hi);
    SaturatingU64(GasBefore(planned, hi) - GasBefore(planned, lo))
  }

  /** What one submission may hold: at most `maxCalls` calls, and the gas budget unless alone. */
  predicate Fits(planned: seq<PlannedCall>, lo: nat, hi: nat, maxCalls: nat, maxGas: nat)
    requires lo <= hi <= |planned|
  {
    lo < hi && hi - lo <= maxCalls && (hi - lo == 1 || RangeGas(planned, lo, hi) <= maxGas)
  }

  /** Nonempty ranges that cover `[0, n)` in order without gap or overlap. */
  ghost predicate Covers(ranges: seq<Range>, n: nat) {
    && (forall k :: 0 <= k < |ranges| ==> ranges[k].lo < ranges[k].hi <= n)
    && (forall k :: 0 <= k < |ranges| - 1 ==> ranges[k].hi == ranges[k + 1].lo)
    && (if ranges == [] then n == 0 else ranges[0].lo == 0 && ranges[|ranges| - 1].hi == n)
  }

  ghost predicate Packs(planned: seq<PlannedCall>, ranges: seq<Range>, n: nat, maxCalls: nat, maxGas: nat)
    requires n <= |planned|
  {
    && Covers(ranges, n)
    && forall k :: 0 <= k < |ranges| ==> Fits(planned, ranges[k].lo, ranges[k].hi, maxCalls, maxGas)
  }

  /** No range but the last could have taken one call more. */
  ghost predicate Greedy(planned: seq<PlannedCall>, ranges: seq<Range>, maxCalls: nat, maxGas: nat) {
    forall k :: 0 <= k < |ranges| - 1 && ranges[k].lo <= ranges[k].hi < |planned| ==>
      !Fits(planned, ranges[k].lo, ranges[k].hi + 1, maxCalls, maxGas)
  }

  lemma {:induction false} PartFits(
    planned: seq<PlannedCall>, lo: nat, hi: nat, lo': nat, hi': nat, maxCalls: nat, maxGas: nat)
    requires lo <= lo' < hi' <= hi <= |planned| && Fits(planned, lo, hi, maxCalls, maxGas)
    ensures Fits(planned, lo', hi', maxCalls, maxGas)
  {
    GasGrows(planned, lo, lo');
    GasGrows(planned, hi', hi);
  }

  /** Range by range, the greedy packing is never behind any other. */
  lemma {:induction false} GreedyStaysAhead(
    planned: seq<PlannedCall>, ranges: seq<Range>, other: seq<Range>, maxCalls: nat, maxGas: nat, k: nat)
    requires Packs(planned, ranges, |planned|, maxCalls, maxGas) && Greedy(planned, ranges, maxCalls, maxGas)
    requires Packs(planned, other, |planned|, maxCalls, maxGas)
    requires k < |ranges| && k < |other|
    ensures ranges[k].hi >= other[k].hi
  {
    if k > 0 {
      GreedyStaysAhead(planned, ranges, other, maxCalls, maxGas, k - 1);
      assert ranges[k - 1].hi == ranges[k].lo && other[k - 1].hi == other[k].lo;
    }
    if ranges[k].hi < other[k].hi {
      assert k < |ranges| - 1;
      PartFits(planned, other[k].lo, other[k].hi, ranges[k].lo, ranges[k].hi + 1, maxCalls, maxGas);
    }
  }

  /** Greedy packing uses the fewest submissions of all packings that obey the rules. */
  lemma {:induction false} GreedyIsFewest(
    planned: seq<PlannedCall>, ranges: seq<Range>, other: seq<Range>, maxCalls: nat, maxGas: nat)
    requires Packs(planned, ranges, |planned|, maxCalls, maxGas) && Greedy(planned, ranges, maxCalls, maxGas)
    requires Packs(planned, other, |planned|, maxCalls, maxGas)
    ensures |ranges| <= |other|
  {
    assert ranges != [] ==> ranges[0].lo < ranges[0].hi;
    if |ranges| > |other| && other != [] {
      var k := |other| - 1;
      assert ranges[k].hi == ranges[k + 1].lo < ranges[k + 1].hi;
      GreedyStaysAhead(planned, ranges, other, maxCalls, maxGas, k);
    }
  }

  /** The packing so far, with its last range closed to the call at `start`. */
  ghost predicate PackedTo(planned: seq<PlannedCall>, ranges: seq<Range>, start: nat, maxCalls: nat, maxGas: nat)
    requires start <= |planned|
  {
    && Packs(planned, ranges, start, maxCalls, maxGas)
    && Greedy(planned, ranges, maxCalls, maxGas)
    && (ranges != [] && start < |planned| ==>
          !Fits(planned, ranges[|ranges| - 1].lo, start + 1, maxCalls, maxGas))
  }

  lemma {:induction false} PackOneMore(
    planned: seq<PlannedCall>, ranges: seq<Range>, start: nat, i: nat, maxCalls: nat, maxGas: nat)
    requires start < i <= |planned|
    requires PackedTo(planned, ranges, start, maxCalls, maxGas) && Fits(planned, start, i, maxCalls, maxGas)
    requires i < |planned| ==> !Fits(planned, start, i + 1, maxCalls, maxGas)
    ensures PackedTo(planned, ranges + [Range(start, i)], i, maxCalls, maxGas)
  {
    hide Fits;
    var more := ranges + [Range(start, i)];
    assert forall k :: 0 <= k < |ranges| ==> more[k] == ranges[k];
  }

  method Chunks(planned: seq<PlannedCall>, maxCalls: nat, maxGas: nat) returns (ranges: seq<Range>)
    ensures Packs(planned, ranges, |planned|, Max(maxCalls, 1), maxGas)
    ensures forall other :: Packs(planned, other, |planned|, Max(maxCalls, 1), maxGas) ==> |ranges| <= |other|
  {
    hide PackedTo, GasBefore;
    var cap := Max(maxCalls, 1);
    ranges := [];
    var start: nat, gas: nat := 0, 0;
    PackNone(planned, cap, maxGas);
    for i := 0 to |planned|
      invariant start <= i && (i > 0 ==> start < i)
      invariant PackedTo(planned, ranges, start, cap, maxGas)
      invariant gas == RangeGas(planned, start, i)
      invariant start < i ==> Fits(planned, start, i, cap, maxGas)
    {
      var count := i - start;
      GasStep(planned, start, i);
      if count > 0 && (count >= cap || SaturatingU64(gas + planned[i].gas) > maxGas) {
        PackOneMore(planned, ranges, start, i, cap, maxGas);
        ranges := ranges + [Range(start, i)];
        start, gas := i, 0;
        GasStep(planned, i, i);
      }
      gas := SaturatingU64(gas + planned[i].gas);
    }
    if start < |planned| {
      PackOneMore(planned, ranges, start, |planned|, cap, maxGas);
      ranges := ranges + [Range(start, |planned|)];
    }
    PackedIsFewest(planned, ranges, cap, maxGas);
  }

  lemma {:induction false} PackNone(planned: seq<PlannedCall>, maxCalls: nat, maxGas: nat)
    ensures PackedTo(planned, [], 0, maxCalls, maxGas) && RangeGas(planned, 0, 0) == 0
  {
  }

  lemma {:induction false} GasStep(planned: seq<PlannedCall>, lo: nat, i: nat)
    requires lo <= i < |planned|
    ensures RangeGas(planned, i, i) == 0
    ensures RangeGas(planned, lo, i + 1) == SaturatingU64(RangeGas(planned, lo, i) + planned[i].gas)
  {
    GasGrows(planned, lo, i);
  }

  lemma {:induction false} PackedIsFewest(planned: seq<PlannedCall>, ranges: seq<Range>, maxCalls: nat, maxGas: nat)
    requires PackedTo(planned, ranges, |planned|, maxCalls, maxGas)
    ensures Packs(planned, ranges, |planned|, maxCalls, maxGas)
    ensures forall other :: Packs(planned, other, |planned|, maxCalls, maxGas) ==> |ranges| <= |other|
  {
    hide Packs, Greedy, Fits;
    forall other | Packs(planned, other, |planned|, maxCalls, maxGas) ensures |ranges| <= |other| {
      GreedyIsFewest(planned, ranges, other, maxCalls, maxGas);
    }
  }

  /** Below the 64-bit limit the accumulator is exact: each submission's true gas is within budget. */
  lemma {:induction false} BudgetIsTrueGas(
    planned: seq<PlannedCall>, lo: nat, hi: nat, maxCalls: nat, maxGas: nat)
    requires lo <= hi <= |planned| && maxGas < U64_MAX
    ensures Fits(planned, lo, hi, maxCalls, maxGas) <==>
              lo < hi && hi - lo <= maxCalls
              && (hi - lo == 1 || GasBefore(planned, hi) - GasBefore(planned, lo) <= maxGas)
  {
    GasGrows(planned, lo, hi);
  }
}
