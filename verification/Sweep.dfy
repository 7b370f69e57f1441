/** The sweep's triage: which held events are worth a cycle, from the Data API's sizes alone.
    Sizes are exact raw units here. */
module Sweep {
  import opened Prelude
  import opened Legs
  import opened Chain
  import opened Planner
  import opened Execution
  import opened PlanTheorems
  import opened Waste
  import opened Layout

  /** A position row; `asset` is `None` when its token id does not parse. */
  datatype Position = Position(asset: Option<TokenId>, size: nat)

  datatype EventClassification = EventClassification(
    mergePairs: nat,
    mergeShares: nat,
    convertLegs: nat,
    convertMinNo: nat,
    mergeable: bool,
    convertible: bool)
  {
    predicate Actionable() {
      mergeable || convertible
    }
  }

  // ---------- Sizes per leg ----------

  /** Plain sum of the wallet's rows for one token. */
  function HeldSum(positions: seq<Position>, token: TokenId): nat {
    if positions == [] then 0
    else
      var last := positions[|positions| - 1];
      HeldSum(positions[..|positions| - 1], token) + if last.asset == Some(token) then last.size else 0
  }

  /** Token `t` is leg `i`'s NO token (`isNo`) or its YES token. */
  predicate Names(legs: seq<ConvertLeg>, t: TokenId, i: nat, isNo: bool) {
    i < |legs| && if isNo then legs[i].noTokenId == t else legs[i].yesTokenId == Some(t)
  }

  ghost predicate DistinctTokens(legs: seq<ConvertLeg>) {
    forall t, i: nat, j: nat, a, b :: Names(legs, t, i, a) && Names(legs, t, j, b) ==> i == j && a == b
  }

  /** The token index of the first `k` legs. */
  ghost predicate Indexes(legs: seq<ConvertLeg>, byToken: map<TokenId, (nat, bool)>, k: nat) {
    && (forall t :: t in byToken ==> byToken[t].0 < k && Names(legs, t, byToken[t].0, byToken[t].1))
    && (forall t, i: nat, isNo :: i < k && Names(legs, t, i, isNo) ==> t in byToken)
  }

  method IndexTokens(legs: seq<ConvertLeg>) returns (byToken: map<TokenId, (nat, bool)>)
    ensures Indexes(legs, byToken, |legs|)
  {
    byToken := map[];
    for i := 0 to |legs|
      invariant Indexes(legs, byToken, i)
    {
      byToken := byToken[legs[i].noTokenId := (i, true)];
      if legs[i].yesTokenId.Some? {
        byToken := byToken[legs[i].yesTokenId.value := (i, false)];
      }
    }
  }

  function SizesAfter(legs: seq<ConvertLeg>, positions: seq<Position>): seq<Balance> {
    SeenPairs(legs, t => HeldSum(positions, t))
  }

  lemma {:induction false} OneMoreRow(
    legs: seq<ConvertLeg>, byToken: map<TokenId, (nat, bool)>, positions: seq<Position>, k: nat)
    requires DistinctTokens(legs) && Indexes(legs, byToken, |legs|) && k < |positions|
    ensures var before, after := SizesAfter(legs, positions[..k]), SizesAfter(legs, positions[..k + 1]);
            match positions[k].asset
            case Some(t) =>
              if t in byToken then
                var (i, isNo) := byToken[t];
                after == before[i := if isNo then before[i].(no := before[i].no + positions[k].size)
                                     else before[i].(yes := before[i].yes + positions[k].size)]
              else after == before
            case None => after == before
  {
    var before, after := SizesAfter(legs, positions[..k]), SizesAfter(legs, positions[..k + 1]);
    OneMoreSum(legs, positions, k);
    hide HeldSum, SeenPairs;
    match positions[k].asset
    case None => assert after == before;
    case Some(t) =>
      if t in byToken {
        var (i, isNo) := byToken[t];
        assert Names(legs, t, i, isNo) && !Names(legs, t, i, !isNo);
        assert forall j: nat, b :: j != i ==> !Names(legs, t, j, b);
      } else {
        assert after == before;
      }
  }

  /** What one row adds to one side of one leg. */
  function Added(legs: seq<ConvertLeg>, row: Position, j: nat, isNo: bool): nat {
    if row.asset.Some? && Names(legs, row.asset.value, j, isNo) then row.size else 0
  }

  lemma {:induction false} OneMoreSum(legs: seq<ConvertLeg>, positions: seq<Position>, k: nat)
    requires k < |positions|
    ensures var before, after := SizesAfter(legs, positions[..k]), SizesAfter(legs, positions[..k + 1]);
            && |before| == |after| == |legs|
            && forall j: nat :: j < |legs| ==>
                 && after[j].no == before[j].no + Added(legs, positions[k], j, true)
                 && after[j].yes == before[j].yes + Added(legs, positions[k], j, false)
  {
    assert positions[..k + 1][..k] == positions[..k];
  }

  /** Accumulating through the token index gives every leg the plain sum of its own tokens' rows:
      the same pairs a balance read of those sums would give. */
  method LegSizes(legs: seq<ConvertLeg>, positions: seq<Position>) returns (sizes: seq<Balance>)
    requires DistinctTokens(legs)
    ensures sizes == SeenPairs(legs, t => HeldSum(positions, t))
  {
    hide HeldSum, SeenPairs;
    var byToken := IndexTokens(legs);
    sizes := seq(|legs|, _ => Balance(0, 0));
    NoRows(legs);
    for k := 0 to |positions|
      invariant sizes == SizesAfter(legs, positions[..k])
    {
      OneMoreRow(legs, byToken, positions, k);
      SizesLength(legs, positions[..k]);
      match positions[k].asset
      case None =>
      case Some(t) =>
        if t in byToken {
          var (i, isNo) := byToken[t];
          if isNo {
            sizes := sizes[i := sizes[i].(no := sizes[i].no + positions[k].size)];
          } else {
            sizes := sizes[i := sizes[i].(yes := sizes[i].yes + positions[k].size)];
          }
        }
    }
    assert positions[..|positions|] == positions;
  }

  lemma {:induction false} NoRows(legs: seq<ConvertLeg>)
    ensures SizesAfter(legs, []) == seq(|legs|, _ => Balance(0, 0))
  {
  }

  lemma {:induction false} SizesLength(legs: seq<ConvertLeg>, positions: seq<Position>)
    ensures |SizesAfter(legs, positions)| == |legs|
  {
  }

  // ---------- Triage ----------

  /** Smallest amount among the holdings, 0 when there is none. */
  function LeastRemaining(hs: seq<NoHolding>): nat {
    if hs == [] then 0
    else if |hs| == 1 then hs[0].remainingNo
    else Min(LeastRemaining(hs[..|hs| - 1]), hs[|hs| - 1].remainingNo)
  }

  method ClassifyEvent(legs: seq<ConvertLeg>, sizes: seq<Balance>, singleLegMinQty: nat)
    returns (found: EventClassification)
    ensures var n := Min(|legs|, |sizes|);
            var merges, hs := MergesOf(legs, sizes, n), HoldingsOf(legs, sizes, n);
            && found.mergePairs == |merges| && found.mergeShares == SumAmounts(merges)
            && found.convertLegs == |hs| && found.convertMinNo == LeastRemaining(hs)
            && found.mergeable == (merges != [])
            && found.convertible == (|hs| > 1 || (|hs| == 1 && hs[0].remainingNo >= singleLegMinQty))
  {
    hide MergesOf, HoldingsOf, SumAmounts, LeastRemaining;
    ghost var n := Min(|legs|, |sizes|);
    NoLegs(legs, sizes);
    var mergePairs: nat, mergeShares: nat, convertLegs: nat := 0, 0, 0;
    var minNo: Option<nat> := None;
    for i := 0 to Min(|legs|, |sizes|)
      invariant mergePairs == |MergesOf(legs, sizes, i)|
      invariant mergeShares == SumAmounts(MergesOf(legs, sizes, i))
      invariant convertLegs == |HoldingsOf(legs, sizes, i)|
      invariant minNo == if convertLegs == 0 then None else Some(LeastRemaining(HoldingsOf(legs, sizes, i)))
    {
      var leg, no, yes := legs[i], sizes[i].no, sizes[i].yes;
      MergesGrow(legs, sizes, i);
      HoldingsGrow(legs, sizes, i);
      if no > 0 && yes > 0 && leg.conditionId.Some? {
        mergePairs := mergePairs + 1;
        mergeShares := mergeShares + Min(no, yes);
      }
      var remainingNo: nat := no - Min(no, yes);
      if remainingNo > 0 {
        convertLegs := convertLegs + 1;
        minNo := Some(if minNo.None? then remainingNo else Min(minNo.value, remainingNo));
      }
    }
    LoneLeast(legs, sizes, n);
    found := EventClassification(
      mergePairs, mergeShares, convertLegs, if minNo.Some? then minNo.value else 0,
      mergePairs > 0,
      convertLegs > 1 || (convertLegs == 1 && minNo.value >= singleLegMinQty));
  }

  lemma {:induction false} LeastAppend(hs: seq<NoHolding>, h: NoHolding)
    ensures LeastRemaining(hs + [h]) == if hs == [] then h.remainingNo else Min(LeastRemaining(hs), h.remainingNo)
  {
    assert (hs + [h])[..|hs|] == hs;
  }

  lemma {:induction false} NoLegs(legs: seq<ConvertLeg>, sizes: seq<Balance>)
    ensures MergesOf(legs, sizes, 0) == [] && HoldingsOf(legs, sizes, 0) == []
    ensures SumAmounts([]) == 0
  {
  }

  lemma {:induction false} MergesGrow(legs: seq<ConvertLeg>, sizes: seq<Balance>, i: nat)
    requires i < |legs| && i < |sizes|
    ensures var merges, more := MergesOf(legs, sizes, i), MergesOf(legs, sizes, i + 1);
            if Mergeable(legs[i], sizes[i])
            then |more| == |merges| + 1
                 && SumAmounts(more) == SumAmounts(merges) + Min(sizes[i].no, sizes[i].yes)
            else more == merges
  {
    if Mergeable(legs[i], sizes[i]) {
      MergeCallsAppend(MergesOf(legs, sizes, i), legs[i].conditionId.value, Min(sizes[i].yes, sizes[i].no));
    }
  }

  lemma {:induction false} HoldingsGrow(legs: seq<ConvertLeg>, sizes: seq<Balance>, i: nat)
    requires i < |legs| && i < |sizes|
    ensures var hs, more := HoldingsOf(legs, sizes, i), HoldingsOf(legs, sizes, i + 1);
            var r := Remaining(sizes[i]);
            if r == 0 then more == hs
            else |more| == |hs| + 1
                 && LeastRemaining(more) == if hs == [] then r else Min(LeastRemaining(hs), r)
  {
    hide LeastRemaining;
    if Remaining(sizes[i]) > 0 {
      LeastAppend(HoldingsOf(legs, sizes, i),
                  NoHolding(legs[i].questionId, legs[i].conditionId, Remaining(sizes[i])));
    }
  }

  /** A lone holding is its own least. */
  lemma {:induction false} LoneLeast(legs: seq<ConvertLeg>, sizes: seq<Balance>, n: nat)
    requires n <= |legs| && n <= |sizes|
    ensures var hs := HoldingsOf(legs, sizes, n);
            (|hs| == 1 ==> LeastRemaining(hs) == hs[0].remainingNo) && (hs == [] ==> LeastRemaining(hs) == 0)
  {
  }

  lemma {:induction false} HoldingsCount(legs: seq<ConvertLeg>, bal: seq<Balance>, k: nat)
    requires k <= |legs| == |bal|
    ensures |HoldingsOf(legs, bal, k)| == Rank(bal, 1, k)
  {
    if k > 0 {
      HoldingsCount(legs, bal, k - 1);
    }
  }

  lemma {:induction false} LoneHolding(legs: seq<ConvertLeg>, bal: seq<Balance>, floor: nat)
    requires |legs| == |bal|
    ensures Settled(bal, 0, floor)
       <==> var hs := HoldingsOf(legs, bal, |legs|); |hs| == 0 || (|hs| == 1 && hs[0].remainingNo < floor)
  {
    var n, hs := |legs|, HoldingsOf(legs, bal, |legs|);
    HoldingsCount(legs, bal, n);
    if |hs| == 0 {
      forall i | 0 <= i < n ensures Remaining(bal[i]) == 0 {
        if Remaining(bal[i]) > 0 {
          RankAbove(bal, 1, n, i);
        }
      }
    } else if |hs| == 1 {
      var s := RankWitness(bal, 1, n);
      forall i | 0 <= i < n && i != s ensures Remaining(bal[i]) == 0 {
        if Remaining(bal[i]) > 0 {
          RankOne(bal, 1, n, if i < s then i else s, if i < s then s else i);
        }
      }
      HoldingsRemaining(legs, bal, n, hs[0].remainingNo);
      assert hs[0].remainingNo == Remaining(bal[s]);
      assert Settled(bal, 0, floor) <==> LoneAbove(bal, 0, floor, s);
    } else {
      if s :| 0 <= s < |bal| && LoneAbove(bal, 0, floor, s) {
        RankLone(bal, 1, s, n);
      }
      var i := RankWitness(bal, 1, n);
    }
  }

  /** Triage agrees with the planner: on exact sizes an event is actionable exactly when its plan has
      a call. */
  lemma {:induction false} TriageAgrees(legs: seq<ConvertLeg>, sizes: seq<Balance>, floor: nat)
    requires WellFormed(legs) && |legs| == |sizes|
    ensures var merges, hs := MergesOf(legs, sizes, |legs|), HoldingsOf(legs, sizes, |legs|);
            (merges != [] || |hs| > 1 || (|hs| == 1 && hs[0].remainingNo >= floor))
            <==> EventCalls(Plan(legs, sizes, floor, MAX_LEGS_PER_CONVERT)) != []
  {
    hide Plan, EventCalls, Settled, HoldingsOf, MergesOf, WellFormed;
    MergesEmptyIff(legs, sizes, |legs|);
    LoneHolding(legs, sizes, floor);
    PlanEmptyIff(legs, sizes, floor, MAX_LEGS_PER_CONVERT);
  }

  /** The same, end to end: rows in, decision out. */
  method Triage(legs: seq<ConvertLeg>, positions: seq<Position>, floor: nat) returns (actionable: bool)
    requires WellFormed(legs) && DistinctTokens(legs)
    ensures actionable <==>
              EventCalls(Plan(legs, SeenPairs(legs, t => HeldSum(positions, t)), floor, MAX_LEGS_PER_CONVERT)) != []
  {
    hide Plan, EventCalls, HoldingsOf, MergesOf, WellFormed, DistinctTokens;
    var sizes := LegSizes(legs, positions);
    var found := ClassifyEvent(legs, sizes, floor);
    TriageAgrees(legs, sizes, floor);
    actionable := found.Actionable();
  }
}
