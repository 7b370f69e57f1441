/** The planner: one balance snapshot in, an ordered list of merges and converts out.
    Each loop of the original is a method here, proved against a function of the same inputs. */
module Planner {
  import opened Prelude
  import opened Legs
  import opened Chain

  const MAX_LEGS_PER_CONVERT: nat := 20
  const MERGE_GAS: nat := 400_000
  const U64_MAX: nat := 0xFFFF_FFFF_FFFF_FFFF

  type Merges = seq<(ConditionId, nat)>

  /** A leg still holding NO once `min(yes, no)` is merged away or offset. */
  datatype NoHolding = NoHolding(
    questionId: QuestionId,
    conditionId: Option<ConditionId>,
    remainingNo: Positive)

  /** One convert, and the merges that make up for members cut off by the leg cap. */
  datatype ConvertTier = ConvertTier(
    questionIds: seq<QuestionId>,
    amount: nat,
    postMerges: Merges)

  datatype EventPlan = EventPlan(
    merges: Merges,
    tiers: seq<ConvertTier>,
    proceeds: nat,
    nLegs: nat)

  datatype Call =
    | MergeCall(conditionId: ConditionId, amount: nat)
    | ConvertCall(marketId: QuestionId, indexSet: Bitmap, amount: nat)

  datatype PlannedCall = PlannedCall(call: Call, gas: nat)

  // ---------- Classification ----------

  function Remaining(b: Balance): nat {
    b.no - Min(b.yes, b.no)
  }

  predicate Mergeable(leg: ConvertLeg, b: Balance) {
    b.yes > 0 && b.no > 0 && leg.conditionId.Some?
  }

  /** Merges planned on the first `k` legs. */
  function MergesOf(legs: seq<ConvertLeg>, bal: seq<Balance>, k: nat): Merges
    requires k <= |legs| && k <= |bal|
  {
    if k == 0 then []
    else MergesOf(legs, bal, k - 1) +
         if Mergeable(legs[k - 1], bal[k - 1])
         then [(legs[k - 1].conditionId.value, Min(bal[k - 1].yes, bal[k - 1].no))] else []
  }

  /** Holdings left on the first `k` legs. */
  function HoldingsOf(legs: seq<ConvertLeg>, bal: seq<Balance>, k: nat): seq<NoHolding>
    requires k <= |legs| && k <= |bal|
  {
    if k == 0 then []
    else HoldingsOf(legs, bal, k - 1) +
         if Remaining(bal[k - 1]) > 0
         then [NoHolding(legs[k - 1].questionId, legs[k - 1].conditionId, Remaining(bal[k - 1]))]
         else []
  }

  method ClassifyEvent(legs: seq<ConvertLeg>, pairs: seq<Balance>)
    returns (merges: Merges, holdings: seq<NoHolding>)
    ensures merges == MergesOf(legs, pairs, Min(|legs|, |pairs|))
    ensures holdings == HoldingsOf(legs, pairs, Min(|legs|, |pairs|))
  {
    merges, holdings := [], [];
    for i := 0 to Min(|legs|, |pairs|)
      invariant merges == MergesOf(legs, pairs, i)
      invariant holdings == HoldingsOf(legs, pairs, i)
    {
      var leg, b := legs[i], pairs[i];
      if b.yes > 0 && b.no > 0 && leg.conditionId.Some? {
        merges := merges + [(leg.conditionId.value, Min(b.yes, b.no))];
      }
      var remainingNo := b.no - Min(b.yes, b.no);
      if remainingNo > 0 {
        holdings := holdings + [NoHolding(leg.questionId, leg.conditionId, remainingNo)];
      }
    }
  }

  // ---------- Tiers ----------

  /** `levels` rise strictly from above `prev`. */
  ghost predicate Ascending(prev: nat, levels: seq<nat>)
    decreases levels
  {
    levels == [] || (prev < levels[0] && Ascending(levels[0], levels[1..]))
  }

  function InsertLevel(x: nat, levels: seq<nat>): (r: seq<nat>)
    ensures forall y :: y in r <==> y == x || y in levels
  {
    if levels == [] then [x]
    else if x < levels[0] then [x] + levels
    else if x == levels[0] then levels
    else [levels[0]] + InsertLevel(x, levels[1..])
  }

  /** `sort_unstable` then `dedup`. */
  function SortDedup(xs: seq<nat>): (r: seq<nat>)
    ensures forall y :: y in r <==> y in xs
  {
    if xs == [] then [] else InsertLevel(xs[0], SortDedup(xs[1..]))
  }

  lemma {:induction false} InsertAscends(prev: nat, x: nat, levels: seq<nat>)
    requires prev < x && Ascending(prev, levels)
    ensures Ascending(prev, InsertLevel(x, levels))
    decreases levels
  {
    if levels != [] && levels[0] < x {
      InsertAscends(levels[0], x, levels[1..]);
    }
  }

  lemma {:induction false} SortDedupAscends(xs: seq<nat>)
    requires forall i :: 0 <= i < |xs| ==> 0 < xs[i]
    ensures Ascending(0, SortDedup(xs))
  {
    if xs != [] {
      SortDedupAscends(xs[1..]);
      InsertAscends(0, xs[0], SortDedup(xs[1..]));
    }
  }

  function LevelsOf(hs: seq<NoHolding>): seq<nat> {
    SortDedup(seq(|hs|, i requires 0 <= i < |hs| => hs[i].remainingNo as nat))
  }

  lemma {:induction false} LevelsAscend(hs: seq<NoHolding>)
    ensures Ascending(0, LevelsOf(hs))
  {
    SortDedupAscends(seq(|hs|, i requires 0 <= i < |hs| => hs[i].remainingNo as nat));
  }

  /** Holdings at or above a level, in input order. */
  function Members(hs: seq<NoHolding>, level: nat): seq<NoHolding> {
    if hs == [] then []
    else Members(hs[..|hs| - 1], level) +
         if hs[|hs| - 1].remainingNo >= level then [hs[|hs| - 1]] else []
  }

  function QuestionIds(hs: seq<NoHolding>): seq<QuestionId> {
    seq(|hs|, i requires 0 <= i < |hs| => hs[i].questionId)
  }

  function PostMerges(hs: seq<NoHolding>, amount: nat): Merges {
    if hs == [] then []
    else PostMerges(hs[..|hs| - 1], amount) +
         if hs[|hs| - 1].conditionId.Some?
         then [(hs[|hs| - 1].conditionId.value, amount)] else []
  }

  /** The tier at `level`, `amount` above the one before it. */
  function TierAt(hs: seq<NoHolding>, level: nat, amount: nat, maxLegs: nat): ConvertTier {
    var members := Members(hs, level);
    ConvertTier(QuestionIds(Take(members, maxLegs)), amount, PostMerges(Skip(members, maxLegs), amount))
  }

  predicate LoneDust(hs: seq<NoHolding>, level: nat, amount: nat, floor: nat) {
    |Members(hs, level)| == 1 && amount < floor
  }

  /** Tiers for the given levels, the last one done being `prev`. */
  function TiersFrom(hs: seq<NoHolding>, levels: seq<nat>, prev: nat, floor: nat, maxLegs: nat)
    : seq<ConvertTier>
    requires Ascending(prev, levels)
    decreases levels
  {
    if levels == [] || LoneDust(hs, levels[0], levels[0] - prev, floor) then []
    else [TierAt(hs, levels[0], levels[0] - prev, maxLegs)]
         + TiersFrom(hs, levels[1..], levels[0], floor, maxLegs)
  }

  function TiersOf(hs: seq<NoHolding>, floor: nat, maxLegs: nat): seq<ConvertTier> {
    LevelsAscend(hs);
    TiersFrom(hs, LevelsOf(hs), 0, floor, maxLegs)
  }

  method PlanTiers(holdings: seq<NoHolding>, floor: nat, maxLegs: nat) returns (tiers: seq<ConvertTier>)
    ensures tiers == TiersOf(holdings, floor, maxLegs)
  {
    hide Members, QuestionIds, PostMerges, LevelsOf;
    var levels := LevelsOf(holdings);
    LevelsAscend(holdings);
    tiers := [];
    var prev := 0;
    var i := 0;
    while i < |levels|
      invariant 0 <= i <= |levels| && Ascending(prev, levels[i..])
      invariant tiers + TiersFrom(holdings, levels[i..], prev, floor, maxLegs)
             == TiersOf(holdings, floor, maxLegs)
    {
      var level := levels[i];
      var amount := level - prev;
      prev := level;
      var members := Members(holdings, level);
      assert levels[i..][0] == level && levels[i..][1..] == levels[i + 1..];
      if |members| == 1 && amount < floor {
        assert LoneDust(holdings, level, amount, floor);
        break;
      }
      Assoc(tiers, [TierAt(holdings, level, amount, maxLegs)],
            TiersFrom(holdings, levels[i + 1..], level, floor, maxLegs));
      tiers := tiers + [ConvertTier(QuestionIds(Take(members, maxLegs)), amount,
                                    PostMerges(Skip(members, maxLegs), amount))];
      i := i + 1;
    }
  }

  // ---------- Proceeds ----------

  function SumAmounts(merges: Merges): nat {
    if merges == [] then 0 else SumAmounts(merges[..|merges| - 1]) + merges[|merges| - 1].1
  }

  function ConvertProceeds(legs: nat, amount: nat): nat {
    (if legs > 0 then legs - 1 else 0) * amount
  }

  /** A convert over `k` legs frees `k - 1` amounts, each compensating merge its own. */
  function TierProceeds(tier: ConvertTier): nat {
    ConvertProceeds(|tier.questionIds|, tier.amount) + SumAmounts(tier.postMerges)
  }

  function TiersProceeds(tiers: seq<ConvertTier>): nat {
    if tiers == [] then 0 else TierProceeds(tiers[0]) + TiersProceeds(tiers[1..])
  }

  method SumInto(start: nat, merges: Merges) returns (total: nat)
    ensures total == start + SumAmounts(merges)
  {
    total := start;
    for i := 0 to |merges|
      invariant total == start + SumAmounts(merges[..i])
    {
      assert merges[..i + 1][..i] == merges[..i];
      total := total + merges[i].1;
    }
    assert merges[..|merges|] == merges;
  }

  method PlanEvent(merges: Merges, tiers: seq<ConvertTier>, nLegs: nat) returns (plan: EventPlan)
    ensures plan == EventPlan(merges, tiers, SumAmounts(merges) + TiersProceeds(tiers), nLegs)
  {
    var proceeds: nat := SumInto(0, merges);
    for i := 0 to |tiers|
      invariant proceeds + TiersProceeds(tiers[i..]) == SumAmounts(merges) + TiersProceeds(tiers)
    {
      var tier := tiers[i];
      assert tiers[i..][0] == tier && tiers[i..][1..] == tiers[i + 1..];
      proceeds := proceeds + ConvertProceeds(|tier.questionIds|, tier.amount);
      proceeds := SumInto(proceeds, tier.postMerges);
    }
    plan := EventPlan(merges, tiers, proceeds, nLegs);
  }

  /** The plan as a function of the snapshot. */
  function Plan(legs: seq<ConvertLeg>, pairs: seq<Balance>, floor: nat, maxLegs: nat): EventPlan {
    var n := Min(|legs|, |pairs|);
    var merges := MergesOf(legs, pairs, n);
    var tiers := TiersOf(HoldingsOf(legs, pairs, n), floor, maxLegs);
    EventPlan(merges, tiers, SumAmounts(merges) + TiersProceeds(tiers), |legs|)
  }

  method PlanEventFromBalances(legs: seq<ConvertLeg>, pairs: seq<Balance>, floor: nat)
    returns (plan: EventPlan)
    ensures plan == Plan(legs, pairs, floor, 20) && plan.nLegs == |legs|
  {
    var merges, holdings := ClassifyEvent(legs, pairs);
    var tiers := PlanTiers(holdings, floor, MAX_LEGS_PER_CONVERT);
    plan := PlanEvent(merges, tiers, |legs|);
  }

  // ---------- Flattening into calls ----------

  function SaturatingU64(x: nat): nat {
    if x <= U64_MAX then x else U64_MAX
  }

  function ConvertGas(nEventLegs: nat): nat {
    SaturatingU64(700_000 + SaturatingU64(175_000 * SaturatingU64(nEventLegs)))
  }

  function MergeCalls(merges: Merges): seq<PlannedCall> {
    seq(|merges|, i requires 0 <= i < |merges| =>
      PlannedCall(MergeCall(merges[i].0, merges[i].1), MERGE_GAS))
  }

  function BuildConvert(qids: seq<QuestionId>, amount: nat): Result<Call> {
    if qids == [] then Err("convert requires at least one question_id")
    else Ok(ConvertCall(MarketId(qids[0]), IndexSetOf(qids), amount))
  }

  function TierCalls(tier: ConvertTier, nLegs: nat): seq<PlannedCall> {
    match BuildConvert(tier.questionIds, tier.amount)
    case Err(_) => []
    case Ok(convert) => [PlannedCall(convert, ConvertGas(nLegs))] + MergeCalls(tier.postMerges)
  }

  predicate Buildable(plan: EventPlan) {
    forall i :: 0 <= i < |plan.tiers| ==> plan.tiers[i].questionIds != []
  }

  function TiersCalls(tiers: seq<ConvertTier>, nLegs: nat): seq<PlannedCall> {
    if tiers == [] then [] else TierCalls(tiers[0], nLegs) + TiersCalls(tiers[1..], nLegs)
  }

  /** One event's calls: its merges, then each convert directly followed by its own merges. */
  function EventCalls(plan: EventPlan): seq<PlannedCall> {
    MergeCalls(plan.merges) + TiersCalls(plan.tiers, plan.nLegs)
  }

  function AllCalls(plans: seq<EventPlan>): seq<PlannedCall> {
    if plans == [] then [] else EventCalls(plans[0]) + AllCalls(plans[1..])
  }

  /** `call` converts `amount` on the market these questions share, their id with a zero last byte, or of
      one of them when they share none; its bitmap has exactly
      their positions, none lost when the positions differ. What it does on chain: see
      `Execution.ConvertRoundTrip`. */
  ghost predicate NamesExactly(call: Call, qids: seq<QuestionId>, amount: nat) {
    && call.ConvertCall? && call.amount == amount
    && call.marketId.last == 0 && (exists q :: q in qids && call.marketId.prefix == q.prefix)
    && ((forall q, q' :: q in qids && q' in qids ==> q.prefix == q'.prefix) ==>
          forall q :: q in qids ==> call.marketId.prefix == q.prefix)
    && (forall b: Byte :: call.indexSet[b] <==> exists q :: q in qids && q.last == b)
    && (DistinctPositions(qids) ==> PopCount(call.indexSet) == |qids|)
  }

  /** The weight attached to a call of an event with `nLegs` legs: a merge's own, a convert's growing with
      every leg of the event, up to the 64-bit limit. */
  ghost predicate Weighed(c: PlannedCall, nLegs: nat) {
    && (c.call.MergeCall? ==> c.gas == 400_000)
    && (c.call.ConvertCall? ==> c.gas == Min(700_000 + 175_000 * nLegs, 0xFFFF_FFFF_FFFF_FFFF))
  }

  /** Every call of a plan carries its weight. */
  lemma {:induction false} CallsAreWeighed(plan: EventPlan)
    ensures forall j :: 0 <= j < |EventCalls(plan)| ==> Weighed(EventCalls(plan)[j], plan.nLegs)
  {
    TiersAreWeighed(plan.tiers, plan.nLegs);
  }

  lemma {:induction false} TiersAreWeighed(tiers: seq<ConvertTier>, nLegs: nat)
    ensures forall j :: 0 <= j < |TiersCalls(tiers, nLegs)| ==> Weighed(TiersCalls(tiers, nLegs)[j], nLegs)
  {
    if tiers != [] {
      TiersAreWeighed(tiers[1..], nLegs);
    }
  }

  /** So does every call over several events, with the leg count of its own event: an event's calls
      stand together, in event order. */
  lemma {:induction false} AllCallsAreWeighed(plans: seq<EventPlan>, j: nat) returns (e: nat)
    requires j < |AllCalls(plans)|
    ensures e < |plans| && AllCalls(plans)[j] in EventCalls(plans[e]) && Weighed(AllCalls(plans)[j], plans[e].nLegs)
  {
    CallsAreWeighed(plans[0]);
    var n := |EventCalls(plans[0])|;
    if j < n {
      e := 0;
    } else {
      e := AllCallsAreWeighed(plans[1..], j - n);
      e := e + 1;
    }
  }

  method BuildConvertCall(qids: seq<QuestionId>, amount: nat) returns (r: Result<Call>)
    ensures r.Err? <==> qids == []
    ensures r.Ok? ==> NamesExactly(r.value, qids, amount)
    ensures r == BuildConvert(qids, amount)
  {
    if qids == [] {
      return Err("convert requires at least one question_id");
    }
    var indexSet := IndexSet(qids);
    r := Ok(ConvertCall(MarketId(qids[0]), indexSet, amount));
    assert qids[0] in qids;
  }

  method AppendTiers(start: seq<PlannedCall>, plan: EventPlan) returns (r: Result<seq<PlannedCall>>)
    ensures r.Ok? <==> Buildable(plan)
    ensures r.Ok? ==> r.value == start + TiersCalls(plan.tiers, plan.nLegs)
  {
    hide NamesExactly, IndexSetOf;
    var calls := start;
    for j := 0 to |plan.tiers|
      invariant forall i :: 0 <= i < j ==> plan.tiers[i].questionIds != []
      invariant calls + TiersCalls(plan.tiers[j..], plan.nLegs)
             == start + TiersCalls(plan.tiers, plan.nLegs)
    {
      var tier := plan.tiers[j];
      assert plan.tiers[j..][0] == tier && plan.tiers[j..][1..] == plan.tiers[j + 1..];
      var convert := BuildConvertCall(tier.questionIds, tier.amount);
      if convert.Err? {
        return Err(convert.error);
      }
      ghost var added, rest := TierCalls(tier, plan.nLegs), TiersCalls(plan.tiers[j + 1..], plan.nLegs);
      Assoc(calls, [PlannedCall(convert.value, ConvertGas(plan.nLegs))], MergeCalls(tier.postMerges));
      Assoc(calls, added, rest);
      calls := calls + [PlannedCall(convert.value, ConvertGas(plan.nLegs))] + MergeCalls(tier.postMerges);
    }
    r := Ok(calls);
  }

  method PlanCalls(plans: seq<EventPlan>) returns (r: Result<seq<PlannedCall>>)
    ensures r.Ok? <==> forall i :: 0 <= i < |plans| ==> Buildable(plans[i])
    ensures r.Ok? ==> r.value == AllCalls(plans)
  {
    var calls: seq<PlannedCall> := [];
    for i := 0 to |plans|
      invariant forall j :: 0 <= j < i ==> Buildable(plans[j])
      invariant calls + AllCalls(plans[i..]) == AllCalls(plans)
    {
      assert plans[i..][0] == plans[i] && plans[i..][1..] == plans[i + 1..];
      r := AppendTiers(calls + MergeCalls(plans[i].merges), plans[i]);
      if r.Err? {
        return;
      }
      Assoc(calls, MergeCalls(plans[i].merges), TiersCalls(plans[i].tiers, plans[i].nLegs));
      Assoc(calls, EventCalls(plans[i]), AllCalls(plans[i + 1..]));
      calls := r.value;
    }
    r := Ok(calls);
  }
}
