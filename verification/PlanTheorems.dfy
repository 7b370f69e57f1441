/** What the planner promises, proved over every snapshot: feasibility and exact proceeds,
    the fixpoint, optimality, value preservation, and the layer-cake shape of its tiers. */
module PlanTheorems {
  import opened Prelude
  import opened Legs
  import opened Chain
  import opened Planner
  import opened Waste
  import opened Execution

  // ---------- When nothing can be freed ----------

  function RemainingSum(bal: seq<Balance>, k: nat): nat
    requires k <= |bal|
  {
    if k == 0 then 0 else RemainingSum(bal, k - 1) + Remaining(bal[k - 1])
  }

  predicate OneSided(b: Balance) {
    b.no == 0 || b.yes == 0
  }

  lemma {:induction false} NoSumSplits(bal: seq<Balance>, k: nat)
    requires k <= |bal|
    ensures NoSum(bal, k) >= RemainingSum(bal, k)
    ensures NoSum(bal, k) == RemainingSum(bal, k) <==> forall i :: 0 <= i < k ==> OneSided(bal[i])
  {
    if k > 0 {
      NoSumSplits(bal, k - 1);
    }
  }

  ghost predicate OnlyOne(bal: seq<Balance>, k: nat)
    requires k <= |bal|
  {
    forall i, j :: 0 <= i < j < k ==> Remaining(bal[i]) == 0 || Remaining(bal[j]) == 0
  }

  ghost predicate NoneRemain(bal: seq<Balance>, k: nat)
    requires k <= |bal|
  {
    forall i :: 0 <= i < k ==> Remaining(bal[i]) == 0
  }

  lemma {:induction false} TopIsZeroIff(bal: seq<Balance>, k: nat)
    requires k <= |bal|
    ensures TopExcess(bal, k) == 0 <==> NoneRemain(bal, k)
  {
    if k > 0 {
      TopIsZeroIff(bal, k - 1);
    }
  }

  lemma {:induction false} OnlyOneGrows(bal: seq<Balance>, k: nat)
    requires 0 < k <= |bal|
    ensures OnlyOne(bal, k) <==> (OnlyOne(bal, k - 1) && (Remaining(bal[k - 1]) == 0 || NoneRemain(bal, k - 1)))
  {
    hide Remaining;
  }

  lemma {:induction false} TopGrows(bal: seq<Balance>, k: nat)
    requires 0 < k <= |bal|
    ensures TopExcess(bal, k) == Max(TopExcess(bal, k - 1), Remaining(bal[k - 1]))
  {
  }

  lemma {:induction false} SumAgainstTop(sum: nat, top: nat, r: nat)
    requires sum >= top
    ensures sum + r >= Max(top, r)
    ensures sum + r == Max(top, r) <==> sum == top && (r == 0 || top == 0)
  {
  }

  lemma {:induction false} RemainingSplits(bal: seq<Balance>, k: nat)
    requires k <= |bal|
    ensures RemainingSum(bal, k) >= TopExcess(bal, k)
    ensures RemainingSum(bal, k) == TopExcess(bal, k) <==> OnlyOne(bal, k)
  {
    hide NoneRemain, TopExcess, Remaining, Max;
    if k == 0 {
      TopIsZeroIff(bal, 0);
      assert NoneRemain(bal, 0) by { NoneRemainZero(bal); }
    } else {
      hide OnlyOne;
      RemainingSplits(bal, k - 1);
      TopIsZeroIff(bal, k - 1);
      OnlyOneGrows(bal, k);
      TopGrows(bal, k);
      SumAgainstTop(RemainingSum(bal, k - 1), TopExcess(bal, k - 1), Remaining(bal[k - 1]));
    }
  }

  lemma {:induction false} NoneRemainZero(bal: seq<Balance>)
    ensures NoneRemain(bal, 0)
  {
  }

  /** Nothing can be freed exactly when no leg holds both sides and at most one leg holds NO. */
  lemma {:induction false} NothingFreeable(bal: seq<Balance>)
    ensures Freeable(bal) >= 0
    ensures Freeable(bal) == 0
        <==> (forall i :: 0 <= i < |bal| ==> OneSided(bal[i])) && OnlyOne(bal, |bal|)
  {
    NoSumSplits(bal, |bal|);
    RemainingSplits(bal, |bal|);
  }

  // ---------- Feasibility and exactness ----------

  /** The first `k` calls all go through, and give up nothing that could still be freed. */
  ghost predicate PrefixSound(legs: seq<ConvertLeg>, calls: seq<PlannedCall>, w: Wallet, k: nat)
    requires k <= |calls|
  {
    var part := RunCalls(legs, calls[..k], w);
    part.Some? && Potential(part.value) == Potential(w)
  }

  /** Executing the plan in order from its snapshot never reverts and frees exactly `proceeds`;
      so does every prefix of it, and none gives up anything still freeable. */
  lemma {:induction false} PlanIsFeasibleAndExact(
    legs: seq<ConvertLeg>, bal: seq<Balance>, cash: nat, floor: nat, maxLegs: nat)
    requires WellFormed(legs) && |legs| == |bal| && maxLegs > 0
    ensures var plan := Plan(legs, bal, floor, maxLegs);
            var whole := RunCalls(legs, EventCalls(plan), Wallet(bal, cash));
            && Buildable(plan)
            && whole.Some? && whole.value.cash == cash + plan.proceeds
            && forall k :: 0 <= k <= |EventCalls(plan)| ==> PrefixSound(legs, EventCalls(plan), Wallet(bal, cash), k)
  {
    hide Leads, Plan, EventCalls, AtLevel, Settled, RunCalls, Potential, Buildable;
    var calls, w := EventCalls(Plan(legs, bal, floor, maxLegs)), Wallet(bal, cash);
    var level, w2 := PlanPhase(legs, bal, cash, floor, maxLegs);
    LeadsRuns(legs, maxLegs, calls, w, w2);
    forall k | 0 <= k <= |calls| ensures PrefixSound(legs, calls, w, k) {
      var w1 := LeadsSplit(legs, maxLegs, calls, w, w2, k);
      LeadsRuns(legs, maxLegs, calls[..k], w, w1);
    }
  }

  /** The freed amount never exceeds the NO held, so the sums cannot overflow where balances do not. */
  lemma {:induction false} ProceedsBounded(legs: seq<ConvertLeg>, bal: seq<Balance>, floor: nat, maxLegs: nat)
    requires WellFormed(legs) && |legs| == |bal| && maxLegs > 0
    ensures Plan(legs, bal, floor, maxLegs).proceeds <= Freeable(bal) <= NoSum(bal, |bal|)
  {
    hide Leads, Plan, EventCalls, AtLevel, Settled;
    var level, w2 := PlanPhase(legs, bal, 0, floor, maxLegs);
    LeadsRuns(legs, maxLegs, EventCalls(Plan(legs, bal, floor, maxLegs)), Wallet(bal, 0), w2);
    NothingFreeable(w2.bal);
  }

  /** `more` is `w` with extra YES on some legs: what the planner does not see of a leg whose YES
      token is unknown. */
  ghost predicate ExtraYes(w: Wallet, more: Wallet) {
    && |w.bal| == |more.bal| && w.cash == more.cash
    && forall i :: 0 <= i < |w.bal| ==> w.bal[i].no == more.bal[i].no && w.bal[i].yes <= more.bal[i].yes
  }

  lemma {:induction false} ExtraYesIsHarmless(
    legs: seq<ConvertLeg>, calls: seq<PlannedCall>, w: Wallet, more: Wallet)
    requires ExtraYes(w, more) && RunCalls(legs, calls, w).Some?
    ensures RunCalls(legs, calls, more).Some?
    ensures ExtraYes(RunCalls(legs, calls, w).value, RunCalls(legs, calls, more).value)
    decreases calls
  {
    if calls != [] {
      ExtraYesStep(legs, calls[0].call, w, more);
      ExtraYesIsHarmless(legs, calls[1..], Execute(legs, calls[0].call, w).value,
                         Execute(legs, calls[0].call, more).value);
    }
  }

  lemma {:induction false} ExtraYesStep(legs: seq<ConvertLeg>, call: Call, w: Wallet, more: Wallet)
    requires ExtraYes(w, more) && Execute(legs, call, w).Some?
    ensures Execute(legs, call, more).Some?
    ensures ExtraYes(Execute(legs, call, w).value, Execute(legs, call, more).value)
  {
    hide PopCount, Decode;
  }

  // ---------- Value preservation ----------

  lemma {:induction false} CallsAreSteps(legs: seq<ConvertLeg>, calls: seq<PlannedCall>, w: Wallet)
    returns (steps: seq<Step>)
    requires RunCalls(legs, calls, w).Some?
    ensures Run(w, steps) == RunCalls(legs, calls, w)
    decreases calls
  {
    if calls == [] {
      steps := [];
    } else {
      var s := Decode(legs, calls[0].call).value;
      var rest := CallsAreSteps(legs, calls[1..], Apply(w, s));
      steps := [s] + rest;
      assert steps[1..] == rest;
    }
  }

  /** Whatever leg wins, no executable call list changes what the wallet is worth. */
  lemma {:induction false} CallsKeepWorth(legs: seq<ConvertLeg>, calls: seq<PlannedCall>, w: Wallet, win: nat)
    requires RunCalls(legs, calls, w).Some? && win < |w.bal|
    ensures |RunCalls(legs, calls, w).value.bal| == |w.bal|
    ensures Worth(RunCalls(legs, calls, w).value, win) == Worth(w, win)
  {
    var steps := CallsAreSteps(legs, calls, w);
    RunKeepsWorth(w, steps, win);
  }

  ghost predicate PrefixKeepsWorth(legs: seq<ConvertLeg>, calls: seq<PlannedCall>, w: Wallet, k: nat, win: nat)
    requires k <= |calls| && win < |w.bal|
  {
    var part := RunCalls(legs, calls[..k], w);
    part.Some? && |part.value.bal| == |w.bal| && Worth(part.value, win) == Worth(w, win)
  }

  /** In particular after any prefix of any plan. */
  lemma {:induction false} PlanKeepsWorth(
    legs: seq<ConvertLeg>, bal: seq<Balance>, cash: nat, floor: nat, maxLegs: nat)
    requires WellFormed(legs) && |legs| == |bal| && maxLegs > 0
    ensures var calls := EventCalls(Plan(legs, bal, floor, maxLegs));
            forall k, win :: 0 <= k <= |calls| && 0 <= win < |bal| ==>
              PrefixKeepsWorth(legs, calls, Wallet(bal, cash), k, win)
  {
    hide Plan, EventCalls, RunCalls, Worth, Buildable;
    PlanIsFeasibleAndExact(legs, bal, cash, floor, maxLegs);
    var calls := EventCalls(Plan(legs, bal, floor, maxLegs));
    forall k, win | 0 <= k <= |calls| && 0 <= win < |bal|
      ensures PrefixKeepsWorth(legs, calls, Wallet(bal, cash), k, win)
    {
      assert PrefixSound(legs, calls, Wallet(bal, cash), k);
      CallsKeepWorth(legs, calls[..k], Wallet(bal, cash), win);
    }
  }

  // ---------- When a plan is empty ----------

  ghost predicate NoneMergeable(legs: seq<ConvertLeg>, bal: seq<Balance>, k: nat)
    requires k <= |legs| == |bal|
  {
    forall i :: 0 <= i < k ==> !Mergeable(legs[i], bal[i])
  }

  lemma {:induction false} MergesEmptyIff(legs: seq<ConvertLeg>, bal: seq<Balance>, k: nat)
    requires k <= |legs| == |bal|
    ensures MergesOf(legs, bal, k) == [] <==> NoneMergeable(legs, bal, k)
  {
    if k > 0 {
      MergesEmptyIff(legs, bal, k - 1);
    }
  }

  lemma {:induction false} RankLone(bal: seq<Balance>, level: nat, s: nat, k: nat)
    requires k <= |bal| && s < |bal| && level > 0 && Remaining(bal[s]) >= level
    requires forall i :: 0 <= i < |bal| && i != s ==> Remaining(bal[i]) < level
    ensures Rank(bal, level, k) == if s < k then 1 else 0
  {
    if k > 0 {
      RankLone(bal, level, s, k - 1);
    }
  }

  lemma {:induction false} TiersEmptyIff(legs: seq<ConvertLeg>, bal: seq<Balance>, floor: nat, maxLegs: nat)
    requires |legs| == |bal|
    ensures TiersOf(HoldingsOf(legs, bal, |legs|), floor, maxLegs) == [] <==> Settled(bal, 0, floor)
  {
    hide TierAt, Members, HoldingsOf;
    var hs := HoldingsOf(legs, bal, |legs|);
    var levels := LevelsOf(hs);
    LevelsPending(legs, bal);
    if levels != [] {
      PendingFirst(bal, levels, 0);
      var first :| 0 <= first < |bal| && Remaining(bal[first]) == levels[0];
      if LoneDust(hs, levels[0], levels[0], floor) {
        DropIsLone(legs, bal, levels, 0, floor);
      } else if Settled(bal, 0, floor) {
        var s :| 0 <= s < |bal| && LoneAbove(bal, 0, floor, s);
        MembersRank(legs, bal, levels[0], |legs|);
        RankLone(bal, levels[0], s, |bal|);
        assert false;
      }
    }
  }

  /** A plan has no call exactly when no leg can be merged and what NO remains is nothing, or lone
      dust below the floor. */
  lemma {:induction false} PlanEmptyIff(legs: seq<ConvertLeg>, bal: seq<Balance>, floor: nat, maxLegs: nat)
    requires WellFormed(legs) && |legs| == |bal| && maxLegs > 0
    ensures EventCalls(Plan(legs, bal, floor, maxLegs)) == []
       <==> NoneMergeable(legs, bal, |legs|) && Settled(bal, 0, floor)
  {
    hide TiersOf, MergesOf, HoldingsOf, Settled, AtLevel, Leads, TierCalls;
    MergesEmptyIff(legs, bal, |legs|);
    TiersEmptyIff(legs, bal, floor, maxLegs);
    var plan := Plan(legs, bal, floor, maxLegs);
    var level, w2 := PlanPhase(legs, bal, 0, floor, maxLegs);
    if plan.tiers != [] {
      TierCallsNonEmpty(plan.tiers[0], |legs|);
    }
    assert |EventCalls(plan)| == |plan.merges| + |TiersCalls(plan.tiers, |legs|)|;
  }

  lemma {:induction false} TierCallsNonEmpty(tier: ConvertTier, nLegs: nat)
    requires tier.questionIds != []
    ensures |TierCalls(tier, nLegs)| == 1 + |tier.postMerges|
  {
  }

  // ---------- The fixpoint ----------

  lemma {:induction false} LevelLeaves(
    legs: seq<ConvertLeg>, bal0: seq<Balance>, maxLegs: nat, level: nat, floor: nat, bal: seq<Balance>)
    requires |legs| == |bal0| && AtLevel(legs, bal0, maxLegs, level, bal) && Settled(bal0, level, floor)
    ensures forall i :: 0 <= i < |bal| ==> Remaining(bal[i]) == Remaining(bal0[i]) - Min(Remaining(bal0[i]), level)
    ensures NoneMergeable(legs, bal, |legs|) && Settled(bal, 0, floor) && OnlyOne(bal, |bal|)
  {
    hide Rank;
    forall i | 0 <= i < |bal|
      ensures Remaining(bal[i]) == Remaining(bal0[i]) - Min(Remaining(bal0[i]), level)
      ensures !Mergeable(legs[i], bal[i])
    {
      assert LegAt(legs[i], bal0[i], Rank(bal0, 1, i), maxLegs, level, bal[i]);
    }
    if s :| 0 <= s < |bal0| && LoneAbove(bal0, level, floor, s) {
      assert LoneAbove(bal, 0, floor, s);
    }
  }

  /** Re-planning from what a fully executed plan leaves gives no call: at most one leg keeps more
      NO than YES, by less than the single-leg floor. */
  lemma {:induction false} PlanIsFixpoint(
    legs: seq<ConvertLeg>, bal: seq<Balance>, cash: nat, floor: nat, maxLegs: nat) returns (end: Wallet)
    requires WellFormed(legs) && |legs| == |bal| && maxLegs > 0
    ensures RunCalls(legs, EventCalls(Plan(legs, bal, floor, maxLegs)), Wallet(bal, cash)) == Some(end)
    ensures |end.bal| == |legs|
    ensures EventCalls(Plan(legs, end.bal, floor, maxLegs)) == []
    ensures OnlyOne(end.bal, |end.bal|)
    ensures forall i :: 0 <= i < |legs| && Remaining(end.bal[i]) > 0 ==> Remaining(end.bal[i]) < floor
  {
    hide Leads, Plan, EventCalls, AtLevel;
    var level, w2 := PlanPhase(legs, bal, cash, floor, maxLegs);
    LeadsRuns(legs, maxLegs, EventCalls(Plan(legs, bal, floor, maxLegs)), Wallet(bal, cash), w2);
    LevelLeaves(legs, bal, maxLegs, level, floor, w2.bal);
    PlanEmptyIff(legs, w2.bal, floor, maxLegs);
    end := w2;
  }

  // ---------- Optimality ----------

  /** No run of merges and converts from these balances frees more than `x`. */
  ghost predicate MostFreeable(bal: seq<Balance>, x: nat) {
    forall steps :: Run(Wallet(bal, 0), steps).Some? ==> Run(Wallet(bal, 0), steps).value.cash <= x
  }

  /** A leg without a condition id costs the plan nothing: it holds one side only, and it is not
      cut off by the leg cap. */
  ghost predicate CostsNothing(leg: ConvertLeg, b: Balance, rank: nat, maxLegs: nat) {
    leg.conditionId.None? ==> OneSided(b) && (b.no == 0 || b.yes > 0 || rank < maxLegs)
  }

  ghost predicate NoneCost(legs: seq<ConvertLeg>, bal: seq<Balance>, maxLegs: nat)
    requires |legs| == |bal|
  {
    forall i :: 0 <= i < |legs| ==> CostsNothing(legs[i], bal[i], Rank(bal, 1, i), maxLegs)
  }

  lemma {:induction false} RankWitness(bal: seq<Balance>, level: nat, k: nat) returns (i: nat)
    requires k <= |bal| && Rank(bal, level, k) > 0
    ensures i < k && Remaining(bal[i]) >= level
  {
    if Remaining(bal[k - 1]) >= level {
      i := k - 1;
    } else {
      i := RankWitness(bal, level, k - 1);
    }
  }

  /** Pairs of both sides held on the first `k` legs. */
  function BothSides(bal: seq<Balance>, k: nat): nat
    requires k <= |bal|
  {
    if k == 0 then 0 else BothSides(bal, k - 1) + Min(bal[k - 1].yes, bal[k - 1].no)
  }

  lemma {:induction false} SidesSplit(bal: seq<Balance>, k: nat)
    requires k <= |bal|
    ensures NoSum(bal, k) == RemainingSum(bal, k) + BothSides(bal, k)
  {
    if k > 0 {
      SidesSplit(bal, k - 1);
    }
  }

  /** Where nothing can be merged and one leg at most has NO remaining, what is withheld is every pair
      still held. */
  lemma {:induction false} EndWaste(legs: seq<ConvertLeg>, bal: seq<Balance>, maxLegs: nat, k: nat)
    requires k <= |legs| == |bal| && maxLegs > 0
    requires NoneMergeable(legs, bal, |legs|) && OnlyOne(bal, |bal|)
    ensures WasteUpTo(legs, bal, maxLegs, k) == BothSides(bal, k)
  {
    hide CutOff, Rank, OnlyOne;
    if k > 0 {
      EndWaste(legs, bal, maxLegs, k - 1);
      LoneIsNotCutOff(bal, maxLegs, k - 1);
    }
  }

  lemma {:induction false} LoneIsNotCutOff(bal: seq<Balance>, maxLegs: nat, i: nat)
    requires i < |bal| && maxLegs > 0 && OnlyOne(bal, |bal|)
    ensures CutOff(bal, maxLegs, i, Remaining(bal[i])) == 0
  {
    CutOffZeroIff(bal, maxLegs, i, Remaining(bal[i]));
    if Remaining(bal[i]) > 0 && Rank(bal, 1, i) > 0 {
      var j := RankWitness(bal, 1, i);
      assert false;
    }
  }

  /** The plan falls short of all that can be freed by exactly what is withheld: a closed form of the
      balances, the condition ids known and the leg cap, whatever the dust floor. */
  lemma {:induction false} ShortfallIsWaste(legs: seq<ConvertLeg>, bal: seq<Balance>, floor: nat, maxLegs: nat)
    requires WellFormed(legs) && |legs| == |bal| && maxLegs > 0
    ensures Plan(legs, bal, floor, maxLegs).proceeds == Freeable(bal) - Withheld(legs, bal, maxLegs)
  {
    hide Leads, Plan, EventCalls, LegAt, Settled, Rank, OnlyOne, LegWaste, RunCalls, NoneMergeable, TopExcess;
    var level, w2 := PlanPhase(legs, bal, 0, floor, maxLegs);
    LeadsRuns(legs, maxLegs, EventCalls(Plan(legs, bal, floor, maxLegs)), Wallet(bal, 0), w2);
    LevelLeaves(legs, bal, maxLegs, level, floor, w2.bal);
    SameWasteSum(legs, maxLegs, bal, w2.bal, |legs|);
    EndWaste(legs, w2.bal, maxLegs, |legs|);
    SidesSplit(w2.bal, |legs|);
    RemainingSplits(w2.bal, |legs|);
  }

  lemma {:induction false} CostIsWaste(legs: seq<ConvertLeg>, bal: seq<Balance>, maxLegs: nat)
    requires |legs| == |bal|
    ensures Withheld(legs, bal, maxLegs) == 0 <==> NoneCost(legs, bal, maxLegs)
    ensures AllConditionIds(legs) ==> Withheld(legs, bal, maxLegs) == 0
  {
    hide Rank, CutOff;
    NoWasteIff(legs, bal, maxLegs, |legs|);
    forall i | 0 <= i < |legs|
      ensures LegWaste(legs[i], bal, maxLegs, i) == 0 <==> CostsNothing(legs[i], bal[i], Rank(bal, 1, i), maxLegs)
    {
      CutOffZeroIff(bal, maxLegs, i, Remaining(bal[i]));
    }
  }

  /** The plan frees all that can be freed exactly when no leg without a condition id costs it
      anything. With every condition id known the amount is `Freeable` whatever the leg cap and
      the dust floor. */
  lemma {:induction false} ProceedsAre(legs: seq<ConvertLeg>, bal: seq<Balance>, floor: nat, maxLegs: nat)
    requires WellFormed(legs) && |legs| == |bal| && maxLegs > 0
    ensures Plan(legs, bal, floor, maxLegs).proceeds == Freeable(bal) <==> NoneCost(legs, bal, maxLegs)
    ensures AllConditionIds(legs) ==> Plan(legs, bal, floor, maxLegs).proceeds == Freeable(bal)
  {
    hide Plan, Freeable, NoneCost, Withheld, WellFormed;
    ShortfallIsWaste(legs, bal, floor, maxLegs);
    CostIsWaste(legs, bal, maxLegs);
  }

  /** `Freeable` is reached: some run frees exactly that. */
  lemma {:induction false} FreeableIsReached(legs: seq<ConvertLeg>, bal: seq<Balance>) returns (steps: seq<Step>)
    requires WellFormed(legs) && |legs| == |bal|
    ensures Run(Wallet(bal, 0), steps).Some? && Run(Wallet(bal, 0), steps).value.cash == Freeable(bal)
  {
    var named := seq(|legs|, i requires 0 <= i < |legs| => legs[i].(conditionId := Some(i)));
    assert WellFormed(named) && AllConditionIds(named);
    hide Plan, EventCalls, Freeable, WellFormed, RunCalls, Run;
    var calls := EventCalls(Plan(named, bal, 0, 1));
    PlanIsFeasibleAndExact(named, bal, 0, 0, 1);
    ProceedsAre(named, bal, 0, 1);
    steps := CallsAreSteps(named, calls, Wallet(bal, 0));
  }

  /** No sequence of legal merges and converts, in any order, over any legs and amounts, frees more
      than the plan does, exactly when no leg without a condition id costs it anything. */
  lemma {:induction false} PlanIsOptimalIff(legs: seq<ConvertLeg>, bal: seq<Balance>, floor: nat, maxLegs: nat)
    requires WellFormed(legs) && |legs| == |bal| && maxLegs > 0
    ensures MostFreeable(bal, Plan(legs, bal, floor, maxLegs).proceeds) <==> NoneCost(legs, bal, maxLegs)
  {
    hide Plan, Freeable, NoneCost, WellFormed;
    ProceedsAre(legs, bal, floor, maxLegs);
    ProceedsBounded(legs, bal, floor, maxLegs);
    forall steps | Run(Wallet(bal, 0), steps).Some?
      ensures Run(Wallet(bal, 0), steps).value.cash <= Freeable(bal)
    {
      RunBound(Wallet(bal, 0), steps);
    }
    var best := FreeableIsReached(legs, bal);
    assert Run(Wallet(bal, 0), best).value.cash == Freeable(bal);
  }

  // ---------- The layer cake ----------

  /** Total amount of the tiers that burn NO on this leg, by convert or by compensating merge. */
  function CoveredBy(tiers: seq<ConvertTier>, leg: ConvertLeg): nat {
    if tiers == [] then 0
    else
      (if leg.questionId in tiers[0].questionIds
          || (leg.conditionId.Some? && (leg.conditionId.value, tiers[0].amount) in tiers[0].postMerges)
       then tiers[0].amount else 0)
      + CoveredBy(tiers[1..], leg)
  }

  lemma {:induction false} TierNames(
    legs: seq<ConvertLeg>, bal: seq<Balance>, level: nat, amount: nat, maxLegs: nat, i: nat, k: nat)
    requires WellFormed(legs) && i < |legs| == |bal| && k <= |legs| && level > 0
    ensures var tier := TierUpTo(legs, bal, level, amount, maxLegs, k);
            && (legs[i].questionId in tier.questionIds <==> i < k && InConvert(bal, level, maxLegs, i))
            && (legs[i].conditionId.Some? ==>
                  ((legs[i].conditionId.value, amount) in tier.postMerges
                   <==> i < k && InPost(legs, bal, level, maxLegs, i)))
  {
    hide TierAt, Rank;
    if k == 0 {
      TierNone(level, amount, maxLegs);
    } else {
      TierNames(legs, bal, level, amount, maxLegs, i, k - 1);
      TierGrows(legs, bal, level, amount, maxLegs, k - 1);
    }
  }

  function TotalAmount(tiers: seq<ConvertTier>): nat {
    if tiers == [] then 0 else tiers[0].amount + TotalAmount(tiers[1..])
  }

  /** What the tiers up to height `top` burn of a leg: all it has remaining, but for the part the cap
      cuts off when no merge can make up for it. */
  function Burnable(legs: seq<ConvertLeg>, bal: seq<Balance>, maxLegs: nat, i: nat, top: nat): int
    requires i < |legs| == |bal|
  {
    var height := Min(Remaining(bal[i]), top);
    if legs[i].conditionId.Some? then height else height - CutOff(bal, maxLegs, i, height)
  }

  lemma {:induction false} TierCovers(
    legs: seq<ConvertLeg>, bal: seq<Balance>, level: nat, amount: nat, maxLegs: nat, i: nat, rest: seq<ConvertTier>)
    requires WellFormed(legs) && i < |legs| == |bal| && level > 0
    ensures CoveredBy([TierUpTo(legs, bal, level, amount, maxLegs, |legs|)] + rest, legs[i])
         == CoveredBy(rest, legs[i])
            + if InConvert(bal, level, maxLegs, i) || InPost(legs, bal, level, maxLegs, i) then amount else 0
  {
    hide Rank, TierAt;
    var tier := TierUpTo(legs, bal, level, amount, maxLegs, |legs|);
    TierNames(legs, bal, level, amount, maxLegs, i, |legs|);
    TierAmount(legs, bal, level, amount, maxLegs);
    assert ([tier] + rest)[1..] == rest && ([tier] + rest)[0] == tier;
  }

  lemma {:induction false} BurnableStep(
    legs: seq<ConvertLeg>, bal: seq<Balance>, maxLegs: nat, i: nat, prev: nat, level: nat)
    requires i < |legs| == |bal| && prev < level
    requires forall j :: 0 <= j < |bal| ==> Remaining(bal[j]) <= prev || Remaining(bal[j]) >= level
    ensures Burnable(legs, bal, maxLegs, i, level) == Burnable(legs, bal, maxLegs, i, prev)
            + if InConvert(bal, level, maxLegs, i) || InPost(legs, bal, level, maxLegs, i) then level - prev else 0
  {
    hide Rank;
    CutOffSpan(bal, maxLegs, i, prev, level, level);
  }

  lemma {:induction false} TiersCover(
    legs: seq<ConvertLeg>, bal: seq<Balance>, levels: seq<nat>, prev: nat, floor: nat, maxLegs: nat)
    returns (level: nat)
    requires WellFormed(legs) && |legs| == |bal| && Pending(bal, levels, prev)
    ensures prev <= level && Settled(bal, level, floor)
    ensures var tiers := TiersFrom(HoldingsOf(legs, bal, |legs|), levels, prev, floor, maxLegs);
            && TotalAmount(tiers) == level - prev
            && (forall i :: 0 <= i < |tiers| ==> tiers[i].amount > 0)
            && forall i :: 0 <= i < |legs| ==>
                 CoveredBy(tiers, legs[i])
                 == Burnable(legs, bal, maxLegs, i, level) - Burnable(legs, bal, maxLegs, i, prev)
    decreases levels
  {
    hide HoldingsOf, Members, QuestionIds, PostMerges, Rank, Burnable, WellFormed;
    var hs := HoldingsOf(legs, bal, |legs|);
    if levels == [] {
      level := prev;
      assert Settled(bal, level, floor);
    } else if LoneDust(hs, levels[0], levels[0] - prev, floor) {
      DropIsLone(legs, bal, levels, prev, floor);
      level := prev;
    } else {
      PendingFirst(bal, levels, prev);
      level := TiersCover(legs, bal, levels[1..], levels[0], floor, maxLegs);
      var tier := TierAt(hs, levels[0], levels[0] - prev, maxLegs);
      var rest := TiersFrom(hs, levels[1..], levels[0], floor, maxLegs);
      assert ([tier] + rest)[1..] == rest && ([tier] + rest)[0] == tier;
      forall i | 0 <= i < |legs|
        ensures CoveredBy([tier] + rest, legs[i])
             == Burnable(legs, bal, maxLegs, i, level) - Burnable(legs, bal, maxLegs, i, prev)
      {
        hide TierAt, CoveredBy, Settled, TiersFrom;
        TierCovers(legs, bal, levels[0], levels[0] - prev, maxLegs, i, rest);
        BurnableStep(legs, bal, maxLegs, i, prev, levels[0]);
      }
    }
  }

  /** The tiers are a layer cake: positive amounts adding up to `level`, and the ones burning a leg's
      NO add up to all it has remaining up to `level`, less exactly what the cap cuts off of a leg
      without a condition id. Nothing remains above `level` but, at most, one leg's dust: the loop's
      `break` never discards a tier of several legs. */
  lemma {:induction false} LayerCake(legs: seq<ConvertLeg>, bal: seq<Balance>, floor: nat, maxLegs: nat)
    returns (level: nat)
    requires WellFormed(legs) && |legs| == |bal|
    ensures Settled(bal, level, floor)
    ensures var tiers := Plan(legs, bal, floor, maxLegs).tiers;
            && TotalAmount(tiers) == level
            && (forall i :: 0 <= i < |tiers| ==> tiers[i].amount > 0)
            && forall i :: 0 <= i < |legs| ==>
                 CoveredBy(tiers, legs[i]) == Burnable(legs, bal, maxLegs, i, level)
  {
    hide Settled, CoveredBy, TiersFrom, TotalAmount;
    LevelsPending(legs, bal);
    level := TiersCover(legs, bal, LevelsOf(HoldingsOf(legs, bal, |legs|)), 0, floor, maxLegs);
  }

  // ---------- Validity of each call against the snapshot ----------

  /** Every call alone, on the balances the plan was made from. */
  ghost predicate EachValid(legs: seq<ConvertLeg>, calls: seq<PlannedCall>, bal: seq<Balance>) {
    forall j :: 0 <= j < |calls| ==> Execute(legs, calls[j].call, Wallet(bal, 0)).Some?
  }

  /** Every compensating merge finds its YES already held. */
  ghost predicate YesHeld(legs: seq<ConvertLeg>, merges: Merges, bal: seq<Balance>)
    requires |legs| == |bal|
  {
    forall j :: 0 <= j < |merges| ==>
      var i := LegWith(legs, merges[j].0);
      i < |legs| && merges[j].1 <= bal[i].yes
  }

  lemma {:induction false} EachValidAppend(
    legs: seq<ConvertLeg>, a: seq<PlannedCall>, b: seq<PlannedCall>, bal: seq<Balance>)
    ensures EachValid(legs, a + b, bal) <==> EachValid(legs, a, bal) && EachValid(legs, b, bal)
  {
    hide Execute;
    assert forall j :: 0 <= j < |a| ==> (a + b)[j] == a[j];
    assert forall j :: 0 <= j < |b| ==> b[j] == (a + b)[|a| + j];
  }

  lemma {:induction false} MergesValid(legs: seq<ConvertLeg>, bal: seq<Balance>, k: nat)
    requires WellFormed(legs) && k <= |legs| == |bal|
    ensures EachValid(legs, MergeCalls(MergesOf(legs, bal, k)), bal)
  {
    if k > 0 {
      MergesValid(legs, bal, k - 1);
      if Mergeable(legs[k - 1], bal[k - 1]) {
        var cid, before := legs[k - 1].conditionId.value, MergesOf(legs, bal, k - 1);
        var amount := Min(bal[k - 1].yes, bal[k - 1].no);
        var call := PlannedCall(MergeCall(cid, amount), MERGE_GAS);
        assert LegWith(legs, cid) == k - 1 && Execute(legs, call.call, Wallet(bal, 0)).Some?;
        MergeCallsAppend(before, cid, amount);
        EachValidAppend(legs, MergeCalls(before), [call], bal);
      } else {
        assert MergesOf(legs, bal, k) == MergesOf(legs, bal, k - 1);
      }
    }
  }

  lemma {:induction false} PostMergesValid(
    legs: seq<ConvertLeg>, bal: seq<Balance>, level: nat, amount: nat, maxLegs: nat, k: nat)
    requires WellFormed(legs) && k <= |legs| == |bal| && amount <= level && level > 0
    ensures var post := TierUpTo(legs, bal, level, amount, maxLegs, k).postMerges;
            EachValid(legs, MergeCalls(post), bal) <==> YesHeld(legs, post, bal)
  {
    hide TierAt, Rank;
    if k == 0 {
      TierNone(level, amount, maxLegs);
    } else {
      PostMergesValid(legs, bal, level, amount, maxLegs, k - 1);
      TierGrows(legs, bal, level, amount, maxLegs, k - 1);
      var before := TierUpTo(legs, bal, level, amount, maxLegs, k - 1).postMerges;
      if InPost(legs, bal, level, maxLegs, k - 1) {
        PostMergeValid(legs, before, bal, k - 1, amount);
      } else {
        assert before + [] == before;
      }
    }
  }

  lemma {:induction false} PostMergeValid(
    legs: seq<ConvertLeg>, before: Merges, bal: seq<Balance>, i: nat, amount: nat)
    requires WellFormed(legs) && i < |legs| == |bal| && legs[i].conditionId.Some? && amount <= bal[i].no
    requires EachValid(legs, MergeCalls(before), bal) <==> YesHeld(legs, before, bal)
    ensures var after := before + [(legs[i].conditionId.value, amount)];
            EachValid(legs, MergeCalls(after), bal) <==> YesHeld(legs, after, bal)
  {
    var cid := legs[i].conditionId.value;
    var call := PlannedCall(MergeCall(cid, amount), MERGE_GAS);
    assert LegWith(legs, cid) == i;
    MergeCallsAppend(before, cid, amount);
    EachValidAppend(legs, MergeCalls(before), [call], bal);
    assert EachValid(legs, [call], bal) <==> amount <= bal[i].yes by {
      assert [call][0] == call;
    }
    var after := before + [(cid, amount)];
    assert YesHeld(legs, after, bal) <==> YesHeld(legs, before, bal) && amount <= bal[i].yes by {
      assert forall j :: 0 <= j < |before| ==> after[j] == before[j];
      assert after[|before|] == (cid, amount);
    }
  }

  lemma {:induction false} TierValid(
    legs: seq<ConvertLeg>, bal: seq<Balance>, level: nat, amount: nat, maxLegs: nat)
    requires WellFormed(legs) && |legs| == |bal| && amount <= level && level > 0 && maxLegs > 0
    requires exists i :: 0 <= i < |legs| && Remaining(bal[i]) >= level
    ensures var tier := TierUpTo(legs, bal, level, amount, maxLegs, |legs|);
            EachValid(legs, TierCalls(tier, |legs|), bal) <==> YesHeld(legs, tier.postMerges, bal)
  {
    hide TierAt, IndexSetOf, Rank, Decode, MergeCalls, YesHeld, PopCount;
    var n := |legs|;
    var tier := TierUpTo(legs, bal, level, amount, maxLegs, n);
    var mask := seq(n, i requires 0 <= i < n => InConvert(bal, level, maxLegs, i));
    TierDecodes(legs, bal, level, amount, maxLegs, mask);
    PostMergesValid(legs, bal, level, amount, maxLegs, n);
    var convert := PlannedCall(BuildConvert(tier.questionIds, amount).value, ConvertGas(n));
    EachValidAppend(legs, [convert], MergeCalls(tier.postMerges), bal);
    TierAmount(legs, bal, level, amount, maxLegs);
    assert Execute(legs, convert.call, Wallet(bal, 0)).Some?;
  }

  lemma {:induction false} TierAmount(
    legs: seq<ConvertLeg>, bal: seq<Balance>, level: nat, amount: nat, maxLegs: nat)
    requires |legs| == |bal|
    ensures TierUpTo(legs, bal, level, amount, maxLegs, |legs|).amount == amount
  {
  }

  lemma {:induction false} TiersValid(
    legs: seq<ConvertLeg>, bal: seq<Balance>, levels: seq<nat>, prev: nat, floor: nat, maxLegs: nat)
    requires WellFormed(legs) && |legs| == |bal| && Pending(bal, levels, prev) && maxLegs > 0
    ensures var tiers := TiersFrom(HoldingsOf(legs, bal, |legs|), levels, prev, floor, maxLegs);
            EachValid(legs, TiersCalls(tiers, |legs|), bal)
            <==> forall t :: 0 <= t < |tiers| ==> YesHeld(legs, tiers[t].postMerges, bal)
    decreases levels
  {
    hide HoldingsOf, TierAt, EachValid, YesHeld, WellFormed, TierCalls, Members;
    var hs := HoldingsOf(legs, bal, |legs|);
    var tiers := TiersFrom(hs, levels, prev, floor, maxLegs);
    if tiers == [] {
      NoneValid(legs, bal);
    } else {
      PendingFirst(bal, levels, prev);
      var tier := TierAt(hs, levels[0], levels[0] - prev, maxLegs);
      var rest := TiersFrom(hs, levels[1..], levels[0], floor, maxLegs);
      TiersCons(tier, rest, |legs|);
      TierValid(legs, bal, levels[0], levels[0] - prev, maxLegs);
      TiersValid(legs, bal, levels[1..], levels[0], floor, maxLegs);
      EachValidAppend(legs, TierCalls(tier, |legs|), TiersCalls(rest, |legs|), bal);
      assert forall t :: 0 <= t < |rest| ==> tiers[t + 1] == rest[t];
      assert forall t :: 0 < t < |tiers| ==> tiers[t] == rest[t - 1];
    }
  }

  lemma {:induction false} NoneValid(legs: seq<ConvertLeg>, bal: seq<Balance>)
    ensures EachValid(legs, [], bal)
  {
  }

  /** `prev` and `level` are neighbours among 0 and the amounts of NO remaining. */
  ghost predicate Neighbours(bal: seq<Balance>, prev: nat, level: nat) {
    && prev < level
    && (exists i :: 0 <= i < |bal| && Remaining(bal[i]) == level)
    && (prev == 0 || exists i :: 0 <= i < |bal| && Remaining(bal[i]) == prev)
    && forall i :: 0 <= i < |bal| ==> Remaining(bal[i]) <= prev || Remaining(bal[i]) >= level
  }

  /** Each of the first `k` legs that can be merged but is cut off at `level` holds the YES of the step. */
  ghost predicate YesCoversAt(legs: seq<ConvertLeg>, bal: seq<Balance>, maxLegs: nat, prev: nat, level: nat, k: nat)
    requires k <= |legs| == |bal|
  {
    forall i :: 0 <= i < k && InPost(legs, bal, level, maxLegs, i) ==> level - prev <= bal[i].yes
  }

  ghost predicate CoveredFrom(legs: seq<ConvertLeg>, bal: seq<Balance>, maxLegs: nat, prev: nat)
    requires |legs| == |bal|
  {
    forall p: nat, l: nat :: prev <= p && Neighbours(bal, p, l) ==> YesCoversAt(legs, bal, maxLegs, p, l, |legs|)
  }

  /** At every step between neighbouring levels. */
  ghost predicate YesCovers(legs: seq<ConvertLeg>, bal: seq<Balance>, maxLegs: nat)
    requires |legs| == |bal|
  {
    CoveredFrom(legs, bal, maxLegs, 0)
  }

  lemma {:induction false} TierYesIff(
    legs: seq<ConvertLeg>, bal: seq<Balance>, prev: nat, level: nat, maxLegs: nat, k: nat)
    requires WellFormed(legs) && k <= |legs| == |bal| && prev < level
    ensures YesHeld(legs, TierUpTo(legs, bal, level, level - prev, maxLegs, k).postMerges, bal)
       <==> YesCoversAt(legs, bal, maxLegs, prev, level, k)
  {
    hide TierAt, Rank;
    if k == 0 {
      TierNone(level, level - prev, maxLegs);
    } else {
      TierYesIff(legs, bal, prev, level, maxLegs, k - 1);
      TierGrows(legs, bal, level, level - prev, maxLegs, k - 1);
      var before := TierUpTo(legs, bal, level, level - prev, maxLegs, k - 1).postMerges;
      if InPost(legs, bal, level, maxLegs, k - 1) {
        var cid := legs[k - 1].conditionId.value;
        assert LegWith(legs, cid) == k - 1;
        var after := before + [(cid, level - prev)];
        assert forall j :: 0 <= j < |before| ==> after[j] == before[j];
        assert after[|before|] == (cid, level - prev);
      } else {
        assert before + [] == before;
      }
    }
  }

  /** What is cut off at a level above `prev` is cut off in some tier still to come: the `break` comes
      only when one leg is left, and one leg is never cut off. */
  lemma {:induction false} TiersYesIff(
    legs: seq<ConvertLeg>, bal: seq<Balance>, levels: seq<nat>, prev: nat, floor: nat, maxLegs: nat)
    requires WellFormed(legs) && |legs| == |bal| && Pending(bal, levels, prev) && maxLegs > 0
    requires prev == 0 || exists i :: 0 <= i < |bal| && Remaining(bal[i]) == prev
    ensures var tiers := TiersFrom(HoldingsOf(legs, bal, |legs|), levels, prev, floor, maxLegs);
            (forall t :: 0 <= t < |tiers| ==> YesHeld(legs, tiers[t].postMerges, bal))
            <==> CoveredFrom(legs, bal, maxLegs, prev)
    decreases levels
  {
    hide HoldingsOf, TierAt, YesHeld, WellFormed, Members, YesCoversAt;
    var hs := HoldingsOf(legs, bal, |legs|);
    var tiers := TiersFrom(hs, levels, prev, floor, maxLegs);
    if levels == [] {
      assert forall p: nat, l: nat :: prev <= p ==> !Neighbours(bal, p, l);
    } else {
      PendingFirst(bal, levels, prev);
      if LoneDust(hs, levels[0], levels[0] - prev, floor) {
        DropIsLone(legs, bal, levels, prev, floor);
        forall p: nat, l: nat | prev <= p && Neighbours(bal, p, l)
          ensures YesCoversAt(legs, bal, maxLegs, p, l, |legs|)
        {
          LoneIsCovered(legs, bal, maxLegs, floor, prev, p, l);
        }
      } else {
        var rest := TiersFrom(hs, levels[1..], levels[0], floor, maxLegs);
        TierYesIff(legs, bal, prev, levels[0], maxLegs, |legs|);
        TiersYesIff(legs, bal, levels[1..], levels[0], floor, maxLegs);
        assert forall t :: 0 <= t < |rest| ==> tiers[t + 1] == rest[t];
        assert forall t :: 0 < t < |tiers| ==> tiers[t] == rest[t - 1];
        assert Neighbours(bal, prev, levels[0]);
        assert tiers[0] == TierUpTo(legs, bal, levels[0], levels[0] - prev, maxLegs, |legs|);
        forall p: nat, l: nat | prev <= p && Neighbours(bal, p, l)
          ensures (p == prev && l == levels[0]) || levels[0] <= p
        {
          NextNeighbour(bal, levels, prev, p, l);
        }
      }
    }
  }

  lemma {:induction false} NextNeighbour(bal: seq<Balance>, levels: seq<nat>, prev: nat, p: nat, l: nat)
    requires levels != [] && Neighbours(bal, prev, levels[0]) && prev <= p && Neighbours(bal, p, l)
    ensures (p == prev && l == levels[0]) || levels[0] <= p
  {
  }

  lemma {:induction false} LoneIsCovered(
    legs: seq<ConvertLeg>, bal: seq<Balance>, maxLegs: nat, floor: nat, prev: nat, p: nat, l: nat)
    requires |legs| == |bal| && maxLegs > 0 && prev <= p < l
    requires exists s :: 0 <= s < |bal| && LoneAbove(bal, prev, floor, s)
    ensures YesCoversAt(legs, bal, maxLegs, p, l, |legs|)
  {
    forall i | 0 <= i < |legs| ensures !InPost(legs, bal, l, maxLegs, i) {
      if InPost(legs, bal, l, maxLegs, i) {
        var j := RankWitness(bal, l, i);
        assert false;
      }
    }
  }

  /** Each call is also valid on its own against the snapshot exactly when, at every step between
      neighbouring levels of NO, each mergeable leg the cap cuts off holds the YES of that step;
      pre-merges and converts always are. */
  lemma {:induction false} SnapshotValidIff(legs: seq<ConvertLeg>, bal: seq<Balance>, floor: nat, maxLegs: nat)
    requires WellFormed(legs) && |legs| == |bal| && maxLegs > 0
    ensures EachValid(legs, EventCalls(Plan(legs, bal, floor, maxLegs)), bal) <==> YesCovers(legs, bal, maxLegs)
  {
    hide EachValid, YesHeld, HoldingsOf, TiersFrom, MergesOf, MergeCalls, TiersCalls, Neighbours, InPost, LevelsOf;
    var plan := Plan(legs, bal, floor, maxLegs);
    LevelsPending(legs, bal);
    MergesValid(legs, bal, |legs|);
    TiersValid(legs, bal, LevelsOf(HoldingsOf(legs, bal, |legs|)), 0, floor, maxLegs);
    TiersYesIff(legs, bal, LevelsOf(HoldingsOf(legs, bal, |legs|)), 0, floor, maxLegs);
    EachValidAppend(legs, MergeCalls(plan.merges), TiersCalls(plan.tiers, |legs|), bal);
  }

  /** In particular always when no more legs than the cap have NO remaining. */
  lemma {:induction false} WithinCapIsSnapshotValid(
    legs: seq<ConvertLeg>, bal: seq<Balance>, floor: nat, maxLegs: nat)
    requires WellFormed(legs) && |legs| == |bal| && maxLegs > 0 && Rank(bal, 1, |bal|) <= maxLegs
    ensures EachValid(legs, EventCalls(Plan(legs, bal, floor, maxLegs)), bal)
  {
    hide EachValid, EventCalls, Plan, WellFormed;
    SnapshotValidIff(legs, bal, floor, maxLegs);
    forall p: nat, level: nat, i | 0 <= i < |legs| && Neighbours(bal, p, level)
      ensures !InPost(legs, bal, level, maxLegs, i)
    {
      RankFalls(bal, 1, level, i);
      RankAtMost(bal, i, |bal|);
    }
  }

  /** A leg with NO remaining is not among those before it. */
  lemma {:induction false} RankAtMost(bal: seq<Balance>, i: nat, k: nat)
    requires i < k <= |bal|
    ensures Rank(bal, 1, i) + (if Remaining(bal[i]) >= 1 then 1 else 0) <= Rank(bal, 1, k)
  {
    if i < k - 1 {
      RankAtMost(bal, i, k - 1);
    }
  }

  /** The documented claim that every call is valid against the snapshot fails on every event wider
      than the leg cap whose cut-off leg can be merged and holds no YES. */
  lemma {:induction false} TruncationIsNotSnapshotValid(
    legs: seq<ConvertLeg>, bal: seq<Balance>, floor: nat, maxLegs: nat, i: nat)
    requires WellFormed(legs) && |legs| == |bal| && maxLegs > 0 && i < |legs|
    requires legs[i].conditionId.Some? && bal[i].no > 0 && bal[i].yes == 0 && Rank(bal, 1, i) >= maxLegs
    ensures !EachValid(legs, EventCalls(Plan(legs, bal, floor, maxLegs)), bal)
  {
    hide EachValid, HoldingsOf, EventCalls, Plan, LevelsOf, WellFormed;
    SnapshotValidIff(legs, bal, floor, maxLegs);
    LevelsPending(legs, bal);
    var levels := LevelsOf(HoldingsOf(legs, bal, |legs|));
    PendingFirst(bal, levels, 0);
    RankSame(bal, 1, levels[0], i);
    assert Neighbours(bal, 0, levels[0]) && InPost(legs, bal, levels[0], maxLegs, i);
  }
}
