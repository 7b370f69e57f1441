/** Ranks of legs by NO remaining, and what the planner can never free: both sides held on a leg
    without a condition id, and the NO of such a leg that the leg cap cuts off. */
module Waste {
  import opened Prelude
  import opened Legs
  import opened Chain
  import opened Planner

  // ---------- Who is in a tier ----------

  /** How many of the first `k` legs have at least `level` NO remaining. */
  function Rank(bal: seq<Balance>, level: nat, k: nat): nat
    requires k <= |bal|
  {
    if k == 0 then 0
    else Rank(bal, level, k - 1) + if Remaining(bal[k - 1]) >= level then 1 else 0
  }

  predicate InConvert(bal: seq<Balance>, level: nat, maxLegs: nat, i: nat)
    requires i < |bal|
  {
    Remaining(bal[i]) >= level && Rank(bal, level, i) < maxLegs
  }

  predicate InPost(legs: seq<ConvertLeg>, bal: seq<Balance>, level: nat, maxLegs: nat, i: nat)
    requires i < |bal| && i < |legs|
  {
    Remaining(bal[i]) >= level && Rank(bal, level, i) >= maxLegs && legs[i].conditionId.Some?
  }

  lemma {:induction false} RankAbove(bal: seq<Balance>, level: nat, k: nat, i: nat)
    requires i < k <= |bal| && Remaining(bal[i]) >= level
    ensures Rank(bal, level, k) > 0
  {
    if i < k - 1 {
      RankAbove(bal, level, k - 1, i);
    }
  }

  lemma {:induction false} RankFalls(bal: seq<Balance>, low: nat, high: nat, k: nat)
    requires low <= high && k <= |bal|
    ensures Rank(bal, high, k) <= Rank(bal, low, k)
  {
    if k > 0 {
      RankFalls(bal, low, high, k - 1);
    }
  }

  lemma {:induction false} RankSame(bal: seq<Balance>, a: nat, b: nat, k: nat)
    requires k <= |bal|
    requires forall i :: 0 <= i < k ==> (Remaining(bal[i]) >= a <==> Remaining(bal[i]) >= b)
    ensures Rank(bal, a, k) == Rank(bal, b, k)
  {
    if k > 0 {
      RankSame(bal, a, b, k - 1);
    }
  }

  lemma {:induction false} RankOne(bal: seq<Balance>, level: nat, k: nat, s: nat, t: nat)
    requires k <= |bal| && s < t < k
    requires Remaining(bal[s]) >= level && Remaining(bal[t]) >= level
    ensures Rank(bal, level, k) >= 2
  {
    if t < k - 1 {
      RankOne(bal, level, k - 1, s, t);
    } else {
      RankAbove(bal, level, k - 1, s);
    }
  }

  // ---------- What cannot be freed ----------

  /** Of the heights up to `top`, those at which leg `i` comes after `maxLegs` others. */
  function CutOff(bal: seq<Balance>, maxLegs: nat, i: nat, top: nat): nat
    requires i <= |bal|
  {
    if top == 0 then 0 else CutOff(bal, maxLegs, i, top - 1) + if Rank(bal, top, i) >= maxLegs then 1 else 0
  }

  /** What a leg without a condition id withholds: no merge can be built for it. */
  function LegWaste(leg: ConvertLeg, bal: seq<Balance>, maxLegs: nat, i: nat): nat
    requires i < |bal|
  {
    if leg.conditionId.Some? then 0
    else Min(bal[i].yes, bal[i].no) + CutOff(bal, maxLegs, i, Remaining(bal[i]))
  }

  function WasteUpTo(legs: seq<ConvertLeg>, bal: seq<Balance>, maxLegs: nat, k: nat): nat
    requires k <= |legs| == |bal|
  {
    if k == 0 then 0
    else WasteUpTo(legs, bal, maxLegs, k - 1) + LegWaste(legs[k - 1], bal, maxLegs, k - 1)
  }

  function Withheld(legs: seq<ConvertLeg>, bal: seq<Balance>, maxLegs: nat): nat
    requires |legs| == |bal|
  {
    WasteUpTo(legs, bal, maxLegs, |legs|)
  }

  ghost predicate SameWaste(legs: seq<ConvertLeg>, maxLegs: nat, a: seq<Balance>, b: seq<Balance>) {
    && |a| == |b| == |legs|
    && forall i :: 0 <= i < |legs| ==> LegWaste(legs[i], a, maxLegs, i) == LegWaste(legs[i], b, maxLegs, i)
  }

  lemma {:induction false} SameWasteSum(
    legs: seq<ConvertLeg>, maxLegs: nat, a: seq<Balance>, b: seq<Balance>, k: nat)
    requires SameWaste(legs, maxLegs, a, b) && k <= |legs|
    ensures WasteUpTo(legs, a, maxLegs, k) == WasteUpTo(legs, b, maxLegs, k)
  {
    hide LegWaste;
    if k > 0 {
      SameWasteSum(legs, maxLegs, a, b, k - 1);
    }
  }

  /** Nothing is withheld exactly when no leg withholds anything. */
  lemma {:induction false} NoWasteIff(legs: seq<ConvertLeg>, bal: seq<Balance>, maxLegs: nat, k: nat)
    requires k <= |legs| == |bal|
    ensures WasteUpTo(legs, bal, maxLegs, k) == 0
       <==> forall i :: 0 <= i < k ==> LegWaste(legs[i], bal, maxLegs, i) == 0
  {
    hide LegWaste;
    if k > 0 {
      NoWasteIff(legs, bal, maxLegs, k - 1);
    }
  }

  lemma {:induction false} CutOffZeroIff(bal: seq<Balance>, maxLegs: nat, i: nat, top: nat)
    requires i <= |bal|
    ensures CutOff(bal, maxLegs, i, top) == 0 <==> top == 0 || Rank(bal, 1, i) < maxLegs
  {
    if top > 0 {
      CutOffZeroIff(bal, maxLegs, i, top - 1);
      RankFalls(bal, 1, top, i);
    }
  }

  /** Between two heights no leg's remaining amount lies strictly between, the legs ahead are the same. */
  lemma {:induction false} CutOffSpan(bal: seq<Balance>, maxLegs: nat, i: nat, low: nat, high: nat, top: nat)
    requires i <= |bal| && low <= top <= high
    requires forall j :: 0 <= j < |bal| ==> Remaining(bal[j]) <= low || Remaining(bal[j]) >= high
    ensures CutOff(bal, maxLegs, i, top)
         == CutOff(bal, maxLegs, i, low) + if Rank(bal, high, i) >= maxLegs then top - low else 0
  {
    if low < top {
      CutOffSpan(bal, maxLegs, i, low, high, top - 1);
      RankSame(bal, top, high, i);
    }
  }

  // ---------- A merge keeps it ----------

  lemma {:induction false} CutOffEqual(a: seq<Balance>, b: seq<Balance>, maxLegs: nat, i: nat, top: nat)
    requires i <= |a| && i <= |b| && forall j :: 0 <= j < i ==> Remaining(a[j]) == Remaining(b[j])
    ensures CutOff(a, maxLegs, i, top) == CutOff(b, maxLegs, i, top)
  {
    if top > 0 {
      CutOffEqual(a, b, maxLegs, i, top - 1);
      RankAcross(a, top, b, top, i);
    }
  }

  lemma {:induction false} RankAcross(a: seq<Balance>, la: nat, b: seq<Balance>, lb: nat, k: nat)
    requires k <= |a| && k <= |b|
    requires forall i :: 0 <= i < k ==> (Remaining(a[i]) >= la <==> Remaining(b[i]) >= lb)
    ensures Rank(a, la, k) == Rank(b, lb, k)
  {
    if k > 0 {
      RankAcross(a, la, b, lb, k - 1);
    }
  }

  lemma {:induction false} MergeKeepsWaste(legs: seq<ConvertLeg>, maxLegs: nat, bal: seq<Balance>, i: nat, a: nat)
    requires i < |legs| == |bal| && legs[i].conditionId.Some? && a <= bal[i].no && a <= bal[i].yes
    ensures SameWaste(legs, maxLegs, bal, bal[i := Balance(bal[i].no - a, bal[i].yes - a)])
  {
    var after := bal[i := Balance(bal[i].no - a, bal[i].yes - a)];
    assert forall j :: 0 <= j < |bal| ==> Remaining(after[j]) == Remaining(bal[j]);
    forall j | 0 <= j < |legs| ensures LegWaste(legs[j], after, maxLegs, j) == LegWaste(legs[j], bal, maxLegs, j) {
      hide Remaining, CutOff;
      CutOffEqual(bal, after, maxLegs, j, Remaining(bal[j]));
    }
  }

  // ---------- A planned convert keeps it ----------

  /** No NO remains at heights below `a`. */
  ghost predicate Stepped(bal: seq<Balance>, a: nat) {
    forall j :: 0 <= j < |bal| ==> Remaining(bal[j]) == 0 || Remaining(bal[j]) >= a
  }

  lemma {:induction false} CutOffBelow(bal: seq<Balance>, a: nat, maxLegs: nat, i: nat, top: nat)
    requires i <= |bal| && top <= a && Stepped(bal, a)
    ensures CutOff(bal, maxLegs, i, top) == if Rank(bal, a, i) >= maxLegs then top else 0
  {
    if top > 0 {
      CutOffBelow(bal, a, maxLegs, i, top - 1);
      RankSame(bal, top, a, i);
    }
  }

  /** Every remaining amount is lowered by `a`, down to 0. */
  ghost predicate Lowered(bal: seq<Balance>, after: seq<Balance>, a: nat) {
    |after| == |bal| && forall j :: 0 <= j < |bal| ==> Remaining(after[j]) == Max(0, Remaining(bal[j]) - a)
  }

  lemma {:induction false} CutOffShift(bal: seq<Balance>, after: seq<Balance>, a: nat, maxLegs: nat, i: nat, top: nat)
    requires i <= |bal| && Lowered(bal, after, a)
    ensures CutOff(bal, maxLegs, i, a + top) == CutOff(bal, maxLegs, i, a) + CutOff(after, maxLegs, i, top)
  {
    if top > 0 {
      CutOffShift(bal, after, a, maxLegs, i, top - 1);
      RankAcross(bal, a + top, after, top, i);
    }
  }

  /** Balances after a convert of the first `maxLegs` legs holding `a` or more. */
  ghost predicate Converted(bal: seq<Balance>, after: seq<Balance>, a: nat, maxLegs: nat) {
    && |after| == |bal|
    && forall j :: 0 <= j < |bal| ==>
         if InConvert(bal, a, maxLegs, j) then bal[j].no >= a && after[j] == Balance(bal[j].no - a, bal[j].yes)
         else after[j] == Balance(bal[j].no, bal[j].yes + a)
  }

  /** A leg it cuts off turns NO withheld by the cap into a pair withheld for want of an id, one for
      one; a leg it burns was not cut off; a leg without NO to spare is not affected. */
  lemma {:induction false} ConvertKeepsWaste(
    legs: seq<ConvertLeg>, maxLegs: nat, bal: seq<Balance>, after: seq<Balance>, a: nat)
    requires |legs| == |bal| && a > 0 && Stepped(bal, a) && Converted(bal, after, a, maxLegs)
    ensures SameWaste(legs, maxLegs, bal, after)
  {
    assert Lowered(bal, after, a) by {
      hide Rank;
    }
    forall i | 0 <= i < |legs| ensures LegWaste(legs[i], after, maxLegs, i) == LegWaste(legs[i], bal, maxLegs, i) {
      hide Lowered, Stepped;
      StepAt(bal, a, i);
      LowerAt(bal, after, a, i);
      if Remaining(bal[i]) >= a {
        CutOffBelow(bal, a, maxLegs, i, a);
        CutOffShift(bal, after, a, maxLegs, i, Remaining(bal[i]) - a);
      }
    }
  }

  lemma {:induction false} StepAt(bal: seq<Balance>, a: nat, i: nat)
    requires i < |bal| && Stepped(bal, a)
    ensures Remaining(bal[i]) == 0 || Remaining(bal[i]) >= a
  {
  }

  lemma {:induction false} LowerAt(bal: seq<Balance>, after: seq<Balance>, a: nat, i: nat)
    requires i < |bal| && Lowered(bal, after, a)
    ensures |after| == |bal| && Remaining(after[i]) == Max(0, Remaining(bal[i]) - a)
  {
  }
}
