/** What the negRisk contracts do to one event's balances.
    A merge burns YES and NO on one leg and frees that much cash; a convert burns NO on a set of
    legs, mints YES on every other leg, and frees one amount per burned leg beyond the first. */
module Chain {
  import opened Prelude

  datatype Balance = Balance(no: nat, yes: nat)

  /** One event's balances in leg order, and the cash freed out of them. */
  datatype Wallet = Wallet(bal: seq<Balance>, cash: nat)

  datatype Step =
    | Merge(leg: nat, amount: nat)
    | Convert(members: seq<bool>, amount: nat)

  /** The contract reverts unless every burned balance is there. */
  predicate Legal(w: Wallet, s: Step) {
    match s
    case Merge(i, a) => i < |w.bal| && a <= w.bal[i].no && a <= w.bal[i].yes
    case Convert(m, a) =>
      |m| == |w.bal| && PopCount(m) > 0 && forall i :: 0 <= i < |m| && m[i] ==> a <= w.bal[i].no
  }

  function Apply(w: Wallet, s: Step): (r: Wallet)
    requires Legal(w, s)
    ensures |r.bal| == |w.bal|
  {
    match s
    case Merge(i, a) =>
      Wallet(w.bal[i := Balance(w.bal[i].no - a, w.bal[i].yes - a)], w.cash + a)
    case Convert(m, a) =>
      Wallet(seq(|m|, i requires 0 <= i < |m| =>
                 if m[i] then Balance(w.bal[i].no - a, w.bal[i].yes)
                 else Balance(w.bal[i].no, w.bal[i].yes + a)),
             w.cash + (PopCount(m) - 1) * a)
  }

  /** Run a sequence of steps; `None` as soon as one reverts. */
  function Run(w: Wallet, steps: seq<Step>): Option<Wallet>
    decreases steps
  {
    if steps == [] then Some(w)
    else if Legal(w, steps[0]) then Run(Apply(w, steps[0]), steps[1..])
    else None
  }

  // ---------- What the positions are worth once the event resolves ----------

  /** NO held on the first `k` legs, the winner's excepted. */
  function LosingNo(bal: seq<Balance>, win: nat, k: nat): nat
    requires k <= |bal|
  {
    if k == 0 then 0
    else LosingNo(bal, win, k - 1) + if k - 1 == win then 0 else bal[k - 1].no
  }

  /** Cash plus payout when leg `win` is the winner: its YES and every other leg's NO pay 1. */
  function Worth(w: Wallet, win: nat): nat
    requires win < |w.bal|
  {
    w.cash + w.bal[win].yes + LosingNo(w.bal, win, |w.bal|)
  }

  lemma {:induction false} LosingNoMerge(bal: seq<Balance>, win: nat, i: nat, b: Balance, k: nat)
    requires k <= |bal| && i < |bal|
    ensures LosingNo(bal[i := b], win, k)
         == LosingNo(bal, win, k) + if i < k && i != win then b.no - bal[i].no else 0
  {
    if k > 0 {
      LosingNoMerge(bal, win, i, b, k - 1);
    }
  }

  /** `after` is `before` with `a` NO burned on every member. */
  ghost predicate Burned(before: seq<Balance>, after: seq<Balance>, m: seq<bool>, a: nat) {
    && |before| == |after| == |m|
    && forall i :: 0 <= i < |m| ==> after[i].no == before[i].no - if m[i] then a else 0
  }

  lemma {:induction false} LosingNoBurned(
    before: seq<Balance>, after: seq<Balance>, m: seq<bool>, a: nat, win: nat, k: nat)
    requires Burned(before, after, m, a) && k <= |m| && win < |m|
    ensures LosingNo(after, win, k)
         == LosingNo(before, win, k) - CountUpTo(m, k) * a + if win < k && m[win] then a else 0
  {
    if k > 0 {
      LosingNoBurned(before, after, m, a, win, k - 1);
      if m[k - 1] {
        OneLess(CountUpTo(m, k), a);
      }
    }
  }

  /** No legal step moves value in any resolution of the event. */
  lemma {:induction false} StepKeepsWorth(w: Wallet, s: Step, win: nat)
    requires Legal(w, s) && win < |w.bal|
    ensures Worth(Apply(w, s), win) == Worth(w, win)
  {
    match s
    case Merge(i, a) =>
      LosingNoMerge(w.bal, win, i, Balance(w.bal[i].no - a, w.bal[i].yes - a), |w.bal|);
    case Convert(m, a) =>
      LosingNoBurned(w.bal, Apply(w, s).bal, m, a, win, |m|);
      OneLess(PopCount(m), a);
  }

  lemma {:induction false} RunKeepsWorth(w: Wallet, steps: seq<Step>, win: nat)
    requires Run(w, steps).Some? && win < |w.bal|
    ensures |Run(w, steps).value.bal| == |w.bal|
    ensures Worth(Run(w, steps).value, win) == Worth(w, win)
    decreases steps
  {
    if steps != [] {
      StepKeepsWorth(w, steps[0], win);
      RunKeepsWorth(Apply(w, steps[0]), steps[1..], win);
    }
  }

  // ---------- The potential that bounds every run ----------

  function NoSum(bal: seq<Balance>, k: nat): nat
    requires k <= |bal|
  {
    if k == 0 then 0 else NoSum(bal, k - 1) + bal[k - 1].no
  }

  function Excess(b: Balance): int {
    b.no - b.yes
  }

  /** Largest excess of NO over YES on the first `k` legs, or 0. */
  function TopExcess(bal: seq<Balance>, k: nat): (t: nat)
    requires k <= |bal|
    ensures forall i :: 0 <= i < k ==> Excess(bal[i]) <= t
    ensures t == 0 || exists i :: 0 <= i < k && Excess(bal[i]) == t
  {
    if k == 0 then 0 else Max(TopExcess(bal, k - 1), Excess(bal[k - 1]))
  }

  /** The most cash a run from these balances can free. */
  function Freeable(bal: seq<Balance>): int {
    NoSum(bal, |bal|) - TopExcess(bal, |bal|)
  }

  /** Cash plus the most that can still be freed. */
  function Potential(w: Wallet): int {
    w.cash + Freeable(w.bal)
  }

  lemma {:induction false} NoSumMerge(bal: seq<Balance>, i: nat, b: Balance, k: nat)
    requires k <= |bal| && i < |bal|
    ensures NoSum(bal[i := b], k) == NoSum(bal, k) + if i < k then b.no - bal[i].no else 0
  {
    if k > 0 {
      NoSumMerge(bal, i, b, k - 1);
    }
  }

  lemma {:induction false} NoSumBurned(
    before: seq<Balance>, after: seq<Balance>, m: seq<bool>, a: nat, k: nat)
    requires Burned(before, after, m, a) && k <= |m|
    ensures NoSum(after, k) == NoSum(before, k) - CountUpTo(m, k) * a
  {
    if k > 0 {
      NoSumBurned(before, after, m, a, k - 1);
      OneLess(CountUpTo(m, k), a);
    }
  }

  /** The top excess is the only number with its two defining properties. */
  lemma {:induction false} TopExcessIs(bal: seq<Balance>, t: nat)
    requires forall i :: 0 <= i < |bal| ==> Excess(bal[i]) <= t
    requires t == 0 || exists i :: 0 <= i < |bal| && Excess(bal[i]) == t
    ensures TopExcess(bal, |bal|) == t
  {
  }

  /** Lowering every excess by `a` lowers the top one by as much, down to 0. */
  lemma {:induction false} TopExcessShift(before: seq<Balance>, after: seq<Balance>, a: nat)
    requires |before| == |after|
    requires forall i :: 0 <= i < |before| ==> Excess(after[i]) == Excess(before[i]) - a
    ensures TopExcess(after, |after|) == Max(0, TopExcess(before, |before|) - a)
  {
    var t := TopExcess(before, |before|);
    if t > a {
      var j :| 0 <= j < |before| && Excess(before[j]) == t;
      assert Excess(after[j]) == t - a;
    }
    TopExcessIs(after, Max(0, t - a));
  }

  lemma {:induction false} MergeKeepsPotential(w: Wallet, i: nat, a: nat)
    requires Legal(w, Merge(i, a))
    ensures Potential(Apply(w, Merge(i, a))) == Potential(w)
  {
    var w' := Apply(w, Merge(i, a));
    NoSumMerge(w.bal, i, w'.bal[i], |w.bal|);
    TopExcessShift(w.bal, w'.bal, 0);
  }

  lemma {:induction false} ConvertNoSum(w: Wallet, m: seq<bool>, a: nat)
    requires Legal(w, Convert(m, a))
    ensures var w' := Apply(w, Convert(m, a));
            w'.cash + NoSum(w'.bal, |m|) == w.cash + NoSum(w.bal, |m|) - a
  {
    NoSumBurned(w.bal, Apply(w, Convert(m, a)).bal, m, a, |m|);
    OneLess(PopCount(m), a);
  }

  /** A convert loses potential exactly by what its amount exceeds the top excess. */
  lemma {:induction false} ConvertPotential(w: Wallet, m: seq<bool>, a: nat)
    requires Legal(w, Convert(m, a))
    ensures Potential(Apply(w, Convert(m, a)))
         == Potential(w) - Max(0, a - TopExcess(w.bal, |w.bal|))
  {
    hide NoSum, TopExcess, PopCount;
    ConvertNoSum(w, m, a);
    TopExcessShift(w.bal, Apply(w, Convert(m, a)).bal, a);
  }

  /** The potential never rises; a step keeps it unless it is a convert beyond the top excess. */
  lemma {:induction false} StepPotential(w: Wallet, s: Step)
    requires Legal(w, s)
    ensures Potential(Apply(w, s)) <= Potential(w)
    ensures Potential(Apply(w, s)) == Potential(w)
        <==> s.Merge? || s.amount <= TopExcess(w.bal, |w.bal|)
  {
    match s
    case Merge(i, a) => MergeKeepsPotential(w, i, a);
    case Convert(m, a) => ConvertPotential(w, m, a);
  }

  lemma {:induction false} TopWithinSum(bal: seq<Balance>, k: nat)
    requires k <= |bal|
    ensures TopExcess(bal, k) <= NoSum(bal, k)
  {
    if k > 0 {
      TopWithinSum(bal, k - 1);
    }
  }

  /** Every run, whatever its order, members and amounts, frees at most `Freeable`. */
  lemma {:induction false} RunBound(w: Wallet, steps: seq<Step>)
    requires Run(w, steps).Some?
    ensures Potential(Run(w, steps).value) <= Potential(w)
    ensures Run(w, steps).value.cash <= w.cash + Freeable(w.bal)
    decreases steps
  {
    if steps == [] {
      TopWithinSum(w.bal, |w.bal|);
    } else {
      StepPotential(w, steps[0]);
      RunBound(Apply(w, steps[0]), steps[1..]);
    }
  }
}
