/** Executing a plan on chain: every call goes through, in order, and keeps the potential. */
module Execution {
  import opened Prelude
  import opened Legs
  import opened Chain
  import opened Planner
  import opened Waste

  // ---------- The meaning of a call ----------

  function MemberMask(legs: seq<ConvertLeg>, bits: Bitmap): seq<bool> {
    seq(|legs|, i requires 0 <= i < |legs| => bits[legs[i].questionId.last])
  }

  /** The contracts resolve a condition id or an index set to legs; an id or a bit that names no
      leg of the event reverts. */
  function Decode(legs: seq<ConvertLeg>, call: Call): Option<Step> {
    match call
    case MergeCall(cid, a) =>
      var i := LegWith(legs, cid);
      if i < |legs| then Some(Merge(i, a)) else None
    case ConvertCall(market, bits, a) =>
      var mask := MemberMask(legs, bits);
      if legs != [] && market == QuestionId(legs[0].questionId.prefix, 0) && PopCount(bits) == PopCount(mask)
      then Some(Convert(mask, a)) else None
  }

  function Execute(legs: seq<ConvertLeg>, call: Call, w: Wallet): (r: Option<Wallet>)
    ensures r.Some? ==> |r.value.bal| == |w.bal|
  {
    match Decode(legs, call)
    case None => None
    case Some(s) => if Legal(w, s) then Some(Apply(w, s)) else None
  }

  function RunCalls(legs: seq<ConvertLeg>, calls: seq<PlannedCall>, w: Wallet): Option<Wallet>
    decreases calls
  {
    if calls == [] then Some(w)
    else match Execute(legs, calls[0].call, w)
      case None => None
      case Some(w1) => RunCalls(legs, calls[1..], w1)
  }

  /** Nothing that could still be freed is given up, and nothing withheld is added. */
  ghost predicate Keeps(legs: seq<ConvertLeg>, maxLegs: nat, w: Wallet, w1: Wallet) {
    Potential(w1) == Potential(w) && SameWaste(legs, maxLegs, w.bal, w1.bal)
  }

  /** `calls` run from `w` to `w2`, and each of them keeps what can and what cannot be freed. */
  ghost predicate Leads(legs: seq<ConvertLeg>, maxLegs: nat, calls: seq<PlannedCall>, w: Wallet, w2: Wallet)
    decreases calls, 1
  {
    || (calls == [] && w == w2)
    || (calls != [] && Continues(legs, maxLegs, calls, w, w2, Execute(legs, calls[0].call, w)))
  }

  ghost predicate Continues(
    legs: seq<ConvertLeg>, maxLegs: nat, calls: seq<PlannedCall>, w: Wallet, w2: Wallet, w1: Option<Wallet>)
    requires calls != []
    decreases calls, 0
  {
    w1.Some? && Keeps(legs, maxLegs, w, w1.value) && Leads(legs, maxLegs, calls[1..], w1.value, w2)
  }

  lemma {:induction false} LeadsRuns(
    legs: seq<ConvertLeg>, maxLegs: nat, calls: seq<PlannedCall>, w: Wallet, w2: Wallet)
    requires Leads(legs, maxLegs, calls, w, w2) && |w.bal| == |legs|
    ensures RunCalls(legs, calls, w) == Some(w2)
    ensures Keeps(legs, maxLegs, w, w2) && |w2.bal| == |w.bal|
    decreases calls
  {
    hide Potential, LegWaste, Execute;
    if calls != [] {
      LeadsRuns(legs, maxLegs, calls[1..], Execute(legs, calls[0].call, w).value, w2);
    }
  }

  lemma {:induction false} LeadsTrans(
    legs: seq<ConvertLeg>, maxLegs: nat, a: seq<PlannedCall>, b: seq<PlannedCall>, w: Wallet, w1: Wallet, w2: Wallet)
    requires Leads(legs, maxLegs, a, w, w1) && Leads(legs, maxLegs, b, w1, w2)
    ensures Leads(legs, maxLegs, a + b, w, w2)
    decreases a
  {
    hide Execute, Keeps;
    if a == [] {
      assert a + b == b;
    } else {
      assert (a + b)[0] == a[0] && (a + b)[1..] == a[1..] + b;
      LeadsTrans(legs, maxLegs, a[1..], b, Execute(legs, a[0].call, w).value, w1, w2);
    }
  }

  /** Every prefix of a leading list leads too, and the rest leads on from there. */
  lemma {:induction false} LeadsSplit(
    legs: seq<ConvertLeg>, maxLegs: nat, calls: seq<PlannedCall>, w: Wallet, w2: Wallet, k: nat) returns (w1: Wallet)
    requires Leads(legs, maxLegs, calls, w, w2) && k <= |calls|
    ensures Leads(legs, maxLegs, calls[..k], w, w1) && Leads(legs, maxLegs, calls[k..], w1, w2)
    decreases calls
  {
    hide Execute, Keeps;
    if k == 0 {
      assert calls[..0] == [] && calls[0..] == calls;
      w1 := w;
    } else {
      w1 := LeadsSplit(legs, maxLegs, calls[1..], Execute(legs, calls[0].call, w).value, w2, k - 1);
      assert calls[..k][0] == calls[0] && calls[..k][1..] == calls[1..][..k - 1];
      assert calls[1..][k - 1..] == calls[k..];
    }
  }

  lemma {:induction false} LeadsNone(legs: seq<ConvertLeg>, maxLegs: nat, w: Wallet)
    ensures Leads(legs, maxLegs, [], w, w)
  {
  }

  lemma {:induction false} LeadsOne(legs: seq<ConvertLeg>, maxLegs: nat, c: PlannedCall, w: Wallet, w1: Wallet)
    requires Execute(legs, c.call, w) == Some(w1) && Keeps(legs, maxLegs, w, w1)
    ensures Leads(legs, maxLegs, [c], w, w1)
  {
    assert [c][1..] == [];
    assert Leads(legs, maxLegs, [], w1, w1);
  }

  lemma {:induction false} MergeOne(legs: seq<ConvertLeg>, maxLegs: nat, w: Wallet, i: nat, cid: ConditionId, a: nat)
    requires WellFormed(legs) && |w.bal| == |legs| && i < |legs| && legs[i].conditionId == Some(cid)
    requires a <= w.bal[i].no && a <= w.bal[i].yes
    ensures Leads(legs, maxLegs, [PlannedCall(MergeCall(cid, a), MERGE_GAS)], w,
                  Wallet(w.bal[i := Balance(w.bal[i].no - a, w.bal[i].yes - a)], w.cash + a))
  {
    var j := LegWith(legs, cid);
    assert j == i;
    MergeKeepsPotential(w, i, a);
    MergeKeepsWaste(legs, maxLegs, w.bal, i, a);
    LeadsOne(legs, maxLegs, PlannedCall(MergeCall(cid, a), MERGE_GAS), w, Apply(w, Merge(i, a)));
  }

  lemma {:induction false} MergeCallsAppend(a: Merges, cid: ConditionId, amount: nat)
    ensures MergeCalls(a + [(cid, amount)])
         == MergeCalls(a) + [PlannedCall(MergeCall(cid, amount), MERGE_GAS)]
    ensures SumAmounts(a + [(cid, amount)]) == SumAmounts(a) + amount
  {
    assert (a + [(cid, amount)])[..|a|] == a;
  }

  // ---------- The merges ----------

  function Merged(legs: seq<ConvertLeg>, bal: seq<Balance>, k: nat): seq<Balance>
    requires |legs| == |bal|
  {
    seq(|bal|, i requires 0 <= i < |bal| =>
      if i < k && legs[i].conditionId.Some?
      then var m := Min(bal[i].yes, bal[i].no); Balance(bal[i].no - m, bal[i].yes - m)
      else bal[i])
  }

  lemma {:induction false} MergedGrows(legs: seq<ConvertLeg>, bal: seq<Balance>, i: nat)
    requires i < |legs| == |bal|
    ensures var before, after := Merged(legs, bal, i), Merged(legs, bal, i + 1);
            var m := Min(bal[i].yes, bal[i].no);
            && |before| == |after| == |legs|
            && if Mergeable(legs[i], bal[i])
               then m <= before[i].no && m <= before[i].yes
                    && after == before[i := Balance(before[i].no - m, before[i].yes - m)]
               else after == before
  {
  }

  lemma {:induction false} MergePhase(legs: seq<ConvertLeg>, maxLegs: nat, bal: seq<Balance>, cash: nat, k: nat)
    requires WellFormed(legs) && |legs| == |bal| && k <= |legs|
    ensures Leads(legs, maxLegs, MergeCalls(MergesOf(legs, bal, k)), Wallet(bal, cash),
                  Wallet(Merged(legs, bal, k), cash + SumAmounts(MergesOf(legs, bal, k))))
  {
    hide Leads, Continues, WellFormed;
    if k == 0 {
      assert Merged(legs, bal, 0) == bal && MergeCalls([]) == [];
      LeadsNone(legs, maxLegs, Wallet(bal, cash));
    } else {
      hide Merged, MergeCalls, SumAmounts;
      var i, before := k - 1, MergesOf(legs, bal, k - 1);
      MergePhase(legs, maxLegs, bal, cash, i);
      MergedGrows(legs, bal, i);
      if Mergeable(legs[i], bal[i]) {
        MergeAfter(legs, maxLegs, before, Wallet(bal, cash),
                 Wallet(Merged(legs, bal, i), cash + SumAmounts(before)), i, Min(bal[i].yes, bal[i].no));
      } else {
        assert MergesOf(legs, bal, k) == before;
      }
    }
  }

  // ---------- What is in a tier ----------

  /** The tier's two lists, cut after the first `k` legs. */
  function TierUpTo(legs: seq<ConvertLeg>, bal: seq<Balance>, level: nat, amount: nat, maxLegs: nat, k: nat)
    : ConvertTier
    requires k <= |legs| == |bal|
  {
    TierAt(HoldingsOf(legs, bal, k), level, amount, maxLegs)
  }

  lemma {:induction false} MembersRank(legs: seq<ConvertLeg>, bal: seq<Balance>, level: nat, k: nat)
    requires k <= |legs| == |bal| && level > 0
    ensures |Members(HoldingsOf(legs, bal, k), level)| == Rank(bal, level, k)
  {
    if k > 0 {
      hide HoldingsOf, Members;
      MembersRank(legs, bal, level, k - 1);
      MembersGrow(legs, bal, level, k - 1);
    }
  }

  lemma {:induction false} TierNone(level: nat, amount: nat, maxLegs: nat)
    ensures TierAt([], level, amount, maxLegs).questionIds == []
    ensures TierAt([], level, amount, maxLegs).postMerges == []
  {
  }

  function HoldingAt(legs: seq<ConvertLeg>, bal: seq<Balance>, i: nat): NoHolding
    requires i < |legs| == |bal| && Remaining(bal[i]) > 0
  {
    NoHolding(legs[i].questionId, legs[i].conditionId, Remaining(bal[i]))
  }

  lemma {:induction false} MembersGrow(legs: seq<ConvertLeg>, bal: seq<Balance>, level: nat, k: nat)
    requires k < |legs| == |bal| && level > 0
    ensures var ms, ms' := Members(HoldingsOf(legs, bal, k), level), Members(HoldingsOf(legs, bal, k + 1), level);
            ms' == if Remaining(bal[k]) >= level then ms + [HoldingAt(legs, bal, k)] else ms
  {
    var hs, hs' := HoldingsOf(legs, bal, k), HoldingsOf(legs, bal, k + 1);
    if Remaining(bal[k]) > 0 {
      assert hs' == hs + [HoldingAt(legs, bal, k)] && hs'[..|hs|] == hs;
    } else {
      assert hs' == hs;
    }
  }

  /** A member more lands in the first `cap`, or after them. */
  lemma {:induction false} CutGrows(ms: seq<NoHolding>, h: NoHolding, cap: nat, amount: nat)
    ensures QuestionIds(Take(ms + [h], cap))
         == QuestionIds(Take(ms, cap)) + if |ms| < cap then [h.questionId] else []
    ensures PostMerges(Skip(ms + [h], cap), amount)
         == PostMerges(Skip(ms, cap), amount)
            + if |ms| >= cap && h.conditionId.Some? then [(h.conditionId.value, amount)] else []
  {
    if |ms| < cap {
      assert Take(ms + [h], cap) == ms + [h] && Skip(ms + [h], cap) == [] && Take(ms, cap) == ms;
    } else {
      var cut := Skip(ms, cap);
      assert Take(ms + [h], cap) == Take(ms, cap);
      assert Skip(ms + [h], cap) == cut + [h] && (cut + [h])[..|cut|] == cut;
    }
  }

  /** One leg more: it joins the index set, the compensating merges, or neither. */
  lemma {:induction false} TierGrows(
    legs: seq<ConvertLeg>, bal: seq<Balance>, level: nat, amount: nat, maxLegs: nat, k: nat)
    requires k < |legs| == |bal| && level > 0
    ensures TierUpTo(legs, bal, level, amount, maxLegs, k + 1).questionIds
         == TierUpTo(legs, bal, level, amount, maxLegs, k).questionIds
            + if InConvert(bal, level, maxLegs, k) then [legs[k].questionId] else []
    ensures TierUpTo(legs, bal, level, amount, maxLegs, k + 1).postMerges
         == TierUpTo(legs, bal, level, amount, maxLegs, k).postMerges
            + if InPost(legs, bal, level, maxLegs, k) then [(legs[k].conditionId.value, amount)] else []
  {
    hide HoldingsOf, Members, QuestionIds, PostMerges, Take, Skip, Rank, Remaining;
    MembersRank(legs, bal, level, k);
    MembersGrow(legs, bal, level, k);
    var ms := Members(HoldingsOf(legs, bal, k), level);
    if Remaining(bal[k]) >= level {
      CutGrows(ms, HoldingAt(legs, bal, k), maxLegs, amount);
    }
  }

  lemma {:induction false} TierMembers(
    legs: seq<ConvertLeg>, bal: seq<Balance>, level: nat, amount: nat, maxLegs: nat, k: nat)
    requires k <= |legs| == |bal| && level > 0
    ensures forall q :: q in TierUpTo(legs, bal, level, amount, maxLegs, k).questionIds
              <==> exists i :: 0 <= i < k && InConvert(bal, level, maxLegs, i) && q == legs[i].questionId
  {
    hide TierAt, InConvert, InPost;
    if k == 0 {
      TierNone(level, amount, maxLegs);
    } else {
      TierMembers(legs, bal, level, amount, maxLegs, k - 1);
      TierGrows(legs, bal, level, amount, maxLegs, k - 1);
    }
  }

  /** The index set names each leg converted once, at distinct positions. */
  lemma {:induction false} TierMask(
    legs: seq<ConvertLeg>, bal: seq<Balance>, level: nat, amount: nat, maxLegs: nat, mask: seq<bool>, k: nat)
    requires WellFormed(legs) && k <= |legs| == |bal| == |mask| && level > 0
    requires forall i :: 0 <= i < |legs| ==> mask[i] == InConvert(bal, level, maxLegs, i)
    ensures var qids := TierUpTo(legs, bal, level, amount, maxLegs, k).questionIds;
            |qids| == CountUpTo(mask, k) && DistinctPositions(qids)
  {
    hide TierAt, InConvert, InPost;
    if k == 0 {
      TierNone(level, amount, maxLegs);
    } else {
      TierMask(legs, bal, level, amount, maxLegs, mask, k - 1);
      TierGrows(legs, bal, level, amount, maxLegs, k - 1);
      TierMembers(legs, bal, level, amount, maxLegs, k - 1);
      var before := TierUpTo(legs, bal, level, amount, maxLegs, k - 1).questionIds;
      forall j | 0 <= j < |before| ensures before[j].last != legs[k - 1].questionId.last {
        assert before[j] in before;
      }
    }
  }

  // ---------- One tier ----------

  /** Balances once the convert and the compensating merges on the first `k` legs are done. */
  function AfterTier(legs: seq<ConvertLeg>, bal0: seq<Balance>, level: nat, a: nat, maxLegs: nat,
                     bal: seq<Balance>, k: nat): seq<Balance>
    requires |legs| == |bal0| == |bal|
    requires forall i :: 0 <= i < |bal| && Remaining(bal0[i]) >= level ==> a <= bal[i].no
  {
    seq(|bal|, i requires 0 <= i < |bal| =>
      if InConvert(bal0, level, maxLegs, i) || (i < k && InPost(legs, bal0, level, maxLegs, i))
      then Balance(bal[i].no - a, bal[i].yes)
      else Balance(bal[i].no, bal[i].yes + a))
  }

  /** On chain, the tier's bitmap decodes to the legs meant, and to no others. */
  lemma {:induction false} TierDecodes(
    legs: seq<ConvertLeg>, bal: seq<Balance>, level: nat, amount: nat, maxLegs: nat, mask: seq<bool>)
    requires WellFormed(legs) && |legs| == |bal| == |mask| && level > 0 && maxLegs > 0
    requires forall i :: 0 <= i < |legs| ==> mask[i] == InConvert(bal, level, maxLegs, i)
    requires exists i :: 0 <= i < |legs| && Remaining(bal[i]) >= level
    ensures var qids := TierUpTo(legs, bal, level, amount, maxLegs, |legs|).questionIds;
            && qids != []
            && PopCount(mask) == PopCount(IndexSetOf(qids)) == |qids|
            && BuildConvert(qids, amount).Ok?
            && Decode(legs, BuildConvert(qids, amount).value) == Some(Convert(mask, amount))
  {
    hide IndexSetOf, TierAt, Rank, Remaining, InConvert;
    var n := |legs|;
    var qids := TierUpTo(legs, bal, level, amount, maxLegs, n).questionIds;
    TierMembers(legs, bal, level, amount, maxLegs, n);
    TierMask(legs, bal, level, amount, maxLegs, mask, n);
    TierNonEmpty(legs, bal, level, amount, maxLegs);
    IndexSetPopCount(qids);
    var bits := IndexSetOf(qids);
    forall i | 0 <= i < n ensures MemberMask(legs, bits)[i] == mask[i] {
      IndexSetBits(qids, legs[i].questionId.last);
    }
    assert MemberMask(legs, bits) == mask;
    assert qids[0] in qids;
  }

  /** The legs these questions name. */
  function Naming(legs: seq<ConvertLeg>, qids: seq<QuestionId>): seq<bool> {
    seq(|legs|, i requires 0 <= i < |legs| => legs[i].questionId in qids)
  }

  ghost predicate AllNamed(legs: seq<ConvertLeg>, qids: seq<QuestionId>) {
    forall q :: q in qids ==> exists i :: 0 <= i < |legs| && legs[i].questionId == q
  }

  lemma {:induction false} NamingGrows(legs: seq<ConvertLeg>, rest: seq<QuestionId>, q: QuestionId)
    requires WellFormed(legs) && DistinctPositions(rest + [q]) && AllNamed(legs, rest + [q])
    ensures DistinctPositions(rest) && AllNamed(legs, rest)
    ensures PopCount(Naming(legs, rest + [q])) == PopCount(Naming(legs, rest)) + 1
  {
    hide CountUpTo;
    var qids := rest + [q];
    assert qids[|rest|] == q && q in qids && forall p :: p in rest ==> p in qids;
    assert forall k :: 0 <= k < |rest| ==> qids[k] == rest[k];
    var i :| 0 <= i < |legs| && legs[i].questionId == q;
    assert q !in rest;
    assert Naming(legs, qids) == Naming(legs, rest)[i := true] by {
      forall j | 0 <= j < |legs| ensures Naming(legs, qids)[j] == Naming(legs, rest)[i := true][j] {
        assert j != i ==> legs[j].questionId != q;
      }
    }
    CountSet(Naming(legs, rest), i, |legs|);
  }

  lemma {:induction false} NamingCount(legs: seq<ConvertLeg>, qids: seq<QuestionId>)
    requires WellFormed(legs) && DistinctPositions(qids) && AllNamed(legs, qids)
    ensures PopCount(Naming(legs, qids)) == |qids|
  {
    hide CountUpTo, WellFormed, AllNamed, Naming, DistinctPositions;
    if qids == [] {
      NamingNone(legs);
    } else {
      var rest, q := qids[..|qids| - 1], qids[|qids| - 1];
      assert qids == rest + [q];
      NamingGrows(legs, rest, q);
      NamingCount(legs, rest);
    }
  }

  lemma {:induction false} NamingNone(legs: seq<ConvertLeg>)
    ensures PopCount(Naming(legs, [])) == 0
  {
    assert CountUpTo(Naming(legs, []), |legs|) == 0;
  }

  /** Building a convert call and reading it on chain gives back the legs named, each once, and no
      other. */
  lemma {:induction false} ConvertRoundTrip(legs: seq<ConvertLeg>, qids: seq<QuestionId>, amount: nat)
    requires WellFormed(legs) && qids != [] && DistinctPositions(qids) && AllNamed(legs, qids)
    ensures BuildConvert(qids, amount).Ok?
    ensures Decode(legs, BuildConvert(qids, amount).value) == Some(Convert(Naming(legs, qids), amount))
    ensures PopCount(Naming(legs, qids)) == |qids|
  {
    hide IndexSetOf, CountUpTo;
    var bits := IndexSetOf(qids);
    IndexSetPopCount(qids);
    NamingCount(legs, qids);
    assert qids[0] in qids;
    forall i | 0 <= i < |legs| ensures MemberMask(legs, bits)[i] == Naming(legs, qids)[i] {
      IndexSetBits(qids, legs[i].questionId.last);
    }
    assert MemberMask(legs, bits) == Naming(legs, qids);
  }

  lemma {:induction false} TierNonEmpty(
    legs: seq<ConvertLeg>, bal: seq<Balance>, level: nat, amount: nat, maxLegs: nat)
    requires |legs| == |bal| && level > 0 && maxLegs > 0
    requires exists i :: 0 <= i < |legs| && Remaining(bal[i]) >= level
    ensures TierUpTo(legs, bal, level, amount, maxLegs, |legs|).questionIds != []
  {
    var first :| 0 <= first < |legs| && Remaining(bal[first]) >= level;
    RankAbove(bal, level, |legs|, first);
    MembersRank(legs, bal, level, |legs|);
    assert |QuestionIds(Take(Members(HoldingsOf(legs, bal, |legs|), level), maxLegs))| > 0;
  }

  /** The legs at `level` in the snapshot are those now holding `a` or more; the others hold none. */
  ghost predicate SameRanks(bal0: seq<Balance>, level: nat, bal: seq<Balance>, a: nat) {
    && |bal0| == |bal| && a > 0 && Stepped(bal, a)
    && forall i :: 0 <= i < |bal| ==> (Remaining(bal0[i]) >= level <==> Remaining(bal[i]) >= a)
  }

  lemma {:induction false} TierKeepsWaste(
    legs: seq<ConvertLeg>, bal0: seq<Balance>, level: nat, a: nat, maxLegs: nat, bal: seq<Balance>)
    requires |legs| == |bal0| == |bal| && SameRanks(bal0, level, bal, a)
    requires forall i :: 0 <= i < |legs| && Remaining(bal0[i]) >= level ==> a <= bal[i].no
    ensures SameWaste(legs, maxLegs, bal, AfterTier(legs, bal0, level, a, maxLegs, bal, 0))
  {
    var after := AfterTier(legs, bal0, level, a, maxLegs, bal, 0);
    forall i | 0 <= i < |bal| ensures InConvert(bal, a, maxLegs, i) == InConvert(bal0, level, maxLegs, i) {
      hide Remaining;
      RankAcross(bal, a, bal0, level, i);
    }
    ConvertKeepsWaste(legs, maxLegs, bal, after, a);
  }

  lemma {:induction false} ConvertPhase(
    legs: seq<ConvertLeg>, bal0: seq<Balance>, level: nat, a: nat, maxLegs: nat, w: Wallet)
    requires WellFormed(legs) && |legs| == |bal0| == |w.bal| && level > 0 && maxLegs > 0
    requires forall i :: 0 <= i < |legs| && Remaining(bal0[i]) >= level ==> a <= w.bal[i].no
    requires exists i :: 0 <= i < |legs| && Remaining(bal0[i]) >= level
    requires a <= TopExcess(w.bal, |w.bal|) && SameRanks(bal0, level, w.bal, a)
    ensures var qids := TierUpTo(legs, bal0, level, a, maxLegs, |legs|).questionIds;
            && qids != []
            && Leads(legs, maxLegs, [PlannedCall(BuildConvert(qids, a).value, ConvertGas(|legs|))], w,
                     Wallet(AfterTier(legs, bal0, level, a, maxLegs, w.bal, 0),
                            w.cash + ConvertProceeds(|qids|, a)))
  {
    hide Leads, Continues, TierAt, Decode, BuildConvert, IndexSetOf, Potential, PopCount, Rank;
    var n := |legs|;
    var qids := TierUpTo(legs, bal0, level, a, maxLegs, n).questionIds;
    var mask := seq(n, i requires 0 <= i < n => InConvert(bal0, level, maxLegs, i));
    TierDecodes(legs, bal0, level, a, maxLegs, mask);
    var s := Convert(mask, a);
    StepPotential(w, s);
    assert Apply(w, s).bal == AfterTier(legs, bal0, level, a, maxLegs, w.bal, 0);
    TierKeepsWaste(legs, bal0, level, a, maxLegs, w.bal);
    LeadsOne(legs, maxLegs, PlannedCall(BuildConvert(qids, a).value, ConvertGas(n)), w, Apply(w, s));
  }

  lemma {:induction false} AfterTierGrows(
    legs: seq<ConvertLeg>, bal0: seq<Balance>, level: nat, a: nat, maxLegs: nat, bal: seq<Balance>, i: nat)
    requires i < |legs| == |bal0| == |bal|
    requires forall j :: 0 <= j < |legs| && Remaining(bal0[j]) >= level ==> a <= bal[j].no
    ensures var before := AfterTier(legs, bal0, level, a, maxLegs, bal, i);
            var after := AfterTier(legs, bal0, level, a, maxLegs, bal, i + 1);
            && |before| == |after| == |legs|
            && if InPost(legs, bal0, level, maxLegs, i)
               then a <= before[i].no && a <= before[i].yes
                    && after == before[i := Balance(before[i].no - a, before[i].yes - a)]
               else after == before
  {
    hide Rank;
  }

  lemma {:induction false} PostPhase(
    legs: seq<ConvertLeg>, bal0: seq<Balance>, level: nat, a: nat, maxLegs: nat, bal: seq<Balance>, cash: nat, k: nat)
    requires WellFormed(legs) && k <= |legs| == |bal0| == |bal| && level > 0
    requires forall i :: 0 <= i < |legs| && Remaining(bal0[i]) >= level ==> a <= bal[i].no
    ensures var post := TierUpTo(legs, bal0, level, a, maxLegs, k).postMerges;
            Leads(legs, maxLegs, MergeCalls(post),
                  Wallet(AfterTier(legs, bal0, level, a, maxLegs, bal, 0), cash),
                  Wallet(AfterTier(legs, bal0, level, a, maxLegs, bal, k), cash + SumAmounts(post)))
  {
    hide *;
    var start := Wallet(AfterTier(legs, bal0, level, a, maxLegs, bal, 0), cash);
    if k == 0 {
      TierNone(level, a, maxLegs);
      NoMoreMerges(legs, bal0, level, a, maxLegs, start);
    } else {
      var i := k - 1;
      PostPhase(legs, bal0, level, a, maxLegs, bal, cash, i);
      TierGrows(legs, bal0, level, a, maxLegs, i);
      AfterTierGrows(legs, bal0, level, a, maxLegs, bal, i);
      var post := TierUpTo(legs, bal0, level, a, maxLegs, i).postMerges;
      var mid := Wallet(AfterTier(legs, bal0, level, a, maxLegs, bal, i), cash + SumAmounts(post));
      if InPost(legs, bal0, level, maxLegs, i) {
        CidOf(legs, bal0, level, maxLegs, i);
        MergeAfter(legs, maxLegs, post, start, mid, i, a);
      } else {
        assert post + [] == post;
      }
    }
  }

  lemma {:induction false} NoMoreMerges(
    legs: seq<ConvertLeg>, bal0: seq<Balance>, level: nat, a: nat, maxLegs: nat, w: Wallet)
    requires |legs| == |bal0|
    ensures TierUpTo(legs, bal0, level, a, maxLegs, 0).postMerges == []
    ensures Leads(legs, maxLegs, MergeCalls([]), w, w) && SumAmounts([]) == 0
  {
    TierNone(level, a, maxLegs);
    assert MergeCalls([]) == [];
    LeadsNone(legs, maxLegs, w);
  }

  lemma {:induction false} CidOf(legs: seq<ConvertLeg>, bal: seq<Balance>, level: nat, maxLegs: nat, i: nat)
    requires i < |legs| == |bal| && InPost(legs, bal, level, maxLegs, i)
    ensures legs[i].conditionId.Some?
  {
  }

  /** One more merge after those of `post`. */
  lemma {:induction false} MergeAfter(
    legs: seq<ConvertLeg>, maxLegs: nat, post: Merges, start: Wallet, mid: Wallet, i: nat, a: nat)
    requires WellFormed(legs) && i < |legs| == |mid.bal| && legs[i].conditionId.Some?
    requires a <= mid.bal[i].no && a <= mid.bal[i].yes
    requires Leads(legs, maxLegs, MergeCalls(post), start, mid)
    ensures var longer := post + [(legs[i].conditionId.value, a)];
            && SumAmounts(longer) == SumAmounts(post) + a
            && Leads(legs, maxLegs, MergeCalls(longer), start,
                     Wallet(mid.bal[i := Balance(mid.bal[i].no - a, mid.bal[i].yes - a)], mid.cash + a))
  {
    hide Leads, Continues, MergeCalls, SumAmounts, WellFormed;
    var cid := legs[i].conditionId.value;
    MergeCallsAppend(post, cid, a);
    MergeOne(legs, maxLegs, mid, i, cid, a);
    LeadsTrans(legs, maxLegs, MergeCalls(post), [PlannedCall(MergeCall(cid, a), MERGE_GAS)], start, mid,
               Wallet(mid.bal[i := Balance(mid.bal[i].no - a, mid.bal[i].yes - a)], mid.cash + a));
  }

  lemma {:induction false} TierPhase(
    legs: seq<ConvertLeg>, bal0: seq<Balance>, level: nat, a: nat, maxLegs: nat, w: Wallet)
    requires WellFormed(legs) && |legs| == |bal0| == |w.bal| && level > 0 && maxLegs > 0
    requires forall i :: 0 <= i < |legs| && Remaining(bal0[i]) >= level ==> a <= w.bal[i].no
    requires exists i :: 0 <= i < |legs| && Remaining(bal0[i]) >= level
    requires a <= TopExcess(w.bal, |w.bal|) && SameRanks(bal0, level, w.bal, a)
    ensures var tier := TierUpTo(legs, bal0, level, a, maxLegs, |legs|);
            && tier.questionIds != []
            && Leads(legs, maxLegs, TierCalls(tier, |legs|), w,
                     Wallet(AfterTier(legs, bal0, level, a, maxLegs, w.bal, |legs|),
                            w.cash + TierProceeds(tier)))
  {
    hide Leads, Continues, Members, QuestionIds, PostMerges, AfterTier, Rank, IndexSetOf, TopExcess,
         SumAmounts, HoldingsOf;
    var n := |legs|;
    var tier := TierUpTo(legs, bal0, level, a, maxLegs, n);
    ConvertPhase(legs, bal0, level, a, maxLegs, w);
    var cash := w.cash + ConvertProceeds(|tier.questionIds|, a);
    PostPhase(legs, bal0, level, a, maxLegs, w.bal, cash, n);
    LeadsTrans(legs, maxLegs, [PlannedCall(BuildConvert(tier.questionIds, a).value, ConvertGas(n))],
               MergeCalls(tier.postMerges), w,
               Wallet(AfterTier(legs, bal0, level, a, maxLegs, w.bal, 0), cash),
               Wallet(AfterTier(legs, bal0, level, a, maxLegs, w.bal, n), cash + SumAmounts(tier.postMerges)));
  }

  // ---------- All tiers ----------

  /** Leg state once every tier up to `level` is done, starting from snapshot balance `b0`.
      `rank` counts the earlier legs with NO remaining. */
  ghost predicate LegAt(leg: ConvertLeg, b0: Balance, rank: nat, maxLegs: nat, level: nat, b: Balance) {
    var r := Remaining(b0);
    && b.no - b.yes == b0.no - b0.yes - level
    && (leg.conditionId.Some? ==> b.no == r - Min(r, level))
    && (leg.conditionId.None? ==>
          && b0.no - Min(r, level) <= b.no <= b0.no
          && (b.no == b0.no - Min(r, level) <==> rank < maxLegs || r == 0 || level == 0))
  }

  ghost predicate AtLevel(legs: seq<ConvertLeg>, bal0: seq<Balance>, maxLegs: nat, level: nat, bal: seq<Balance>)
    requires |legs| == |bal0|
  {
    && |bal| == |bal0|
    && forall i :: 0 <= i < |bal| ==> LegAt(legs[i], bal0[i], Rank(bal0, 1, i), maxLegs, level, bal[i])
  }

  /** `levels` are the distinct remaining amounts above `prev`. */
  ghost predicate Pending(bal: seq<Balance>, levels: seq<nat>, prev: nat) {
    && Ascending(prev, levels)
    && (forall i :: 0 <= i < |bal| && Remaining(bal[i]) > prev ==> Remaining(bal[i]) in levels)
    && (forall x :: x in levels ==> exists i :: 0 <= i < |bal| && Remaining(bal[i]) == x)
  }

  /** Nothing remains above `level`, except on at most one leg whose excess is below the floor. */
  ghost predicate Settled(bal: seq<Balance>, level: nat, floor: nat) {
    || (forall i :: 0 <= i < |bal| ==> Remaining(bal[i]) <= level)
    || (exists s :: 0 <= s < |bal| && LoneAbove(bal, level, floor, s))
  }

  ghost predicate LoneAbove(bal: seq<Balance>, level: nat, floor: nat, s: nat)
    requires s < |bal|
  {
    && level < Remaining(bal[s]) < level + floor
    && forall i :: 0 <= i < |bal| && i != s ==> Remaining(bal[i]) <= level
  }

  lemma {:induction false} AscendingLeast(prev: nat, levels: seq<nat>, x: nat)
    requires Ascending(prev, levels) && x in levels
    ensures prev < levels[0] <= x
    decreases levels
  {
    if x != levels[0] {
      AscendingLeast(levels[0], levels[1..], x);
    }
  }

  lemma {:induction false} PendingFirst(bal: seq<Balance>, levels: seq<nat>, prev: nat)
    requires Pending(bal, levels, prev) && levels != []
    ensures prev < levels[0]
    ensures exists i :: 0 <= i < |bal| && Remaining(bal[i]) == levels[0]
    ensures forall i :: 0 <= i < |bal| && Remaining(bal[i]) > prev ==> Remaining(bal[i]) >= levels[0]
    ensures Pending(bal, levels[1..], levels[0])
  {
    assert levels[0] in levels;
    forall i | 0 <= i < |bal| && Remaining(bal[i]) > prev ensures Remaining(bal[i]) >= levels[0] {
      AscendingLeast(prev, levels, Remaining(bal[i]));
    }
    forall i | 0 <= i < |bal| && Remaining(bal[i]) > levels[0] ensures Remaining(bal[i]) in levels[1..] {
      assert Remaining(bal[i]) in levels;
    }
    forall x | x in levels[1..] ensures exists i :: 0 <= i < |bal| && Remaining(bal[i]) == x {
      assert x in levels;
    }
  }

  /** A dropped level belongs to one leg only: the `break` never discards a wider tier. */
  lemma {:induction false} DropIsLone(legs: seq<ConvertLeg>, bal: seq<Balance>, levels: seq<nat>, prev: nat, floor: nat)
    requires |legs| == |bal| && Pending(bal, levels, prev) && levels != []
    requires LoneDust(HoldingsOf(legs, bal, |legs|), levels[0], levels[0] - prev, floor)
    ensures exists s :: 0 <= s < |bal| && LoneAbove(bal, prev, floor, s)
  {
    PendingFirst(bal, levels, prev);
    MembersRank(legs, bal, levels[0], |legs|);
    var s :| 0 <= s < |bal| && Remaining(bal[s]) == levels[0];
    forall i | 0 <= i < |bal| && i != s ensures Remaining(bal[i]) <= prev {
      if Remaining(bal[i]) > prev {
        if i < s { RankOne(bal, levels[0], |bal|, i, s); } else { RankOne(bal, levels[0], |bal|, s, i); }
      }
    }
    assert LoneAbove(bal, prev, floor, s);
  }

  /** One leg's part of raising the level from `prev` to `level`. */
  lemma {:induction false} LegRaises(
    legs: seq<ConvertLeg>, bal0: seq<Balance>, prev: nat, level: nat, maxLegs: nat, bal: seq<Balance>, i: nat)
    requires i < |legs| == |bal0| == |bal| && prev < level
    requires forall j :: 0 <= j < |legs| && Remaining(bal0[j]) >= level ==> level - prev <= bal[j].no
    requires forall j :: 0 <= j < |bal0| && Remaining(bal0[j]) > prev ==> Remaining(bal0[j]) >= level
    requires LegAt(legs[i], bal0[i], Rank(bal0, 1, i), maxLegs, prev, bal[i])
    ensures LegAt(legs[i], bal0[i], Rank(bal0, 1, i), maxLegs, level,
                  AfterTier(legs, bal0, level, level - prev, maxLegs, bal, |legs|)[i])
  {
    RankFalls(bal0, 1, level, i);
    if prev == 0 {
      RankSame(bal0, 1, level, i);
    }
  }

  lemma {:induction false} LevelRanks(
    legs: seq<ConvertLeg>, bal0: seq<Balance>, prev: nat, level: nat, maxLegs: nat, bal: seq<Balance>)
    requires |legs| == |bal0| && prev < level && AtLevel(legs, bal0, maxLegs, prev, bal)
    requires forall i :: 0 <= i < |bal0| && Remaining(bal0[i]) > prev ==> Remaining(bal0[i]) >= level
    ensures SameRanks(bal0, level, bal, level - prev)
  {
    hide Rank;
    forall i | 0 <= i < |bal| ensures Remaining(bal[i]) == Max(0, Remaining(bal0[i]) - prev) {
      assert LegAt(legs[i], bal0[i], Rank(bal0, 1, i), maxLegs, prev, bal[i]);
    }
  }

  lemma {:induction false} TierRaisesLevel(
    legs: seq<ConvertLeg>, bal0: seq<Balance>, prev: nat, level: nat, maxLegs: nat, bal: seq<Balance>)
    requires |legs| == |bal0| && prev < level
    requires exists i :: 0 <= i < |bal0| && Remaining(bal0[i]) == level
    requires forall i :: 0 <= i < |bal0| && Remaining(bal0[i]) > prev ==> Remaining(bal0[i]) >= level
    requires AtLevel(legs, bal0, maxLegs, prev, bal)
    ensures |bal| == |legs|
    ensures forall i :: 0 <= i < |bal| && Remaining(bal0[i]) >= level ==> level - prev <= bal[i].no
    ensures level - prev <= TopExcess(bal, |bal|) && SameRanks(bal0, level, bal, level - prev)
    ensures AtLevel(legs, bal0, maxLegs, level,
                    AfterTier(legs, bal0, level, level - prev, maxLegs, bal, |legs|))
  {
    hide Rank, SameRanks;
    forall i | 0 <= i < |bal| && Remaining(bal0[i]) >= level ensures level - prev <= bal[i].no {
      assert LegAt(legs[i], bal0[i], Rank(bal0, 1, i), maxLegs, prev, bal[i]);
    }
    var top :| 0 <= top < |bal0| && Remaining(bal0[top]) == level;
    assert LegAt(legs[top], bal0[top], Rank(bal0, 1, top), maxLegs, prev, bal[top]);
    assert Excess(bal[top]) == level - prev;
    LevelRanks(legs, bal0, prev, level, maxLegs, bal);
    var after := AfterTier(legs, bal0, level, level - prev, maxLegs, bal, |legs|);
    forall i | 0 <= i < |bal|
      ensures LegAt(legs[i], bal0[i], Rank(bal0, 1, i), maxLegs, level, after[i])
    {
      hide LegAt, AfterTier;
      LegRaises(legs, bal0, prev, level, maxLegs, bal, i);
    }
  }

  lemma {:induction false} TiersCons(tier: ConvertTier, rest: seq<ConvertTier>, nLegs: nat)
    ensures TiersCalls([tier] + rest, nLegs) == TierCalls(tier, nLegs) + TiersCalls(rest, nLegs)
    ensures TiersProceeds([tier] + rest) == TierProceeds(tier) + TiersProceeds(rest)
  {
    assert ([tier] + rest)[1..] == rest;
  }

  lemma {:induction false} TierStep(
    legs: seq<ConvertLeg>, bal0: seq<Balance>, levels: seq<nat>, prev: nat, maxLegs: nat, w: Wallet)
    returns (mid: Wallet)
    requires WellFormed(legs) && |legs| == |bal0| && maxLegs > 0 && levels != []
    requires Pending(bal0, levels, prev) && AtLevel(legs, bal0, maxLegs, prev, w.bal)
    ensures prev < levels[0] && Pending(bal0, levels[1..], levels[0])
    ensures AtLevel(legs, bal0, maxLegs, levels[0], mid.bal)
    ensures var tier := TierAt(HoldingsOf(legs, bal0, |legs|), levels[0], levels[0] - prev, maxLegs);
            && tier.questionIds != []
            && Leads(legs, maxLegs, TierCalls(tier, |legs|), w, mid)
            && mid.cash == w.cash + TierProceeds(tier)
  {
    hide Leads, Continues, Pending, AtLevel, HoldingsOf, TierAt, AfterTier, TierProceeds, TierCalls, TopExcess;
    var level, a := levels[0], levels[0] - prev;
    PendingFirst(bal0, levels, prev);
    TierRaisesLevel(legs, bal0, prev, level, maxLegs, w.bal);
    TierPhase(legs, bal0, level, a, maxLegs, w);
    mid := Wallet(AfterTier(legs, bal0, level, a, maxLegs, w.bal, |legs|),
                  w.cash + TierProceeds(TierUpTo(legs, bal0, level, a, maxLegs, |legs|)));
  }

  lemma {:induction false} TiersPhase(
    legs: seq<ConvertLeg>, bal0: seq<Balance>, levels: seq<nat>, prev: nat, floor: nat, maxLegs: nat, w: Wallet)
    returns (level: nat, w2: Wallet)
    requires WellFormed(legs) && |legs| == |bal0| && maxLegs > 0
    requires Pending(bal0, levels, prev) && AtLevel(legs, bal0, maxLegs, prev, w.bal)
    ensures var tiers := TiersFrom(HoldingsOf(legs, bal0, |legs|), levels, prev, floor, maxLegs);
            && (forall i :: 0 <= i < |tiers| ==> tiers[i].questionIds != [] && tiers[i].amount > 0)
            && Leads(legs, maxLegs, TiersCalls(tiers, |legs|), w, w2)
            && w2.cash == w.cash + TiersProceeds(tiers)
    ensures AtLevel(legs, bal0, maxLegs, level, w2.bal) && Settled(bal0, level, floor)
    decreases levels
  {
    hide Leads, Continues, AtLevel, HoldingsOf, Members, QuestionIds, PostMerges, TierProceeds, TierCalls;
    var hs := HoldingsOf(legs, bal0, |legs|);
    if levels == [] {
      LeadsNone(legs, maxLegs, w);
      level, w2 := prev, w;
      assert Settled(bal0, level, floor);
    } else if LoneDust(hs, levels[0], levels[0] - prev, floor) {
      LeadsNone(legs, maxLegs, w);
      DropIsLone(legs, bal0, levels, prev, floor);
      level, w2 := prev, w;
    } else {
      var tier := TierAt(hs, levels[0], levels[0] - prev, maxLegs);
      var mid := TierStep(legs, bal0, levels, prev, maxLegs, w);
      level, w2 := TiersPhase(legs, bal0, levels[1..], levels[0], floor, maxLegs, mid);
      var rest := TiersFrom(hs, levels[1..], levels[0], floor, maxLegs);
      TiersCons(tier, rest, |legs|);
      LeadsTrans(legs, maxLegs, TierCalls(tier, |legs|), TiersCalls(rest, |legs|), w, mid, w2);
    }
  }

  lemma {:induction false} HoldingsRemaining(legs: seq<ConvertLeg>, bal: seq<Balance>, k: nat, x: nat)
    requires k <= |legs| == |bal|
    ensures (exists j :: 0 <= j < |HoldingsOf(legs, bal, k)| && HoldingsOf(legs, bal, k)[j].remainingNo == x)
       <==> (x > 0 && exists i :: 0 <= i < k && Remaining(bal[i]) == x)
  {
    if k > 0 {
      HoldingsRemaining(legs, bal, k - 1, x);
      var hs, hs' := HoldingsOf(legs, bal, k - 1), HoldingsOf(legs, bal, k);
      assert forall j :: 0 <= j < |hs| ==> hs'[j] == hs[j];
      if Remaining(bal[k - 1]) > 0 {
        assert hs'[|hs|].remainingNo == Remaining(bal[k - 1]);
      }
    }
  }

  lemma {:induction false} LevelsPending(legs: seq<ConvertLeg>, bal: seq<Balance>)
    requires |legs| == |bal|
    ensures Pending(bal, LevelsOf(HoldingsOf(legs, bal, |legs|)), 0)
  {
    var hs := HoldingsOf(legs, bal, |legs|);
    var amounts := seq(|hs|, i requires 0 <= i < |hs| => hs[i].remainingNo as nat);
    LevelsAscend(hs);
    forall i | 0 <= i < |bal| && Remaining(bal[i]) > 0 ensures Remaining(bal[i]) in LevelsOf(hs) {
      HoldingsRemaining(legs, bal, |legs|, Remaining(bal[i]));
      var j :| 0 <= j < |hs| && hs[j].remainingNo == Remaining(bal[i]);
      assert amounts[j] == Remaining(bal[i]);
    }
    forall x | x in LevelsOf(hs) ensures exists i :: 0 <= i < |bal| && Remaining(bal[i]) == x {
      var j :| 0 <= j < |amounts| && amounts[j] == x;
      assert hs[j].remainingNo == x;
      HoldingsRemaining(legs, bal, |legs|, x);
    }
  }

  lemma {:induction false} MergedIsLevelZero(legs: seq<ConvertLeg>, bal: seq<Balance>, maxLegs: nat)
    requires |legs| == |bal|
    ensures AtLevel(legs, bal, maxLegs, 0, Merged(legs, bal, |legs|))
  {
    hide Rank;
  }

  /** The whole plan of one event. */
  lemma {:induction false} PlanPhase(legs: seq<ConvertLeg>, bal: seq<Balance>, cash: nat, floor: nat, maxLegs: nat)
    returns (level: nat, w2: Wallet)
    requires WellFormed(legs) && |legs| == |bal| && maxLegs > 0
    ensures var plan := Plan(legs, bal, floor, maxLegs);
            && Buildable(plan)
            && (forall i :: 0 <= i < |plan.tiers| ==> plan.tiers[i].amount > 0)
            && Leads(legs, maxLegs, EventCalls(plan), Wallet(bal, cash), w2)
            && w2.cash == cash + plan.proceeds
    ensures AtLevel(legs, bal, maxLegs, level, w2.bal) && Settled(bal, level, floor)
  {
    hide Leads, Continues, HoldingsOf, MergesOf, TiersFrom, TiersCalls, LevelsOf, Settled, AtLevel, Merged,
         Pending, MergeCalls, WellFormed, SumAmounts, TiersProceeds, Ascending;
    var n := |legs|;
    var plan := Plan(legs, bal, floor, maxLegs);
    MergePhase(legs, maxLegs, bal, cash, n);
    var mid := Wallet(Merged(legs, bal, n), cash + SumAmounts(plan.merges));
    MergedIsLevelZero(legs, bal, maxLegs);
    LevelsPending(legs, bal);
    level, w2 := TiersPhase(legs, bal, LevelsOf(HoldingsOf(legs, bal, n)), 0, floor, maxLegs, mid);
    LeadsTrans(legs, maxLegs, MergeCalls(plan.merges), TiersCalls(plan.tiers, n), Wallet(bal, cash), mid, w2);
  }
}
