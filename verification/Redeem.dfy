/** One pass over a wallet's resolved positions: grouping the rows listed, planning redemptions from the
    balances held, and submitting them in batches against an arbitrary sequence of relayer replies. */
module Redeem {
  import opened Prelude
  import opened Legs
  import opened Executor

  const BALANCE_READ_CHUNK: nat := 500

  datatype Side = Yes | No | Other

  /** A redeemable row; ids that do not parse are `None`. */
  datatype Row = Row(conditionId: Option<ConditionId>, asset: Option<TokenId>, side: Side, negRisk: bool)

  datatype RedeemGroup = RedeemGroup(
    conditionId: ConditionId, yesToken: Option<TokenId>, noToken: Option<TokenId>, negRisk: bool)

  datatype Redemption = Redemption(conditionId: ConditionId, yesAmount: nat, noAmount: nat, negRisk: bool)

  datatype RedeemOptions = RedeemOptions(
    minSharesRaw: nat, batchSize: nat, maxConditions: nat, busyRetries: nat, batchMaxRetries: nat)

  // ---------- Grouping ----------

  predicate Parses(row: Row) {
    row.conditionId.Some? && row.asset.Some?
  }

  predicate IsFor(row: Row, cid: ConditionId) {
    Parses(row) && row.conditionId == Some(cid)
  }

  /** Condition ids of the first `k` rows, first seen first. */
  function SeenConditions(rows: seq<Row>, k: nat): seq<ConditionId>
    requires k <= |rows|
  {
    if k == 0 then []
    else
      var before := SeenConditions(rows, k - 1);
      if Parses(rows[k - 1]) && rows[k - 1].conditionId.value !in before
      then before + [rows[k - 1].conditionId.value] else before
  }

  /** The last row naming a token on this side decides it; the first row decides the redeem path. */
  function GroupFor(rows: seq<Row>, cid: ConditionId, k: nat): RedeemGroup
    requires k <= |rows|
  {
    if k == 0 then RedeemGroup(cid, None, None, false)
    else
      var g, row := GroupFor(rows, cid, k - 1), rows[k - 1];
      if !IsFor(row, cid) then g
      else
        var g1 := if cid in SeenConditions(rows, k - 1) then g else g.(negRisk := row.negRisk);
        match row.side
        case Yes => g1.(yesToken := row.asset)
        case No => g1.(noToken := row.asset)
        case Other => g1
  }

  function GroupsOf(rows: seq<Row>): seq<RedeemGroup> {
    var cids := SeenConditions(rows, |rows|);
    seq(|cids|, i requires 0 <= i < |cids| => GroupFor(rows, cids[i], |rows|))
  }

  lemma {:induction false} SeenAreDistinct(rows: seq<Row>, k: nat)
    requires k <= |rows|
    ensures Distinct(SeenConditions(rows, k))
    ensures forall cid :: cid in SeenConditions(rows, k) <==> exists i :: 0 <= i < k && IsFor(rows[i], cid)
  {
    if k > 0 {
      SeenAreDistinct(rows, k - 1);
    }
  }

  /** Row `i` is the first of its condition. */
  ghost predicate FirstOfCondition(rows: seq<Row>, i: int) {
    0 <= i < |rows| && Parses(rows[i])
    && forall j :: 0 <= j < i ==> !IsFor(rows[j], rows[i].conditionId.value)
  }

  /** Conditions come in the order of their first rows: `at` says which. */
  lemma {:induction false} SeenInOrder(rows: seq<Row>, k: nat) returns (at: seq<nat>)
    requires k <= |rows|
    ensures |at| == |SeenConditions(rows, k)|
    ensures forall n :: 0 <= n < |at| ==>
              at[n] < k && FirstOfCondition(rows, at[n]) && IsFor(rows[at[n]], SeenConditions(rows, k)[n])
    ensures forall n, m :: 0 <= n < m < |at| ==> at[n] < at[m]
  {
    if k == 0 {
      at := [];
    } else {
      at := SeenInOrder(rows, k - 1);
      SeenAreDistinct(rows, k - 1);
      if Parses(rows[k - 1]) && rows[k - 1].conditionId.value !in SeenConditions(rows, k - 1) {
        at := at + [k - 1];
      }
    }
  }

  lemma {:induction false} UnseenGroup(rows: seq<Row>, cid: ConditionId, k: nat)
    requires k <= |rows| && cid !in SeenConditions(rows, k)
    ensures GroupFor(rows, cid, k) == RedeemGroup(cid, None, None, false)
  {
    if k > 0 {
      UnseenGroup(rows, cid, k - 1);
    }
  }

  /** The last row of a condition naming this side, or -1. */
  function LastRow(rows: seq<Row>, cid: ConditionId, side: Side, k: nat): (i: int)
    requires k <= |rows|
    ensures -1 <= i < k
    ensures i >= 0 ==> IsFor(rows[i], cid) && rows[i].side == side
    ensures forall j :: i < j < k && IsFor(rows[j], cid) ==> rows[j].side != side
  {
    if k == 0 then -1
    else if IsFor(rows[k - 1], cid) && rows[k - 1].side == side then k - 1
    else LastRow(rows, cid, side, k - 1)
  }

  /** A group's token on a side is the last row's naming it; its path is the first row's. */
  lemma {:induction false} GroupIs(rows: seq<Row>, cid: ConditionId, k: nat)
    requires k <= |rows|
    ensures var g, y, n := GroupFor(rows, cid, k), LastRow(rows, cid, Yes, k), LastRow(rows, cid, No, k);
            && g.conditionId == cid
            && g.yesToken == (if y < 0 then None else rows[y].asset)
            && g.noToken == (if n < 0 then None else rows[n].asset)
    ensures forall i :: 0 <= i < k && IsFor(rows[i], cid) && (forall j :: 0 <= j < i ==> !IsFor(rows[j], cid)) ==>
              GroupFor(rows, cid, k).negRisk == rows[i].negRisk
  {
    if k > 0 {
      GroupIs(rows, cid, k - 1);
      SeenAreDistinct(rows, k - 1);
    }
  }

  method GroupRedeemable(rows: seq<Row>) returns (groups: seq<RedeemGroup>)
    ensures groups == GroupsOf(rows)
  {
    var order: seq<ConditionId> := [];
    var byCond: map<ConditionId, RedeemGroup> := map[];
    for k := 0 to |rows|
      invariant order == SeenConditions(rows, k)
      invariant forall cid :: cid in byCond <==> cid in order
      invariant forall cid :: cid in order ==> byCond[cid] == GroupFor(rows, cid, k)
    {
      var row := rows[k];
      if !Parses(row) {
        continue;
      }
      var cid := row.conditionId.value;
      if cid !in byCond {
        UnseenGroup(rows, cid, k);
        order := order + [cid];
        byCond := byCond[cid := RedeemGroup(cid, None, None, row.negRisk)];
      }
      match row.side
      case Yes => byCond := byCond[cid := byCond[cid].(yesToken := row.asset)];
      case No => byCond := byCond[cid := byCond[cid].(noToken := row.asset)];
      case Other =>
    }
    groups := seq(|order|, i requires 0 <= i < |order| && order[i] in byCond => byCond[order[i]]);
  }

  // ---------- What to redeem ----------

  /** On-chain balances; tokens not listed are not held. */
  type Holdings = map<TokenId, nat>

  function BalanceIn(chain: Holdings, token: TokenId): nat {
    if token in chain then chain[token] else 0
  }

  function Held(chain: Holdings, token: Option<TokenId>): nat {
    match token
    case None => 0
    case Some(t) => BalanceIn(chain, t)
  }

  function Total(chain: Holdings, g: RedeemGroup): nat {
    Held(chain, g.yesToken) + Held(chain, g.noToken)
  }

  predicate Plannable(chain: Holdings, g: RedeemGroup, minRaw: nat) {
    Total(chain, g) != 0 && Total(chain, g) >= minRaw
  }

  function RedemptionOf(chain: Holdings, g: RedeemGroup): Redemption {
    Redemption(g.conditionId, Held(chain, g.yesToken), Held(chain, g.noToken), g.negRisk)
  }

  /** Plannable groups paired with their balances, in order. */
  function BuildRedemptions(groups: seq<RedeemGroup>, chain: Holdings, minRaw: nat): seq<Redemption> {
    if groups == [] then []
    else
      var g := groups[|groups| - 1];
      BuildRedemptions(groups[..|groups| - 1], chain, minRaw)
      + if Plannable(chain, g, minRaw) then [RedemptionOf(chain, g)] else []
  }

  /** A redemption is planned for exactly the conditions held at or above the floor, and not at zero. */
  lemma {:induction false} BuiltAre(groups: seq<RedeemGroup>, chain: Holdings, minRaw: nat, r: Redemption)
    ensures r in BuildRedemptions(groups, chain, minRaw)
       <==> exists i :: 0 <= i < |groups| && Plannable(chain, groups[i], minRaw) && r == RedemptionOf(chain, groups[i])
  {
    hide Plannable, RedemptionOf;
    if groups != [] {
      var n := |groups| - 1;
      BuiltAre(groups[..n], chain, minRaw, r);
      assert forall i :: 0 <= i < n ==> groups[..n][i] == groups[i];
    }
  }

  /** One redemption per plannable group, in the groups' order, with the amounts held: `at` says of
      which. */
  lemma {:induction false} BuiltInOrder(groups: seq<RedeemGroup>, chain: Holdings, minRaw: nat) returns (at: seq<nat>)
    ensures |at| == |BuildRedemptions(groups, chain, minRaw)|
    ensures forall n :: 0 <= n < |at| ==>
              at[n] < |groups| && Redeems(BuildRedemptions(groups, chain, minRaw)[n], groups[at[n]], chain)
    ensures forall n, m :: 0 <= n < m < |at| ==> at[n] < at[m]
    ensures forall i :: 0 <= i < |groups| ==>
              (i in at <==> 0 < Total(chain, groups[i]) && minRaw <= Total(chain, groups[i]))
  {
    hide Total, Redeems, RedemptionOf;
    if groups == [] {
      at := [];
    } else {
      var n := |groups| - 1;
      var before := BuiltInOrder(groups[..n], chain, minRaw);
      BuiltGrows(groups, chain, minRaw);
      hide BuildRedemptions;
      assert forall i :: 0 <= i < n ==> groups[..n][i] == groups[i];
      at := before + if Plannable(chain, groups[n], minRaw) then [n] else [];
      assert forall i :: 0 <= i < |groups| ==>
          (i in at <==> i in before || (i == n && Plannable(chain, groups[n], minRaw)));
      assert n !in before;
    }
  }

  /** The redemption is of this group: its condition, what is held of each token, its path. */
  ghost predicate Redeems(r: Redemption, g: RedeemGroup, chain: Holdings) {
    && r.conditionId == g.conditionId && r.negRisk == g.negRisk
    && r.yesAmount == (if g.yesToken.Some? then BalanceIn(chain, g.yesToken.value) else 0)
    && r.noAmount == (if g.noToken.Some? then BalanceIn(chain, g.noToken.value) else 0)
  }

  lemma {:induction false} BuiltGrows(groups: seq<RedeemGroup>, chain: Holdings, minRaw: nat)
    requires groups != []
    ensures var n := |groups| - 1;
            && Redeems(RedemptionOf(chain, groups[n]), groups[n], chain)
            && BuildRedemptions(groups, chain, minRaw)
               == BuildRedemptions(groups[..n], chain, minRaw)
                  + if Plannable(chain, groups[n], minRaw) then [RedemptionOf(chain, groups[n])] else []
  {
  }

  lemma {:induction false} NoneBuiltIff(groups: seq<RedeemGroup>, chain: Holdings, minRaw: nat)
    ensures BuildRedemptions(groups, chain, minRaw) == []
       <==> forall i :: 0 <= i < |groups| ==> !Plannable(chain, groups[i], minRaw)
  {
    hide Plannable;
    if groups != [] {
      var n := |groups| - 1;
      NoneBuiltIff(groups[..n], chain, minRaw);
      assert forall i :: 0 <= i < n ==> groups[..n][i] == groups[i];
    }
  }

  function TokensOfGroup(g: RedeemGroup): seq<TokenId> {
    (if g.yesToken.Some? then [g.yesToken.value] else []) + (if g.noToken.Some? then [g.noToken.value] else [])
  }

  /** Balances read in chunks: every id asked for, and nothing else. */
  method ReadBalances(chain: Holdings, ids: seq<TokenId>) returns (out: Holdings)
    ensures out.Keys == (set i | 0 <= i < |ids| :: ids[i])
    ensures forall t :: t in out ==> out[t] == BalanceIn(chain, t)
  {
    out := map[];
    var pos := 0;
    while pos < |ids|
      invariant 0 <= pos <= |ids|
      invariant out.Keys == (set i | 0 <= i < pos :: ids[i])
      invariant forall t :: t in out ==> out[t] == BalanceIn(chain, t)
    {
      var end := Min(pos + BALANCE_READ_CHUNK, |ids|);
      for i := pos to end
        invariant out.Keys == (set j | 0 <= j < i :: ids[j])
        invariant forall t :: t in out ==> out[t] == BalanceIn(chain, t)
      {
        out := out[ids[i] := BalanceIn(chain, ids[i])];
      }
      pos := end;
    }
  }

  function IdsOf(groups: seq<RedeemGroup>): seq<TokenId> {
    if groups == [] then [] else IdsOf(groups[..|groups| - 1]) + TokensOfGroup(groups[|groups| - 1])
  }

  lemma {:induction false} IdsHave(groups: seq<RedeemGroup>, i: nat)
    requires i < |groups|
    ensures forall t :: t in TokensOfGroup(groups[i]) ==> t in IdsOf(groups)
  {
    var n := |groups| - 1;
    if i < n {
      IdsHave(groups[..n], i);
    }
  }

  /** Planning from the balances read is planning from the chain. */
  lemma {:induction false} ReadIsEnough(
    groups: seq<RedeemGroup>, some: seq<RedeemGroup>, chain: Holdings, read: Holdings, minRaw: nat)
    requires forall g :: g in some ==> g in groups
    requires forall t :: t in IdsOf(groups) ==> t in read
    requires forall t :: t in read ==> read[t] == BalanceIn(chain, t)
    ensures BuildRedemptions(some, read, minRaw) == BuildRedemptions(some, chain, minRaw)
  {
    if some != [] {
      var n := |some| - 1;
      ReadIsEnough(groups, some[..n], chain, read, minRaw);
      assert some[n] in groups;
      var i :| 0 <= i < |groups| && groups[i] == some[n];
      IdsHave(groups, i);
      assert some[n].yesToken.Some? ==> some[n].yesToken.value in TokensOfGroup(some[n]);
      assert some[n].noToken.Some? ==> some[n].noToken.value in TokensOfGroup(some[n]);
    }
  }

  method ReadAndPlanRedeem(rows: seq<Row>, chain: Holdings, minRaw: nat) returns (redemptions: seq<Redemption>)
    ensures redemptions == BuildRedemptions(GroupsOf(rows), chain, minRaw)
  {
    var groups := GroupRedeemable(rows);
    var ids := IdsOf(groups);
    var balances := ReadBalances(chain, ids);
    ReadIsEnough(groups, groups, chain, balances, minRaw);
    redemptions := BuildRedemptions(groups, balances, minRaw);
  }

  // ---------- Submitting ----------

  datatype Target = Adapter | Ctf

  /** One redeem call; index set 1 is the condition's YES side, 2 its NO side. */
  datatype RedeemCall = RedeemCall(target: Target, conditionId: ConditionId, indexSets: seq<nat>)

  /** The adapter is given the sides held, the CTF both. */
  function BuildCall(r: Redemption): RedeemCall {
    if r.negRisk
    then RedeemCall(Adapter, r.conditionId,
                    (if r.yesAmount > 0 then [1] else []) + (if r.noAmount > 0 then [2] else []))
    else RedeemCall(Ctf, r.conditionId, [1, 2])
  }

  function BuildCalls(redemptions: seq<Redemption>): seq<RedeemCall> {
    seq(|redemptions|, i requires 0 <= i < |redemptions| => BuildCall(redemptions[i]))
  }

  /** Every planned redeem goes to the adapter or the CTF by the path its condition's first row names. */
  lemma {:induction false} CallsRoute(rows: seq<Row>, chain: Holdings, minRaw: nat, r: Redemption, i: nat)
    requires r in BuildRedemptions(GroupsOf(rows), chain, minRaw)
    requires FirstOfCondition(rows, i) && IsFor(rows[i], r.conditionId)
    ensures BuildCall(r).conditionId == r.conditionId
    ensures BuildCall(r).target == if rows[i].negRisk then Adapter else Ctf
  {
    hide SeenConditions, BuildRedemptions, GroupFor;
    BuiltAre(GroupsOf(rows), chain, minRaw, r);
    var k :| 0 <= k < |GroupsOf(rows)| && Plannable(chain, GroupsOf(rows)[k], minRaw)
             && r == RedemptionOf(chain, GroupsOf(rows)[k]);
    GroupIs(rows, SeenConditions(rows, |rows|)[k], |rows|);
  }

  /** The (YES, NO) tokens of a condition on chain. */
  type TokenIndex = ConditionId -> (TokenId, TokenId)

  /** A call burns the whole balance of each side it names. */
  function Burns(call: RedeemCall, index: TokenIndex): set<TokenId> {
    var (yes, no) := index(call.conditionId);
    (if 1 in call.indexSets then {yes} else {}) + (if 2 in call.indexSets then {no} else {})
  }

  predicate BurnedBy(calls: seq<RedeemCall>, index: TokenIndex, these: set<nat>, token: TokenId) {
    exists i :: i in these && 0 <= i < |calls| && token in Burns(calls[i], index)
  }

  /** Balances once these of the calls have taken effect. */
  function EmptiedBy(chain: Holdings, calls: seq<RedeemCall>, index: TokenIndex, these: set<nat>): Holdings {
    map t | t in chain :: if BurnedBy(calls, index, these, t) then 0 else chain[t]
  }

  ghost predicate Shrunk(before: Holdings, after: Holdings) {
    after.Keys == before.Keys && forall t :: t in before ==> after[t] == before[t] || after[t] == 0
  }

  ghost predicate Cleared(chain: Holdings, call: RedeemCall, index: TokenIndex) {
    forall t :: t in Burns(call, index) ==> BalanceIn(chain, t) == 0
  }

  lemma {:induction false} EmptiedShrinks(chain: Holdings, calls: seq<RedeemCall>, index: TokenIndex, these: set<nat>)
    ensures Shrunk(chain, EmptiedBy(chain, calls, index, these))
  {
    hide BurnedBy;
  }

  lemma {:induction false} EmptiedClears(
    chain: Holdings, calls: seq<RedeemCall>, index: TokenIndex, these: set<nat>, i: nat)
    requires i in these && i < |calls|
    ensures Cleared(EmptiedBy(chain, calls, index, these), calls[i], index)
  {
    hide Burns;
  }

  lemma {:induction false} EmptiedNone(chain: Holdings, calls: seq<RedeemCall>, index: TokenIndex)
    ensures EmptiedBy(chain, calls, index, {}) == chain
  {
  }

  lemma {:induction false} BurnedByEither(
    calls: seq<RedeemCall>, index: TokenIndex, a: set<nat>, b: set<nat>, token: TokenId)
    ensures BurnedBy(calls, index, a + b, token)
       <==> BurnedBy(calls, index, a, token) || BurnedBy(calls, index, b, token)
  {
    hide Burns;
  }

  lemma {:induction false} EmptiedTwice(
    chain: Holdings, calls: seq<RedeemCall>, index: TokenIndex, a: set<nat>, b: set<nat>)
    ensures EmptiedBy(EmptiedBy(chain, calls, index, a), calls, index, b) == EmptiedBy(chain, calls, index, a + b)
  {
    hide BurnedBy;
    forall t | t in chain
      ensures BurnedBy(calls, index, a + b, t) <==> BurnedBy(calls, index, a, t) || BurnedBy(calls, index, b, t)
    {
      BurnedByEither(calls, index, a, b, t);
    }
  }

  lemma {:induction false} EmptiedPart(chain: Holdings, calls: seq<RedeemCall>, index: TokenIndex, lo: nat, hi: nat)
    requires lo <= hi <= |calls|
    ensures EmptiedBy(chain, calls[lo..hi], index, Indices(0, hi - lo))
         == EmptiedBy(chain, calls, index, Indices(lo, hi))
  {
    hide Burns, Indices;
    forall t | t in chain
      ensures BurnedBy(calls[lo..hi], index, Indices(0, hi - lo), t) <==> BurnedBy(calls, index, Indices(lo, hi), t)
    {
      if i :| i in Indices(lo, hi) && 0 <= i < |calls| && t in Burns(calls[i], index) {
        assert calls[lo..hi][i - lo] == calls[i] && i - lo in Indices(0, hi - lo);
      }
      if i :| i in Indices(0, hi - lo) && 0 <= i < hi - lo && t in Burns(calls[lo..hi][i], index) {
        assert calls[lo..hi][i] == calls[lo + i] && lo + i in Indices(lo, hi);
      }
    }
  }

  lemma {:induction false} ShrunkTrans(a: Holdings, b: Holdings, c: Holdings)
    requires Shrunk(a, b) && Shrunk(b, c)
    ensures Shrunk(a, c)
  {
  }

  function Indices(lo: nat, hi: nat): (s: set<nat>)
    ensures forall i :: i in s <==> lo <= i < hi
    ensures lo <= hi ==> |s| == hi - lo
    decreases hi
  {
    if lo < hi then Indices(lo, hi - 1) + {hi - 1} else {}
  }

  // ---------- What becomes of a batch ----------

  /** One past the reply that ends the attempts at a batch from `tick`: the first landing, or the end of
      the last retry. */
  function BatchEnd(relayer: nat -> Reply, tick: nat, opts: RedeemOptions, retries: nat): (next: nat)
    ensures tick < next
    decreases retries
  {
    var next := BusyEnd(relayer, tick, opts.busyRetries);
    if relayer(next - 1) == Landed || retries == 0 then next else BatchEnd(relayer, next, opts, retries - 1)
  }

  predicate Accepted(relayer: nat -> Reply, tick: nat, opts: RedeemOptions) {
    relayer(BatchEnd(relayer, tick, opts, opts.batchMaxRetries) - 1) == Landed
  }

  /** One batch, resubmitted whole after a failure up to `batchMaxRetries` times. It takes effect when
      any submission of it does, acknowledged or not, and is given up only after every attempt has been
      refused. */
  method SubmitBatch(
    chain: Holdings, batch: seq<RedeemCall>, index: TokenIndex, opts: RedeemOptions, relayer: nat -> Reply, tick: nat)
    returns (after: Holdings, accepted: bool, next: nat)
    ensures next == BatchEnd(relayer, tick, opts, opts.batchMaxRetries)
    ensures accepted <==> Accepted(relayer, tick, opts)
    ensures after == if AnyEffect(relayer, tick, next)
                     then EmptiedBy(chain, batch, index, Indices(0, |batch|)) else chain
    ensures forall t :: tick <= t < next - 1 ==> relayer(t) != Landed
    ensures !accepted ==> tick + opts.batchMaxRetries < next && relayer(next - 1) != Landed
  {
    hide EmptiedBy, Indices, AnyEffect, BusyEnd;
    after, next := chain, tick;
    NoEffect(relayer, tick);
    var attempt: nat := 0;
    ghost var all := Indices(0, |batch|);
    while true
      invariant attempt <= opts.batchMaxRetries && tick + attempt <= next
      invariant BatchEnd(relayer, tick, opts, opts.batchMaxRetries)
             == BatchEnd(relayer, next, opts, opts.batchMaxRetries - attempt)
      invariant forall t :: tick <= t < next ==> relayer(t) != Landed
      invariant after == if AnyEffect(relayer, tick, next) then EmptiedBy(chain, batch, index, all) else chain
      decreases opts.batchMaxRetries - attempt
    {
      ghost var from := next;
      var reply;
      reply, next := SubmitWithBusyRetry(relayer, next, opts.busyRetries);
      EffectGrows(relayer, tick, from, next);
      if TookEffect(reply) {
        EmptiedAgain(chain, batch, index, all);
        after := EmptiedBy(after, batch, index, Indices(0, |batch|));
      }
      if reply == Landed {
        accepted := true;
        return;
      } else if attempt < opts.batchMaxRetries {
        attempt := attempt + 1;
      } else {
        accepted := false;
        return;
      }
    }
  }

  lemma {:induction false} NoEffect(relayer: nat -> Reply, tick: nat)
    ensures !AnyEffect(relayer, tick, tick)
  {
  }

  lemma {:induction false} EffectGrows(relayer: nat -> Reply, tick: nat, from: nat, next: nat)
    requires tick <= from < next && forall t :: from <= t < next - 1 ==> relayer(t) == Busy
    ensures AnyEffect(relayer, tick, next) <==> AnyEffect(relayer, tick, from) || TookEffect(relayer(next - 1))
  {
  }

  lemma {:induction false} EmptiedAgain(chain: Holdings, calls: seq<RedeemCall>, index: TokenIndex, these: set<nat>)
    ensures EmptiedBy(EmptiedBy(chain, calls, index, these), calls, index, these)
         == EmptiedBy(chain, calls, index, these)
  {
    hide EmptiedBy;
    EmptiedTwice(chain, calls, index, these, these);
    assert these + these == these;
  }

  /** The attempts at a batch: `ends` are one past the reply ending each. Every one but the last was
      refused, and the last landed or was the last allowed. */
  ghost predicate Attempts(relayer: nat -> Reply, tick: nat, opts: RedeemOptions, retries: nat, ends: seq<nat>) {
    && 1 <= |ends| <= retries + 1
    && (forall k :: 0 <= k < |ends| ==> 0 < ends[k])
    && ends[0] == BusyEnd(relayer, tick, opts.busyRetries)
    && (forall k :: 0 < k < |ends| ==> ends[k] == BusyEnd(relayer, ends[k - 1], opts.busyRetries))
    && (forall k :: 0 <= k < |ends| - 1 ==> AttemptAt(relayer, ends, k) != Landed)
    && (AttemptAt(relayer, ends, |ends| - 1) == Landed || |ends| == retries + 1)
  }

  function AttemptAt(relayer: nat -> Reply, ends: seq<nat>, k: nat): Reply
    requires k < |ends| && 0 < ends[k]
  {
    relayer(ends[k] - 1)
  }

  lemma {:induction false} BatchAttempts(relayer: nat -> Reply, tick: nat, opts: RedeemOptions, retries: nat)
    returns (ends: seq<nat>)
    ensures Attempts(relayer, tick, opts, retries, ends)
    ensures BatchEnd(relayer, tick, opts, retries) == ends[|ends| - 1]
    decreases retries
  {
    hide BusyEnd;
    var next := BusyEnd(relayer, tick, opts.busyRetries);
    if relayer(next - 1) == Landed || retries == 0 {
      ends := [next];
    } else {
      var rest := BatchAttempts(relayer, next, opts, retries - 1);
      ends := [next] + rest;
      assert forall k :: 0 < k < |ends| ==> ends[k] == rest[k - 1];
      assert forall k :: 0 < k < |ends| ==> AttemptAt(relayer, ends, k) == AttemptAt(relayer, rest, k - 1);
      forall k | 0 < k < |ends| ensures ends[k] == BusyEnd(relayer, ends[k - 1], opts.busyRetries) {
        assert k > 1 ==> ends[k - 1] == rest[k - 2];
      }
    }
  }

  // ---------- All batches ----------

  /** The calls counted as failed, those that took effect, and one past the last reply. */
  datatype Fate = Fate(lost: set<nat>, taken: set<nat>, next: nat)

  /** Calls of the batch `pos..end` counted as failed, and those that took effect. */
  function FailedOf(relayer: nat -> Reply, tick: nat, opts: RedeemOptions, pos: nat, end: nat): set<nat> {
    if Accepted(relayer, tick, opts) then {} else Indices(pos, end)
  }

  ghost function EffectOf(relayer: nat -> Reply, tick: nat, opts: RedeemOptions, pos: nat, end: nat): set<nat> {
    if AnyEffect(relayer, tick, BatchEnd(relayer, tick, opts, opts.batchMaxRetries)) then Indices(pos, end) else {}
  }

  /** What the relayer makes of calls `pos..n`, submitted in batches from `tick`. */
  ghost function FateFrom(relayer: nat -> Reply, tick: nat, pos: nat, n: nat, opts: RedeemOptions): Fate
    requires pos <= n
    decreases n - pos
  {
    if pos == n then Fate({}, {}, tick)
    else
      var end, next := BatchStop(pos, n, opts), BatchEnd(relayer, tick, opts, opts.batchMaxRetries);
      var rest := FateFrom(relayer, next, end, n, opts);
      Fate(rest.lost + FailedOf(relayer, tick, opts, pos, end), rest.taken + EffectOf(relayer, tick, opts, pos, end),
           rest.next)
  }

  /** Where the batch starting at `pos` stops. */
  function BatchStop(pos: nat, n: nat, opts: RedeemOptions): (end: nat)
    requires pos < n
    ensures pos < end <= n
  {
    Min(pos + Max(opts.batchSize, 1), n)
  }

  ghost function FateOf(relayer: nat -> Reply, tick: nat, n: nat, opts: RedeemOptions): Fate {
    FateFrom(relayer, tick, 0, n, opts)
  }

  lemma {:induction false} AcceptedTookEffect(relayer: nat -> Reply, tick: nat, opts: RedeemOptions)
    ensures Accepted(relayer, tick, opts) ==>
              AnyEffect(relayer, tick, BatchEnd(relayer, tick, opts, opts.batchMaxRetries))
  {
    hide BatchEnd;
    var next := BatchEnd(relayer, tick, opts, opts.batchMaxRetries);
    assert Accepted(relayer, tick, opts) ==> TookEffect(relayer(next - 1));
  }

  lemma {:induction false} CoversJoin(
    lost: set<nat>, taken: set<nat>, failed: set<nat>, effect: set<nat>, pos: nat, end: nat, n: nat)
    requires pos <= end <= n
    requires lost <= Indices(end, n) && taken <= Indices(end, n) && Indices(end, n) <= lost + taken
    requires failed <= Indices(pos, end) && effect <= Indices(pos, end) && Indices(pos, end) <= failed + effect
    ensures lost + failed <= Indices(pos, n) && taken + effect <= Indices(pos, n)
    ensures Indices(pos, n) <= (lost + failed) + (taken + effect)
  {
    hide Indices;
    forall i | i in Indices(pos, n) ensures i in lost + taken || i in failed + effect {
      if i < end {
        assert i in Indices(pos, end);
      } else {
        assert i in Indices(end, n);
      }
    }
  }

  /** One batch as it was submitted: its calls, and the replies spent on it. */
  datatype Batch = Batch(lo: nat, hi: nat, from: nat, to: nat)

  /** The batches of calls `pos..n`: in order without gap or overlap, each full but the last, each begun
      where the replies of the one before end. */
  ghost predicate Batched(batches: seq<Batch>, pos: nat, n: nat, size: nat, tick: nat, next: nat) {
    && (batches == [] ==> pos == n && tick == next)
    && (batches != [] ==> batches[0].lo == pos && batches[0].from == tick
                          && batches[|batches| - 1].hi == n && batches[|batches| - 1].to == next)
    && (forall k :: 0 <= k < |batches| ==> batches[k].lo < batches[k].hi <= batches[k].lo + size)
    && (forall k :: 0 <= k < |batches| - 1 ==>
          && batches[k].hi == batches[k].lo + size
          && batches[k].hi == batches[k + 1].lo && batches[k].to == batches[k + 1].from)
  }

  /** What its replies make of one batch: the attempts allowed, and whether the last landed. */
  ghost predicate Settled(b: Batch, relayer: nat -> Reply, opts: RedeemOptions, lost: set<nat>, taken: set<nat>) {
    && b.from < b.to
    && (exists ends ::
          Attempts(relayer, b.from, opts, opts.batchMaxRetries, ends) && ends[|ends| - 1] == b.to)
    && (forall i :: b.lo <= i < b.hi ==>
          && (i in lost <==> relayer(b.to - 1) != Landed)
          && (i in taken <==> AnyEffect(relayer, b.from, b.to)))
  }

  /** The fate of calls `pos..n` is that of their batches, of `size` calls each. */
  lemma {:induction false} FateIs(relayer: nat -> Reply, tick: nat, pos: nat, n: nat, opts: RedeemOptions)
    returns (batches: seq<Batch>)
    requires pos <= n
    ensures var f := FateFrom(relayer, tick, pos, n, opts);
            && Batched(batches, pos, n, Max(opts.batchSize, 1), tick, f.next)
            && f.lost <= Indices(pos, n) && f.taken <= Indices(pos, n)
            && forall k :: 0 <= k < |batches| ==> Settled(batches[k], relayer, opts, f.lost, f.taken)
    decreases n - pos
  {
    hide BatchEnd, Indices, AnyEffect, Attempts, Batched, Settled, FateFrom, BatchStop, Accepted;
    FateCovers(relayer, tick, pos, n, opts);
    if pos == n {
      batches := [];
      NoBatches(relayer, tick, n, opts);
    } else {
      var end, next := BatchStop(pos, n, opts), BatchEnd(relayer, tick, opts, opts.batchMaxRetries);
      var rest := FateIs(relayer, next, end, n, opts);
      var ends := BatchAttempts(relayer, tick, opts, opts.batchMaxRetries);
      batches := [Batch(pos, end, tick, next)] + rest;
      FirstSettled(relayer, tick, pos, n, opts, ends);
      RestSettled(relayer, tick, pos, n, opts, rest);
      StopIs(pos, n, opts);
      NextOf(relayer, tick, pos, n, opts);
      FirstBatched(rest, batches[0], n, Max(opts.batchSize, 1), FateFrom(relayer, next, end, n, opts).next);
      var f := FateFrom(relayer, tick, pos, n, opts);
      forall k | 0 <= k < |batches| ensures Settled(batches[k], relayer, opts, f.lost, f.taken) {
        assert k > 0 ==> batches[k] == rest[k - 1];
      }
    }
  }

  lemma {:induction false} NoBatches(relayer: nat -> Reply, tick: nat, n: nat, opts: RedeemOptions)
    ensures Batched([], n, n, Max(opts.batchSize, 1), tick, FateFrom(relayer, tick, n, n, opts).next)
  {
  }

  lemma {:induction false} NextOf(relayer: nat -> Reply, tick: nat, pos: nat, n: nat, opts: RedeemOptions)
    requires pos < n
    ensures FateFrom(relayer, tick, pos, n, opts).next
         == FateFrom(relayer, BatchEnd(relayer, tick, opts, opts.batchMaxRetries), BatchStop(pos, n, opts), n,
                     opts).next
  {
    hide BatchEnd, Indices, AnyEffect, BatchStop;
  }

  lemma {:induction false} StopIs(pos: nat, n: nat, opts: RedeemOptions)
    requires pos < n
    ensures BatchStop(pos, n, opts) == Min(pos + Max(opts.batchSize, 1), n)
  {
  }

  lemma {:induction false} FirstBatched(rest: seq<Batch>, b: Batch, n: nat, size: nat, next: nat)
    requires Batched(rest, b.hi, n, size, b.to, next) && b.lo < b.hi <= n && b.hi == Min(b.lo + size, n)
    ensures Batched([b] + rest, b.lo, n, size, b.from, next)
  {
    var all := [b] + rest;
    assert forall k :: 0 < k < |all| ==> all[k] == rest[k - 1];
    if rest != [] {
      assert rest[0].lo < rest[0].hi;
      BatchedWithin(rest, b.hi, n, size, b.to, next, 0);
    }
  }

  lemma {:induction false} BatchedWithin(
    batches: seq<Batch>, pos: nat, n: nat, size: nat, tick: nat, next: nat, k: nat)
    requires Batched(batches, pos, n, size, tick, next) && k < |batches|
    ensures pos <= batches[k].lo < batches[k].hi <= n
    decreases |batches| - k
  {
    if k + 1 < |batches| {
      BatchedWithin(batches, pos, n, size, tick, next, k + 1);
    }
    BatchedFrom(batches, pos, n, size, tick, next, k);
  }

  lemma {:induction false} BatchedFrom(
    batches: seq<Batch>, pos: nat, n: nat, size: nat, tick: nat, next: nat, k: nat)
    requires Batched(batches, pos, n, size, tick, next) && k < |batches|
    ensures pos <= batches[k].lo
  {
    if k > 0 {
      BatchedFrom(batches, pos, n, size, tick, next, k - 1);
    }
  }

  lemma {:induction false} FirstSettled(
    relayer: nat -> Reply, tick: nat, pos: nat, n: nat, opts: RedeemOptions, ends: seq<nat>)
    requires pos < n && Attempts(relayer, tick, opts, opts.batchMaxRetries, ends)
    requires ends[|ends| - 1] == BatchEnd(relayer, tick, opts, opts.batchMaxRetries)
    ensures var f := FateFrom(relayer, tick, pos, n, opts);
            Settled(Batch(pos, BatchStop(pos, n, opts), tick, BatchEnd(relayer, tick, opts, opts.batchMaxRetries)),
                    relayer, opts, f.lost, f.taken)
  {
    hide BatchEnd, Indices, AnyEffect, Attempts, FateFrom, BatchStop;
    var end, next := BatchStop(pos, n, opts), BatchEnd(relayer, tick, opts, opts.batchMaxRetries);
    FateStep(relayer, tick, pos, n, opts);
    FateCovers(relayer, next, end, n, opts);
    forall i | pos <= i < end
      ensures i !in FateFrom(relayer, next, end, n, opts).lost && i !in FateFrom(relayer, next, end, n, opts).taken
    {
      assert i !in Indices(end, n);
    }
  }

  lemma {:induction false} RestSettled(
    relayer: nat -> Reply, tick: nat, pos: nat, n: nat, opts: RedeemOptions, rest: seq<Batch>)
    requires pos < n
    requires var end, next := BatchStop(pos, n, opts), BatchEnd(relayer, tick, opts, opts.batchMaxRetries);
             var f := FateFrom(relayer, next, end, n, opts);
             && Batched(rest, end, n, Max(opts.batchSize, 1), next, f.next)
             && forall k :: 0 <= k < |rest| ==> Settled(rest[k], relayer, opts, f.lost, f.taken)
    ensures var f := FateFrom(relayer, tick, pos, n, opts);
            forall k :: 0 <= k < |rest| ==> Settled(rest[k], relayer, opts, f.lost, f.taken)
  {
    hide BatchEnd, Indices, AnyEffect, Attempts, FateFrom, BatchStop, Batched, Accepted;
    var end, next := BatchStop(pos, n, opts), BatchEnd(relayer, tick, opts, opts.batchMaxRetries);
    var f0 := FateFrom(relayer, next, end, n, opts);
    FateStep(relayer, tick, pos, n, opts);
    forall k | 0 <= k < |rest|
      ensures Settled(rest[k], relayer, opts, FateFrom(relayer, tick, pos, n, opts).lost,
                      FateFrom(relayer, tick, pos, n, opts).taken)
    {
      BatchedFrom(rest, end, n, Max(opts.batchSize, 1), next, f0.next, k);
      assert Settled(rest[k], relayer, opts, f0.lost, f0.taken);
      assert forall i :: end <= i ==> i !in Indices(pos, end);
    }
  }

  /** Every call is lost or took effect, some both: landed without an acknowledgement. */
  lemma {:induction false} FateCovers(relayer: nat -> Reply, tick: nat, pos: nat, n: nat, opts: RedeemOptions)
    requires pos <= n
    ensures var f := FateFrom(relayer, tick, pos, n, opts);
            f.lost <= Indices(pos, n) && f.taken <= Indices(pos, n) && Indices(pos, n) <= f.lost + f.taken
    decreases n - pos
  {
    hide BatchEnd, Indices, Accepted, AnyEffect;
    if pos < n {
      var end, next := BatchStop(pos, n, opts), BatchEnd(relayer, tick, opts, opts.batchMaxRetries);
      FateCovers(relayer, next, end, n, opts);
      AcceptedTookEffect(relayer, tick, opts);
      var rest := FateFrom(relayer, next, end, n, opts);
      CoversJoin(rest.lost, rest.taken, FailedOf(relayer, tick, opts, pos, end),
                 EffectOf(relayer, tick, opts, pos, end), pos, end, n);
    }
  }

  /** A relayer that lands everything loses nothing. */
  lemma {:induction false} NothingLost(relayer: nat -> Reply, tick: nat, pos: nat, n: nat, opts: RedeemOptions)
    requires pos <= n && forall t: nat :: relayer(t) == Landed
    ensures FateFrom(relayer, tick, pos, n, opts).lost == {}
    decreases n - pos
  {
    if pos < n {
      NothingLost(relayer, BatchEnd(relayer, tick, opts, opts.batchMaxRetries), BatchStop(pos, n, opts), n, opts);
    }
  }

  lemma {:induction false} MoreLost(lost: set<nat>, pos: nat, end: nat)
    requires pos <= end && lost <= Indices(0, pos)
    ensures lost <= Indices(0, end) && lost + Indices(pos, end) <= Indices(0, end)
    ensures |lost + Indices(pos, end)| == |lost| + (end - pos)
  {
    hide Indices;
    assert lost !! Indices(pos, end);
  }

  /** Where a submission stands with calls `..pos` behind it and `tick` the next reply to come. */
  ghost predicate Underway(
    chain: Holdings, calls: seq<RedeemCall>, index: TokenIndex, opts: RedeemOptions, relayer: nat -> Reply,
    fate: Fate, pos: nat, tick: nat, after: Holdings, lost: set<nat>, taken: set<nat>)
  {
    && pos <= |calls| && lost <= Indices(0, pos)
    && after == EmptiedBy(chain, calls, index, taken)
    && var rest := FateFrom(relayer, tick, pos, |calls|, opts);
       fate == Fate(rest.lost + lost, rest.taken + taken, rest.next)
  }

  lemma {:induction false} NoneBehind(
    chain: Holdings, calls: seq<RedeemCall>, index: TokenIndex, opts: RedeemOptions, relayer: nat -> Reply, tick: nat)
    ensures Underway(chain, calls, index, opts, relayer, FateOf(relayer, tick, |calls|, opts), 0, tick, chain, {}, {})
  {
    hide FateFrom, EmptiedBy;
    EmptiedNone(chain, calls, index);
  }

  lemma {:induction false} AllBehind(
    chain: Holdings, calls: seq<RedeemCall>, index: TokenIndex, opts: RedeemOptions, relayer: nat -> Reply,
    fate: Fate, tick: nat, after: Holdings, lost: set<nat>, taken: set<nat>)
    requires Underway(chain, calls, index, opts, relayer, fate, |calls|, tick, after, lost, taken)
    ensures after == EmptiedBy(chain, calls, index, fate.taken) && fate.lost == lost && fate.next == tick
  {
    hide EmptiedBy, Indices;
    assert {} + lost == lost && {} + taken == taken;
  }

  lemma {:induction false} FateStep(relayer: nat -> Reply, tick: nat, pos: nat, n: nat, opts: RedeemOptions)
    requires pos < n
    ensures var end, next := BatchStop(pos, n, opts), BatchEnd(relayer, tick, opts, opts.batchMaxRetries);
            var rest := FateFrom(relayer, next, end, n, opts);
            FateFrom(relayer, tick, pos, n, opts)
            == Fate(rest.lost + FailedOf(relayer, tick, opts, pos, end),
                    rest.taken + EffectOf(relayer, tick, opts, pos, end), rest.next)
  {
    hide BatchEnd, Accepted, AnyEffect, Indices, BatchStop;
  }

  lemma {:induction false} AddOrder(a: set<nat>, b: set<nat>, c: set<nat>)
    ensures (a + b) + c == a + (c + b)
  {
  }

  /** One batch more behind: lost unless accepted, taken when any submission took effect. */
  lemma {:induction false} BatchBehind(
    chain: Holdings, calls: seq<RedeemCall>, index: TokenIndex, opts: RedeemOptions, relayer: nat -> Reply,
    fate: Fate, pos: nat, tick: nat, before: Holdings, lost: set<nat>, taken: set<nat>, after: Holdings)
    returns (lost': set<nat>, taken': set<nat>)
    requires pos < |calls|
    requires Underway(chain, calls, index, opts, relayer, fate, pos, tick, before, lost, taken)
    requires var end := BatchStop(pos, |calls|, opts);
             after == if AnyEffect(relayer, tick, BatchEnd(relayer, tick, opts, opts.batchMaxRetries))
                      then EmptiedBy(before, calls[pos..end], index, Indices(0, end - pos)) else before
    ensures var end, next := BatchStop(pos, |calls|, opts), BatchEnd(relayer, tick, opts, opts.batchMaxRetries);
            && Underway(chain, calls, index, opts, relayer, fate, end, next, after, lost', taken')
            && |lost'| == |lost| + if Accepted(relayer, tick, opts) then 0 else end - pos
  {
    hide EmptiedBy, BatchEnd, FailedOf, EffectOf, Indices, BatchStop, FateFrom, AnyEffect, Accepted;
    var end, next := BatchStop(pos, |calls|, opts), BatchEnd(relayer, tick, opts, opts.batchMaxRetries);
    var rest := FateFrom(relayer, next, end, |calls|, opts);
    var failed, effect := FailedOf(relayer, tick, opts, pos, end), EffectOf(relayer, tick, opts, pos, end);
    lost', taken' := lost + failed, taken + effect;
    FateStep(relayer, tick, pos, |calls|, opts);
    AddOrder(rest.lost, failed, lost);
    AddOrder(rest.taken, effect, taken);
    FailedAdds(relayer, tick, opts, lost, pos, end);
    EffectAdds(chain, calls, index, opts, relayer, pos, end, tick, taken, after);
  }

  lemma {:induction false} FailedAdds(
    relayer: nat -> Reply, tick: nat, opts: RedeemOptions, lost: set<nat>, pos: nat, end: nat)
    requires pos <= end && lost <= Indices(0, pos)
    ensures var lost' := lost + FailedOf(relayer, tick, opts, pos, end);
            && lost' <= Indices(0, end)
            && |lost'| == |lost| + if Accepted(relayer, tick, opts) then 0 else end - pos
  {
    hide Accepted, Indices;
    MoreLost(lost, pos, end);
    assert lost + {} == lost;
  }

  lemma {:induction false} EffectAdds(
    chain: Holdings, calls: seq<RedeemCall>, index: TokenIndex, opts: RedeemOptions, relayer: nat -> Reply,
    pos: nat, end: nat, tick: nat, taken: set<nat>, after: Holdings)
    requires pos <= end <= |calls|
    requires var before := EmptiedBy(chain, calls, index, taken);
             after == if AnyEffect(relayer, tick, BatchEnd(relayer, tick, opts, opts.batchMaxRetries))
                      then EmptiedBy(before, calls[pos..end], index, Indices(0, end - pos)) else before
    ensures after == EmptiedBy(chain, calls, index, taken + EffectOf(relayer, tick, opts, pos, end))
  {
    hide EmptiedBy, BatchEnd, AnyEffect, Indices;
    assert taken + {} == taken;
    EmptiedPart(EmptiedBy(chain, calls, index, taken), calls, index, pos, end);
    EmptiedTwice(chain, calls, index, taken, Indices(pos, end));
  }

  /** Serial batches. Every call is counted once, as redeemed or as failed, exactly as the relayer's
      replies decide; the calls that took effect, and no others, have emptied what they name. */
  method SubmitBatches(
    chain: Holdings, calls: seq<RedeemCall>, index: TokenIndex, opts: RedeemOptions, relayer: nat -> Reply, tick: nat)
    returns (after: Holdings, ok: nat, bad: nat, next: nat, ghost batches: seq<Batch>)
    ensures Batched(batches, 0, |calls|, Max(opts.batchSize, 1), tick, next)
    ensures var fate := FateOf(relayer, tick, |calls|, opts);
            forall k :: 0 <= k < |batches| ==> Settled(batches[k], relayer, opts, fate.lost, fate.taken)
    ensures var fate := FateOf(relayer, tick, |calls|, opts);
            && after == EmptiedBy(chain, calls, index, fate.taken)
            && bad == |fate.lost| && ok + bad == |calls| && next == fate.next
  {
    hide EmptiedBy, BatchEnd, Accepted, AnyEffect, Indices, FateFrom, Underway, Batched, Settled;
    batches := FateIs(relayer, tick, 0, |calls|, opts);
    var size := Max(opts.batchSize, 1);
    after, ok, bad, next := chain, 0, 0, tick;
    ghost var lost: set<nat>, taken: set<nat> := {}, {};
    ghost var fate := FateOf(relayer, tick, |calls|, opts);
    NoneBehind(chain, calls, index, opts, relayer, tick);
    var pos: nat := 0;
    while pos < |calls|
      invariant pos <= |calls| && ok + bad == pos && bad == |lost|
      invariant Underway(chain, calls, index, opts, relayer, fate, pos, next, after, lost, taken)
    {
      var end := Min(pos + size, |calls|);
      ghost var before, from := after, next;
      var accepted;
      after, accepted, next := SubmitBatch(after, calls[pos..end], index, opts, relayer, next);
      lost, taken := BatchBehind(chain, calls, index, opts, relayer, fate, pos, from, before, lost, taken, after);
      if accepted {
        ok := ok + (end - pos);
      } else {
        bad := bad + (end - pos);
      }
      pos := end;
    }
    AllBehind(chain, calls, index, opts, relayer, fate, next, after, lost, taken);
  }
}
