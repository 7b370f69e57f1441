/** Draining a wallet's resolved positions in passes over page-sets the API lists: when the drain
    stops, what it leaves, and exactly when it leaves nothing. */
module Drain {
  import opened Prelude
  import opened Legs
  import opened Executor
  import opened Redeem
  import Sides

  /** Tokens still held: what each productive pass strictly shrinks. */
  function Positive(chain: Holdings): set<TokenId> {
    set t | t in chain && chain[t] > 0
  }

  /** Rows name their own condition's token for the side they claim. */
  ghost predicate RowsTruthful(rows: seq<Row>, index: TokenIndex) {
    forall i :: 0 <= i < |rows| && Parses(rows[i]) ==>
      && (rows[i].side == Yes ==> rows[i].asset.value == index(rows[i].conditionId.value).0)
      && (rows[i].side == No ==> rows[i].asset.value == index(rows[i].conditionId.value).1)
  }

  lemma {:induction false} GroupTokens(rows: seq<Row>, cid: ConditionId, index: TokenIndex, k: nat)
    requires k <= |rows| && RowsTruthful(rows, index)
    ensures var g := GroupFor(rows, cid, k);
            && g.conditionId == cid
            && (g.yesToken.Some? ==> g.yesToken.value == index(cid).0)
            && (g.noToken.Some? ==> g.noToken.value == index(cid).1)
  {
    if k > 0 {
      GroupTokens(rows, cid, index, k - 1);
    }
  }

  /** The index sets of a call cover every side the group holds, so clearing it leaves nothing. */
  lemma {:induction false} ClearedIsUnplannable(
    rows: seq<Row>, i: nat, before: Holdings, chain: Holdings, index: TokenIndex, minRaw: nat)
    requires RowsTruthful(rows, index) && i < |GroupsOf(rows)| && Shrunk(before, chain)
    requires Cleared(chain, BuildCall(RedemptionOf(before, GroupsOf(rows)[i])), index)
    ensures Total(chain, GroupsOf(rows)[i]) == 0
  {
    GroupTokens(rows, SeenConditions(rows, |rows|)[i], index, |rows|);
  }

  /** A pass that clears one planned condition leaves strictly fewer tokens held. */
  lemma {:induction false} PassShrinks(
    rows: seq<Row>, before: Holdings, after: Holdings, index: TokenIndex, minRaw: nat, r: Redemption)
    requires RowsTruthful(rows, index) && Shrunk(before, after)
    requires r in BuildRedemptions(GroupsOf(rows), before, minRaw) && Cleared(after, BuildCall(r), index)
    ensures Positive(after) < Positive(before)
  {
    BuiltAre(GroupsOf(rows), before, minRaw, r);
    var i :| 0 <= i < |GroupsOf(rows)| && Plannable(before, GroupsOf(rows)[i], minRaw)
             && r == RedemptionOf(before, GroupsOf(rows)[i]);
    var g := GroupsOf(rows)[i];
    ClearedIsUnplannable(rows, i, before, after, index, minRaw);
    assert Positive(after) <= Positive(before);
    if Held(before, g.yesToken) > 0 {
      assert g.yesToken.value in Positive(before) && g.yesToken.value !in Positive(after);
    } else {
      assert g.noToken.value in Positive(before) && g.noToken.value !in Positive(after);
    }
  }

  datatype RedeemSummary = RedeemSummary(redeemed: nat, failed: nat, passes: nat)

  /** What a run is given: the balances at the start, the tokens of each condition, the page-set of each
      pass and whether it was cut at the offset cap, the relayer's replies, and the options. */
  datatype Setting = Setting(
    start: Holdings, index: TokenIndex, fetch: nat -> (seq<Row>, bool), relayer: nat -> Reply, opts: RedeemOptions)

  // ---------- Runs ----------

  /** One pass: the page-set listed, whether it was cut, what was sent of its plan, which of those calls
      were counted as failed, and one past the last reply. */
  datatype Pass = Pass(
    rows: seq<Row>, cut: bool, before: Holdings, sent: seq<Redemption>, lost: set<nat>, after: Holdings, next: nat)

  /** What the pass's page-set would have redeemed at these balances. */
  function PlanAt(p: Pass, chain: Holdings, minRaw: nat): seq<Redemption> {
    BuildRedemptions(GroupsOf(p.rows), chain, minRaw)
  }

  function LastOf(run: seq<Pass>): Pass
    requires run != []
  {
    run[|run| - 1]
  }

  function EndOf(run: seq<Pass>, start: Holdings): Holdings {
    if run == [] then start else LastOf(run).after
  }

  function TickOf(run: seq<Pass>): nat {
    if run == [] then 0 else LastOf(run).next
  }

  /** Calls submitted over all passes, and those of them counted as failed. */
  function Sent(run: seq<Pass>): nat {
    if run == [] then 0 else Sent(run[..|run| - 1]) + |LastOf(run).sent|
  }

  function Lost(run: seq<Pass>): nat {
    if run == [] then 0 else Lost(run[..|run| - 1]) + |LastOf(run).lost|
  }

  /** `truncate(remaining)`, when there is a cap. */
  function WithinCap(plan: seq<Redemption>, sent: nat, cap: nat): seq<Redemption> {
    if cap == 0 then plan else Take(plan, Max(0, cap - sent))
  }

  /** `p` is what the relayer's replies make of its calls. */
  ghost predicate Submitted(p: Pass, tick: nat, env: Setting) {
    var fate := FateOf(env.relayer, tick, |p.sent|, env.opts);
    && p.lost == fate.lost && p.next == fate.next
    && p.after == EmptiedBy(p.before, BuildCalls(p.sent), env.index, fate.taken)
  }

  /** `p` is the pass that follows `run`: the next page-set, planned at the balances reached. */
  ghost predicate Follows(run: seq<Pass>, p: Pass, env: Setting) {
    && (p.rows, p.cut) == env.fetch(|run|)
    && p.before == EndOf(run, env.start)
    && p.sent == WithinCap(PlanAt(p, p.before, env.opts.minSharesRaw), Sent(run), env.opts.maxConditions)
    && Submitted(p, TickOf(run), env)
  }

  ghost predicate IsRun(run: seq<Pass>, env: Setting) {
    run == [] || (IsRun(run[..|run| - 1], env) && Follows(run[..|run| - 1], LastOf(run), env))
  }

  predicate CapReached(run: seq<Pass>, opts: RedeemOptions) {
    opts.maxConditions > 0 && Sent(run) >= opts.maxConditions
  }

  /** The four reasons to stop: nothing plannable, no progress, a page-set that was not cut, the cap. */
  predicate Stops(run: seq<Pass>, opts: RedeemOptions)
    requires run != []
  {
    || PlanAt(LastOf(run), LastOf(run).before, opts.minSharesRaw) == []
    || |LastOf(run).lost| == |LastOf(run).sent|
    || !LastOf(run).cut
    || CapReached(run, opts)
  }

  ghost predicate StopsFirstAt(run: seq<Pass>, opts: RedeemOptions) {
    run != [] && Stops(run, opts) && NeverStops(run[..|run| - 1], opts)
  }

  ghost predicate NeverStops(run: seq<Pass>, opts: RedeemOptions) {
    forall n :: 0 < n <= |run| ==> !Stops(run[..n], opts)
  }

  lemma {:induction false} NextPass(run: seq<Pass>, p: Pass, env: Setting)
    requires IsRun(run, env) && Follows(run, p, env) && NeverStops(run, env.opts)
    ensures IsRun(run + [p], env) && EndOf(run + [p], env.start) == p.after && TickOf(run + [p]) == p.next
    ensures Sent(run + [p]) == Sent(run) + |p.sent| && Lost(run + [p]) == Lost(run) + |p.lost|
    ensures if Stops(run + [p], env.opts) then StopsFirstAt(run + [p], env.opts) else NeverStops(run + [p], env.opts)
  {
    hide Stops, Follows, StopsFirstAt, NeverStops;
    var more := run + [p];
    assert more[..|more| - 1] == run && LastOf(more) == p;
    NextStops(run, p, env.opts);
  }

  lemma {:induction false} NextStops(run: seq<Pass>, p: Pass, opts: RedeemOptions)
    requires NeverStops(run, opts)
    ensures if Stops(run + [p], opts) then StopsFirstAt(run + [p], opts) else NeverStops(run + [p], opts)
  {
    hide Stops;
    var more := run + [p];
    assert more[..|more| - 1] == run && more[..|more|] == more;
    assert forall n :: 0 < n <= |run| ==> more[..n] == run[..n];
  }

  // ---------- What one pass does ----------

  /** Balances are emptied or kept, and every call not counted as failed has cleared what it names. */
  lemma {:induction false} PassOutcome(p: Pass, tick: nat, env: Setting)
    requires Submitted(p, tick, env)
    ensures Shrunk(p.before, p.after) && p.lost <= Indices(0, |p.sent|)
    ensures forall i :: 0 <= i < |p.sent| && i !in p.lost ==> Cleared(p.after, BuildCall(p.sent[i]), env.index)
  {
    hide EmptiedBy, FateFrom, Indices, Cleared, Shrunk, BuildCall;
    var fate, calls := FateOf(env.relayer, tick, |p.sent|, env.opts), BuildCalls(p.sent);
    FateCovers(env.relayer, tick, 0, |p.sent|, env.opts);
    EmptiedShrinks(p.before, calls, env.index, fate.taken);
    forall i | 0 <= i < |p.sent| && i !in p.lost ensures Cleared(p.after, BuildCall(p.sent[i]), env.index) {
      assert i in Indices(0, |p.sent|);
      EmptiedClears(p.before, calls, env.index, fate.taken, i);
    }
  }

  /** Only what some call names is emptied. */
  lemma {:induction false} PassTouches(p: Pass, tick: nat, env: Setting, token: TokenId) returns (i: nat)
    requires Submitted(p, tick, env) && token in p.before && token in p.after && p.after[token] != p.before[token]
    ensures i < |p.sent| && i in FateOf(env.relayer, tick, |p.sent|, env.opts).taken
    ensures token in Burns(BuildCall(p.sent[i]), env.index)
  {
    hide FateFrom, Burns, BuildCall;
    var fate, calls := FateOf(env.relayer, tick, |p.sent|, env.opts), BuildCalls(p.sent);
    assert BurnedBy(calls, env.index, fate.taken, token);
    i :| i in fate.taken && 0 <= i < |calls| && token in Burns(calls[i], env.index);
  }

  lemma {:induction false} SomeNotLost(lost: set<nat>, n: nat)
    requires lost <= Indices(0, n)
    ensures |lost| <= n
    ensures |lost| < n ==> exists i :: 0 <= i < n && i !in lost
  {
    SmallerSet(lost, Indices(0, n));
    if forall i :: 0 <= i < n ==> i in lost {
      assert lost == Indices(0, n);
    }
  }

  /** A pass that gets any call through leaves strictly fewer tokens held. */
  lemma {:induction false} PassProgress(p: Pass, run: seq<Pass>, env: Setting)
    requires Follows(run, p, env) && RowsTruthful(p.rows, env.index)
    ensures |p.lost| <= |p.sent|
    ensures |Positive(p.after)| <= |Positive(p.before)| && Positive(p.after) <= Positive(p.before)
    ensures |p.lost| < |p.sent| ==>
              |Positive(p.after)| < |Positive(p.before)| && Positive(p.after) < Positive(p.before)
  {
    hide Cleared, BuildRedemptions, GroupsOf, RowsTruthful, Submitted, BuildCall;
    PassOutcome(p, TickOf(run), env);
    assert Positive(p.after) <= Positive(p.before);
    SmallerSet(Positive(p.after), Positive(p.before));
    SomeNotLost(p.lost, |p.sent|);
    if |p.lost| < |p.sent| {
      var i :| 0 <= i < |p.sent| && i !in p.lost;
      assert p.sent[i] == PlanAt(p, p.before, env.opts.minSharesRaw)[i];
      PassShrinks(p.rows, p.before, p.after, env.index, env.opts.minSharesRaw, p.sent[i]);
    }
  }

  lemma {:induction false} NoneSent(p: Pass, tick: nat, env: Setting)
    requires p.sent == [] && p.lost == {} && p.after == p.before && p.next == tick
    ensures Submitted(p, tick, env)
  {
    EmptiedNone(p.before, BuildCalls(p.sent), env.index);
  }

  /** A pass with nothing to plan ends the run. */
  lemma {:induction false} IdlePass(run: seq<Pass>, p: Pass, env: Setting)
    requires IsRun(run, env) && NeverStops(run, env.opts)
    requires (p.rows, p.cut) == env.fetch(|run|)
    requires p == Pass(p.rows, p.cut, EndOf(run, env.start), [], {}, EndOf(run, env.start), TickOf(run))
    requires PlanAt(p, p.before, env.opts.minSharesRaw) == []
    ensures IsRun(run + [p], env) && StopsFirstAt(run + [p], env.opts)
    ensures EndOf(run + [p], env.start) == p.after && Sent(run + [p]) == Sent(run) && Lost(run + [p]) == Lost(run)
  {
    hide BuildRedemptions, GroupsOf, NeverStops, StopsFirstAt, IsRun, Submitted;
    NoneSent(p, TickOf(run), env);
    NextPass(run, p, env);
  }

  /** A pass that submits ends the run unless it made progress on a cut page-set below the cap, and
      then it leaves strictly fewer tokens held. */
  lemma {:induction false} BusyPass(run: seq<Pass>, p: Pass, env: Setting)
    requires IsRun(run, env) && NeverStops(run, env.opts)
    requires Follows(run, p, env) && RowsTruthful(p.rows, env.index)
    requires PlanAt(p, p.before, env.opts.minSharesRaw) != []
    ensures IsRun(run + [p], env) && EndOf(run + [p], env.start) == p.after && TickOf(run + [p]) == p.next
    ensures |p.lost| <= |p.sent|
    ensures Sent(run + [p]) == Sent(run) + |p.sent| && Lost(run + [p]) == Lost(run) + |p.lost|
    ensures if |p.lost| == |p.sent| || !p.cut || CapReached(run + [p], env.opts)
            then StopsFirstAt(run + [p], env.opts) else NeverStops(run + [p], env.opts)
    ensures |Positive(p.after)| <= |Positive(p.before)|
    ensures |p.lost| < |p.sent| ==>
              |Positive(p.after)| < |Positive(p.before)| && Positive(p.after) < Positive(p.before)
  {
    hide BuildRedemptions, GroupsOf, NeverStops, StopsFirstAt, IsRun, Follows, Positive, CapReached;
    PassProgress(p, run, env);
    NextPass(run, p, env);
  }

  // ---------- What a run leaves behind ----------

  /** Conditions whose call was counted as failed. */
  function Unserved(p: Pass): set<ConditionId> {
    set i | i in p.lost && i < |p.sent| :: p.sent[i].conditionId
  }

  lemma {:induction false} FewUnserved(lost: set<nat>, sent: seq<Redemption>)
    ensures |set i | i in lost && i < |sent| :: sent[i].conditionId| <= |lost|
    decreases lost
  {
    var named := set i | i in lost && i < |sent| :: sent[i].conditionId;
    if lost == {} {
      assert named == {};
    } else {
      var i :| i in lost;
      var fewer := set k | k in lost - {i} && k < |sent| :: sent[k].conditionId;
      FewUnserved(lost - {i}, sent);
      assert |lost - {i}| == |lost| - 1;
      if i < |sent| {
        assert named == fewer + {sent[i].conditionId};
      } else {
        assert named == fewer;
      }
    }
  }

  /** Below the cap every pass sends its whole plan. */
  lemma {:induction false} WholePlan(run: seq<Pass>, env: Setting)
    requires run != [] && IsRun(run, env) && !CapReached(run, env.opts)
    ensures LastOf(run).sent == PlanAt(LastOf(run), LastOf(run).before, env.opts.minSharesRaw)
    ensures !CapReached(run[..|run| - 1], env.opts)
  {
    hide Submitted, BuildRedemptions, GroupsOf;
  }

  /** Below the cap, what the last page-set would still have redeemed is what was counted failed. */
  lemma {:induction false} LeftIsUnserved(run: seq<Pass>, env: Setting, r: Redemption)
    requires run != [] && IsRun(run, env) && RowsTruthful(LastOf(run).rows, env.index)
    requires !CapReached(run, env.opts)
    requires r in PlanAt(LastOf(run), EndOf(run, env.start), env.opts.minSharesRaw)
    ensures r.conditionId in Unserved(LastOf(run))
  {
    hide Cleared, BuildRedemptions, GroupsOf, RowsTruthful, Submitted, BuildCall, Shrunk;
    var p, min := LastOf(run), env.opts.minSharesRaw;
    var groups := GroupsOf(p.rows);
    WholePlan(run, env);
    PassOutcome(p, TickOf(run[..|run| - 1]), env);
    BuiltAre(groups, p.after, min, r);
    var i :| 0 <= i < |groups| && Plannable(p.after, groups[i], min) && r == RedemptionOf(p.after, groups[i]);
    LostGroup(p, i, env.index, min);
  }

  /** A group still plannable after its page-set was sent whole had its call lost. */
  lemma {:induction false} LostGroup(p: Pass, i: nat, index: TokenIndex, min: nat)
    requires RowsTruthful(p.rows, index) && Shrunk(p.before, p.after)
    requires forall k :: 0 <= k < |p.sent| && k !in p.lost ==> Cleared(p.after, BuildCall(p.sent[k]), index)
    requires p.sent == PlanAt(p, p.before, min)
    requires i < |GroupsOf(p.rows)| && Plannable(p.after, GroupsOf(p.rows)[i], min)
    ensures GroupsOf(p.rows)[i].conditionId in Unserved(p)
  {
    hide Cleared, BuildRedemptions, GroupsOf, RowsTruthful, BuildCall;
    var g := GroupsOf(p.rows)[i];
    var planned := RedemptionOf(p.before, g);
    assert Total(p.after, g) <= Total(p.before, g);
    BuiltAre(GroupsOf(p.rows), p.before, min, planned);
    var k :| 0 <= k < |p.sent| && p.sent[k] == planned;
    if k !in p.lost {
      ClearedIsUnplannable(p.rows, i, p.before, p.after, index, min);
    }
    assert planned.conditionId == g.conditionId;
  }

  lemma {:induction false} LostAdds(run: seq<Pass>)
    requires run != []
    ensures |LastOf(run).lost| <= Lost(run) && Lost(run[..|run| - 1]) <= Lost(run)
  {
  }

  lemma {:induction false} LeftCounts(left: seq<Redemption>, unserved: set<ConditionId>)
    requires forall r :: r in left ==> r.conditionId in unserved
    ensures left != [] ==> |unserved| > 0
  {
    if left != [] {
      assert left[0] in left;
      assert unserved != {};
    }
  }

  /** This page-set names the token's side of its condition, as YES or as NO. */
  ghost predicate Reaches(rows: seq<Row>, index: TokenIndex, token: TokenId) {
    exists i :: 0 <= i < |rows| && Parses(rows[i]) && rows[i].side != Other
                && ConditionHas(index, rows[i].conditionId.value, token)
  }

  predicate ConditionHas(index: TokenIndex, cid: ConditionId, token: TokenId) {
    token == index(cid).0 || token == index(cid).1
  }

  lemma {:induction false} PlannedIsReached(
    rows: seq<Row>, chain: Holdings, index: TokenIndex, minRaw: nat, r: Redemption, token: TokenId)
    requires r in BuildRedemptions(GroupsOf(rows), chain, minRaw) && token in Burns(BuildCall(r), index)
    ensures Reaches(rows, index, token)
  {
    hide SeenConditions, BuildRedemptions, GroupFor, LastRow;
    BuiltAre(GroupsOf(rows), chain, minRaw, r);
    var i :| 0 <= i < |GroupsOf(rows)| && Plannable(chain, GroupsOf(rows)[i], minRaw)
             && r == RedemptionOf(chain, GroupsOf(rows)[i]);
    var cid := SeenConditions(rows, |rows|)[i];
    GroupIs(rows, cid, |rows|);
    assert ConditionHas(index, cid, token);
    var y, n := LastRow(rows, cid, Yes, |rows|), LastRow(rows, cid, No, |rows|);
    assert y >= 0 || n >= 0;
  }

  /** A token no page-set reaches is not touched by any pass. */
  lemma {:induction false} UnreachedStays(run: seq<Pass>, env: Setting, token: TokenId)
    requires IsRun(run, env)
    requires token in env.start && forall n :: 0 <= n < |run| ==> !Reaches(env.fetch(n).0, env.index, token)
    ensures token in EndOf(run, env.start) && EndOf(run, env.start)[token] == env.start[token]
  {
    hide Cleared, BuildRedemptions, GroupsOf, Reaches, Burns, Submitted, BuildCall;
    if run != [] {
      var rest, p := run[..|run| - 1], LastOf(run);
      UnreachedStays(rest, env, token);
      PassOutcome(p, TickOf(rest), env);
      if p.after[token] != p.before[token] {
        var i := PassTouches(p, TickOf(rest), env, token);
        assert p.sent[i] == PlanAt(p, p.before, env.opts.minSharesRaw)[i];
        PlannedIsReached(p.rows, p.before, env.index, env.opts.minSharesRaw, p.sent[i], token);
      }
    }
  }

  lemma {:induction false} RunShrinks(run: seq<Pass>, env: Setting)
    requires IsRun(run, env)
    ensures Shrunk(env.start, EndOf(run, env.start))
  {
    hide Submitted, Shrunk, Cleared;
    ShrunkSelf(env.start);
    if run != [] {
      RunShrinks(run[..|run| - 1], env);
      PassOutcome(LastOf(run), TickOf(run[..|run| - 1]), env);
      ShrunkTrans(env.start, LastOf(run).before, LastOf(run).after);
    }
  }

  /** The first page-set settles the run when it plans nothing, having done nothing, or was not cut. */
  lemma {:induction false} FirstPageSettles(run: seq<Pass>, env: Setting)
    requires IsRun(run, env) && StopsFirstAt(run, env.opts)
    requires var (rows, cut) := env.fetch(0);
             !cut || BuildRedemptions(GroupsOf(rows), env.start, env.opts.minSharesRaw) == []
    ensures |run| == 1
    ensures BuildRedemptions(GroupsOf(env.fetch(0).0), env.start, env.opts.minSharesRaw) == [] ==>
              Sent(run) == 0 && EndOf(run, env.start) == env.start
  {
    hide BuildRedemptions, GroupsOf, Submitted;
    FirstPass(run, env);
    var first := run[0];
    assert [first] == run[..1] && run[..1][..0] == [] && Stops(run[..1], env.opts);
    if |run| > 1 {
      GoesOnAfterFirst(run, env.opts);
      assert false;
    }
    if first.sent == [] {
      NothingSent(first, env);
    }
  }

  lemma {:induction false} NothingSent(p: Pass, env: Setting)
    requires Submitted(p, 0, env) && p.sent == []
    ensures p.after == p.before
  {
    EmptiedNone(p.before, BuildCalls(p.sent), env.index);
  }

  lemma {:induction false} GoesOnAfterFirst(run: seq<Pass>, opts: RedeemOptions)
    requires |run| > 1 && NeverStops(run[..|run| - 1], opts)
    ensures !Stops(run[..1], opts)
  {
    assert run[..|run| - 1][..1] == run[..1];
  }

  lemma {:induction false} FirstPass(run: seq<Pass>, env: Setting)
    requires IsRun(run, env) && run != []
    ensures Follows([], run[0], env)
  {
    hide Follows;
    var n := |run| - 1;
    if n > 0 {
      FirstPass(run[..n], env);
    } else {
      assert run[..0] == [];
    }
  }

  /** A relayer that lands everything fails nothing. */
  lemma {:induction false} AllLandedNoneLost(run: seq<Pass>, env: Setting)
    requires IsRun(run, env) && forall t: nat :: env.relayer(t) == Landed
    ensures Lost(run) == 0
  {
    hide FateFrom, PlanAt, EmptiedBy;
    if run != [] {
      AllLandedNoneLost(run[..|run| - 1], env);
      NothingLost(env.relayer, TickOf(run[..|run| - 1]), 0, |LastOf(run).sent|, env.opts);
    }
  }

  // ---------- Condition by condition ----------

  /** No token belongs to two conditions, or to both sides of one. */
  ghost predicate NoSharedTokens(index: TokenIndex) {
    && (forall c :: index(c).0 != index(c).1)
    && forall c, d, t :: c != d && ConditionHas(index, c, t) ==> !ConditionHas(index, d, t)
  }

  /** What is held of a condition. */
  function PairOf(chain: Holdings, index: TokenIndex, cid: ConditionId): Sides.Pair {
    Sides.Pair(BalanceIn(chain, index(cid).0), BalanceIn(chain, index(cid).1))
  }

  /** What a page-set says of a condition. */
  function ListingOf(rows: seq<Row>, cid: ConditionId): Sides.Listing {
    Sides.Listing(LastRow(rows, cid, Yes, |rows|) >= 0, LastRow(rows, cid, No, |rows|) >= 0,
                  !GroupFor(rows, cid, |rows|).negRisk)
  }

  /** What the first `n` page-sets say of it. */
  function ListingsOf(fetch: nat -> (seq<Row>, bool), n: nat, cid: ConditionId): seq<Sides.Listing> {
    seq(n, p requires 0 <= p < n => ListingOf(fetch(p).0, cid))
  }

  lemma {:induction false} GroupIsListing(rows: seq<Row>, chain: Holdings, index: TokenIndex, cid: ConditionId)
    requires RowsTruthful(rows, index)
    ensures var g, l, h := GroupFor(rows, cid, |rows|), ListingOf(rows, cid), PairOf(chain, index, cid);
            && g.conditionId == cid
            && g.yesToken == (if l.yes then Some(index(cid).0) else None)
            && g.noToken == (if l.no then Some(index(cid).1) else None)
            && Held(chain, g.yesToken) == (if l.yes then h.yes else 0)
            && Held(chain, g.noToken) == (if l.no then h.no else 0)
            && Total(chain, g) == Sides.Named(h, l)
  {
    GroupIs(rows, cid, |rows|);
  }

  /** A planned redemption that names a token of this condition is this condition's. */
  lemma {:induction false} PlannedOwn(
    rows: seq<Row>, chain: Holdings, index: TokenIndex, min: nat, r: Redemption, cid: ConditionId, token: TokenId)
    requires NoSharedTokens(index) && ConditionHas(index, cid, token)
    requires r in BuildRedemptions(GroupsOf(rows), chain, min) && token in Burns(BuildCall(r), index)
    ensures var g := GroupFor(rows, cid, |rows|);
            r == RedemptionOf(chain, g) && Plannable(chain, g, min)
  {
    hide SeenConditions, BuildRedemptions, GroupFor;
    BuiltAre(GroupsOf(rows), chain, min, r);
    var i :| 0 <= i < |GroupsOf(rows)| && Plannable(chain, GroupsOf(rows)[i], min)
             && r == RedemptionOf(chain, GroupsOf(rows)[i]);
    var own := SeenConditions(rows, |rows|)[i];
    GroupIs(rows, own, |rows|);
    assert ConditionHas(index, own, token);
  }

  /** A plannable condition is planned. */
  lemma {:induction false} PlannableIsPlanned(
    rows: seq<Row>, chain: Holdings, min: nat, cid: ConditionId) returns (r: Redemption)
    requires Plannable(chain, GroupFor(rows, cid, |rows|), min)
    ensures r == RedemptionOf(chain, GroupFor(rows, cid, |rows|)) && r in BuildRedemptions(GroupsOf(rows), chain, min)
  {
    hide BuildRedemptions;
    var cids, g := SeenConditions(rows, |rows|), GroupFor(rows, cid, |rows|);
    r := RedemptionOf(chain, g);
    BuiltAre(GroupsOf(rows), chain, min, r);
    if cid !in cids {
      UnseenGroup(rows, cid, |rows|);
    } else {
      var i :| 0 <= i < |cids| && cids[i] == cid;
      assert GroupsOf(rows)[i] == g;
    }
  }

  /** A planned redemption is its condition's. */
  lemma {:induction false} PlannedIs(rows: seq<Row>, chain: Holdings, min: nat, r: Redemption)
    requires r in BuildRedemptions(GroupsOf(rows), chain, min)
    ensures var g := GroupFor(rows, r.conditionId, |rows|);
            r == RedemptionOf(chain, g) && Plannable(chain, g, min)
  {
    hide SeenConditions, BuildRedemptions, GroupFor;
    BuiltAre(GroupsOf(rows), chain, min, r);
    var i :| 0 <= i < |GroupsOf(rows)| && Plannable(chain, GroupsOf(rows)[i], min)
             && r == RedemptionOf(chain, GroupsOf(rows)[i]);
    GroupIs(rows, SeenConditions(rows, |rows|)[i], |rows|);
  }

  /** Which sides a redemption's call takes. */
  lemma {:induction false} CallTakes(r: Redemption, index: TokenIndex)
    requires index(r.conditionId).0 != index(r.conditionId).1
    ensures index(r.conditionId).0 in Burns(BuildCall(r), index) <==> !r.negRisk || r.yesAmount > 0
    ensures index(r.conditionId).1 in Burns(BuildCall(r), index) <==> !r.negRisk || r.noAmount > 0
  {
  }

  ghost predicate SentPlanned(p: Pass, min: nat) {
    forall k :: 0 <= k < |p.sent| ==> p.sent[k] in PlanAt(p, p.before, min)
  }

  /** The pass sent a call for this condition, and the call took effect. */
  ghost predicate Took(p: Pass, tick: nat, env: Setting, cid: ConditionId) {
    exists k :: 0 <= k < |p.sent| && k in FateOf(env.relayer, tick, |p.sent|, env.opts).taken
                && p.sent[k].conditionId == cid
  }

  /** A side is emptied when the condition's call takes effect and takes the side, and kept otherwise. */
  lemma {:induction false} SideActs(p: Pass, tick: nat, env: Setting, cid: ConditionId, token: TokenId)
    requires Submitted(p, tick, env) && NoSharedTokens(env.index)
    requires ConditionHas(env.index, cid, token) && SentPlanned(p, env.opts.minSharesRaw)
    ensures var g := GroupFor(p.rows, cid, |p.rows|);
            BalanceIn(p.after, token)
            == if Took(p, tick, env, cid) && token in Burns(BuildCall(RedemptionOf(p.before, g)), env.index)
               then 0 else BalanceIn(p.before, token)
  {
    hide BuildRedemptions, GroupsOf, GroupFor, NoSharedTokens, Burns, BuildCall, Plannable, RedemptionOf, FateFrom,
         EmptiedBy;
    var g, min := GroupFor(p.rows, cid, |p.rows|), env.opts.minSharesRaw;
    var fate := FateOf(env.relayer, tick, |p.sent|, env.opts);
    PassOutcome(p, tick, env);
    if Took(p, tick, env, cid) && token in Burns(BuildCall(RedemptionOf(p.before, g)), env.index) {
      var k :| 0 <= k < |p.sent| && k in fate.taken && p.sent[k].conditionId == cid;
      PlannedIs(p.rows, p.before, min, p.sent[k]);
      EmptiedClears(p.before, BuildCalls(p.sent), env.index, fate.taken, k);
    } else if BalanceIn(p.after, token) != BalanceIn(p.before, token) {
      var i := PassTouches(p, tick, env, token);
      PlannedOwn(p.rows, p.before, env.index, min, p.sent[i], cid, token);
      GroupIs(p.rows, cid, |p.rows|);
      OwnCondition(p.before, g);
    }
  }

  lemma {:induction false} OwnCondition(chain: Holdings, g: RedeemGroup)
    ensures RedemptionOf(chain, g).conditionId == g.conditionId
  {
  }

  /** What a pass's page-set says of a condition, if its call took effect; otherwise nothing. */
  ghost function TakenListing(p: Pass, tick: nat, env: Setting, cid: ConditionId): Sides.Listing {
    if Took(p, tick, env, cid) then ListingOf(p.rows, cid) else Sides.Listing(false, false, false)
  }

  ghost function TakenListings(run: seq<Pass>, env: Setting, cid: ConditionId): seq<Sides.Listing> {
    if run == [] then []
    else
      var rest := run[..|run| - 1];
      TakenListings(rest, env, cid) + [TakenListing(LastOf(run), TickOf(rest), env, cid)]
  }

  /** A pass does to each condition what its sides say, if its call took effect. */
  lemma {:induction false} PassActs(p: Pass, tick: nat, env: Setting, cid: ConditionId)
    requires Submitted(p, tick, env) && NoSharedTokens(env.index) && RowsTruthful(p.rows, env.index)
    requires SentPlanned(p, env.opts.minSharesRaw)
    ensures PairOf(p.after, env.index, cid)
         == Sides.Step(PairOf(p.before, env.index, cid), TakenListing(p, tick, env, cid), env.opts.minSharesRaw)
  {
    hide BuildRedemptions, GroupsOf, RowsTruthful, Submitted, GroupFor, LastRow, NoSharedTokens, Burns, BuildCall,
         BalanceIn, PlanAt, FateOf, SentPlanned, Took, Held;
    var g, min := GroupFor(p.rows, cid, |p.rows|), env.opts.minSharesRaw;
    GroupIsListing(p.rows, p.before, env.index, cid);
    SideActs(p, tick, env, cid, env.index(cid).0);
    SideActs(p, tick, env, cid, env.index(cid).1);
    SidesDiffer(env.index, cid);
    CallTakes(RedemptionOf(p.before, g), env.index);
    if Took(p, tick, env, cid) {
      TookWasPlannable(p, tick, env, cid);
    }
  }

  lemma {:induction false} TookWasPlannable(p: Pass, tick: nat, env: Setting, cid: ConditionId)
    requires Took(p, tick, env, cid) && SentPlanned(p, env.opts.minSharesRaw)
    ensures Plannable(p.before, GroupFor(p.rows, cid, |p.rows|), env.opts.minSharesRaw)
  {
    hide BuildRedemptions, GroupsOf, GroupFor, FateFrom;
    var k :| 0 <= k < |p.sent| && k in FateOf(env.relayer, tick, |p.sent|, env.opts).taken
             && p.sent[k].conditionId == cid;
    PlannedIs(p.rows, p.before, env.opts.minSharesRaw, p.sent[k]);
  }

  lemma {:induction false} SidesDiffer(index: TokenIndex, cid: ConditionId)
    requires NoSharedTokens(index)
    ensures index(cid).0 != index(cid).1
  {
  }

  lemma {:induction false} FollowsPlan(run: seq<Pass>, env: Setting)
    requires run != [] && IsRun(run, env)
    ensures SentPlanned(LastOf(run), env.opts.minSharesRaw)
  {
    hide Submitted, BuildRedemptions, GroupsOf;
    var p := LastOf(run);
    forall k | 0 <= k < |p.sent| ensures p.sent[k] in PlanAt(p, p.before, env.opts.minSharesRaw) {
      assert p.sent[k] == PlanAt(p, p.before, env.opts.minSharesRaw)[k];
    }
  }

  /** Any run acts on each condition separately, page-set by page-set, where its calls took effect. */
  lemma {:induction false} RunActs(run: seq<Pass>, env: Setting, cid: ConditionId)
    requires IsRun(run, env)
    requires NoSharedTokens(env.index) && forall p :: RowsTruthful(env.fetch(p).0, env.index)
    ensures PairOf(EndOf(run, env.start), env.index, cid)
         == Sides.After(PairOf(env.start, env.index, cid), TakenListings(run, env, cid), env.opts.minSharesRaw)
  {
    hide PlanAt, RowsTruthful, Submitted, TakenListing, PairOf, NoSharedTokens, Sides.Step, SentPlanned;
    if run != [] {
      var n := |run| - 1;
      RunActs(run[..n], env, cid);
      FollowsPlan(run, env);
      PassActs(LastOf(run), TickOf(run[..n]), env, cid);
      assert TakenListings(run, env, cid)[..n] == TakenListings(run[..n], env, cid) by {
        TakenCount(run[..n], env, cid);
      }
      TakenCount(run, env, cid);
    }
  }

  lemma {:induction false} TakenCount(run: seq<Pass>, env: Setting, cid: ConditionId)
    ensures |TakenListings(run, env, cid)| == |run|
  {
    if run != [] {
      TakenCount(run[..|run| - 1], env, cid);
    }
  }

  /** A pass sent whole that loses nothing does what its page-set says, whether it took a call or had
      none to take. */
  lemma {:induction false} WholePassActs(p: Pass, tick: nat, env: Setting, cid: ConditionId)
    requires Submitted(p, tick, env) && RowsTruthful(p.rows, env.index)
    requires p.lost == {} && p.sent == PlanAt(p, p.before, env.opts.minSharesRaw)
    ensures var h := PairOf(p.before, env.index, cid);
            Sides.Step(h, TakenListing(p, tick, env, cid), env.opts.minSharesRaw)
            == Sides.Step(h, ListingOf(p.rows, cid), env.opts.minSharesRaw)
  {
    hide BuildRedemptions, GroupsOf, RowsTruthful, GroupFor, LastRow, FateFrom, EmptiedBy, BalanceIn, Held;
    var g, min := GroupFor(p.rows, cid, |p.rows|), env.opts.minSharesRaw;
    GroupIsListing(p.rows, p.before, env.index, cid);
    if Plannable(p.before, g, min) {
      var r := PlannableIsPlanned(p.rows, p.before, min, cid);
      var k :| 0 <= k < |p.sent| && p.sent[k] == r;
      FateCovers(env.relayer, tick, 0, |p.sent|, env.opts);
      assert k in Indices(0, |p.sent|) && Took(p, tick, env, cid);
    }
  }

  /** A run below the cap that loses nothing does to each condition what the page-sets it fetched say. */
  lemma {:induction false} CleanRunActs(run: seq<Pass>, env: Setting, cid: ConditionId)
    requires IsRun(run, env) && Lost(run) == 0 && !CapReached(run, env.opts)
    requires NoSharedTokens(env.index) && forall p :: RowsTruthful(env.fetch(p).0, env.index)
    ensures PairOf(EndOf(run, env.start), env.index, cid)
         == Sides.After(PairOf(env.start, env.index, cid), ListingsOf(env.fetch, |run|, cid), env.opts.minSharesRaw)
  {
    hide PlanAt, RowsTruthful, Submitted, ListingOf, PairOf, NoSharedTokens, Sides.Step, TakenListing, SentPlanned;
    if run != [] {
      var n := |run| - 1;
      LostAdds(run);
      WholePlan(run, env);
      CleanRunActs(run[..n], env, cid);
      FollowsPlan(run, env);
      assert LastOf(run).lost == {};
      PassActs(LastOf(run), TickOf(run[..n]), env, cid);
      WholePassActs(LastOf(run), TickOf(run[..n]), env, cid);
      assert ListingsOf(env.fetch, |run|, cid)[..n] == ListingsOf(env.fetch, n, cid);
    }
  }

  // ---------- Drained ----------

  /** The page-set names every side of this condition that is held. */
  ghost predicate ListedIfHeld(rows: seq<Row>, chain: Holdings, index: TokenIndex, cid: ConditionId) {
    Sides.NamesAll(PairOf(chain, index, cid), ListingOf(rows, cid))
  }

  /** What is held of a condition on both sides is nothing, or dust below the floor. */
  ghost predicate Redeemed(chain: Holdings, index: TokenIndex, minRaw: nat, cid: ConditionId) {
    Sides.Dust(PairOf(chain, index, cid), minRaw)
  }

  ghost predicate Drained(chain: Holdings, index: TokenIndex, minRaw: nat) {
    forall cid :: Redeemed(chain, index, minRaw, cid)
  }

  /** Whatever is held and not named by the page-set is dust. */
  ghost predicate NothingHidden(rows: seq<Row>, chain: Holdings, index: TokenIndex, minRaw: nat) {
    forall cid :: !ListedIfHeld(rows, chain, index, cid) ==> Redeemed(chain, index, minRaw, cid)
  }

  lemma {:induction false} GroupTotal(rows: seq<Row>, chain: Holdings, index: TokenIndex, cid: ConditionId)
    requires RowsTruthful(rows, index)
    ensures Total(chain, GroupFor(rows, cid, |rows|)) <= BalanceIn(chain, index(cid).0) + BalanceIn(chain, index(cid).1)
    ensures ListedIfHeld(rows, chain, index, cid) ==>
              Total(chain, GroupFor(rows, cid, |rows|))
              == BalanceIn(chain, index(cid).0) + BalanceIn(chain, index(cid).1)
    ensures cid !in SeenConditions(rows, |rows|) ==> Total(chain, GroupFor(rows, cid, |rows|)) == 0
  {
    GroupIs(rows, cid, |rows|);
    if cid !in SeenConditions(rows, |rows|) {
      UnseenGroup(rows, cid, |rows|);
    }
  }

  /** The wallet is drained exactly when the page-set has nothing left to plan and hides nothing:
      a held side may be missing because the page-set was cut, or because its row names neither
      outcome. */
  lemma {:induction false} DrainedIff(rows: seq<Row>, chain: Holdings, index: TokenIndex, minRaw: nat)
    requires RowsTruthful(rows, index)
    ensures Drained(chain, index, minRaw)
       <==> BuildRedemptions(GroupsOf(rows), chain, minRaw) == [] && NothingHidden(rows, chain, index, minRaw)
  {
    hide RowsTruthful, ListedIfHeld, BuildRedemptions, GroupFor, SeenConditions, LastRow;
    var cids, groups := SeenConditions(rows, |rows|), GroupsOf(rows);
    NoneBuiltIff(groups, chain, minRaw);
    if i :| 0 <= i < |groups| && Plannable(chain, groups[i], minRaw) {
      GroupTotal(rows, chain, index, cids[i]);
      assert !Redeemed(chain, index, minRaw, cids[i]);
    } else if NothingHidden(rows, chain, index, minRaw) {
      forall cid ensures Redeemed(chain, index, minRaw, cid) {
        GroupTotal(rows, chain, index, cid);
        if cid in cids {
          var i :| 0 <= i < |cids| && cids[i] == cid;
          assert groups[i] == GroupFor(rows, cid, |rows|);
        }
      }
    }
  }

  /** Every condition held above the floor at the start is served by these listings of it. */
  ghost predicate AllServed(env: Setting, listings: ConditionId -> seq<Sides.Listing>) {
    forall cid :: !Redeemed(env.start, env.index, env.opts.minSharesRaw, cid) ==> ServedBy(env, listings, cid)
  }

  ghost predicate ServedBy(env: Setting, listings: ConditionId -> seq<Sides.Listing>, cid: ConditionId) {
    Sides.Served(PairOf(env.start, env.index, cid), listings(cid), env.opts.minSharesRaw)
  }

  /** The page-sets of the passes in which the condition's call took effect. */
  ghost function WhereTaken(run: seq<Pass>, env: Setting): ConditionId -> seq<Sides.Listing> {
    (cid: ConditionId) => TakenListings(run, env, cid)
  }

  /** The first `passes` page-sets fetched. */
  ghost function Fetched(env: Setting, passes: nat): ConditionId -> seq<Sides.Listing> {
    (cid: ConditionId) => ListingsOf(env.fetch, passes, cid)
  }

  lemma {:induction false} DrainedWhenServed(
    env: Setting, end: Holdings, listings: ConditionId -> seq<Sides.Listing>)
    requires forall cid :: PairOf(end, env.index, cid)
               == Sides.After(PairOf(env.start, env.index, cid), listings(cid), env.opts.minSharesRaw)
    ensures Drained(end, env.index, env.opts.minSharesRaw) <==> AllServed(env, listings)
  {
    hide PairOf, Sides.After, Sides.Served, Sides.Dust;
    forall cid
      ensures Redeemed(end, env.index, env.opts.minSharesRaw, cid)
         <==> Redeemed(env.start, env.index, env.opts.minSharesRaw, cid) || ServedBy(env, listings, cid)
    {
      Sides.RedeemedIff(PairOf(env.start, env.index, cid), listings(cid), env.opts.minSharesRaw);
    }
  }

  /** Any run, capped or failing, drains the wallet exactly when every condition held above the floor at
      the start is served by the page-sets of the passes in which its call took effect. Below the cap
      and with nothing lost, that is by the page-sets fetched. */
  lemma {:induction false} RunDrainsIff(run: seq<Pass>, env: Setting)
    requires IsRun(run, env)
    requires NoSharedTokens(env.index) && forall p :: RowsTruthful(env.fetch(p).0, env.index)
    ensures Drained(EndOf(run, env.start), env.index, env.opts.minSharesRaw) <==> AllServed(env, WhereTaken(run, env))
    ensures Lost(run) == 0 && !CapReached(run, env.opts) ==>
              (Drained(EndOf(run, env.start), env.index, env.opts.minSharesRaw)
               <==> AllServed(env, Fetched(env, |run|)))
  {
    hide PairOf, IsRun, RowsTruthful, NoSharedTokens, Sides.After, ListingsOf, TakenListings, Drained, AllServed;
    forall cid
      ensures PairOf(EndOf(run, env.start), env.index, cid)
           == Sides.After(PairOf(env.start, env.index, cid), WhereTaken(run, env)(cid), env.opts.minSharesRaw)
    {
      RunActs(run, env, cid);
    }
    DrainedWhenServed(env, EndOf(run, env.start), WhereTaken(run, env));
    if Lost(run) == 0 && !CapReached(run, env.opts) {
      forall cid
        ensures PairOf(EndOf(run, env.start), env.index, cid)
             == Sides.After(PairOf(env.start, env.index, cid), Fetched(env, |run|)(cid), env.opts.minSharesRaw)
      {
        CleanRunActs(run, env, cid);
      }
      DrainedWhenServed(env, EndOf(run, env.start), Fetched(env, |run|));
    }
  }

  /** When a page-set names all held sides of a condition or none, it serves it by naming it. */
  lemma {:induction false} ServedWhenNamed(env: Setting, passes: nat, cid: ConditionId)
    requires forall p :: 0 <= p < passes ==>
               || Sides.NamesAll(PairOf(env.start, env.index, cid), ListingOf(env.fetch(p).0, cid))
               || Sides.Named(PairOf(env.start, env.index, cid), ListingOf(env.fetch(p).0, cid)) == 0
    ensures ServedBy(env, Fetched(env, passes), cid)
       <==> exists p :: 0 <= p < passes && ListedIfHeld(env.fetch(p).0, env.start, env.index, cid)
  {
    hide LastRow, GroupFor;
    var h, pages := PairOf(env.start, env.index, cid), ListingsOf(env.fetch, passes, cid);
    Sides.ServedWhenWhole(h, pages, env.opts.minSharesRaw);
    forall p | 0 <= p < passes
      ensures Sides.NamesAll(h, pages[p]) <==> ListedIfHeld(env.fetch(p).0, env.start, env.index, cid)
    {
    }
  }

  // ---------- The loop ----------

  /** Drains in passes. `fetch(p)` is what the API lists in pass `p`: a page-set and whether it was
      cut at the offset cap. Every pass is what its page-set, the balances reached and the relayer's
      replies make of it; the run ends with the first pass that gives a reason to stop, which happens
      because every other pass leaves fewer tokens held. Below the cap, whatever the last page-set
      would still have redeemed was counted as failed; a token no page-set reaches keeps its balance.
      The wallet is drained exactly when every condition held above the floor at the start is served
      by the page-sets of the passes in which its call took effect: with nothing failed and no cap
      reached, by the page-sets fetched. */
  method RedeemAll(
    start: Holdings, index: TokenIndex, fetch: nat -> (seq<Row>, bool), relayer: nat -> Reply, opts: RedeemOptions)
    returns (chain: Holdings, summary: RedeemSummary, ghost run: seq<Pass>)
    requires forall p :: RowsTruthful(fetch(p).0, index)
    ensures IsRun(run, Setting(start, index, fetch, relayer, opts)) && StopsFirstAt(run, opts)
    ensures chain == EndOf(run, start) && Shrunk(start, chain)
    ensures summary.passes == |run| <= |Positive(start)| + 1
    ensures summary.failed == Lost(run) && summary.redeemed + summary.failed == Sent(run)
    ensures summary.passes - 1 <= summary.redeemed
    ensures opts.maxConditions > 0 ==> summary.redeemed + summary.failed <= opts.maxConditions
    ensures (forall t: nat :: relayer(t) == Landed) ==> summary.failed == 0
    ensures var env := Setting(start, index, fetch, relayer, opts);
            NoSharedTokens(index) ==>
              && (Drained(chain, index, opts.minSharesRaw) <==> AllServed(env, WhereTaken(run, env)))
              && (summary.failed == 0 && !CapReached(run, opts) ==>
                    (Drained(chain, index, opts.minSharesRaw) <==> AllServed(env, Fetched(env, summary.passes))))
    ensures !CapReached(run, opts) ==>
              forall r :: r in PlanAt(LastOf(run), chain, opts.minSharesRaw) ==> r.conditionId in Unserved(LastOf(run))
    ensures |Unserved(LastOf(run))| <= summary.failed
    ensures Drained(chain, index, opts.minSharesRaw)
       <==> PlanAt(LastOf(run), chain, opts.minSharesRaw) == []
            && NothingHidden(LastOf(run).rows, chain, index, opts.minSharesRaw)
    ensures forall t :: t in start && (forall p :: 0 <= p < |run| ==> !Reaches(fetch(p).0, index, t)) ==>
              chain[t] == start[t]
    ensures || PlanAt(LastOf(run), LastOf(run).before, opts.minSharesRaw) == []
            || |LastOf(run).lost| == |LastOf(run).sent|
            || !fetch(|run| - 1).1
            || (opts.maxConditions > 0 && summary.redeemed + summary.failed == opts.maxConditions)
    ensures forall p :: 0 <= p < |run| - 1 ==> GoesOn(run, p, Setting(start, index, fetch, relayer, opts))
    ensures !fetch(0).1 ==> summary.passes == 1
    ensures BuildRedemptions(GroupsOf(fetch(0).0), start, opts.minSharesRaw) == [] ==>
              chain == start && summary == RedeemSummary(0, 0, 1)
  {
    hide BuildRedemptions, GroupsOf, Shrunk, Positive, RowsTruthful, BuildCall, NeverStops, IsRun, StopsFirstAt, Stops,
         NothingHidden, Drained, Reaches, NoSharedTokens, AllServed, WhereTaken, Fetched;
    ghost var env := Setting(start, index, fetch, relayer, opts);
    chain, summary, run := DrainLoop(start, index, fetch, relayer, opts);
    StopsSomewhere(run, opts);
    WhyItStops(run, env);
    RunShrinks(run, env);
    LostAdds(run);
    FewUnserved(LastOf(run).lost, LastOf(run).sent);
    LastPass(run, env);
    DrainedIff(LastOf(run).rows, chain, index, opts.minSharesRaw);
    if forall t: nat :: relayer(t) == Landed {
      AllLandedNoneLost(run, env);
    }
    if !CapReached(run, opts) {
      forall r | r in PlanAt(LastOf(run), chain, opts.minSharesRaw) ensures r.conditionId in Unserved(LastOf(run)) {
        LeftIsUnserved(run, env, r);
      }
    }
    if NoSharedTokens(index) {
      RunDrainsIff(run, env);
    }
    forall t | t in start && forall p :: 0 <= p < |run| ==> !Reaches(fetch(p).0, index, t)
      ensures t in chain && chain[t] == start[t]
    {
      UnreachedStays(run, env, t);
    }
    if !fetch(0).1 || BuildRedemptions(GroupsOf(fetch(0).0), start, opts.minSharesRaw) == [] {
      FirstPageSettles(run, env);
    }
  }

  /** Pass `p` had something planned, got some of it through, on a cut page-set, and below the cap. */
  ghost predicate GoesOn(run: seq<Pass>, p: nat, env: Setting)
    requires p < |run|
  {
    && PlanAt(run[p], run[p].before, env.opts.minSharesRaw) != []
    && |run[p].lost| != |run[p].sent|
    && env.fetch(p).1
    && (env.opts.maxConditions > 0 ==> Sent(run[..p + 1]) < env.opts.maxConditions)
  }

  /** The first reason to stop ended the run, and no earlier pass gave one. */
  lemma {:induction false} WhyItStops(run: seq<Pass>, env: Setting)
    requires run != [] && IsRun(run, env) && StopsFirstAt(run, env.opts)
    ensures || PlanAt(LastOf(run), LastOf(run).before, env.opts.minSharesRaw) == []
            || |LastOf(run).lost| == |LastOf(run).sent|
            || !env.fetch(|run| - 1).1
            || CapReached(run, env.opts)
    ensures forall p :: 0 <= p < |run| - 1 ==> GoesOn(run, p, env)
  {
    hide PlanAt, Submitted;
    forall p | 0 <= p < |run| - 1 ensures GoesOn(run, p, env) {
      assert run[..|run| - 1][..p + 1] == run[..p + 1];
      assert !Stops(run[..p + 1], env.opts) && LastOf(run[..p + 1]) == run[p];
      PassAt(run, env, p);
    }
  }

  lemma {:induction false} PassAt(run: seq<Pass>, env: Setting, p: nat)
    requires IsRun(run, env) && p < |run|
    ensures run[p].cut == env.fetch(p).1
  {
    hide Submitted, PlanAt;
    if p < |run| - 1 {
      PassAt(run[..|run| - 1], env, p);
    }
  }

  lemma {:induction false} StopsSomewhere(run: seq<Pass>, opts: RedeemOptions)
    requires StopsFirstAt(run, opts)
    ensures run != []
  {
  }

  lemma {:induction false} LastPass(run: seq<Pass>, env: Setting)
    requires run != [] && IsRun(run, env)
    ensures LastOf(run).rows == env.fetch(|run| - 1).0
  {
    hide Submitted;
  }

  method DrainLoop(
    start: Holdings, index: TokenIndex, fetch: nat -> (seq<Row>, bool), relayer: nat -> Reply, opts: RedeemOptions)
    returns (chain: Holdings, summary: RedeemSummary, ghost run: seq<Pass>)
    requires forall p :: RowsTruthful(fetch(p).0, index)
    ensures IsRun(run, Setting(start, index, fetch, relayer, opts)) && StopsFirstAt(run, opts)
    ensures chain == EndOf(run, start)
    ensures summary.passes == |run| <= |Positive(start)| + 1
    ensures summary.failed == Lost(run) && summary.redeemed + summary.failed == Sent(run)
    ensures summary.passes - 1 <= summary.redeemed
    ensures opts.maxConditions > 0 ==> summary.redeemed + summary.failed <= opts.maxConditions
  {
    hide BuildRedemptions, GroupsOf, Positive, RowsTruthful, BuildCall, NeverStops, IsRun, StopsFirstAt, Sent, Lost,
         EndOf, TickOf, EmptiedBy, FateFrom;
    ghost var env := Setting(start, index, fetch, relayer, opts);
    chain, run := start, [];
    EmptyRun(env);
    summary := RedeemSummary(0, 0, 0);
    var tick := 0;
    while true
      invariant IsRun(run, env) && NeverStops(run, opts) && chain == EndOf(run, start) && tick == TickOf(run)
      invariant summary.passes == |run| && summary.failed == Lost(run)
      invariant summary.redeemed + summary.failed == Sent(run)
      invariant summary.passes + |Positive(chain)| <= |Positive(start)|
      invariant summary.passes <= summary.redeemed
      invariant opts.maxConditions > 0 ==> summary.redeemed + summary.failed < opts.maxConditions
      decreases Positive(chain)
    {
      var (rows, hitCap) := fetch(summary.passes);
      summary := summary.(passes := summary.passes + 1);
      ghost var idle := Pass(rows, hitCap, chain, [], {}, chain, tick);
      if rows == [] {
        NoRowsNoRedemptions(chain, opts.minSharesRaw);
        IdlePass(run, idle, env);
        run := run + [idle];
        break;
      }
      var redemptions := ReadAndPlanRedeem(rows, chain, opts.minSharesRaw);
      if redemptions == [] {
        IdlePass(run, idle, env);
        run := run + [idle];
        break;
      }
      if opts.maxConditions > 0 {
        var remaining := opts.maxConditions - (summary.redeemed + summary.failed);
        redemptions := Take(redemptions, remaining);
      }
      ghost var before, fate := chain, FateOf(relayer, tick, |redemptions|, opts);
      var ok, bad;
      ghost var batches;
      chain, ok, bad, tick, batches := SubmitBatches(chain, BuildCalls(redemptions), index, opts, relayer, tick);
      ghost var pass := Pass(rows, hitCap, before, redemptions, fate.lost, chain, tick);
      BusyPass(run, pass, env);
      run := run + [pass];
      summary := summary.(redeemed := summary.redeemed + ok, failed := summary.failed + bad);
      if opts.maxConditions > 0 && summary.redeemed + summary.failed >= opts.maxConditions {
        break;
      }
      if ok == 0 {
        break;
      }
      if !hitCap {
        break;
      }
    }
  }

  lemma {:induction false} EmptyRun(env: Setting)
    ensures IsRun([], env) && NeverStops([], env.opts)
    ensures EndOf([], env.start) == env.start && TickOf([]) == 0 && Sent([]) == 0 && Lost([]) == 0
  {
  }

  lemma {:induction false} ShrunkSelf(chain: Holdings)
    ensures Shrunk(chain, chain)
  {
  }

  lemma {:induction false} NoRowsNoRedemptions(chain: Holdings, minRaw: nat)
    ensures BuildRedemptions(GroupsOf([]), chain, minRaw) == []
  {
  }

  lemma {:induction false} SmallerSet(small: set<TokenId>, big: set<TokenId>)
    requires small <= big
    ensures |small| <= |big| && (small < big ==> |small| < |big|)
  {
    assert big == small + (big - small);
    assert |big| == |small| + |big - small|;
    if small < big {
      var t :| t in big - small;
    }
  }

  // ---------- Runs that drain, and runs that stop short ----------

  /** A wallet is drained when every condition held above the floor is named whole in the first
      page-set, that page-set is not cut, and the relayer lands what it is sent. */
  method OnePageDrains(
    start: Holdings, index: TokenIndex, fetch: nat -> (seq<Row>, bool), relayer: nat -> Reply, opts: RedeemOptions)
    returns (chain: Holdings, summary: RedeemSummary)
    requires forall p :: RowsTruthful(fetch(p).0, index)
    requires NoSharedTokens(index) && opts.maxConditions == 0 && !fetch(0).1
    requires forall t: nat :: relayer(t) == Landed
    requires forall cid :: !Redeemed(start, index, opts.minSharesRaw, cid) ==>
               ListedIfHeld(fetch(0).0, start, index, cid)
    ensures Drained(chain, index, opts.minSharesRaw) && summary.failed == 0 && summary.passes == 1
  {
    hide RowsTruthful, IsRun, StopsFirstAt, BuildRedemptions, GroupsOf, NothingHidden, PlanAt, Drained, Reaches,
         NoSharedTokens, LastRow, GroupFor;
    ghost var run;
    chain, summary, run := RedeemAll(start, index, fetch, relayer, opts);
    ghost var env := Setting(start, index, fetch, relayer, opts);
    forall cid | !Redeemed(start, index, opts.minSharesRaw, cid) ensures ServedBy(env, Fetched(env, 1), cid) {
      assert Sides.NamesAll(PairOf(start, index, cid), ListingsOf(fetch, 1, cid)[0]);
    }
  }

  /** A first page-set holding nothing but dust ends the run at once, whatever lies beyond it and
      whether or not it was cut: a condition above the floor stays held. */
  method DustEndsTheDrain(
    start: Holdings, index: TokenIndex, fetch: nat -> (seq<Row>, bool), relayer: nat -> Reply, opts: RedeemOptions,
    ghost cid: ConditionId)
    returns (chain: Holdings, summary: RedeemSummary)
    requires forall p :: RowsTruthful(fetch(p).0, index)
    requires BuildRedemptions(GroupsOf(fetch(0).0), start, opts.minSharesRaw) == []
    requires !Redeemed(start, index, opts.minSharesRaw, cid)
    ensures chain == start && summary == RedeemSummary(0, 0, 1)
    ensures !Drained(chain, index, opts.minSharesRaw)
  {
    hide RowsTruthful, GroupsOf, BuildRedemptions, IsRun, StopsFirstAt;
    ghost var run;
    chain, summary, run := RedeemAll(start, index, fetch, relayer, opts);
  }

  /** No page-set ever names this condition with a YES or NO outcome. */
  ghost predicate OnlyOther(fetch: nat -> (seq<Row>, bool), cid: ConditionId) {
    forall p, i :: 0 <= p && 0 <= i < |fetch(p).0| && IsFor(fetch(p).0[i], cid) ==> fetch(p).0[i].side == Other
  }

  /** A condition listed under other outcomes only is never redeemed, though its rows are listed in
      full, in uncut page-sets, and nothing fails. */
  method OtherOutcomesStayHeld(
    start: Holdings, index: TokenIndex, fetch: nat -> (seq<Row>, bool), relayer: nat -> Reply, opts: RedeemOptions,
    ghost cid: ConditionId)
    returns (chain: Holdings, summary: RedeemSummary)
    requires forall p :: RowsTruthful(fetch(p).0, index)
    requires forall c, t :: c != cid && ConditionHas(index, c, t) ==> !ConditionHas(index, cid, t)
    requires OnlyOther(fetch, cid) && !Redeemed(start, index, opts.minSharesRaw, cid)
    ensures BalanceIn(chain, index(cid).0) == BalanceIn(start, index(cid).0)
    ensures BalanceIn(chain, index(cid).1) == BalanceIn(start, index(cid).1)
    ensures !Drained(chain, index, opts.minSharesRaw)
  {
    hide RowsTruthful, IsRun, StopsFirstAt, BuildRedemptions, GroupsOf, NothingHidden, PlanAt, CapReached;
    ghost var run;
    chain, summary, run := RedeemAll(start, index, fetch, relayer, opts);
    forall t, p | ConditionHas(index, cid, t) && 0 <= p < |run| ensures !Reaches(fetch(p).0, index, t) {
      NotReached(fetch, index, cid, t, p);
    }
    assert ConditionHas(index, cid, index(cid).0) && ConditionHas(index, cid, index(cid).1);
    assert !Redeemed(chain, index, opts.minSharesRaw, cid);
  }

  lemma {:induction false} NotReached(
    fetch: nat -> (seq<Row>, bool), index: TokenIndex, cid: ConditionId, token: TokenId, p: nat)
    requires forall c, t :: c != cid && ConditionHas(index, c, t) ==> !ConditionHas(index, cid, t)
    requires OnlyOther(fetch, cid) && ConditionHas(index, cid, token)
    ensures !Reaches(fetch(p).0, index, token)
  {
    hide ConditionHas;
    var rows := fetch(p).0;
    forall i | 0 <= i < |rows| && Parses(rows[i]) && rows[i].side != Other
      ensures !ConditionHas(index, rows[i].conditionId.value, token)
    {
      assert !IsFor(rows[i], cid);
    }
  }

  function PairIndex(cid: ConditionId): (TokenId, TokenId) {
    (10 * cid + 10, 10 * cid + 11)
  }

  /** One unit of condition 0 listed, cut at the cap; condition 1 holds a hundred beyond it. */
  method DustHidesTheTail(relayer: nat -> Reply, opts: RedeemOptions) returns (chain: Holdings)
    requires 1 < opts.minSharesRaw <= 100
    ensures chain == map[10 := 1, 20 := 100]
    ensures !Redeemed(chain, PairIndex, opts.minSharesRaw, 1)
  {
    var dust := [Row(Some(0), Some(10), Yes, true)];
    var start: Holdings := map[10 := 1, 20 := 100];
    OneRow(dust[0]);
    assert Redeemed(start, PairIndex, opts.minSharesRaw, 0) && !Redeemed(start, PairIndex, opts.minSharesRaw, 1);
    var summary;
    chain, summary := DustEndsTheDrain(start, PairIndex, _ => (dust, true), relayer, opts, 1);
  }

  /** A hundred of condition 0, listed in full under an outcome that is neither YES nor NO. */
  method OtherOutcomeIsSkipped(relayer: nat -> Reply, opts: RedeemOptions) returns (chain: Holdings)
    requires opts.minSharesRaw <= 100
    ensures BalanceIn(chain, 10) == 100 && !Redeemed(chain, PairIndex, opts.minSharesRaw, 0)
  {
    var rows := [Row(Some(0), Some(10), Other, false)];
    var start: Holdings := map[10 := 100];
    assert !Redeemed(start, PairIndex, opts.minSharesRaw, 0);
    var summary;
    chain, summary := OtherOutcomesStayHeld(start, PairIndex, _ => (rows, false), relayer, opts, 0);
  }

  lemma {:induction false} OneRow(row: Row)
    requires Parses(row)
    ensures GroupsOf([row]) == [GroupFor([row], row.conditionId.value, 1)]
    ensures GroupFor([row], row.conditionId.value, 1).conditionId == row.conditionId.value
    ensures GroupFor([row], row.conditionId.value, 1).yesToken == if row.side == Yes then row.asset else None
    ensures GroupFor([row], row.conditionId.value, 1).noToken == if row.side == No then row.asset else None
  {
    assert SeenConditions([row], 0) == [];
    assert SeenConditions([row], 1) == [row.conditionId.value];
    assert GroupFor([row], row.conditionId.value, 0) == RedeemGroup(row.conditionId.value, None, None, false);
  }
}
