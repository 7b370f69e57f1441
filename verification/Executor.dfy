/** The engine: plan every event from one balance read, submit the chunks in order, and on a failed
    round re-read and re-plan. The relayer is an arbitrary sequence of replies. */
module Executor {
  import opened Prelude
  import opened Legs
  import opened Chain
  import opened Planner
  import opened Execution
  import opened PlanTheorems
  import opened Waste
  import opened Worlds
  import GasChunks
  import Layout

  const REBUILD_ATTEMPTS: nat := 2

  /** What the relayer answers to one submission. `LostAck` is an error whose batch landed anyway
      and has settled by the next balance read. */
  datatype Reply = Landed | Busy | Rejected | LostAck | QuotaExhausted

  // ---------- One job per event ----------

  /** First occurrence per slug, in input order. */
  function FirstPerSlug(batch: seq<ConvertJob>): seq<ConvertJob> {
    if batch == [] then []
    else
      var n := |batch| - 1;
      FirstPerSlug(batch[..n])
      + if exists i :: 0 <= i < n && batch[i].slug == batch[n].slug then [] else [batch[n]]
  }

  method DedupBySlug(batch: seq<ConvertJob>) returns (uniques: seq<ConvertJob>)
    ensures uniques == FirstPerSlug(batch)
  {
    uniques := [];
    var seen: set<string> := {};
    for i := 0 to |batch|
      invariant uniques == FirstPerSlug(batch[..i])
      invariant seen == set j | 0 <= j < i :: batch[j].slug
    {
      assert batch[..i + 1][..i] == batch[..i];
      if batch[i].slug !in seen {
        seen := seen + {batch[i].slug};
        uniques := uniques + [batch[i]];
      }
    }
    assert batch[..|batch|] == batch;
  }

  /** No earlier job has job `i`'s slug. */
  ghost predicate FirstOfSlug(batch: seq<ConvertJob>, i: int) {
    0 <= i < |batch| && forall j :: 0 <= j < i ==> batch[j].slug != batch[i].slug
  }

  /** The jobs kept are the first of their slugs, all of them, in the order queued: `at` says which. */
  lemma {:induction false} KeptAreFirst(batch: seq<ConvertJob>) returns (at: seq<nat>)
    ensures |at| == |FirstPerSlug(batch)|
    ensures forall k :: 0 <= k < |at| ==> FirstOfSlug(batch, at[k]) && FirstPerSlug(batch)[k] == batch[at[k]]
    ensures forall k, l :: 0 <= k < l < |at| ==> at[k] < at[l]
    ensures forall i :: FirstOfSlug(batch, i) ==> i in at
  {
    if batch == [] {
      at := [];
    } else {
      var n := |batch| - 1;
      var before := KeptAreFirst(batch[..n]);
      FirstInPrefix(batch, n);
      at := before + if FirstOfSlug(batch, n) then [n] else [];
      hide FirstOfSlug;
      forall i | FirstOfSlug(batch, i) ensures i in at {
        InBatch(batch, i);
        if i < n {
          var k :| 0 <= k < |before| && before[k] == i;
          assert at[k] == i;
        } else {
          assert at[|before|] == n;
        }
      }
    }
  }

  lemma {:induction false} InBatch(batch: seq<ConvertJob>, i: int)
    requires FirstOfSlug(batch, i)
    ensures 0 <= i < |batch|
  {
  }

  lemma {:induction false} FirstInPrefix(batch: seq<ConvertJob>, n: nat)
    requires n == |batch| - 1
    ensures forall i :: FirstOfSlug(batch[..n], i) <==> i < n && FirstOfSlug(batch, i)
    ensures FirstPerSlug(batch) == FirstPerSlug(batch[..n]) + if FirstOfSlug(batch, n) then [batch[n]] else []
  {
  }

  lemma {:induction false} KeptWereQueued(batch: seq<ConvertJob>, u: ConvertJob)
    requires u in FirstPerSlug(batch)
    ensures exists i :: 0 <= i < |batch| && batch[i] == u
  {
    var n := |batch| - 1;
    if u in FirstPerSlug(batch[..n]) {
      KeptWereQueued(batch[..n], u);
    }
  }

  /** Every queued event has its job kept. */
  lemma {:induction false} QueuedAreKept(batch: seq<ConvertJob>, j: nat)
    requires j < |batch|
    ensures exists u :: u in FirstPerSlug(batch) && u.slug == batch[j].slug
  {
    var n := |batch| - 1;
    if j < n {
      QueuedAreKept(batch[..n], j);
    } else if i :| 0 <= i < n && batch[i].slug == batch[n].slug {
      QueuedAreKept(batch[..n], i);
    } else {
      assert batch[n] in FirstPerSlug(batch);
    }
  }

  /** When different slugs mean different events, the jobs kept are distinct events. */
  lemma {:induction false} DedupGivesValidJobs(batch: seq<ConvertJob>)
    requires forall i :: 0 <= i < |batch| ==> WellFormed(batch[i].legs)
    requires forall i, j :: 0 <= i < j < |batch| && batch[i].slug != batch[j].slug ==>
               Apart(batch[i].legs, batch[j].legs)
    ensures ValidJobs(FirstPerSlug(batch))
  {
    hide WellFormed, Apart;
    if batch != [] {
      var n := |batch| - 1;
      var kept := FirstPerSlug(batch[..n]);
      DedupGivesValidJobs(batch[..n]);
      if !exists i :: 0 <= i < n && batch[i].slug == batch[n].slug {
        assert FirstPerSlug(batch) == kept + [batch[n]];
        forall e | 0 <= e < |kept| ensures Apart(kept[e].legs, batch[n].legs) {
          KeptWereQueued(batch[..n], kept[e]);
        }
      }
    }
  }

  // ---------- Submitting ----------

  /** One past the reply that ends a submission from `tick`: the first that is not busy, or the last of
      the retries. */
  function BusyEnd(relayer: nat -> Reply, tick: nat, maxRetries: nat): (next: nat)
    ensures tick < next
    decreases maxRetries
  {
    if relayer(tick) == Busy && maxRetries > 0 then BusyEnd(relayer, tick + 1, maxRetries - 1) else tick + 1
  }

  /** Resubmit while the relayer reports the wallet busy, at most `maxRetries` times. A busy reply
      submits nothing, so the batch goes through at most once. */
  method SubmitWithBusyRetry(relayer: nat -> Reply, tick: nat, maxRetries: nat)
    returns (reply: Reply, next: nat)
    ensures tick < next <= tick + maxRetries + 1 && next == BusyEnd(relayer, tick, maxRetries)
    ensures reply == relayer(next - 1)
    ensures forall t :: tick <= t < next - 1 ==> relayer(t) == Busy
    ensures reply == Busy ==> next == tick + maxRetries + 1
  {
    var attempt: nat := 0;
    next := tick;
    while true
      invariant attempt <= maxRetries && next == tick + attempt
      invariant BusyEnd(relayer, tick, maxRetries) == BusyEnd(relayer, next, maxRetries - attempt)
      invariant forall t :: tick <= t < next ==> relayer(t) == Busy
      decreases maxRetries - attempt
    {
      reply := relayer(next);
      next := next + 1;
      if reply == Busy && attempt < maxRetries {
        attempt := attempt + 1;
      } else {
        return;
      }
    }
  }

  datatype RoundEnd = Clean | NeedsRebuild | OverQuota

  /** A chunk of the planned calls landing as one transaction. */
  lemma {:induction false} ChunkLands(
    jobs: seq<ConvertJob>, calls: seq<PlannedCall>, start: World, world: World, end: World, lo: nat, hi: nat)
    returns (next: World)
    requires |jobs| == |world| && lo <= hi <= |calls| && Preserved(jobs, start, world)
    requires WorldLeads(jobs, calls[lo..], world, end)
    ensures WorldRun(jobs, calls[lo..hi], world) == Some(next)
    ensures |next| == |jobs| && WorldLeads(jobs, calls[hi..], next, end) && Preserved(jobs, start, next)
  {
    hide WorldLeads, WorldRun, Preserved, Fitting;
    PreservedFits(jobs, start, world);
    next := WorldLeadsSplit(jobs, calls[lo..], world, end, hi - lo);
    assert calls[lo..][..hi - lo] == calls[lo..hi] && calls[lo..][hi - lo..] == calls[hi..];
    WorldLeadsRuns(jobs, calls[lo..hi], world, next);
    PreservedTrans(jobs, start, world, next);
  }

  // ---------- Rounds ----------

  /** How a round that submitted over `tick..next` came to its end: with every chunk landed, or at the
      first reply that was neither a landing nor a busy wallet still to be retried. */
  ghost predicate Ended(relayer: nat -> Reply, tick: nat, next: nat, maxRetries: nat, outcome: RoundEnd) {
    && tick <= next
    && (forall t :: tick <= t < next - 1 ==> relayer(t) == Landed || relayer(t) == Busy)
    && (outcome == Clean ==> next == tick || relayer(next - 1) == Landed)
    && (outcome != Clean ==> tick < next && relayer(next - 1) != Landed)
    && (outcome == OverQuota <==> tick < next && relayer(next - 1) == QuotaExhausted)
    && (tick < next && relayer(next - 1) == Busy ==>
          tick + maxRetries < next && forall t :: next - 1 - maxRetries <= t < next ==> relayer(t) == Busy)
  }

  predicate TookEffect(reply: Reply) {
    reply == Landed || reply == LostAck
  }

  /** Some submission of `tick..next` took effect, acknowledged or not. */
  ghost predicate AnyEffect(relayer: nat -> Reply, tick: nat, next: nat) {
    exists t :: tick <= t < next && TookEffect(relayer(t))
  }

  /** How many submissions of `tick..next` took effect. */
  function Landings(relayer: nat -> Reply, tick: nat, next: nat): (n: nat)
    ensures n > 0 <==> AnyEffect(relayer, tick, next)
    decreases next
  {
    if next <= tick then 0
    else
      var n := Landings(relayer, tick, next - 1);
      assert AnyEffect(relayer, tick, next) <==> AnyEffect(relayer, tick, next - 1) || TookEffect(relayer(next - 1));
      n + if TookEffect(relayer(next - 1)) then 1 else 0
  }

  lemma {:induction false} LandingsAdd(relayer: nat -> Reply, tick: nat, from: nat, next: nat)
    requires tick <= from < next && forall t :: from <= t < next - 1 ==> relayer(t) == Busy
    ensures Landings(relayer, tick, next)
         == Landings(relayer, tick, from) + if TookEffect(relayer(next - 1)) then 1 else 0
    decreases next
  {
    if from < next - 1 {
      LandingsAdd(relayer, tick, from, next - 1);
    }
  }

  /** Where the first `n` chunks end. */
  function RanTo(ranges: seq<GasChunks.Range>, n: nat): nat
    requires n <= |ranges|
  {
    if n == 0 then 0 else ranges[n - 1].hi
  }

  /** The calls that ran in a round are the first `ran` of its plan, in order. */
  ghost predicate RanFirst(jobs: seq<ConvertJob>, calls: seq<PlannedCall>, start: World, world: World, ran: nat)
    requires |jobs| == |start|
  {
    ran <= |calls| && WorldRun(jobs, calls[..ran], start) == Some(world)
  }

  /** Everything a loop over the chunks knows, having dealt with `calls[..pos]`. */
  ghost predicate Submitting(
    jobs: seq<ConvertJob>, shown0: World, start: World, calls: seq<PlannedCall>, end: World, pos: nat,
    shown: World, world: World)
  {
    && pos <= |calls| && Fitting(jobs, start) && Fitting(jobs, world) && |shown| == |jobs|
    && Preserved(jobs, shown0, shown) && Shadows(jobs, shown, world) && SameWorths(jobs, start, world)
    && WorldLeads(jobs, calls[pos..], shown, end)
    && RanFirst(jobs, calls, start, world, pos)
  }

  lemma {:induction false} SubmittingStarts(
    jobs: seq<ConvertJob>, shown: World, start: World, calls: seq<PlannedCall>, end: World)
    requires Fitting(jobs, start) && Fitting(jobs, shown) && Shadows(jobs, shown, start)
    requires WorldLeads(jobs, calls, shown, end)
    ensures Submitting(jobs, shown, start, calls, end, 0, shown, start)
  {
    hide WorldLeads, Preserved, Shadows, SameWorths;
    assert calls[0..] == calls && calls[..0] == [];
    PreservedSelf(jobs, shown);
    SameWorthsSelf(jobs, start);
  }

  /** A chunk landing. */
  lemma {:induction false} SubmittingGoesOn(
    jobs: seq<ConvertJob>, shown0: World, start: World, calls: seq<PlannedCall>, end: World, pos: nat, hi: nat,
    shown: World, world: World) returns (shown1: World)
    requires Submitting(jobs, shown0, start, calls, end, pos, shown, world) && pos <= hi <= |calls|
    ensures |world| == |jobs| && WorldRun(jobs, calls[pos..hi], world).Some?
    ensures Submitting(jobs, shown0, start, calls, end, hi, shown1, WorldRun(jobs, calls[pos..hi], world).value)
  {
    hide WorldLeads, Preserved, Shadows, SameWorths, WorldRun;
    shown1 := ChunkLands(jobs, calls, shown0, shown, end, pos, hi);
    ShadowRun(jobs, calls[pos..hi], shown, world);
    var world1 := WorldRun(jobs, calls[pos..hi], world).value;
    SameWorthsTrans(jobs, start, world, world1);
    SameWorthsFit(jobs, world, world1);
    WorldRunAppend(jobs, calls[..pos], calls[pos..hi], start);
    assert calls[..pos] + calls[pos..hi] == calls[..hi];
  }

  lemma {:induction false} SubmittingKeeps(
    jobs: seq<ConvertJob>, shown0: World, start: World, calls: seq<PlannedCall>, end: World, pos: nat,
    shown: World, world: World)
    requires Submitting(jobs, shown0, start, calls, end, pos, shown, world) && Shadows(jobs, shown0, start)
    ensures Kept(jobs, start, world) && RanFirst(jobs, calls, start, world, pos)
    ensures pos == |calls| ==> Shadows(jobs, end, world)
  {
    hide SameValue, WorldLeads, SameWorth, WorldRun, Known, ExtraYes;
    forall e | 0 <= e < |jobs| ensures KeptEvent(jobs[e], start[e], world[e]) {
    }
    if pos == |calls| {
      assert calls[pos..] == [];
      AtEnd(jobs, shown, end);
    }
  }

  /** Submit the chunks in order, stopping at the first error. The calls of the chunks that took
      effect, and no others, have run. */
  method SubmitChunks(
    jobs: seq<ConvertJob>, start: World, calls: seq<PlannedCall>, ranges: seq<GasChunks.Range>, maxRetries: nat,
    relayer: nat -> Reply, tick: nat, ghost shown0: World, ghost end: World)
    returns (world: World, next: nat, outcome: RoundEnd, ghost ran: nat)
    requires Fitting(jobs, start) && Fitting(jobs, shown0) && Shadows(jobs, shown0, start)
    requires WorldLeads(jobs, calls, shown0, end)
    requires GasChunks.Covers(ranges, |calls|)
    ensures Kept(jobs, start, world) && RanFirst(jobs, calls, start, world, ran)
    ensures outcome == Clean ==> ran == |calls| && Shadows(jobs, end, world)
    ensures Ended(relayer, tick, next, maxRetries, outcome)
    ensures var n := Landings(relayer, tick, next);
            n <= |ranges| && ran == RanTo(ranges, n) && (outcome == Clean ==> n == |ranges|)
  {
    hide Submitting, WorldLeads, WorldRun, Kept, Shadows, RanFirst, Landings, AnyEffect;
    NoLandings(relayer, tick);
    world, next := start, tick;
    ghost var shown := shown0;
    SubmittingStarts(jobs, shown0, start, calls, end);
    var pos: nat := 0;
    for i := 0 to |ranges|
      invariant pos == (if i == |ranges| then |calls| else ranges[i].lo) && pos <= |calls|
      invariant Submitting(jobs, shown0, start, calls, end, pos, shown, world)
      invariant Ended(relayer, tick, next, maxRetries, Clean)
      invariant Landings(relayer, tick, next) == i && pos == RanTo(ranges, i)
    {
      var range := ranges[i];
      ghost var before := next;
      var reply;
      reply, next := SubmitWithBusyRetry(relayer, next, maxRetries);
      LandingsAdd(relayer, tick, before, next);
      if TookEffect(reply) {
        ghost var shown1 := SubmittingGoesOn(jobs, shown0, start, calls, end, pos, range.hi, shown, world);
        world := WorldRun(jobs, calls[range.lo..range.hi], world).value;
        pos, shown := range.hi, shown1;
      }
      if reply != Landed {
        SubmittingKeeps(jobs, shown0, start, calls, end, pos, shown, world);
        return world, next, if reply == QuotaExhausted then OverQuota else NeedsRebuild, pos;
      }
    }
    SubmittingKeeps(jobs, shown0, start, calls, end, pos, shown, world);
    return world, next, Clean, pos;
  }

  lemma {:induction false} NoLandings(relayer: nat -> Reply, tick: nat)
    ensures Landings(relayer, tick, tick) == 0
  {
  }

  /** The chunks respect both budgets, and no fewer would. */
  ghost predicate FewestChunks(
    calls: seq<PlannedCall>, ranges: seq<GasChunks.Range>, maxCalls: nat, maxGas: nat)
  {
    && GasChunks.Packs(calls, ranges, |calls|, Max(maxCalls, 1), maxGas)
    && forall other :: GasChunks.Packs(calls, other, |calls|, Max(maxCalls, 1), maxGas) ==> |ranges| <= |other|
  }

  /** From `before` a round over `tick..next` ran the chunks of its plan that took effect, in order, and
      nothing else. */
  ghost predicate RanChunks(
    jobs: seq<ConvertJob>, floor: nat, maxCalls: nat, maxGas: nat, relayer: nat -> Reply, tick: nat, next: nat,
    before: World, after: World, ranges: seq<GasChunks.Range>)
    requires |jobs| == |before|
  {
    var calls, n := AllCalls(PlansOf(jobs, before, floor)), Landings(relayer, tick, next);
    && FewestChunks(calls, ranges, maxCalls, maxGas)
    && n <= |ranges| && RanFirst(jobs, calls, before, after, RanTo(ranges, n))
  }

  /** One round: read, plan, submit. Whatever the replies, a prefix of the plan has run, no value has
      moved, and the round is clean exactly when it ended with every chunk landed. */
  method Round(
    jobs: seq<ConvertJob>, start: World, floor: nat, maxCalls: nat, maxGas: nat, maxRetries: nat,
    relayer: nat -> Reply, tick: nat, readOk: bool)
    returns (world: World, next: nat, outcome: RoundEnd, ghost ranges: seq<GasChunks.Range>)
    requires ValidJobs(jobs) && Fitting(jobs, start) && Layout.Readable(jobs)
    ensures Kept(jobs, start, world)
    ensures readOk ==> RanChunks(jobs, floor, maxCalls, maxGas, relayer, tick, next, start, world, ranges)
    ensures outcome == Clean ==> Landings(relayer, tick, next) == |ranges|
    ensures outcome == Clean ==>
              forall e :: 0 <= e < |jobs| && Known(jobs[e]) ==> DrainedEvent(jobs[e], world[e], floor)
    ensures if readOk then Ended(relayer, tick, next, maxRetries, outcome)
            else outcome == NeedsRebuild && next == tick && world == start
  {
    hide WorldLeads, Plan, EventCalls, Kept, ValidJobs, DrainedEvent, Buildable, AllCalls, Ended, WorldRun,
         GasChunks.Covers, GasChunks.Fits, Known, Landings, AnyEffect;
    if !readOk {
      KeptSelf(jobs, start);
      return start, tick, NeedsRebuild, [];
    }
    var plans := ReadAndPlan(jobs, start, floor);
    var planned := PlanCalls(plans);
    ghost var shown := ShownWorld(jobs, start);
    ShownPlans(jobs, start, floor);
    ShownShadows(jobs, start);
    PlansBuildable(jobs, shown, floor);
    ghost var end := RoundPhase(jobs, shown, shown, floor, 0);
    assert plans[0..] == plans;
    var chunks := GasChunks.Chunks(planned.value, maxCalls, maxGas);
    ranges := chunks;
    ghost var ran;
    world, next, outcome, ran := SubmitChunks(
      jobs, start, planned.value, chunks, maxRetries, relayer, tick, shown, end);
  }

  lemma {:induction false} ShownPlans(jobs: seq<ConvertJob>, world: World, floor: nat)
    requires |jobs| == |world|
    ensures var shown := ShownWorld(jobs, world);
            && PlansOf(jobs, shown, floor) == PlansOf(jobs, world, floor)
            && forall e :: 0 <= e < |jobs| ==> Layout.Shown(jobs[e].legs, shown[e].bal) == shown[e].bal
  {
    hide Plan;
    var shown := ShownWorld(jobs, world);
    assert forall e :: 0 <= e < |jobs| ==> Layout.Shown(jobs[e].legs, shown[e].bal) == shown[e].bal;
  }

  lemma {:induction false} AtEnd(jobs: seq<ConvertJob>, world: World, end: World)
    requires |jobs| == |world| && WorldLeads(jobs, [], world, end)
    ensures world == end
  {
  }

  lemma {:induction false} PlansBuildable(jobs: seq<ConvertJob>, world: World, floor: nat)
    requires ValidJobs(jobs) && Fitting(jobs, world)
    ensures forall e :: 0 <= e < |jobs| ==> Buildable(PlansOf(jobs, world, floor)[e])
  {
    hide Plan, Buildable, WellFormed;
    forall e | 0 <= e < |jobs| ensures Buildable(PlansOf(jobs, world, floor)[e]) {
      PlanIsFeasibleAndExact(
        jobs[e].legs, Layout.Shown(jobs[e].legs, world[e].bal), 0, floor, MAX_LEGS_PER_CONVERT);
    }
  }

  /** What the chain answers for one token when the wallet holds `world`. */
  function TokenBalance(jobs: seq<ConvertJob>, world: World): TokenId -> nat
    requires Layout.Shaped(jobs, HeldBy(world))
    requires |Layout.AllFlatOf(jobs, HeldBy(world))| == |Layout.AllTokenIds(jobs)|
  {
    t => Layout.OnChain(Layout.AllTokenIds(jobs), Layout.AllFlatOf(jobs, HeldBy(world)), t)
  }

  lemma {:induction false} ReadShows(jobs: seq<ConvertJob>, world: World)
    requires Fitting(jobs, world) && Layout.Readable(jobs)
    ensures Layout.Shaped(jobs, HeldBy(world))
    ensures |Layout.AllFlatOf(jobs, HeldBy(world))| == |Layout.AllTokenIds(jobs)|
    ensures Layout.AllSeen(jobs, TokenBalance(jobs, world)) == Layout.AllShown(jobs, HeldBy(world))
  {
    hide Layout.OnChain, Layout.AllFlatOf, Layout.AllTokenIds, Layout.AllSeen, Layout.AllShown;
    Layout.AllFlatPairs(jobs, HeldBy(world));
    Layout.AllTokenIdsCount(jobs);
    Layout.ReadsBack(jobs, HeldBy(world), TokenBalance(jobs, world));
  }

  /** One balance read over all events, unpacked, and a plan per event. */
  method ReadAndPlan(jobs: seq<ConvertJob>, world: World, floor: nat) returns (plans: seq<EventPlan>)
    requires Fitting(jobs, world) && Layout.Readable(jobs)
    ensures plans == PlansOf(jobs, world, floor)
  {
    hide Plan, Layout.Shown;
    ReadShows(jobs, world);
    var read := Layout.ReadBalancesMulti(jobs, TokenBalance(jobs, world));
    var pairs := read.value;
    plans := [];
    for e := 0 to |jobs|
      invariant |plans| == e && forall f :: 0 <= f < e ==> plans[f] == PlanJob(jobs[f], world[f], floor)
    {
      var plan := PlanEventFromBalances(jobs[e].legs, pairs[e], floor);
      plans := plans + [plan];
    }
  }

  // ---------- The cycle ----------

  datatype CycleEnd = Complete | Failed | QuotaBlocked

  /** Round `a`, over `ticks[a]..ticks[a + 1]`, could not read the balances or met an error. */
  ghost predicate RoundFailed(
    relayer: nat -> Reply, readable: nat -> bool, maxRetries: nat, ticks: seq<nat>, a: nat)
    requires a + 1 < |ticks|
  {
    if readable(a) then Ended(relayer, ticks[a], ticks[a + 1], maxRetries, NeedsRebuild)
    else ticks[a + 1] == ticks[a]
  }

  ghost predicate FailedSoFar(relayer: nat -> Reply, readable: nat -> bool, maxRetries: nat, ticks: seq<nat>) {
    && ticks != [] && ticks[0] == 0
    && forall a :: 0 <= a < |ticks| - 1 ==> RoundFailed(relayer, readable, maxRetries, ticks, a)
  }

  /** The last round could be read and came to this end; those before it failed. */
  ghost predicate LastRound(
    relayer: nat -> Reply, readable: nat -> bool, maxRetries: nat, ticks: seq<nat>, end: RoundEnd)
  {
    && 2 <= |ticks| <= 4
    && FailedSoFar(relayer, readable, maxRetries, ticks[..|ticks| - 1])
    && readable(|ticks| - 2)
    && Ended(relayer, ticks[|ticks| - 2], ticks[|ticks| - 1], maxRetries, end)
  }

  /** How the rounds of a cycle give its outcome. */
  ghost predicate Rounds(
    relayer: nat -> Reply, readable: nat -> bool, maxRetries: nat, ticks: seq<nat>, outcome: CycleEnd)
  {
    match outcome
    case Complete => LastRound(relayer, readable, maxRetries, ticks, Clean)
    case QuotaBlocked => LastRound(relayer, readable, maxRetries, ticks, OverQuota)
    case Failed => |ticks| == 4 && FailedSoFar(relayer, readable, maxRetries, ticks)
  }

  lemma {:induction false} RoundAdds(
    relayer: nat -> Reply, readable: nat -> bool, maxRetries: nat, ticks: seq<nat>, tick: nat, end: RoundEnd)
    requires FailedSoFar(relayer, readable, maxRetries, ticks) && |ticks| <= REBUILD_ATTEMPTS + 1
    requires var a := |ticks| - 1;
             if readable(a) then Ended(relayer, ticks[a], tick, maxRetries, end)
             else end == NeedsRebuild && tick == ticks[a]
    ensures end == NeedsRebuild ==> FailedSoFar(relayer, readable, maxRetries, ticks + [tick])
    ensures end != NeedsRebuild ==> LastRound(relayer, readable, maxRetries, ticks + [tick], end)
  {
    hide Ended;
    var more := ticks + [tick];
    assert more[..|more| - 1] == ticks;
    assert forall a :: 0 <= a < |ticks| - 1 && RoundFailed(relayer, readable, maxRetries, ticks, a) ==>
        RoundFailed(relayer, readable, maxRetries, more, a);
  }

  lemma {:induction false} NoRoundsYet(relayer: nat -> Reply, readable: nat -> bool, maxRetries: nat)
    ensures FailedSoFar(relayer, readable, maxRetries, [0])
  {
  }

  /** A relayer that lands everything completes the cycle in the first round that can be read. */
  lemma {:induction false} LandingCompletes(
    relayer: nat -> Reply, readable: nat -> bool, maxRetries: nat, ticks: seq<nat>, outcome: CycleEnd)
    requires Rounds(relayer, readable, maxRetries, ticks, outcome) && forall t: nat :: relayer(t) == Landed
    ensures outcome == Complete <==> readable(0) || readable(1) || readable(2)
    ensures outcome != QuotaBlocked
  {
    if outcome == Failed {
      forall a | 0 <= a <= 2 ensures !readable(a) {
        assert RoundFailed(relayer, readable, maxRetries, ticks, a);
      }
    } else if outcome == Complete {
      assert readable(|ticks| - 2);
    }
  }

  /** What a round did: it ran chunks of its plan, or nothing when it could not read the balances. */
  ghost predicate RoundRan(
    jobs: seq<ConvertJob>, floor: nat, maxCalls: nat, maxGas: nat, relayer: nat -> Reply, readOk: bool, tick: nat,
    next: nat, before: World, after: World)
    requires |jobs| == |before|
  {
    if readOk
    then exists ranges :: RanChunks(jobs, floor, maxCalls, maxGas, relayer, tick, next, before, after, ranges)
    else next == tick && after == before
  }

  /** A round all of whose chunks took effect ran its whole plan. */
  lemma {:induction false} AllRan(
    jobs: seq<ConvertJob>, floor: nat, maxCalls: nat, maxGas: nat, relayer: nat -> Reply, tick: nat, next: nat,
    before: World, after: World, ranges: seq<GasChunks.Range>)
    requires |jobs| == |before|
    requires RanChunks(jobs, floor, maxCalls, maxGas, relayer, tick, next, before, after, ranges)
    requires Landings(relayer, tick, next) == |ranges|
    ensures WorldRun(jobs, AllCalls(PlansOf(jobs, before, floor)), before) == Some(after)
  {
    hide WorldRun, AllCalls, PlansOf, GasChunks.Fits, Landings;
    var calls := AllCalls(PlansOf(jobs, before, floor));
    assert RanTo(ranges, |ranges|) == |calls| && calls[..|calls|] == calls;
  }

  /** The balances between rounds: each round runs chunks of a fresh plan from what the last one left. */
  ghost predicate Trail(
    jobs: seq<ConvertJob>, floor: nat, maxCalls: nat, maxGas: nat, relayer: nat -> Reply, readable: nat -> bool,
    ticks: seq<nat>, worlds: seq<World>)
  {
    && |worlds| == |ticks| > 0
    && (forall a :: 0 <= a < |worlds| ==> |worlds[a]| == |jobs|)
    && forall a :: 0 <= a < |ticks| - 1 ==>
         RoundRan(jobs, floor, maxCalls, maxGas, relayer, readable(a), ticks[a], ticks[a + 1], worlds[a], worlds[a + 1])
  }

  lemma {:induction false} TrailGrows(
    jobs: seq<ConvertJob>, floor: nat, maxCalls: nat, maxGas: nat, relayer: nat -> Reply, readable: nat -> bool,
    ticks: seq<nat>, worlds: seq<World>, tick: nat, world: World)
    requires Trail(jobs, floor, maxCalls, maxGas, relayer, readable, ticks, worlds) && |world| == |jobs|
    requires var a := |ticks| - 1;
             RoundRan(jobs, floor, maxCalls, maxGas, relayer, readable(a), ticks[a], tick, worlds[a], world)
    ensures Trail(jobs, floor, maxCalls, maxGas, relayer, readable, ticks + [tick], worlds + [world])
  {
    hide RoundRan;
    var ts, ws := ticks + [tick], worlds + [world];
    forall a | 0 <= a < |ts| - 1
      ensures RoundRan(jobs, floor, maxCalls, maxGas, relayer, readable(a), ts[a], ts[a + 1], ws[a], ws[a + 1])
    {
      if a < |ticks| - 1 {
        assert ts[a] == ticks[a] && ts[a + 1] == ticks[a + 1] && ws[a] == worlds[a] && ws[a + 1] == worlds[a + 1];
      }
    }
  }

  lemma {:induction false} TrailStarts(
    jobs: seq<ConvertJob>, floor: nat, maxCalls: nat, maxGas: nat, relayer: nat -> Reply, readable: nat -> bool,
    start: World)
    requires |start| == |jobs|
    ensures Trail(jobs, floor, maxCalls, maxGas, relayer, readable, [0], [start])
  {
  }

  /** A round no submission of which took effect leaves everything as it was. */
  lemma {:induction false} NoEffectNoChange(
    jobs: seq<ConvertJob>, floor: nat, maxCalls: nat, maxGas: nat, relayer: nat -> Reply, readOk: bool, from: nat,
    tick: nat, before: World, after: World)
    requires from <= tick && |jobs| == |before|
    requires RoundRan(jobs, floor, maxCalls, maxGas, relayer, readOk, from, tick, before, after)
    ensures !AnyEffect(relayer, 0, tick) ==> !AnyEffect(relayer, 0, from) && after == before
  {
    hide WorldExecute, AllCalls, PlansOf, FewestChunks, Landings;
    if !AnyEffect(relayer, 0, tick) {
      assert !AnyEffect(relayer, from, tick) && !AnyEffect(relayer, 0, from);
      assert AllCalls(PlansOf(jobs, before, floor))[..0] == [];
    }
  }

  lemma {:induction false} EndedGrows(
    relayer: nat -> Reply, readOk: bool, tick: nat, next: nat, maxRetries: nat, outcome: RoundEnd)
    requires if readOk then Ended(relayer, tick, next, maxRetries, outcome) else next == tick
    ensures tick <= next
    ensures readOk && outcome == OverQuota ==> exists t: nat :: relayer(t) == QuotaExhausted
  {
  }

  lemma {:induction false} Finishes(jobs: seq<ConvertJob>, start: World, world: World, floor: nat)
    requires ValidJobs(jobs) && Kept(jobs, start, world) && Fitting(jobs, start) && Fitting(jobs, world)
    requires forall e :: 0 <= e < |jobs| && Known(jobs[e]) ==> DrainedEvent(jobs[e], world[e], floor)
    ensures forall e :: 0 <= e < |jobs| && Known(jobs[e]) ==> Finished(jobs[e], start[e], world[e], floor)
    ensures AllKnown(jobs) ==> FreshProceeds(jobs, world, floor) == 0
  {
    hide WellFormed, SameValue, SameWorth, Known, DrainedEvent, Finished, Apart, FreshProceeds;
    forall e | 0 <= e < |jobs| && Known(jobs[e]) ensures Finished(jobs[e], start[e], world[e], floor) {
      assert KeptEvent(jobs[e], start[e], world[e]);
      DrainedIsFinished(jobs[e], start[e], world[e], floor);
    }
    if AllKnown(jobs) {
      DrainedFreesNothing(jobs, world, floor);
    }
  }

  /** The cycle over several events: up to three rounds, each from a fresh balance read.
      Whatever the relayer replies, every event keeps its worth in each resolution; with all YES tokens
      known also its cash plus what is still freeable, and freed cash plus what a fresh plan would free
      is constant. A round that fails is followed by another from a fresh read; the cycle completes with
      the first round whose chunks all land, and then leaves nothing to plan. */
  method ProcessJobs(
    jobs: seq<ConvertJob>, start: World, floor: nat, maxCalls: nat, maxGas: nat, maxRetries: nat,
    relayer: nat -> Reply, readable: nat -> bool)
    returns (world: World, outcome: CycleEnd, ghost ticks: seq<nat>, ghost worlds: seq<World>)
    requires ValidJobs(jobs) && Fitting(jobs, start) && Layout.Readable(jobs)
    ensures Kept(jobs, start, world) && Fitting(jobs, world)
    ensures AllKnown(jobs) ==>
              TotalCash(world) + FreshProceeds(jobs, world, floor)
              == TotalCash(start) + FreshProceeds(jobs, start, floor)
    ensures outcome == Complete ==>
              forall e :: 0 <= e < |jobs| && Known(jobs[e]) ==> Finished(jobs[e], start[e], world[e], floor)
    ensures outcome == Complete && AllKnown(jobs) ==> FreshProceeds(jobs, world, floor) == 0
    ensures Rounds(relayer, readable, maxRetries, ticks, outcome)
    ensures Trail(jobs, floor, maxCalls, maxGas, relayer, readable, ticks, worlds)
    ensures worlds[0] == start && worlds[|worlds| - 1] == world
    ensures outcome == Complete ==>
              var last := worlds[|worlds| - 2];
              WorldRun(jobs, AllCalls(PlansOf(jobs, last, floor)), last) == Some(world)
    ensures (forall t: nat :: relayer(t) == Landed) ==>
              (outcome == Complete <==> readable(0) || readable(1) || readable(2))
    ensures outcome == QuotaBlocked ==> exists t: nat :: relayer(t) == QuotaExhausted
    ensures !AnyEffect(relayer, 0, ticks[|ticks| - 1]) ==> world == start
  {
    hide Kept, DrainedEvent, FreshProceeds, TotalCash, WellFormed, Apart, Finished, Ended, Known, RanChunks,
         Trail, WorldRun, Layout.Readable, AllCalls, PlansOf, SameValue, SameWorth, AnyEffect, FailedSoFar;
    NoRoundsYet(relayer, readable, maxRetries);
    world, outcome, ticks, worlds := start, Failed, [0], [start];
    TrailStarts(jobs, floor, maxCalls, maxGas, relayer, readable, start);
    KeptSelf(jobs, start);
    var tick: nat := 0;
    for attempt := 0 to REBUILD_ATTEMPTS + 1
      invariant Kept(jobs, start, world) && Fitting(jobs, world) && outcome == Failed
      invariant |ticks| == attempt + 1 && ticks[attempt] == tick
      invariant FailedSoFar(relayer, readable, maxRetries, ticks)
      invariant Trail(jobs, floor, maxCalls, maxGas, relayer, readable, ticks, worlds)
      invariant |worlds| == attempt + 1 && worlds[0] == start && worlds[attempt] == world
      invariant !AnyEffect(relayer, 0, tick) ==> world == start
    {
      ghost var before, from := world, tick;
      var end;
      ghost var ranges;
      world, tick, end, ranges := Round(
        jobs, world, floor, maxCalls, maxGas, maxRetries, relayer, tick, readable(attempt));
      KeptTrans(jobs, start, before, world);
      KeptFits(jobs, start, world);
      EndedGrows(relayer, readable(attempt), from, tick, maxRetries, end);
      assert RoundRan(jobs, floor, maxCalls, maxGas, relayer, readable(attempt), from, tick, before, world);
      NoEffectNoChange(jobs, floor, maxCalls, maxGas, relayer, readable(attempt), from, tick, before, world);
      TrailGrows(jobs, floor, maxCalls, maxGas, relayer, readable, ticks, worlds, tick, world);
      worlds := worlds + [world];
      RoundAdds(relayer, readable, maxRetries, ticks, tick, end);
      ticks := ticks + [tick];
      if end == Clean {
        outcome := Complete;
        AllRan(jobs, floor, maxCalls, maxGas, relayer, from, tick, before, world, ranges);
        Finishes(jobs, start, world, floor);
        break;
      } else if end == OverQuota {
        outcome := QuotaBlocked;
        break;
      }
    }
    if forall t: nat :: relayer(t) == Landed {
      LandingCompletes(relayer, readable, maxRetries, ticks, outcome);
    }
    if AllKnown(jobs) {
      KeptIsPreserved(jobs, start, world);
      PreservedTotals(jobs, start, world, floor);
    }
  }
}
