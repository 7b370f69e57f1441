/** Several events at once: which event a call acts on, what a round's plan comes to, what of each
    event's value every call keeps, and what holds where a read does not show all YES. */
module Worlds {
  import opened Prelude
  import opened Legs
  import opened Chain
  import opened Planner
  import opened Execution
  import opened PlanTheorems
  import opened Waste
  import Layout

  /** Balances and freed cash of every event, in job order. */
  type World = seq<Wallet>

  /** Distinct, well-formed events. */
  ghost predicate ValidJobs(jobs: seq<ConvertJob>) {
    && (forall e :: 0 <= e < |jobs| ==> WellFormed(jobs[e].legs))
    && (forall e, f :: 0 <= e < f < |jobs| ==> Apart(jobs[e].legs, jobs[f].legs))
  }

  ghost predicate Apart(a: seq<ConvertLeg>, b: seq<ConvertLeg>) {
    forall i, j :: 0 <= i < |a| && 0 <= j < |b| ==>
      && a[i].questionId.prefix != b[j].questionId.prefix
      && (a[i].conditionId.Some? ==> a[i].conditionId != b[j].conditionId)
  }

  function HeldBy(world: World): seq<seq<Balance>> {
    seq(|world|, e requires 0 <= e < |world| => world[e].bal)
  }

  ghost predicate Fitting(jobs: seq<ConvertJob>, world: World) {
    |jobs| == |world| && forall e :: 0 <= e < |jobs| ==> |world[e].bal| == |jobs[e].legs|
  }

  // ---------- Calls over several events ----------

  predicate Owns(legs: seq<ConvertLeg>, call: Call) {
    Decode(legs, call).Some?
  }

  /** The event a call acts on, or `|jobs|` when none does. */
  function Owner(jobs: seq<ConvertJob>, call: Call): (e: nat)
    ensures e <= |jobs|
    ensures e < |jobs| ==> Owns(jobs[e].legs, call)
    ensures e == |jobs| ==> forall f :: 0 <= f < |jobs| ==> !Owns(jobs[f].legs, call)
  {
    if jobs == [] then 0
    else if Owns(jobs[0].legs, call) then 0
    else 1 + Owner(jobs[1..], call)
  }

  lemma {:induction false} OwnedOnce(a: seq<ConvertLeg>, b: seq<ConvertLeg>, call: Call)
    requires Apart(a, b)
    ensures !Owns(a, call) || !Owns(b, call)
  {
    hide PopCount;
  }

  lemma {:induction false} OwnerIsUnique(jobs: seq<ConvertJob>, call: Call, e: nat)
    requires ValidJobs(jobs) && e < |jobs| && Owns(jobs[e].legs, call)
    ensures Owner(jobs, call) == e
  {
    forall f | 0 <= f < |jobs| && f != e ensures !Owns(jobs[f].legs, call) {
      if f < e {
        OwnedOnce(jobs[f].legs, jobs[e].legs, call);
      } else {
        OwnedOnce(jobs[e].legs, jobs[f].legs, call);
      }
    }
  }

  function WorldExecute(jobs: seq<ConvertJob>, call: Call, world: World): (r: Option<World>)
    requires |jobs| == |world|
    ensures r.Some? ==> |r.value| == |world|
  {
    var e := Owner(jobs, call);
    if e == |jobs| then None
    else match Execute(jobs[e].legs, call, world[e])
      case None => None
      case Some(w) => Some(world[e := w])
  }

  function WorldRun(jobs: seq<ConvertJob>, calls: seq<PlannedCall>, world: World): (r: Option<World>)
    requires |jobs| == |world|
    ensures r.Some? ==> |r.value| == |world|
    decreases calls
  {
    if calls == [] then Some(world)
    else match WorldExecute(jobs, calls[0].call, world)
      case None => None
      case Some(next) => WorldRun(jobs, calls[1..], next)
  }

  /** Same events, and each keeps its cash plus what can still be freed, what is withheld, and its
      worth. */
  ghost predicate Preserved(jobs: seq<ConvertJob>, before: World, after: World) {
    && |before| == |after| == |jobs|
    && forall e :: 0 <= e < |jobs| ==> SameValue(jobs[e].legs, before[e], after[e])
  }

  ghost predicate SameValue(legs: seq<ConvertLeg>, a: Wallet, b: Wallet) {
    && Keeps(legs, MAX_LEGS_PER_CONVERT, a, b)
    && forall win :: 0 <= win < |legs| ==> Worth(a, win) == Worth(b, win)
  }

  /** `calls` run from `world` to `end`, each step preserving value. */
  ghost predicate WorldLeads(jobs: seq<ConvertJob>, calls: seq<PlannedCall>, world: World, end: World)
    requires |jobs| == |world|
    decreases calls, 1
  {
    || (calls == [] && world == end)
    || (calls != [] && WorldContinues(jobs, calls, world, end, WorldExecute(jobs, calls[0].call, world)))
  }

  ghost predicate WorldContinues(
    jobs: seq<ConvertJob>, calls: seq<PlannedCall>, world: World, end: World, next: Option<World>)
    requires |jobs| == |world| && calls != [] && (next.Some? ==> |next.value| == |world|)
    decreases calls, 0
  {
    next.Some? && Preserved(jobs, world, next.value) && WorldLeads(jobs, calls[1..], next.value, end)
  }

  lemma {:induction false} WorldLeadsRuns(
    jobs: seq<ConvertJob>, calls: seq<PlannedCall>, world: World, end: World)
    requires Fitting(jobs, world) && WorldLeads(jobs, calls, world, end)
    ensures WorldRun(jobs, calls, world) == Some(end) && Preserved(jobs, world, end)
    decreases calls
  {
    hide Preserved, WorldExecute;
    if calls == [] {
      PreservedSelf(jobs, world);
    } else {
      var next := WorldExecute(jobs, calls[0].call, world).value;
      PreservedFits(jobs, world, next);
      WorldLeadsRuns(jobs, calls[1..], next, end);
      PreservedTrans(jobs, world, next, end);
    }
  }

  lemma {:induction false} SameValueIsEquivalence(legs: seq<ConvertLeg>)
    ensures forall a: Wallet :: |a.bal| == |legs| ==> SameValue(legs, a, a)
    ensures forall a, b, c :: SameValue(legs, a, b) && SameValue(legs, b, c) ==> SameValue(legs, a, c)
  {
    hide Potential, Worth, LegWaste;
  }

  lemma {:induction false} PreservedSelf(jobs: seq<ConvertJob>, world: World)
    requires Fitting(jobs, world)
    ensures Preserved(jobs, world, world)
  {
    hide SameValue;
    forall e | 0 <= e < |jobs| ensures SameValue(jobs[e].legs, world[e], world[e]) {
      SameValueIsEquivalence(jobs[e].legs);
    }
  }

  lemma {:induction false} PreservedTrans(jobs: seq<ConvertJob>, a: World, b: World, c: World)
    requires Preserved(jobs, a, b) && Preserved(jobs, b, c)
    ensures Preserved(jobs, a, c)
  {
    hide SameValue;
    forall e | 0 <= e < |jobs| ensures SameValue(jobs[e].legs, a[e], c[e]) {
      SameValueIsEquivalence(jobs[e].legs);
    }
  }

  lemma {:induction false} PreservedFits(jobs: seq<ConvertJob>, a: World, b: World)
    requires Preserved(jobs, a, b)
    ensures Fitting(jobs, a) && Fitting(jobs, b)
  {
    hide Potential, Worth, LegWaste;
    forall e | 0 <= e < |jobs| ensures |a[e].bal| == |jobs[e].legs| == |b[e].bal| {
      assert SameValue(jobs[e].legs, a[e], b[e]);
    }
  }

  lemma {:induction false} WorldLeadsTrans(
    jobs: seq<ConvertJob>, a: seq<PlannedCall>, b: seq<PlannedCall>, world: World, mid: World, end: World)
    requires |jobs| == |world| == |mid| && WorldLeads(jobs, a, world, mid) && WorldLeads(jobs, b, mid, end)
    ensures WorldLeads(jobs, a + b, world, end)
    decreases a
  {
    hide Preserved, WorldExecute;
    if a == [] {
      assert a + b == b;
    } else {
      assert (a + b)[0] == a[0] && (a + b)[1..] == a[1..] + b;
      WorldLeadsTrans(jobs, a[1..], b, WorldExecute(jobs, a[0].call, world).value, mid, end);
    }
  }

  lemma {:induction false} WorldLeadsSplit(
    jobs: seq<ConvertJob>, calls: seq<PlannedCall>, world: World, end: World, k: nat) returns (mid: World)
    requires |jobs| == |world| && WorldLeads(jobs, calls, world, end) && k <= |calls|
    ensures |mid| == |world| && WorldLeads(jobs, calls[..k], world, mid) && WorldLeads(jobs, calls[k..], mid, end)
    decreases calls
  {
    hide Preserved, WorldExecute;
    if k == 0 {
      assert calls[..0] == [] && calls[0..] == calls;
      mid := world;
    } else {
      mid := WorldLeadsSplit(jobs, calls[1..], WorldExecute(jobs, calls[0].call, world).value, end, k - 1);
      assert calls[..k][0] == calls[0] && calls[..k][1..] == calls[1..][..k - 1];
      assert calls[1..][k - 1..] == calls[k..];
    }
  }

  /** One event's calls act on that event only. */
  lemma {:induction false} EventLeadsWorld(
    jobs: seq<ConvertJob>, e: nat, calls: seq<PlannedCall>, world: World, w2: Wallet)
    requires ValidJobs(jobs) && Fitting(jobs, world) && e < |jobs|
    requires Leads(jobs[e].legs, MAX_LEGS_PER_CONVERT, calls, world[e], w2)
    ensures WorldLeads(jobs, calls, world, world[e := w2])
    decreases calls
  {
    hide Execute, WorldExecute, Potential, LegWaste, Preserved, ValidJobs;
    if calls == [] {
      assert world[e := w2] == world;
    } else {
      var call := calls[0].call;
      var w1 := Execute(jobs[e].legs, call, world[e]).value;
      var next := world[e := w1];
      EventStepPreserves(jobs, e, call, world);
      EventLeadsWorld(jobs, e, calls[1..], next, w2);
      assert next[e := w2] == world[e := w2];
    }
  }

  lemma {:induction false} EventStepPreserves(jobs: seq<ConvertJob>, e: nat, call: Call, world: World)
    requires ValidJobs(jobs) && Fitting(jobs, world) && e < |jobs|
    requires Execute(jobs[e].legs, call, world[e]).Some?
    requires Keeps(jobs[e].legs, MAX_LEGS_PER_CONVERT, world[e], Execute(jobs[e].legs, call, world[e]).value)
    ensures var next := WorldExecute(jobs, call, world);
            && next == Some(world[e := Execute(jobs[e].legs, call, world[e]).value])
            && Preserved(jobs, world, next.value)
  {
    hide Decode, Keeps, Worth, PopCount, ValidJobs;
    OwnerIsUnique(jobs, call, e);
    var s := Decode(jobs[e].legs, call).value;
    forall win | 0 <= win < |world[e].bal|
      ensures Worth(Apply(world[e], s), win) == Worth(world[e], win)
    {
      StepKeepsWorth(world[e], s, win);
    }
    var next := world[e := Apply(world[e], s)];
    forall f | 0 <= f < |jobs| ensures SameValue(jobs[f].legs, world[f], next[f]) {
      SameValueIsEquivalence(jobs[f].legs);
    }
  }

  // ---------- A whole round's plan ----------

  /** The plan of one event: made from what the balance read shows of it. */
  function PlanJob(job: ConvertJob, w: Wallet, floor: nat): EventPlan {
    Plan(job.legs, Layout.Shown(job.legs, w.bal), floor, MAX_LEGS_PER_CONVERT)
  }

  /** Every YES token of the event is known, so a read shows all it holds. */
  ghost predicate Known(job: ConvertJob) {
    forall i :: 0 <= i < |job.legs| ==> job.legs[i].yesTokenId.Some?
  }

  function ShownWorld(jobs: seq<ConvertJob>, world: World): (r: World)
    requires |jobs| == |world|
    ensures |r| == |world|
  {
    seq(|jobs|, e requires 0 <= e < |jobs| => Wallet(Layout.Shown(jobs[e].legs, world[e].bal), world[e].cash))
  }

  function PlansOf(jobs: seq<ConvertJob>, world: World, floor: nat): seq<EventPlan>
    requires |jobs| == |world|
  {
    seq(|jobs|, e requires 0 <= e < |jobs| => PlanJob(jobs[e], world[e], floor))
  }

  /** Re-planning every event gives no call. */
  ghost predicate Drained(jobs: seq<ConvertJob>, world: World, floor: nat) {
    |jobs| == |world| && forall e :: 0 <= e < |jobs| ==> DrainedEvent(jobs[e], world[e], floor)
  }

  ghost predicate DrainedEvent(job: ConvertJob, w: Wallet, floor: nat) {
    EventCalls(PlanJob(job, w, floor)) == []
  }

  /** The calls of events `k` and later run after each other, and leave those events drained whose YES
      tokens are known. */
  lemma {:induction false} RoundPhase(
    jobs: seq<ConvertJob>, start: World, world: World, floor: nat, k: nat) returns (end: World)
    requires ValidJobs(jobs) && Fitting(jobs, start) && Fitting(jobs, world) && k <= |jobs|
    requires forall e :: k <= e < |jobs| ==> world[e] == start[e]
    requires forall e :: 0 <= e < |jobs| ==> Layout.Shown(jobs[e].legs, start[e].bal) == start[e].bal
    ensures |end| == |world|
    ensures WorldLeads(jobs, AllCalls(PlansOf(jobs, start, floor)[k..]), world, end)
    ensures forall e :: 0 <= e < k ==> end[e] == world[e]
    ensures forall e :: k <= e < |jobs| && Known(jobs[e]) ==> DrainedEvent(jobs[e], end[e], floor)
    decreases |jobs| - k
  {
    hide Plan, EventCalls, WorldLeads, Leads, WellFormed, OnlyOne, Apart, Layout.Shown, Known;
    var plans := PlansOf(jobs, start, floor);
    if k == |jobs| {
      assert plans[k..] == [];
      end := world;
      WorldLeadsNone(jobs, world);
    } else {
      var w2 := PlanLeads(jobs[k].legs, start[k], floor);
      if Known(jobs[k]) {
        KnownIsShown(jobs[k], w2);
      }
      EventLeadsWorld(jobs, k, EventCalls(plans[k]), world, w2);
      end := RoundPhase(jobs, start, world[k := w2], floor, k + 1);
      assert plans[k..][0] == plans[k] && plans[k..][1..] == plans[k + 1..];
      WorldLeadsTrans(jobs, EventCalls(plans[k]), AllCalls(plans[k + 1..]), world, world[k := w2], end);
    }
  }

  lemma {:induction false} WorldLeadsNone(jobs: seq<ConvertJob>, world: World)
    requires |jobs| == |world|
    ensures WorldLeads(jobs, [], world, world)
  {
  }

  lemma {:induction false} KnownIsShown(job: ConvertJob, w: Wallet)
    requires Known(job) && |w.bal| == |job.legs|
    ensures Layout.Shown(job.legs, w.bal) == w.bal
  {
  }

  lemma {:induction false} PlanLeads(legs: seq<ConvertLeg>, w: Wallet, floor: nat) returns (w2: Wallet)
    requires WellFormed(legs) && |legs| == |w.bal|
    ensures Leads(legs, MAX_LEGS_PER_CONVERT, EventCalls(Plan(legs, w.bal, floor, MAX_LEGS_PER_CONVERT)), w, w2)
    ensures |w2.bal| == |legs|
    ensures EventCalls(Plan(legs, w2.bal, floor, MAX_LEGS_PER_CONVERT)) == []
  {
    hide Plan, EventCalls, Leads, AtLevel, Settled, OnlyOne;
    var level;
    level, w2 := PlanPhase(legs, w.bal, w.cash, floor, MAX_LEGS_PER_CONVERT);
    LeadsRuns(legs, MAX_LEGS_PER_CONVERT, EventCalls(Plan(legs, w.bal, floor, MAX_LEGS_PER_CONVERT)), w, w2);
    var end := PlanIsFixpoint(legs, w.bal, w.cash, floor, MAX_LEGS_PER_CONVERT);
  }

  // ---------- What is left to free ----------

  function TotalCash(world: World): nat {
    if world == [] then 0 else TotalCash(world[..|world| - 1]) + world[|world| - 1].cash
  }

  /** What a fresh plan of every event would free. */
  function FreshProceeds(jobs: seq<ConvertJob>, world: World, floor: nat): nat
    requires |jobs| == |world|
  {
    if jobs == [] then 0
    else FreshProceeds(jobs[..|jobs| - 1], world[..|jobs| - 1], floor)
         + PlanJob(jobs[|jobs| - 1], world[|jobs| - 1], floor).proceeds
  }

  ghost predicate AllKnown(jobs: seq<ConvertJob>) {
    forall e :: 0 <= e < |jobs| ==> Known(jobs[e])
  }

  /** Freed cash plus what a fresh plan would free does not change, whether or not condition ids are
      known: each event's plan falls short of `Freeable` by what is withheld, and that is kept. */
  lemma {:induction false} PreservedTotals(jobs: seq<ConvertJob>, before: World, after: World, floor: nat)
    requires Preserved(jobs, before, after) && AllKnown(jobs)
    requires forall e :: 0 <= e < |jobs| ==> WellFormed(jobs[e].legs)
    ensures TotalCash(after) + FreshProceeds(jobs, after, floor)
         == TotalCash(before) + FreshProceeds(jobs, before, floor)
  {
    hide Plan, Freeable, Worth, LegWaste, WasteUpTo, WellFormed, Known, Layout.Shown;
    if jobs != [] {
      var n := |jobs| - 1;
      PreservedTotals(jobs[..n], before[..n], after[..n], floor);
      assert SameValue(jobs[n].legs, before[n], after[n]);
      KnownIsShown(jobs[n], before[n]);
      KnownIsShown(jobs[n], after[n]);
      ShortfallIsWaste(jobs[n].legs, before[n].bal, floor, MAX_LEGS_PER_CONVERT);
      ShortfallIsWaste(jobs[n].legs, after[n].bal, floor, MAX_LEGS_PER_CONVERT);
      SameWasteSum(jobs[n].legs, MAX_LEGS_PER_CONVERT, before[n].bal, after[n].bal, |jobs[n].legs|);
    }
  }

  /** What a complete cycle leaves of an event whose YES tokens are known: nothing to plan, and
      freeable only what was withheld from it at the start, so nothing exactly when no leg without a
      condition id cost it anything. */
  ghost predicate Finished(job: ConvertJob, start: Wallet, w: Wallet, floor: nat)
    requires |start.bal| == |job.legs|
  {
    && DrainedEvent(job, w, floor)
    && Freeable(w.bal) == Withheld(job.legs, start.bal, MAX_LEGS_PER_CONVERT)
    && (Freeable(w.bal) == 0 <==> NoneCost(job.legs, start.bal, MAX_LEGS_PER_CONVERT))
  }

  lemma {:induction false} DrainedIsFinished(job: ConvertJob, start: Wallet, w: Wallet, floor: nat)
    requires WellFormed(job.legs) && Known(job)
    requires |start.bal| == |job.legs| && SameValue(job.legs, start, w) && DrainedEvent(job, w, floor)
    ensures Finished(job, start, w, floor)
  {
    hide Plan, Freeable, Worth, LegWaste, WasteUpTo, WellFormed, EventCalls, NoneCost, Known;
    KnownIsShown(job, w);
    EmptyPlanFreesNothing(job.legs, w.bal, floor);
    ShortfallIsWaste(job.legs, w.bal, floor, MAX_LEGS_PER_CONVERT);
    SameWasteSum(job.legs, MAX_LEGS_PER_CONVERT, start.bal, w.bal, |job.legs|);
    CostIsWaste(job.legs, start.bal, MAX_LEGS_PER_CONVERT);
  }

  lemma {:induction false} DrainedFreesNothing(jobs: seq<ConvertJob>, world: World, floor: nat)
    requires Fitting(jobs, world) && AllKnown(jobs) && Drained(jobs, world, floor)
    requires forall e :: 0 <= e < |jobs| ==> WellFormed(jobs[e].legs)
    ensures FreshProceeds(jobs, world, floor) == 0
  {
    hide Plan, WellFormed, EventCalls, Known, Layout.Shown;
    if jobs != [] {
      var n := |jobs| - 1;
      DrainedFreesNothing(jobs[..n], world[..n], floor);
      assert DrainedEvent(jobs[n], world[n], floor);
      KnownIsShown(jobs[n], world[n]);
      EmptyPlanFreesNothing(jobs[n].legs, world[n].bal, floor);
    }
  }

  lemma {:induction false} EmptyPlanFreesNothing(legs: seq<ConvertLeg>, bal: seq<Balance>, floor: nat)
    requires WellFormed(legs) && |legs| == |bal|
    requires EventCalls(Plan(legs, bal, floor, MAX_LEGS_PER_CONVERT)) == []
    ensures Plan(legs, bal, floor, MAX_LEGS_PER_CONVERT).proceeds == 0
  {
    hide Plan, EventCalls, WellFormed, Settled, AtLevel;
    var level, w2 := PlanPhase(legs, bal, 0, floor, MAX_LEGS_PER_CONVERT);
  }

  // ---------- YES a read does not show ----------

  /** `shown` is `world` but for YES no read shows; where every YES token is known they agree. */
  ghost predicate Shadows(jobs: seq<ConvertJob>, shown: World, world: World) {
    && |jobs| == |shown| == |world|
    && forall e :: 0 <= e < |jobs| ==> ExtraYes(shown[e], world[e]) && (Known(jobs[e]) ==> shown[e] == world[e])
  }

  lemma {:induction false} ShownShadows(jobs: seq<ConvertJob>, world: World)
    requires Fitting(jobs, world)
    ensures Shadows(jobs, ShownWorld(jobs, world), world) && Fitting(jobs, ShownWorld(jobs, world))
  {
  }

  /** Every event keeps its worth in each resolution; where every YES token is known, also its cash
      plus what can still be freed, and what is withheld. */
  ghost predicate Kept(jobs: seq<ConvertJob>, before: World, after: World) {
    && |before| == |after| == |jobs|
    && forall e :: 0 <= e < |jobs| ==> KeptEvent(jobs[e], before[e], after[e])
  }

  ghost predicate KeptEvent(job: ConvertJob, a: Wallet, b: Wallet) {
    && SameWorth(job.legs, a, b)
    && (Known(job) ==> SameValue(job.legs, a, b))
  }

  ghost predicate SameWorth(legs: seq<ConvertLeg>, a: Wallet, b: Wallet) {
    && |a.bal| == |b.bal| == |legs|
    && forall win :: 0 <= win < |legs| ==> Worth(a, win) == Worth(b, win)
  }

  lemma {:induction false} KeptSelf(jobs: seq<ConvertJob>, world: World)
    requires Fitting(jobs, world)
    ensures Kept(jobs, world, world)
  {
    hide SameValue, Known;
    forall e | 0 <= e < |jobs| ensures KeptEvent(jobs[e], world[e], world[e]) {
      SameValueIsEquivalence(jobs[e].legs);
    }
  }

  lemma {:induction false} KeptTrans(jobs: seq<ConvertJob>, a: World, b: World, c: World)
    requires Kept(jobs, a, b) && Kept(jobs, b, c)
    ensures Kept(jobs, a, c)
  {
    hide SameValue, Known, Worth;
    forall e | 0 <= e < |jobs| ensures KeptEvent(jobs[e], a[e], c[e]) {
      SameValueIsEquivalence(jobs[e].legs);
      assert KeptEvent(jobs[e], a[e], b[e]) && KeptEvent(jobs[e], b[e], c[e]);
    }
  }

  lemma {:induction false} KeptFits(jobs: seq<ConvertJob>, a: World, b: World)
    requires Kept(jobs, a, b)
    ensures Fitting(jobs, a) && Fitting(jobs, b)
  {
    hide SameValue, Known, Worth;
    assert forall e :: 0 <= e < |jobs| ==> KeptEvent(jobs[e], a[e], b[e]);
  }

  lemma {:induction false} KeptIsPreserved(jobs: seq<ConvertJob>, a: World, b: World)
    requires Kept(jobs, a, b) && AllKnown(jobs)
    ensures Preserved(jobs, a, b)
  {
    hide SameValue, Known, SameWorth;
    assert forall e :: 0 <= e < |jobs| ==> KeptEvent(jobs[e], a[e], b[e]);
  }

  ghost predicate SameWorths(jobs: seq<ConvertJob>, before: World, after: World) {
    && |before| == |after| == |jobs|
    && forall e :: 0 <= e < |jobs| ==> SameWorth(jobs[e].legs, before[e], after[e])
  }

  lemma {:induction false} SameWorthsTrans(jobs: seq<ConvertJob>, a: World, b: World, c: World)
    requires SameWorths(jobs, a, b) && SameWorths(jobs, b, c)
    ensures SameWorths(jobs, a, c)
  {
    hide Worth;
    forall e | 0 <= e < |jobs| ensures SameWorth(jobs[e].legs, a[e], c[e]) {
      assert SameWorth(jobs[e].legs, a[e], b[e]) && SameWorth(jobs[e].legs, b[e], c[e]);
    }
  }

  lemma {:induction false} CallKeepsWorth(legs: seq<ConvertLeg>, call: Call, w: Wallet)
    requires |w.bal| == |legs| && Execute(legs, call, w).Some?
    ensures SameWorth(legs, w, Execute(legs, call, w).value)
  {
    hide Decode, Worth, PopCount;
    var s := Decode(legs, call).value;
    forall win | 0 <= win < |legs| ensures Worth(Apply(w, s), win) == Worth(w, win) {
      StepKeepsWorth(w, s, win);
    }
  }

  lemma {:induction false} ShadowStep(jobs: seq<ConvertJob>, call: Call, shown: World, world: World)
    requires Shadows(jobs, shown, world) && Fitting(jobs, world) && WorldExecute(jobs, call, shown).Some?
    ensures WorldExecute(jobs, call, world).Some?
    ensures Shadows(jobs, WorldExecute(jobs, call, shown).value, WorldExecute(jobs, call, world).value)
    ensures SameWorths(jobs, world, WorldExecute(jobs, call, world).value)
  {
    hide Execute, Worth, Known, Owns;
    var e := Owner(jobs, call);
    ExtraYesStep(jobs[e].legs, call, shown[e], world[e]);
    CallKeepsWorth(jobs[e].legs, call, world[e]);
  }

  /** Calls that go through on what a read shows go through on what is held, and move no value. */
  lemma {:induction false} ShadowRun(jobs: seq<ConvertJob>, calls: seq<PlannedCall>, shown: World, world: World)
    requires Shadows(jobs, shown, world) && Fitting(jobs, world) && WorldRun(jobs, calls, shown).Some?
    ensures WorldRun(jobs, calls, world).Some?
    ensures Shadows(jobs, WorldRun(jobs, calls, shown).value, WorldRun(jobs, calls, world).value)
    ensures SameWorths(jobs, world, WorldRun(jobs, calls, world).value)
    decreases calls
  {
    hide WorldExecute, Shadows, SameWorth;
    ShadowsSizes(jobs, shown, world);
    if calls == [] {
      SameWorthsSelf(jobs, world);
    } else {
      ShadowStep(jobs, calls[0].call, shown, world);
      var shown1 := WorldExecute(jobs, calls[0].call, shown).value;
      var world1 := WorldExecute(jobs, calls[0].call, world).value;
      SameWorthsFit(jobs, world, world1);
      ShadowRun(jobs, calls[1..], shown1, world1);
      SameWorthsTrans(jobs, world, world1, WorldRun(jobs, calls, world).value);
    }
  }

  lemma {:induction false} ShadowsSizes(jobs: seq<ConvertJob>, shown: World, world: World)
    requires Shadows(jobs, shown, world)
    ensures |jobs| == |shown| == |world|
  {
  }

  lemma {:induction false} SameWorthsSelf(jobs: seq<ConvertJob>, world: World)
    requires Fitting(jobs, world)
    ensures SameWorths(jobs, world, world)
  {
  }

  lemma {:induction false} SameWorthsFit(jobs: seq<ConvertJob>, a: World, b: World)
    requires SameWorths(jobs, a, b)
    ensures Fitting(jobs, b)
  {
    hide Worth;
    assert forall e :: 0 <= e < |jobs| ==> SameWorth(jobs[e].legs, a[e], b[e]);
  }

  lemma {:induction false} WorldRunAppend(
    jobs: seq<ConvertJob>, a: seq<PlannedCall>, b: seq<PlannedCall>, world: World)
    requires |jobs| == |world| && WorldRun(jobs, a, world).Some?
    ensures WorldRun(jobs, a + b, world) == WorldRun(jobs, b, WorldRun(jobs, a, world).value)
    decreases a
  {
    hide WorldExecute;
    if a == [] {
      assert a + b == b;
    } else {
      assert (a + b)[0] == a[0] && (a + b)[1..] == a[1..] + b;
      WorldRunAppend(jobs, a[1..], b, WorldExecute(jobs, a[0].call, world).value);
    }
  }
}
