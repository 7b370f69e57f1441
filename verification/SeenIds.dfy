/** Bounded first-delivery dedup: a FIFO window over the ids accepted so far. */
module SeenIds {
  import opened Prelude

  type Id = string

  /** The last `cap` of a history. */
  function Window(history: seq<Id>, cap: nat): seq<Id> {
    if |history| <= cap then history else history[|history| - cap..]
  }

  /** `w` is the last `cap` of the history, index by index. */
  ghost predicate LastOf(w: seq<Id>, history: seq<Id>, cap: nat) {
    && |w| == Min(cap, |history|)
    && forall i :: 0 <= i < |w| ==> w[i] == history[|history| - |w| + i]
  }

  lemma {:induction false} WindowIsLast(history: seq<Id>, cap: nat)
    ensures LastOf(Window(history, cap), history, cap)
  {
  }

  function Members(ids: seq<Id>): set<Id> {
    set i | 0 <= i < |ids| :: ids[i]
  }

  /** Two acceptances of one id have at least `cap` others between them. */
  ghost predicate Spaced(history: seq<Id>, cap: nat) {
    forall i, j :: 0 <= i < j < |history| && history[i] == history[j] ==> j - i > cap
  }

  lemma {:induction false} WindowIsDistinct(history: seq<Id>, cap: nat)
    requires Spaced(history, cap)
    ensures Distinct(Window(history, cap))
  {
    var w := Window(history, cap);
    var shift := |history| - |w|;
    assert forall i :: 0 <= i < |w| ==> w[i] == history[shift + i];
  }

  lemma {:induction false} SpacedGrows(history: seq<Id>, cap: nat, id: Id)
    requires Spaced(history, cap) && id !in Window(history, cap)
    ensures Spaced(history + [id], cap)
  {
    var w := Window(history, cap);
    assert forall i :: |history| - |w| <= i < |history| ==> history[i] == w[i - (|history| - |w|)];
  }

  lemma {:induction false} MembersAppend(ids: seq<Id>, id: Id)
    ensures Members(ids + [id]) == Members(ids) + {id}
  {
    var more := ids + [id];
    assert forall i :: 0 <= i < |ids| ==> more[i] == ids[i];
    assert more[|ids|] == id;
  }

  lemma {:induction false} MembersPop(ids: seq<Id>)
    requires ids != [] && Distinct(ids)
    ensures Members(ids[1..]) == Members(ids) - {ids[0]}
  {
    assert forall i :: 0 < i < |ids| ==> ids[i] == ids[1..][i - 1];
  }

  lemma {:induction false} InMembers(ids: seq<Id>, id: Id)
    ensures id in Members(ids) <==> id in ids
  {
  }

  /** One id more in the history: the window takes it in and drops its oldest when over the cap. */
  lemma {:induction false} WindowNext(history: seq<Id>, cap: nat, id: Id)
    ensures var w := Window(history, cap) + [id];
            Window(history + [id], cap) == if |w| > cap then w[1..] else w
  {
  }

  class Seen {
    var known: set<Id>
    var order: seq<Id>
    const cap: nat
    ghost var accepted: seq<Id>

    /** The queue is exactly the last `cap` accepted ids in order, the set its members. */
    ghost predicate Valid()
      reads this
    {
      && order == Window(accepted, cap)
      && known == Members(order)
      && Spaced(accepted, cap)
    }

    constructor (cap: nat)
      ensures Valid() && accepted == [] && this.cap == cap
    {
      this.cap := cap;
      known, order, accepted := {}, [], [];
    }

    /** Accepts an id exactly when it is not among the last `cap` accepted. */
    method Insert(id: Id) returns (isNew: bool)
      requires Valid()
      modifies this
      ensures Valid()
      ensures isNew <==> id !in Window(old(accepted), cap)
      ensures accepted == if isNew then old(accepted) + [id] else old(accepted)
      ensures LastOf(order, accepted, cap)
    {
      hide LastOf, Window, Members, Spaced;
      InMembers(order, id);
      if id in known {
        WindowIsLast(accepted, cap);
        return false;
      }
      SpacedGrows(accepted, cap, id);
      WindowIsDistinct(accepted, cap);
      WindowNext(accepted, cap, id);
      known := known + {id};
      MembersAppend(order, id);
      order := order + [id];
      accepted := accepted + [id];
      if |order| > cap {
        var oldest := order[0];
        MembersPop(order);
        order := order[1..];
        known := known - {oldest};
      }
      WindowIsLast(accepted, cap);
      return true;
    }

    method Contains(id: Id) returns (r: bool)
      requires Valid()
      ensures r <==> id in Window(accepted, cap)
    {
      InMembers(order, id);
      r := id in known;
    }
  }

  // ---------- Whole runs ----------

  datatype TradeStatus = Matched | Mined | Confirmed | Retrying | Failed | Unknown {
    predicate IsFinal() {
      Confirmed? || Failed?
    }
  }

  /** One delivery of a trade, over whichever connection. */
  datatype Delivery = Delivery(id: Id, status: TradeStatus)

  /** Ids handled by a run: the final-status gate comes before the dedup. */
  function Handled(run: seq<Delivery>, cap: nat): seq<Id> {
    if run == [] then []
    else
      var before, d := Handled(run[..|run| - 1], cap), run[|run| - 1];
      if d.status.IsFinal() && d.id !in Window(before, cap) then before + [d.id] else before
  }

  method HandleRun(run: seq<Delivery>, cap: nat) returns (handled: seq<Id>)
    ensures handled == Handled(run, cap)
  {
    var seen := new Seen(cap);
    handled := [];
    for k := 0 to |run|
      invariant fresh(seen) && seen.Valid() && seen.cap == cap
      invariant seen.accepted == handled == Handled(run[..k], cap)
    {
      assert run[..k + 1][..k] == run[..k];
      if !run[k].status.IsFinal() {
        continue;
      }
      var accepted := seen.Insert(run[k].id);
      if !accepted {
        continue;
      }
      handled := handled + [run[k].id];
    }
    assert run[..|run|] == run;
  }

  /** Over a whole run, two handlings of one trade have at least `cap` other trades between them. */
  lemma {:induction false} HandledIsSpaced(run: seq<Delivery>, cap: nat)
    ensures Spaced(Handled(run, cap), cap)
  {
    hide Spaced, Window;
    if run == [] {
      NoneSpaced(cap);
    } else {
      var rest, d := run[..|run| - 1], run[|run| - 1];
      HandledIsSpaced(rest, cap);
      if d.status.IsFinal() && d.id !in Window(Handled(rest, cap), cap) {
        SpacedGrows(Handled(rest, cap), cap, d.id);
      }
    }
  }

  lemma {:induction false} NoneSpaced(cap: nat)
    ensures Spaced([], cap)
  {
  }

  /** Distinct finalised ids in order of first final delivery. */
  function Finalised(run: seq<Delivery>): seq<Id> {
    if run == [] then []
    else
      var before, d := Finalised(run[..|run| - 1]), run[|run| - 1];
      if d.status.IsFinal() && d.id !in before then before + [d.id] else before
  }

  lemma {:induction false} FinalisedIsDistinct(run: seq<Delivery>)
    ensures Distinct(Finalised(run))
    ensures forall id :: id in Finalised(run) <==>
              exists k :: 0 <= k < |run| && run[k].id == id && (run[k].status == Confirmed || run[k].status == Failed)
  {
    if run != [] {
      var rest, d := run[..|run| - 1], run[|run| - 1];
      FinalisedIsDistinct(rest);
      assert run == rest + [d];
    }
  }

  /** Nothing is handled but trades some delivery of which was confirmed or failed. */
  lemma {:induction false} HandledWereFinal(run: seq<Delivery>, cap: nat, id: Id)
    requires id in Handled(run, cap)
    ensures exists k :: 0 <= k < |run| && run[k].id == id && (run[k].status == Confirmed || run[k].status == Failed)
  {
    var rest, d := run[..|run| - 1], run[|run| - 1];
    if id in Handled(rest, cap) {
      HandledWereFinal(rest, cap, id);
      var k :| 0 <= k < |rest| && rest[k].id == id && (rest[k].status == Confirmed || rest[k].status == Failed);
      assert run[k] == rest[k];
    } else {
      assert run[|run| - 1].id == id;
    }
  }

  /** Every repeat of a finalised trade arrives while its id is still in the window. */
  ghost predicate WithinWindow(run: seq<Delivery>, cap: nat) {
    forall k :: 0 <= k < |run| && run[k].status.IsFinal() && run[k].id in Finalised(run[..k]) ==>
      run[k].id in Window(Finalised(run[..k]), cap)
  }

  lemma {:induction false} HandledGrows(run: seq<Delivery>, cap: nat, k: nat)
    requires k <= |run|
    ensures Handled(run[..k], cap) <= Handled(run, cap)
  {
    if k == |run| {
      assert run[..k] == run;
    } else {
      var rest := run[..|run| - 1];
      HandledGrows(rest, cap, k);
      assert rest[..k] == run[..k];
    }
  }

  lemma {:induction false} WithinWindowLast(run: seq<Delivery>, cap: nat)
    requires WithinWindow(run, cap) && run != []
    ensures var n := |run| - 1;
            && WithinWindow(run[..n], cap)
            && (run[n].status.IsFinal() && run[n].id in Finalised(run[..n]) ==>
                  run[n].id in Window(Finalised(run[..n]), cap))
  {
    hide Finalised, Window;
    var n := |run| - 1;
    assert forall k :: 0 <= k < n ==> run[..n][..k] == run[..k] && run[..n][k] == run[k];
  }

  lemma {:induction false} WithinWindowSuffices(run: seq<Delivery>, cap: nat)
    requires WithinWindow(run, cap)
    ensures Handled(run, cap) == Finalised(run)
  {
    hide WithinWindow, Window;
    if run != [] {
      var n := |run| - 1;
      WithinWindowLast(run, cap);
      WithinWindowSuffices(run[..n], cap);
      WindowIsPart(Finalised(run[..n]), cap, run[n].id);
    }
  }

  lemma {:induction false} WindowIsPart(history: seq<Id>, cap: nat, id: Id)
    ensures id in Window(history, cap) ==> id in history
  {
  }

  /** From the first repeat that arrives too late on, the run has handled an id twice. */
  lemma {:induction false} ViolationHandlesTwice(run: seq<Delivery>, cap: nat, k: nat)
    requires k < |run| && run[k].status.IsFinal() && run[k].id in Finalised(run[..k])
    requires run[k].id !in Window(Finalised(run[..k]), cap) && Handled(run[..k], cap) == Finalised(run[..k])
    ensures !Distinct(Handled(run, cap))
  {
    hide Window;
    var before, next := run[..k], run[..k + 1];
    assert next[..k] == before;
    assert Handled(next, cap) == Handled(before, cap) + [run[k].id];
    HandledGrows(run, cap, k + 1);
    var i :| 0 <= i < |Handled(before, cap)| && Handled(before, cap)[i] == run[k].id;
    assert Handled(run, cap)[i] == Handled(run, cap)[|Handled(before, cap)|];
  }

  /** Exactly once: each finalised trade is handled once, in order of first final delivery, exactly
      when every repeat arrives within the window. */
  lemma {:induction false} ExactlyOnceIff(run: seq<Delivery>, cap: nat)
    ensures Handled(run, cap) == Finalised(run) <==> WithinWindow(run, cap)
  {
    hide Handled, Finalised, Window;
    if WithinWindow(run, cap) {
      WithinWindowSuffices(run, cap);
    } else {
      var k := FirstViolation(run, cap);
      assert forall j :: 0 <= j < k ==> run[..k][..j] == run[..j];
      WithinWindowSuffices(run[..k], cap);
      ViolationHandlesTwice(run, cap, k);
      FinalisedIsDistinct(run);
    }
  }

  lemma {:induction false} FirstViolation(run: seq<Delivery>, cap: nat) returns (k: nat)
    requires !WithinWindow(run, cap)
    ensures k < |run| && run[k].status.IsFinal() && run[k].id in Finalised(run[..k])
    ensures run[k].id !in Window(Finalised(run[..k]), cap)
    ensures forall j :: 0 <= j < k && run[j].status.IsFinal() && run[j].id in Finalised(run[..j]) ==>
              run[j].id in Window(Finalised(run[..j]), cap)
  {
    hide Finalised, Window;
    var n := |run| - 1;
    assert forall j :: 0 <= j < n ==> run[..n][..j] == run[..j];
    if WithinWindow(run[..n], cap) {
      k := n;
      assert forall j :: 0 <= j < n ==> run[..n][j] == run[j];
    } else {
      k := FirstViolation(run[..n], cap);
    }
  }

  /** In particular when no more than `cap` trades finalise at all. */
  lemma {:induction false} SmallRunsAreExact(run: seq<Delivery>, cap: nat)
    requires |Finalised(run)| <= cap
    ensures Handled(run, cap) == Finalised(run)
  {
    forall k | 0 <= k < |run| ensures Window(Finalised(run[..k]), cap) == Finalised(run[..k]) {
      FinalisedGrows(run, k);
    }
    WithinWindowSuffices(run, cap);
  }

  lemma {:induction false} FinalisedGrows(run: seq<Delivery>, k: nat)
    requires k <= |run|
    ensures |Finalised(run[..k])| <= |Finalised(run)|
  {
    if k == |run| {
      assert run[..k] == run;
    } else {
      var rest := run[..|run| - 1];
      FinalisedGrows(rest, k);
      assert rest[..k] == run[..k];
    }
  }
}
