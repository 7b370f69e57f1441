/** One token's order book: snapshots, absolute-size deltas, N-way redundant delivery, and the two
    depth queries. Prices and sizes are integers at a fixed decimal scale. */
module OrderBook {
  import opened Prelude

  datatype BookSide = Bid | Ask

  datatype Level = Level(price: int, size: int)

  datatype Event =
    | Snapshot(bids: seq<Level>, asks: seq<Level>)
    | Delta(side: BookSide, price: int, size: int)

  type Ladder = map<int, int>

  datatype State = State(bids: Ladder, asks: Ladder)

  const EMPTY := State(map[], map[])

  // ---------- What one event does ----------

  /** Later levels win; zero-size levels are skipped. */
  function LadderOf(levels: seq<Level>): Ladder {
    if levels == [] then map[]
    else
      var last := levels[|levels| - 1];
      if last.size == 0 then LadderOf(levels[..|levels| - 1])
      else LadderOf(levels[..|levels| - 1])[last.price := last.size]
  }

  /** Level `k` is what a snapshot leaves at its price: nonzero, and the last such. */
  ghost predicate Rests(levels: seq<Level>, k: int) {
    && 0 <= k < |levels| && levels[k].size != 0
    && forall j :: k < j < |levels| && levels[j].price == levels[k].price ==> levels[j].size == 0
  }

  /** `ladder` has exactly the levels that rest. */
  ghost predicate HoldsLevels(ladder: Ladder, levels: seq<Level>) {
    && (forall p :: p in ladder <==> Named(levels, p))
    && forall k :: Rests(levels, k) ==> RestsIn(levels, k, ladder)
  }

  ghost predicate RestsIn(levels: seq<Level>, k: int, ladder: Ladder) {
    0 <= k < |levels| && levels[k].price in ladder && ladder[levels[k].price] == levels[k].size
  }

  ghost predicate Named(levels: seq<Level>, p: int) {
    exists k :: 0 <= k < |levels| && levels[k].price == p && levels[k].size != 0
  }

  lemma {:induction false} NamedGrows(rest: seq<Level>, last: Level, p: int)
    ensures Named(rest + [last], p) <==> Named(rest, p) || (last.price == p && last.size != 0)
  {
    var levels := rest + [last];
    assert levels[|rest|] == last && forall k :: 0 <= k < |rest| ==> levels[k] == rest[k];
  }

  lemma {:induction false} RestsGrows(rest: seq<Level>, last: Level, k: int)
    ensures Rests(rest + [last], k) ==>
              if k == |rest| then last.size != 0 else Rests(rest, k) && (last.price == rest[k].price ==> last.size == 0)
  {
    var levels := rest + [last];
    assert levels[|rest|] == last && forall j :: 0 <= j < |rest| ==> levels[j] == rest[j];
  }

  /** A snapshot puts every nonzero level in the book, the last of several at a price deciding. */
  lemma {:induction false} LadderHoldsLevels(levels: seq<Level>)
    ensures HoldsLevels(LadderOf(levels), levels)
  {
    if levels != [] {
      hide Named, Rests;
      var n := |levels| - 1;
      var rest, last, ladder := levels[..n], levels[n], LadderOf(levels);
      LadderHoldsLevels(rest);
      assert levels == rest + [last];
      forall p ensures p in ladder <==> Named(levels, p) {
        NamedGrows(rest, last, p);
      }
      forall k | Rests(levels, k) ensures RestsIn(levels, k, ladder) {
        RestsGrows(rest, last, k);
        assert k != n ==> RestsIn(rest, k, LadderOf(rest));
      }
    }
  }

  function SetLevel(ladder: Ladder, price: int, size: int): Ladder {
    if size == 0 then ladder - {price} else ladder[price := size]
  }

  function After(book: State, e: Event): State {
    match e
    case Snapshot(bids, asks) => State(LadderOf(bids), LadderOf(asks))
    case Delta(Bid, p, s) => book.(bids := SetLevel(book.bids, p, s))
    case Delta(Ask, p, s) => book.(asks := SetLevel(book.asks, p, s))
  }

  function Replay(book: State, events: seq<Event>): State {
    if events == [] then book
    else After(Replay(book, events[..|events| - 1]), events[|events| - 1])
  }

  ghost predicate NoZeroLevel(book: State) {
    (forall p :: p in book.bids ==> book.bids[p] != 0) && (forall p :: p in book.asks ==> book.asks[p] != 0)
  }

  lemma {:induction false} LadderHasNoZero(levels: seq<Level>)
    ensures forall p :: p in LadderOf(levels) ==> LadderOf(levels)[p] != 0
  {
    if levels != [] {
      LadderHasNoZero(levels[..|levels| - 1]);
    }
  }

  /** No zero-size level ever exists. */
  lemma {:induction false} ReplayHasNoZero(book: State, events: seq<Event>)
    requires NoZeroLevel(book)
    ensures NoZeroLevel(Replay(book, events))
  {
    if events != [] {
      ReplayHasNoZero(book, events[..|events| - 1]);
      var last := events[|events| - 1];
      if last.Snapshot? {
        LadderHasNoZero(last.bids);
        LadderHasNoZero(last.asks);
      }
    }
  }

  // ---------- The book as a machine ----------

  class Book {
    var bids: Ladder
    var asks: Ladder

    function Value(): State
      reads this
    {
      State(bids, asks)
    }

    constructor ()
      ensures Value() == EMPTY
    {
      bids, asks := map[], map[];
    }

    method ApplySnapshot(newBids: seq<Level>, newAsks: seq<Level>)
      modifies this
      ensures Value() == After(old(Value()), Snapshot(newBids, newAsks))
      ensures NoZeroLevel(Value())
      ensures HoldsLevels(bids, newBids) && HoldsLevels(asks, newAsks)
    {
      bids, asks := map[], map[];
      for i := 0 to |newBids|
        invariant bids == LadderOf(newBids[..i]) && asks == map[]
      {
        assert newBids[..i + 1][..i] == newBids[..i];
        if newBids[i].size != 0 {
          bids := bids[newBids[i].price := newBids[i].size];
        }
      }
      for i := 0 to |newAsks|
        invariant bids == LadderOf(newBids[..|newBids|]) && asks == LadderOf(newAsks[..i])
      {
        assert newAsks[..i + 1][..i] == newAsks[..i];
        if newAsks[i].size != 0 {
          asks := asks[newAsks[i].price := newAsks[i].size];
        }
      }
      assert newBids[..|newBids|] == newBids && newAsks[..|newAsks|] == newAsks;
      LadderHasNoZero(newBids);
      LadderHasNoZero(newAsks);
      LadderHoldsLevels(newBids);
      LadderHoldsLevels(newAsks);
    }

    /** Returns whether the book actually changed. */
    method ApplyDelta(side: BookSide, price: int, size: int) returns (changed: bool)
      modifies this
      ensures Value() == After(old(Value()), Delta(side, price, size))
      ensures changed <==> Value() != old(Value())
      ensures old(NoZeroLevel(Value())) ==> NoZeroLevel(Value())
    {
      var levels := if side == Bid then bids else asks;
      if size == 0 {
        changed := price in levels;
        levels := levels - {price};
      } else {
        changed := !(price in levels && levels[price] == size);
        levels := levels[price := size];
      }
      if side == Bid {
        bids := levels;
      } else {
        asks := levels;
      }
      ghost var before := if side == Bid then old(bids) else old(asks);
      assert changed <==> levels != before by {
        if changed {
          assert price in levels <==> size != 0;
        } else {
          assert levels == before;
        }
      }
    }

    /** Cumulative ask depth priced at or below `maxPrice`: nothing while the touch is above it,
        everything once the deepest level is not. */
    function AskDepthUpTo(maxPrice: int): (d: int)
      reads this
      ensures (forall p :: p in asks ==> maxPrice < p) ==> d == 0
      ensures (forall p :: p in asks ==> p <= maxPrice) ==> d == Total(asks)
    {
      DepthEnds(asks, maxPrice);
      Depth(asks, maxPrice)
    }

    /** The price at which cumulative depth first covers `need`, or the deepest level. The two queries
        answer each other on any one book: see `PriceDepthAdjunction`. */
    method AskPriceForSize(need: int) returns (last: Option<int>)
      ensures last.None? <==> asks == map[]
      ensures last.Some? ==> Covering(asks, need, last.value)
      ensures last.Some? && PositiveSizes(asks) ==>
                ((forall p :: last.value <= p <==> AskDepthUpTo(p) >= need) <==> 0 < need <= Total(asks))
    {
      last := WalkAsks(need);
      if last.Some? && PositiveSizes(asks) {
        PriceDepthAdjunction(asks, need, last.value);
        assert forall p :: AskDepthUpTo(p) == Depth(asks, p);
      }
    }

    method WalkAsks(need: int) returns (last: Option<int>)
      ensures last.None? <==> asks == map[]
      ensures last.Some? ==> Covering(asks, need, last.value)
    {
      hide Walked, Covering, Depth;
      var cum := 0;
      last := None;
      var remaining := asks.Keys;
      WalkStart(asks, need);
      while remaining != {}
        invariant Walked(asks, need, last, remaining, cum)
        decreases remaining
      {
        LeastExists(remaining);
        var price :| price in remaining && forall p :: p in remaining ==> price <= p;
        WalkStep(asks, need, last, remaining, cum, price);
        cum := cum + asks[price];
        last := Some(price);
        if cum >= need {
          return;
        }
        remaining := remaining - {price};
      }
      WalkEnd(asks, need, last, cum);
    }

  }

  // ---------- Depth ----------

  lemma {:induction false} NoMember(s: set<int>)
    requires forall x: int :: x !in s
    ensures s == {}
  {
    var none: set<int> := {};
    assert forall x: int :: x in s <==> x in none;
    assert s == none;
  }

  lemma {:induction false} AnyOf(s: set<int>) returns (x: int)
    requires s != {}
    ensures x in s
  {
    if forall y: int :: y !in s {
      NoMember(s);
    }
    x :| x in s;
  }

  lemma {:induction false} LeastExists(s: set<int>)
    requires s != {}
    ensures exists x :: x in s && forall y :: y in s ==> x <= y
    decreases s
  {
    var x := AnyOf(s);
    var t := s - {x};
    if t == {} {
      assert s == {x};
    } else {
      LeastExists(t);
      var y :| y in t && forall z :: z in t ==> y <= z;
      var m := if x <= y then x else y;
      assert m in s;
      forall z | z in s ensures m <= z {
        assert z == x || z in t;
      }
    }
  }

  lemma {:induction false} GreatestExists(s: set<int>)
    requires s != {}
    ensures exists x :: x in s && forall y :: y in s ==> y <= x
    decreases s
  {
    var x := AnyOf(s);
    var t := s - {x};
    if t == {} {
      assert s == {x};
    } else {
      GreatestExists(t);
      var y :| y in t && forall z :: z in t ==> z <= y;
      var m := if y <= x then x else y;
      assert m in s;
      forall z | z in s ensures z <= m {
        assert z == x || z in t;
      }
    }
  }

  /** Total size resting on the given prices. */
  function SumOver(ladder: Ladder, prices: set<int>): int
    requires prices <= ladder.Keys
    decreases prices
  {
    if prices == {} then 0
    else
      GreatestExists(prices);
      var top :| top in prices && forall p :: p in prices ==> p <= top;
      ladder[top] + SumOver(ladder, prices - {top})
  }

  function UpTo(ladder: Ladder, price: int): set<int> {
    set p | p in ladder && p <= price
  }

  function Depth(ladder: Ladder, price: int): int {
    SumOver(ladder, UpTo(ladder, price))
  }

  lemma {:induction false} SumTop(ladder: Ladder, prices: set<int>, top: int)
    requires prices <= ladder.Keys && top in ladder && forall p :: p in prices ==> p < top
    ensures SumOver(ladder, prices + {top}) == SumOver(ladder, prices) + ladder[top]
  {
    assert prices + {top} - {top} == prices;
  }

  /** Moving from the level done last to the next one up adds that level's size. */
  lemma {:induction false} DepthStep(ladder: Ladder, last: Option<int>, price: int)
    requires price in ladder
    requires last.Some? ==> last.value < price && forall p :: p in ladder && last.value < p ==> price <= p
    requires last.None? ==> forall p :: p in ladder ==> price <= p
    ensures Depth(ladder, price) == ladder[price] + if last.Some? then Depth(ladder, last.value) else 0
  {
    var below := if last.Some? then UpTo(ladder, last.value) else {};
    assert UpTo(ladder, price) == below + {price};
    SumTop(ladder, below, price);
  }

  /** `q` is the first level whose depth covers `need`, or the deepest level when none does. */
  ghost predicate Covering(ladder: Ladder, need: int, q: int) {
    && q in ladder
    && (forall p :: p in ladder && p < q ==> Depth(ladder, p) < need)
    && (Depth(ladder, q) >= need || forall p :: p in ladder ==> p <= q)
  }

  /** Walking up the ladder: every level through `last` is summed in `cum`, none covering `need`. */
  ghost predicate Walked(ladder: Ladder, need: int, last: Option<int>, remaining: set<int>, cum: int) {
    match last
    case None => remaining == ladder.Keys && cum == 0
    case Some(q) =>
      && q in ladder
      && remaining == (set p | p in ladder && q < p)
      && cum == Depth(ladder, q) < need
      && forall p :: p in ladder && p < q ==> Depth(ladder, p) < need
  }

  lemma {:induction false} WalkStart(ladder: Ladder, need: int)
    ensures Walked(ladder, need, None, ladder.Keys, 0)
  {
  }

  lemma {:induction false} WalkStep(
    ladder: Ladder, need: int, last: Option<int>, remaining: set<int>, cum: int, price: int)
    requires Walked(ladder, need, last, remaining, cum)
    requires price in remaining && forall p :: p in remaining ==> price <= p
    ensures price in ladder
    ensures if cum + ladder[price] >= need then Covering(ladder, need, price)
            else Walked(ladder, need, Some(price), remaining - {price}, cum + ladder[price])
  {
    hide Depth;
    match last {
      case None => assert forall p :: p in ladder ==> p in remaining;
      case Some(q) => assert forall p :: p in ladder && q < p ==> p in remaining;
    }
    DepthStep(ladder, last, price);
    assert remaining - {price} == set p | p in ladder && price < p;
    forall p | p in ladder && p < price ensures Depth(ladder, p) < need {
      assert last.Some? && p <= last.value;
    }
  }

  lemma {:induction false} WalkEnd(ladder: Ladder, need: int, last: Option<int>, cum: int)
    requires Walked(ladder, need, last, {}, cum)
    ensures last.None? <==> ladder == map[]
    ensures last.Some? ==> Covering(ladder, need, last.value)
  {
    hide Depth;
    if last.Some? {
      var above := set p | p in ladder && last.value < p;
      assert above == {};
      assert forall p :: p in ladder ==> p in above || p <= last.value;
    } else {
      assert ladder.Keys == {};
    }
  }

  ghost predicate PositiveSizes(ladder: Ladder) {
    forall p :: p in ladder ==> ladder[p] > 0
  }

  lemma {:induction false} SumGrows(ladder: Ladder, small: set<int>, big: set<int>)
    requires PositiveSizes(ladder) && small <= big <= ladder.Keys
    ensures 0 <= SumOver(ladder, small) <= SumOver(ladder, big)
    decreases big
  {
    if big != {} {
      GreatestExists(big);
      var top :| top in big && forall p :: p in big ==> p <= top;
      SumTop(ladder, big - {top}, top);
      assert big - {top} + {top} == big;
      if top in small {
        SumTop(ladder, small - {top}, top);
        assert small - {top} + {top} == small;
        SumGrows(ladder, small - {top}, big - {top});
      } else {
        SumGrows(ladder, small, big - {top});
      }
    }
  }

  function Total(ladder: Ladder): int {
    SumOver(ladder, ladder.Keys)
  }

  lemma {:induction false} DepthEnds(ladder: Ladder, price: int)
    ensures (forall p :: p in ladder ==> price < p) ==> Depth(ladder, price) == 0
    ensures (forall p :: p in ladder ==> p <= price) ==> Depth(ladder, price) == Total(ladder)
  {
    if forall p :: p in ladder ==> price < p {
      NoMember(UpTo(ladder, price));
    }
    if forall p :: p in ladder ==> p <= price {
      assert UpTo(ladder, price) == ladder.Keys;
    }
  }

  lemma {:induction false} SumNone(ladder: Ladder)
    ensures SumOver(ladder, {}) == 0
  {
  }

  /** Depth at any price is the depth at the nearest level below it. */
  lemma {:induction false} DepthBetween(ladder: Ladder, need: int, p: int)
    requires 0 < need
    requires forall r :: r in ladder && r <= p ==> Depth(ladder, r) < need
    ensures Depth(ladder, p) < need
  {
    hide SumOver;
    var below := UpTo(ladder, p);
    if below == {} {
      SumNone(ladder);
    } else {
      GreatestExists(below);
      var r :| r in below && forall x :: x in below ==> x <= r;
      assert UpTo(ladder, r) == below;
      assert Depth(ladder, r) < need;
    }
  }

  /** Price for a size and size for a price are adjoint exactly when the size asked for is positive
      and the ladder holds that much. */
  lemma {:induction false} PriceDepthAdjunction(ladder: Ladder, need: int, q: int)
    requires PositiveSizes(ladder) && Covering(ladder, need, q)
    ensures (forall p :: q <= p <==> Depth(ladder, p) >= need) <==> 0 < need <= Total(ladder)
  {
    if 0 < need <= Total(ladder) {
      if forall p :: p in ladder ==> p <= q {
        assert UpTo(ladder, q) == ladder.Keys;
      }
      forall p ensures q <= p <==> Depth(ladder, p) >= need {
        if q <= p {
          SumGrows(ladder, UpTo(ladder, q), UpTo(ladder, p));
        } else {
          DepthBetween(ladder, need, p);
        }
      }
    } else if need <= 0 {
      SumGrows(ladder, {}, UpTo(ladder, q - 1));
      assert Depth(ladder, q - 1) >= need;
    } else {
      SumGrows(ladder, UpTo(ladder, q), ladder.Keys);
      assert Depth(ladder, q) < need;
    }
  }

  /** Beyond the total depth the deepest level is returned. */
  lemma {:induction false} DeepestWhenExhausted(ladder: Ladder, need: int, q: int)
    requires PositiveSizes(ladder) && Covering(ladder, need, q) && need > Total(ladder)
    ensures forall p :: p in ladder ==> p <= q
  {
    SumGrows(ladder, UpTo(ladder, q), ladder.Keys);
  }

  // ---------- Redundant delivery ----------

  /** How often connection `c` is among the first `k` entries of the schedule. */
  function Count(schedule: seq<nat>, c: nat, k: nat): nat
    requires k <= |schedule|
  {
    if k == 0 then 0 else Count(schedule, c, k - 1) + if schedule[k - 1] == c then 1 else 0
  }

  lemma {:induction false} CountGrows(schedule: seq<nat>, c: nat, i: nat, j: nat)
    requires i <= j <= |schedule|
    ensures Count(schedule, c, i) <= Count(schedule, c, j)
  {
    if i < j {
      CountGrows(schedule, c, i, j - 1);
    }
  }

  /** An interleaving of `copies` complete copies of a stream of length `n`: entry `k` names the
      connection whose next event arrives `k`-th. */
  ghost predicate Interleaves(schedule: seq<nat>, copies: nat, n: nat) {
    && (forall k :: 0 <= k < |schedule| ==> schedule[k] < copies)
    && (forall c :: 0 <= c < copies ==> Count(schedule, c, |schedule|) == n)
  }

  /** Position in the stream of the `k`-th arrival. */
  function Position(schedule: seq<nat>, k: nat): nat
    requires k < |schedule|
  {
    Count(schedule, schedule[k], k)
  }

  lemma {:induction false} PositionInRange(schedule: seq<nat>, copies: nat, n: nat, k: nat)
    requires Interleaves(schedule, copies, n) && k < |schedule|
    ensures Position(schedule, k) < n
  {
    CountGrows(schedule, schedule[k], k + 1, |schedule|);
  }

  /** The events as they arrive over all connections. */
  function Arrivals(stream: seq<Event>, schedule: seq<nat>, copies: nat): seq<Event>
    requires Interleaves(schedule, copies, |stream|)
  {
    seq(|schedule|, k requires 0 <= k < |schedule| =>
      PositionInRange(schedule, copies, |stream|, k); stream[Position(schedule, k)])
  }

  function Lookup(book: State, side: BookSide, price: int): Option<int> {
    var ladder := if side == Bid then book.bids else book.asks;
    if price in ladder then Some(ladder[price]) else None
  }

  /** Does this event decide what rests at this price? */
  predicate Touches(e: Event, side: BookSide, price: int) {
    e.Snapshot? || (e.side == side && e.price == price)
  }

  lemma {:induction false} AfterLookup(book: State, other: State, e: Event, side: BookSide, price: int)
    ensures Touches(e, side, price) ==> Lookup(After(book, e), side, price) == Lookup(After(other, e), side, price)
    ensures !Touches(e, side, price) ==> Lookup(After(book, e), side, price) == Lookup(book, side, price)
  {
  }

  /** Index of the last event touching a price, or -1. */
  function LastTouch(events: seq<Event>, side: BookSide, price: int): (k: int)
    ensures -1 <= k < |events|
    ensures k >= 0 ==> Touches(events[k], side, price)
    ensures forall j :: k < j < |events| ==> !Touches(events[j], side, price)
  {
    if events == [] then -1
    else if Touches(events[|events| - 1], side, price) then |events| - 1
    else LastTouch(events[..|events| - 1], side, price)
  }

  /** What rests at a price was decided by the last event touching it. */
  lemma {:induction false} ReplayLookup(book: State, events: seq<Event>, side: BookSide, price: int)
    ensures var k := LastTouch(events, side, price);
            Lookup(Replay(book, events), side, price)
            == if k < 0 then Lookup(book, side, price) else Lookup(After(book, events[k]), side, price)
  {
    if events != [] {
      var rest, last := events[..|events| - 1], events[|events| - 1];
      ReplayLookup(book, rest, side, price);
      AfterLookup(Replay(book, rest), book, last, side, price);
    }
  }

  /** Connection `c`'s `j`-th event does arrive. */
  lemma {:induction false} ArrivalOf(schedule: seq<nat>, c: nat, m: nat, j: nat) returns (k: nat)
    requires m <= |schedule| && j < Count(schedule, c, m)
    ensures k < m && schedule[k] == c && Count(schedule, c, k) == j
  {
    if schedule[m - 1] == c && Count(schedule, c, m - 1) == j {
      k := m - 1;
    } else {
      k := ArrivalOf(schedule, c, m - 1, j);
    }
  }

  /** The last arrival touching a price is a copy of the stream's last event touching it. */
  lemma {:induction false} LastArrival(
    stream: seq<Event>, schedule: seq<nat>, copies: nat, side: BookSide, price: int)
    requires Interleaves(schedule, copies, |stream|) && copies > 0
    ensures var arrivals := Arrivals(stream, schedule, copies);
            var j, k := LastTouch(stream, side, price), LastTouch(arrivals, side, price);
            if j < 0 then k < 0 else k >= 0 && arrivals[k] == stream[j]
  {
    var arrivals := Arrivals(stream, schedule, copies);
    var j, k := LastTouch(stream, side, price), LastTouch(arrivals, side, price);
    if j >= 0 {
      var first := ArrivalOf(schedule, 0, |schedule|, j);
      assert arrivals[first] == stream[j];
      var c := schedule[k];
      var again := ArrivalOf(schedule, c, |schedule|, j);
      assert arrivals[again] == stream[j];
      CountGrows(schedule, c, again, k);
      if again < k {
        CountGrows(schedule, c, again + 1, k);
      }
    }
    if k >= 0 {
      PositionInRange(schedule, copies, |stream|, k);
    }
  }

  /** Fan-out convergence: whatever the interleaving of complete copies, the final book is the one
      the stream gives when applied once. */
  lemma {:induction false} FanOutConverges(book: State, stream: seq<Event>, schedule: seq<nat>, copies: nat)
    requires Interleaves(schedule, copies, |stream|) && copies > 0
    ensures Replay(book, Arrivals(stream, schedule, copies)) == Replay(book, stream)
  {
    var a, b := Replay(book, Arrivals(stream, schedule, copies)), Replay(book, stream);
    forall side, price ensures Lookup(a, side, price) == Lookup(b, side, price) {
      LastArrival(stream, schedule, copies, side, price);
      ReplayLookup(book, stream, side, price);
      ReplayLookup(book, Arrivals(stream, schedule, copies), side, price);
    }
    SameLookups(a, b);
  }

  lemma {:induction false} SameLookups(a: State, b: State)
    requires forall side, price :: Lookup(a, side, price) == Lookup(b, side, price)
    ensures a == b
  {
    forall p
      ensures p in a.bids <==> p in b.bids
      ensures p in a.bids ==> a.bids[p] == b.bids[p]
      ensures p in a.asks <==> p in b.asks
      ensures p in a.asks ==> a.asks[p] == b.asks[p]
    {
      assert Lookup(a, Bid, p) == Lookup(b, Bid, p) && Lookup(a, Ask, p) == Lookup(b, Ask, p);
    }
    assert a.bids == b.bids && a.asks == b.asks;
  }

  /** What an event touching a price puts there. */
  function Puts(e: Event, side: BookSide, price: int): Option<int>
    requires Touches(e, side, price)
  {
    match e
    case Snapshot(bids, asks) =>
      var ladder := LadderOf(if side == Bid then bids else asks);
      if price in ladder then Some(ladder[price]) else None
    case Delta(_, _, size) => if size == 0 then None else Some(size)
  }

  /** What the last event touching a price says; before any, the book as it was. */
  function Decided(book: State, events: seq<Event>, side: BookSide, price: int): Option<int> {
    var k := LastTouch(events, side, price);
    if k < 0 then Lookup(book, side, price) else Puts(events[k], side, price)
  }

  lemma {:induction false} ReplayDecided(book: State, events: seq<Event>, side: BookSide, price: int)
    ensures Lookup(Replay(book, events), side, price) == Decided(book, events, side, price)
  {
    ReplayLookup(book, events, side, price);
  }

  /** Two deliveries show the same book exactly when at every price their last touching events say
      the same. */
  lemma {:induction false} ReplayAgreesIff(book: State, a: seq<Event>, b: seq<Event>)
    ensures Replay(book, a) == Replay(book, b)
       <==> forall side, price :: Decided(book, a, side, price) == Decided(book, b, side, price)
  {
    hide Decided;
    forall side, price
      ensures Lookup(Replay(book, a), side, price) == Decided(book, a, side, price)
      ensures Lookup(Replay(book, b), side, price) == Decided(book, b, side, price)
    {
      ReplayDecided(book, a, side, price);
      ReplayDecided(book, b, side, price);
    }
    if forall side, price :: Decided(book, a, side, price) == Decided(book, b, side, price) {
      SameLookups(Replay(book, a), Replay(book, b));
    }
  }

  /** After `m` arrivals connection `front` is furthest, `n` events in. */
  ghost predicate FrontRunner(schedule: seq<nat>, copies: nat, m: nat, front: nat, n: nat) {
    && m <= |schedule| && front < copies
    && Count(schedule, front, m) == n
    && forall c :: 0 <= c < copies ==> Count(schedule, c, m) <= n
  }

  /** The arrivals so far touch the prices the front-runner's events touch, and no others. */
  lemma {:induction false} SameTouches(
    stream: seq<Event>, schedule: seq<nat>, copies: nat, m: nat, front: nat, n: nat, side: BookSide, price: int)
    requires Interleaves(schedule, copies, |stream|) && FrontRunner(schedule, copies, m, front, n) && n <= |stream|
    ensures LastTouch(Arrivals(stream, schedule, copies)[..m], side, price) >= 0
       <==> LastTouch(stream[..n], side, price) >= 0
  {
    var arrived := Arrivals(stream, schedule, copies)[..m];
    var j, k := LastTouch(stream[..n], side, price), LastTouch(arrived, side, price);
    if j >= 0 {
      var at := ArrivalOf(schedule, front, m, j);
      assert arrived[at] == stream[..n][j];
    }
    if k >= 0 {
      PositionInRange(schedule, copies, |stream|, k);
      CountGrows(schedule, schedule[k], k + 1, m);
      assert arrived[k] == stream[..n][Position(schedule, k)];
    }
  }

  /** A fan-out still under way shows the front-runner's book exactly when, at every price the
      front-runner's events touch, the last arrival to touch it says what the front-runner's last did:
      a slower copy does no harm until it repeats something the front-runner has since replaced. */
  lemma {:induction false} FrontRunnerBookIff(
    book: State, stream: seq<Event>, schedule: seq<nat>, copies: nat, m: nat, front: nat, n: nat)
    requires Interleaves(schedule, copies, |stream|) && FrontRunner(schedule, copies, m, front, n) && n <= |stream|
    ensures var arrived := Arrivals(stream, schedule, copies)[..m];
            Replay(book, arrived) == Replay(book, stream[..n])
            <==> forall side, price :: LastTouch(stream[..n], side, price) >= 0 ==>
                   Decided(book, arrived, side, price) == Decided(book, stream[..n], side, price)
  {
    hide Replay, LastTouch, Touches, Puts, Count;
    var arrived := Arrivals(stream, schedule, copies)[..m];
    ReplayAgreesIff(book, arrived, stream[..n]);
    forall side, price ensures LastTouch(stream[..n], side, price) < 0 ==>
        Decided(book, arrived, side, price) == Decided(book, stream[..n], side, price)
    {
      SameTouches(stream, schedule, copies, m, front, n, side, price);
    }
  }

  lemma {:induction false} DecidedNext(book: State, events: seq<Event>, e: Event, side: BookSide, price: int)
    ensures Decided(book, events + [e], side, price)
         == if Touches(e, side, price) then Puts(e, side, price) else Decided(book, events, side, price)
  {
    assert (events + [e])[..|events|] == events;
    assert forall k :: 0 <= k < |events| ==> (events + [e])[k] == events[k];
  }

  /** Nothing that came after event `j` has changed what it put. */
  ghost predicate StillStands(events: seq<Event>, j: nat)
    requires j < |events|
  {
    forall side, price :: Touches(events[j], side, price) ==>
      StandsAt(events, j, side, price)
  }

  ghost predicate StandsAt(events: seq<Event>, j: nat, side: BookSide, price: int)
    requires j < |events| && Touches(events[j], side, price)
  {
    var k := LastTouch(events, side, price);
    Puts(events[k], side, price) == Puts(events[j], side, price)
  }

  /** Delivering an event again changes nothing exactly when everything it put still stands; so an
      immediate repeat never does, and a late one does as soon as a later event said otherwise. */
  lemma {:induction false} RedeliveryIsNoOpIff(book: State, events: seq<Event>, j: nat)
    requires j < |events|
    ensures Replay(book, events + [events[j]]) == Replay(book, events) <==> StillStands(events, j)
    ensures j == |events| - 1 ==> StillStands(events, j)
  {
    hide Puts, Touches, Replay, LastTouch;
    var again := events + [events[j]];
    ReplayAgreesIff(book, again, events);
    forall side, price
      ensures Touches(events[j], side, price) ==>
                (Decided(book, again, side, price) == Decided(book, events, side, price)
                 <==> StandsAt(events, j, side, price))
      ensures !Touches(events[j], side, price) ==>
                Decided(book, again, side, price) == Decided(book, events, side, price)
    {
      DecidedNext(book, events, events[j], side, price);
      assert Touches(events[j], side, price) ==> LastTouch(events, side, price) >= j;
    }
    assert (forall side, price :: Decided(book, again, side, price) == Decided(book, events, side, price))
      <==> StillStands(events, j);
  }

  /** So the documented no-op is one only while what the event put still stands: a copy still catching
      up repeats a delta since replaced, and rolls its level back. */
  lemma {:induction false} StaleCopyRollsBack()
    ensures var stream := [Delta(Ask, 1, 5), Delta(Ask, 1, 7)];
            var arrivals := [stream[0], stream[1], stream[0], stream[1]];
            && Interleaves([0, 0, 1, 1], 2, 2)
            && Arrivals(stream, [0, 0, 1, 1], 2) == arrivals
            && Replay(EMPTY, arrivals[..2]) == Replay(EMPTY, stream)
            && Replay(EMPTY, arrivals[..3]) != Replay(EMPTY, stream)
  {
    var s := [0, 0, 1, 1];
    assert forall c :: Count(s, c, 1) == (if c == 0 then 1 else 0);
    assert forall c :: Count(s, c, 2) == (if c == 0 then 2 else 0);
    assert forall c :: Count(s, c, 3) == (if c == 0 then 2 else if c == 1 then 1 else 0);
    assert forall c :: Count(s, c, 4) == (if c == 0 || c == 1 then 2 else 0);
    var stream := [Delta(Ask, 1, 5), Delta(Ask, 1, 7)];
    var arrivals := [stream[0], stream[1], stream[0], stream[1]];
    assert arrivals[..2] == stream && arrivals[..3][..2] == stream;
    assert stream[..1] == [stream[0]] && [stream[0]][..0] == [];
    assert Replay(EMPTY, stream[..1]) == State(map[], map[1 := 5]);
    assert Replay(EMPTY, stream) == State(map[], map[1 := 7]);
    assert Replay(EMPTY, arrivals[..3]) == After(Replay(EMPTY, stream), stream[0]);
    assert After(State(map[], map[1 := 7]), Delta(Ask, 1, 5)).asks[1] == 5;
  }
}
