/** The flat layout of one `balanceOfBatch` read over several events, there and back. */
module Layout {
  import opened Prelude
  import opened Legs
  import opened Chain

  /** A leg asks for its NO token, then its YES token when known. */
  function LegIds(leg: ConvertLeg): seq<TokenId> {
    [leg.noTokenId] + if leg.yesTokenId.Some? then [leg.yesTokenId.value] else []
  }

  function TokenIds(legs: seq<ConvertLeg>): seq<TokenId> {
    if legs == [] then [] else LegIds(legs[0]) + TokenIds(legs[1..])
  }

  function TokenCount(legs: seq<ConvertLeg>): nat {
    if legs == [] then 0
    else 1 + (if legs[0].yesTokenId.Some? then 1 else 0) + TokenCount(legs[1..])
  }

  function AllTokenIds(jobs: seq<ConvertJob>): seq<TokenId> {
    if jobs == [] then [] else TokenIds(jobs[0].legs) + AllTokenIds(jobs[1..])
  }

  function AllTokenCount(jobs: seq<ConvertJob>): nat {
    if jobs == [] then 0 else TokenCount(jobs[0].legs) + AllTokenCount(jobs[1..])
  }

  method BatchTokenIds(legs: seq<ConvertLeg>) returns (ids: seq<TokenId>)
    ensures ids == TokenIds(legs) && |ids| == TokenCount(legs)
  {
    ids := [];
    for i := 0 to |legs|
      invariant ids + TokenIds(legs[i..]) == TokenIds(legs)
    {
      assert legs[i..][0] == legs[i] && legs[i..][1..] == legs[i + 1..];
      Assoc(ids, LegIds(legs[i]), TokenIds(legs[i + 1..]));
      Assoc(ids, [legs[i].noTokenId], if legs[i].yesTokenId.Some? then [legs[i].yesTokenId.value] else []);
      ids := ids + [legs[i].noTokenId];
      if legs[i].yesTokenId.Some? {
        ids := ids + [legs[i].yesTokenId.value];
      }
    }
    TokenIdsCount(legs);
  }

  lemma {:induction false} TokenIdsCount(legs: seq<ConvertLeg>)
    ensures |TokenIds(legs)| == TokenCount(legs)
  {
    if legs != [] {
      TokenIdsCount(legs[1..]);
    }
  }

  lemma {:induction false} AllTokenIdsCount(jobs: seq<ConvertJob>)
    ensures |AllTokenIds(jobs)| == AllTokenCount(jobs)
  {
    if jobs != [] {
      TokenIdsCount(jobs[0].legs);
      AllTokenIdsCount(jobs[1..]);
    }
  }

  /** The pairs a flat array of the right length stands for. */
  function PairsOf(legs: seq<ConvertLeg>, flat: seq<nat>): seq<Balance>
    requires |flat| == TokenCount(legs)
  {
    if legs == [] then []
    else if legs[0].yesTokenId.Some? then [Balance(flat[0], flat[1])] + PairsOf(legs[1..], flat[2..])
    else [Balance(flat[0], 0)] + PairsOf(legs[1..], flat[1..])
  }

  function AllPairsOf(jobs: seq<ConvertJob>, flat: seq<nat>): seq<seq<Balance>>
    requires |flat| == AllTokenCount(jobs)
  {
    if jobs == [] then []
    else
      var n := TokenCount(jobs[0].legs);
      [PairsOf(jobs[0].legs, flat[..n])] + AllPairsOf(jobs[1..], flat[n..])
  }

  method UnpackBalances(legs: seq<ConvertLeg>, balances: seq<nat>) returns (r: Result<seq<Balance>>)
    ensures r.Ok? <==> |balances| == TokenCount(legs)
    ensures r.Ok? ==> r.value == PairsOf(legs, balances)
  {
    var cursor := 0;
    var pairs: seq<Balance> := [];
    for i := 0 to |legs|
      invariant 0 <= cursor <= |balances|
      invariant |balances| == TokenCount(legs) <==> |balances| - cursor == TokenCount(legs[i..])
      invariant |balances| == TokenCount(legs) ==>
                  pairs + PairsOf(legs[i..], balances[cursor..]) == PairsOf(legs, balances)
    {
      assert legs[i..][0] == legs[i] && legs[i..][1..] == legs[i + 1..];
      ghost var rest := balances[cursor..];
      if cursor == |balances| {
        return Err("balanceOfBatch returned fewer balances than queried");
      }
      var noBal := balances[cursor];
      cursor := cursor + 1;
      var yesBal := 0;
      if legs[i].yesTokenId.Some? {
        if cursor == |balances| {
          return Err("balanceOfBatch returned fewer balances than queried");
        }
        yesBal := balances[cursor];
        cursor := cursor + 1;
        assert rest[2..] == balances[cursor..];
      } else {
        assert rest[1..] == balances[cursor..];
      }
      if |balances| == TokenCount(legs) {
        Assoc(pairs, [Balance(noBal, yesBal)], PairsOf(legs[i + 1..], balances[cursor..]));
      }
      pairs := pairs + [Balance(noBal, yesBal)];
    }
    if cursor < |balances| {
      return Err("balanceOfBatch returned more balances than queried");
    }
    r := Ok(pairs);
  }

  method UnpackMulti(jobs: seq<ConvertJob>, balances: seq<nat>) returns (r: Result<seq<seq<Balance>>>)
    ensures r.Ok? <==> |balances| == AllTokenCount(jobs)
    ensures r.Ok? ==> r.value == AllPairsOf(jobs, balances)
  {
    hide PairsOf, TokenCount;
    var out: seq<seq<Balance>> := [];
    var offset := 0;
    for i := 0 to |jobs|
      invariant 0 <= offset <= |balances|
      invariant |balances| == AllTokenCount(jobs) <==> |balances| - offset == AllTokenCount(jobs[i..])
      invariant |balances| == AllTokenCount(jobs) ==>
                  out + AllPairsOf(jobs[i..], balances[offset..]) == AllPairsOf(jobs, balances)
    {
      assert jobs[i..][0] == jobs[i] && jobs[i..][1..] == jobs[i + 1..];
      var n := TokenCount(jobs[i].legs);
      if offset + n > |balances| {
        return Err("balanceOfBatch returned fewer balances than queried");
      }
      ghost var rest := balances[offset..];
      assert rest[..n] == balances[offset..offset + n] && rest[n..] == balances[offset + n..];
      var pairs := UnpackBalances(jobs[i].legs, balances[offset..offset + n]);
      if |balances| == AllTokenCount(jobs) {
        Assoc(out, [pairs.value], AllPairsOf(jobs[i + 1..], balances[offset + n..]));
      }
      out := out + [pairs.value];
      offset := offset + n;
    }
    if offset != |balances| {
      return Err("balanceOfBatch returned more balances than queried");
    }
    r := Ok(out);
  }

  /** Where leg `i`'s tokens start in the query. */
  function Offset(legs: seq<ConvertLeg>, i: nat): nat
    requires i <= |legs|
  {
    if i == 0 then 0 else Offset(legs, i - 1) + if legs[i - 1].yesTokenId.Some? then 2 else 1
  }

  lemma {:induction false} OffsetAfter(legs: seq<ConvertLeg>, i: nat)
    requires 0 < i <= |legs|
    ensures Offset(legs, i) == (if legs[0].yesTokenId.Some? then 2 else 1) + Offset(legs[1..], i - 1)
  {
    if i > 1 {
      OffsetAfter(legs, i - 1);
    }
  }

  /** Leg by leg, the query asks for the NO token, directly followed by the YES token when known. */
  lemma {:induction false} QueryOrder(legs: seq<ConvertLeg>, i: nat)
    requires i < |legs|
    ensures var k := Offset(legs, i);
            && k < |TokenIds(legs)| && TokenIds(legs)[k] == legs[i].noTokenId
            && (legs[i].yesTokenId.Some? ==>
                  k + 1 < |TokenIds(legs)| && TokenIds(legs)[k + 1] == legs[i].yesTokenId.value)
    ensures |TokenIds(legs)| == Offset(legs, |legs|)
  {
    OffsetAfter(legs, |legs|);
    if i > 0 {
      OffsetAfter(legs, i);
      QueryOrder(legs[1..], i - 1);
    } else if |legs| > 1 {
      QueryOrder(legs[1..], 0);
    }
  }

  /** And the answer is read back from the same places. */
  lemma {:induction false} AnswerOrder(legs: seq<ConvertLeg>, flat: seq<nat>, i: nat)
    requires i < |legs| && |flat| == TokenCount(legs)
    ensures var k := Offset(legs, i);
            && |PairsOf(legs, flat)| == |legs|
            && k < |flat| && PairsOf(legs, flat)[i].no == flat[k]
            && (if legs[i].yesTokenId.Some? then k + 1 < |flat| && PairsOf(legs, flat)[i].yes == flat[k + 1]
                else PairsOf(legs, flat)[i].yes == 0)
  {
    var width := if legs[0].yesTokenId.Some? then 2 else 1;
    if i > 0 {
      OffsetAfter(legs, i);
      AnswerOrder(legs[1..], flat[width..], i - 1);
    } else if |legs| > 1 {
      AnswerOrder(legs[1..], flat[width..], 0);
    }
  }

  /** What the chain answers to a list of token ids. */
  function Held(ids: seq<TokenId>, balanceOf: TokenId -> nat): seq<nat> {
    seq(|ids|, i requires 0 <= i < |ids| => balanceOf(ids[i]))
  }

  /** What the planner is meant to see of one leg: an unknown YES token reads as zero. */
  function Seen(leg: ConvertLeg, balanceOf: TokenId -> nat): Balance {
    Balance(balanceOf(leg.noTokenId), if leg.yesTokenId.Some? then balanceOf(leg.yesTokenId.value) else 0)
  }

  function SeenPairs(legs: seq<ConvertLeg>, balanceOf: TokenId -> nat): seq<Balance> {
    seq(|legs|, i requires 0 <= i < |legs| => Seen(legs[i], balanceOf))
  }

  function AllSeen(jobs: seq<ConvertJob>, balanceOf: TokenId -> nat): seq<seq<Balance>> {
    seq(|jobs|, e requires 0 <= e < |jobs| => SeenPairs(jobs[e].legs, balanceOf))
  }

  lemma {:induction false} HeldAppend(a: seq<TokenId>, b: seq<TokenId>, balanceOf: TokenId -> nat)
    ensures Held(a + b, balanceOf) == Held(a, balanceOf) + Held(b, balanceOf)
  {
  }

  lemma {:induction false} LegsRoundTrip(legs: seq<ConvertLeg>, balanceOf: TokenId -> nat)
    ensures |TokenIds(legs)| == TokenCount(legs)
    ensures PairsOf(legs, Held(TokenIds(legs), balanceOf)) == SeenPairs(legs, balanceOf)
  {
    TokenIdsCount(legs);
    if legs != [] {
      LegsRoundTrip(legs[1..], balanceOf);
      HeldAppend(LegIds(legs[0]), TokenIds(legs[1..]), balanceOf);
      var flat := Held(TokenIds(legs), balanceOf);
      assert flat[|LegIds(legs[0])|..] == Held(TokenIds(legs[1..]), balanceOf);
      assert SeenPairs(legs, balanceOf) == [Seen(legs[0], balanceOf)] + SeenPairs(legs[1..], balanceOf);
    }
  }

  /** Unpacking the answer to the concatenated query gives every event's own pairs, leg by leg. */
  lemma {:induction false} RoundTrip(jobs: seq<ConvertJob>, balanceOf: TokenId -> nat)
    ensures |AllTokenIds(jobs)| == AllTokenCount(jobs)
    ensures AllPairsOf(jobs, Held(AllTokenIds(jobs), balanceOf))
         == AllSeen(jobs, balanceOf)
  {
    AllTokenIdsCount(jobs);
    if jobs != [] {
      RoundTrip(jobs[1..], balanceOf);
      LegsRoundTrip(jobs[0].legs, balanceOf);
      HeldAppend(TokenIds(jobs[0].legs), AllTokenIds(jobs[1..]), balanceOf);
      var flat, n := Held(AllTokenIds(jobs), balanceOf), TokenCount(jobs[0].legs);
      assert flat[..n] == Held(TokenIds(jobs[0].legs), balanceOf);
      assert flat[n..] == Held(AllTokenIds(jobs[1..]), balanceOf);
    }
  }

  /** One query for every event, unpacked. It cannot fail: the chain answers as many balances as it
      was asked for. */
  method ReadBalancesMulti(jobs: seq<ConvertJob>, balanceOf: TokenId -> nat) returns (r: Result<seq<seq<Balance>>>)
    ensures r == Ok(AllSeen(jobs, balanceOf))
  {
    var ids: seq<TokenId> := [];
    for e := 0 to |jobs|
      invariant ids + AllTokenIds(jobs[e..]) == AllTokenIds(jobs)
    {
      assert jobs[e..][0] == jobs[e] && jobs[e..][1..] == jobs[e + 1..];
      Assoc(ids, TokenIds(jobs[e].legs), AllTokenIds(jobs[e + 1..]));
      var own := BatchTokenIds(jobs[e].legs);
      ids := ids + own;
    }
    assert jobs[|jobs|..] == [] && ids + [] == ids;
    RoundTrip(jobs, balanceOf);
    if ids == [] {
      NoTokensNoLegs(jobs, balanceOf);
      var none: seq<seq<Balance>> := seq(|jobs|, _ => []);
      assert none == AllSeen(jobs, balanceOf);
      return Ok(none);
    }
    r := UnpackMulti(jobs, Held(ids, balanceOf));
  }

  lemma {:induction false} NoTokensNoLegs(jobs: seq<ConvertJob>, balanceOf: TokenId -> nat)
    requires AllTokenIds(jobs) == []
    ensures forall e :: 0 <= e < |jobs| ==> SeenPairs(jobs[e].legs, balanceOf) == []
  {
    if jobs != [] {
      NoTokensNoLegs(jobs[1..], balanceOf);
      forall e | 0 <= e < |jobs| ensures SeenPairs(jobs[e].legs, balanceOf) == [] {
        if e > 0 {
          assert jobs[e] == jobs[1..][e - 1];
        }
      }
    }
  }

  // ---------- Balances kept per leg, as the chain reports them ----------

  /** Every token id is named once. */
  ghost predicate Readable(jobs: seq<ConvertJob>) {
    Distinct(AllTokenIds(jobs))
  }

  /** What a read shows of one event's balances: no YES on a leg whose YES token is unknown. */
  function Shown(legs: seq<ConvertLeg>, bal: seq<Balance>): (r: seq<Balance>)
    ensures |r| == |bal|
    ensures |legs| == |bal| && (forall i :: 0 <= i < |legs| ==> legs[i].yesTokenId.Some?) ==> r == bal
  {
    seq(|bal|, i requires 0 <= i < |bal| =>
      if i < |legs| && legs[i].yesTokenId.None? then Balance(bal[i].no, 0) else bal[i])
  }

  /** The answer to an event's part of the query when it holds `bal`. */
  function FlatOf(legs: seq<ConvertLeg>, bal: seq<Balance>): seq<nat>
    requires |legs| == |bal|
  {
    if legs == [] then []
    else [bal[0].no] + (if legs[0].yesTokenId.Some? then [bal[0].yes] else []) + FlatOf(legs[1..], bal[1..])
  }

  ghost predicate Shaped(jobs: seq<ConvertJob>, held: seq<seq<Balance>>) {
    |jobs| == |held| && forall e :: 0 <= e < |jobs| ==> |jobs[e].legs| == |held[e]|
  }

  function AllFlatOf(jobs: seq<ConvertJob>, held: seq<seq<Balance>>): seq<nat>
    requires Shaped(jobs, held)
  {
    if jobs == [] then [] else FlatOf(jobs[0].legs, held[0]) + AllFlatOf(jobs[1..], held[1..])
  }

  function AllShown(jobs: seq<ConvertJob>, held: seq<seq<Balance>>): seq<seq<Balance>>
    requires Shaped(jobs, held)
  {
    seq(|jobs|, e requires 0 <= e < |jobs| => Shown(jobs[e].legs, held[e]))
  }

  /** The chain's balance of a token: what is held at its place in the query. */
  function OnChain(ids: seq<TokenId>, flat: seq<nat>, token: TokenId): nat
    requires |flat| == |ids|
  {
    if ids == [] then 0 else if ids[0] == token then flat[0] else OnChain(ids[1..], flat[1..], token)
  }

  lemma {:induction false} OnChainAt(ids: seq<TokenId>, flat: seq<nat>, k: nat)
    requires |flat| == |ids| && k < |ids| && Distinct(ids)
    ensures OnChain(ids, flat, ids[k]) == flat[k]
  {
    if k > 0 {
      assert ids[0] != ids[k];
      assert ids[1..][k - 1] == ids[k] && flat[1..][k - 1] == flat[k];
      OnChainAt(ids[1..], flat[1..], k - 1);
    }
  }

  lemma {:induction false} FlatPairs(legs: seq<ConvertLeg>, bal: seq<Balance>)
    requires |legs| == |bal|
    ensures |FlatOf(legs, bal)| == TokenCount(legs) && PairsOf(legs, FlatOf(legs, bal)) == Shown(legs, bal)
  {
    if legs != [] {
      FlatPairs(legs[1..], bal[1..]);
      var flat, rest := FlatOf(legs, bal), FlatOf(legs[1..], bal[1..]);
      if legs[0].yesTokenId.Some? {
        assert flat == [bal[0].no, bal[0].yes] + rest && flat[2..] == rest;
      } else {
        assert flat == [bal[0].no] + rest && flat[1..] == rest;
      }
      assert Shown(legs, bal)[1..] == Shown(legs[1..], bal[1..]);
    }
  }

  lemma {:induction false} AllFlatPairs(jobs: seq<ConvertJob>, held: seq<seq<Balance>>)
    requires Shaped(jobs, held)
    ensures |AllFlatOf(jobs, held)| == AllTokenCount(jobs)
    ensures AllPairsOf(jobs, AllFlatOf(jobs, held)) == AllShown(jobs, held)
  {
    hide TokenCount, FlatOf, PairsOf, Shown;
    if jobs != [] {
      AllFlatPairs(jobs[1..], held[1..]);
      FlatPairs(jobs[0].legs, held[0]);
      var flat, n := AllFlatOf(jobs, held), TokenCount(jobs[0].legs);
      assert flat[..n] == FlatOf(jobs[0].legs, held[0]) && flat[n..] == AllFlatOf(jobs[1..], held[1..]);
      assert AllShown(jobs, held)[1..] == AllShown(jobs[1..], held[1..]);
    }
  }

  /** Reading balances kept per leg shows those balances, but for YES of unknown tokens. */
  lemma {:induction false} ReadsBack(jobs: seq<ConvertJob>, held: seq<seq<Balance>>, balanceOf: TokenId -> nat)
    requires Readable(jobs) && Shaped(jobs, held)
    requires |AllFlatOf(jobs, held)| == |AllTokenIds(jobs)|
    requires forall t :: balanceOf(t) == OnChain(AllTokenIds(jobs), AllFlatOf(jobs, held), t)
    ensures AllSeen(jobs, balanceOf) == AllShown(jobs, held)
  {
    hide OnChain, AllPairsOf, AllTokenIds, AllFlatOf, AllTokenCount, SeenPairs, Shown;
    var ids, flat := AllTokenIds(jobs), AllFlatOf(jobs, held);
    RoundTrip(jobs, balanceOf);
    AllFlatPairs(jobs, held);
    forall k | 0 <= k < |ids| ensures Held(ids, balanceOf)[k] == flat[k] {
      OnChainAt(ids, flat, k);
    }
    assert Held(ids, balanceOf) == flat;
  }
}
