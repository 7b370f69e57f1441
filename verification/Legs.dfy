/** The identifiers of a negRisk event's legs, and the `convertPositions` index set. */
module Legs {
  import opened Prelude

  type Byte = x: int | 0 <= x < 256

  /** A 32-byte question id: the first 31 bytes name the event, the last one the leg's position. */
  datatype QuestionId = QuestionId(prefix: nat, last: Byte)

  type ConditionId = nat
  type TokenId = nat

  datatype ConvertLeg = ConvertLeg(
    questionId: QuestionId,
    conditionId: Option<ConditionId>,
    yesTokenId: Option<TokenId>,
    noTokenId: TokenId)

  /** One event queued for conversion. */
  datatype ConvertJob = ConvertJob(slug: string, legs: seq<ConvertLeg>)

  /** A 256-bit bitmap, least significant bit first. */
  type Bitmap = s: seq<bool> | |s| == 256 witness Clear(256)

  function Clear(n: nat): (s: seq<bool>)
    ensures |s| == n && forall i :: 0 <= i < n ==> !s[i]
  {
    if n == 0 then [] else Clear(n - 1) + [false]
  }

  function MarketId(q: QuestionId): QuestionId {
    q.(last := 0)
  }

  /** Legs of one event: one market, distinct positions, distinct condition ids. */
  ghost predicate WellFormed(legs: seq<ConvertLeg>) {
    && (forall i, j :: 0 <= i < |legs| && 0 <= j < |legs| ==>
          legs[i].questionId.prefix == legs[j].questionId.prefix)
    && (forall i, j :: 0 <= i < j < |legs| ==>
          legs[i].questionId.last != legs[j].questionId.last)
    && (forall i, j :: 0 <= i < j < |legs| && legs[i].conditionId.Some? ==>
          legs[i].conditionId != legs[j].conditionId)
  }

  ghost predicate AllConditionIds(legs: seq<ConvertLeg>) {
    forall i :: 0 <= i < |legs| ==> legs[i].conditionId.Some?
  }

  ghost predicate DistinctPositions(qids: seq<QuestionId>) {
    forall i, j :: 0 <= i < j < |qids| ==> qids[i].last != qids[j].last
  }

  /** Specification of the bitmap: `bits |= 1 << last` over the ids in order. */
  function IndexSetOf(qids: seq<QuestionId>): Bitmap {
    if qids == [] then Clear(256)
    else IndexSetOf(qids[..|qids| - 1])[qids[|qids| - 1].last := true]
  }

  /** The bitmap holds exactly the positions named. */
  lemma {:induction false} IndexSetBits(qids: seq<QuestionId>, b: Byte)
    ensures IndexSetOf(qids)[b] <==> exists q :: q in qids && q.last == b
  {
    if qids != [] {
      var rest, q := qids[..|qids| - 1], qids[|qids| - 1];
      IndexSetBits(rest, b);
      assert qids == rest + [q];
    }
  }

  /** Distinct positions lose nothing to the `|=`: one bit per id. */
  lemma {:induction false} IndexSetPopCount(qids: seq<QuestionId>)
    requires DistinctPositions(qids)
    ensures PopCount(IndexSetOf(qids)) == |qids|
  {
    if qids != [] {
      var rest, q := qids[..|qids| - 1], qids[|qids| - 1];
      IndexSetPopCount(rest);
      IndexSetBits(rest, q.last);
      CountSet(IndexSetOf(rest), q.last, 256);
    }
  }

  method IndexSet(qids: seq<QuestionId>) returns (bits: Bitmap)
    ensures bits == IndexSetOf(qids)
    ensures forall b: Byte :: bits[b] <==> exists q :: q in qids && q.last == b
    ensures DistinctPositions(qids) ==> PopCount(bits) == |qids|
  {
    bits := Clear(256);
    for i := 0 to |qids|
      invariant bits == IndexSetOf(qids[..i])
    {
      assert qids[..i + 1][..i] == qids[..i];
      bits := bits[qids[i].last := true];
    }
    assert qids[..|qids|] == qids;
    forall b: Byte ensures bits[b] <==> exists q :: q in qids && q.last == b {
      IndexSetBits(qids, b);
    }
    if DistinctPositions(qids) {
      IndexSetPopCount(qids);
    }
  }

  /** Position of the leg carrying `cid`, or `|legs|` when none does. */
  function LegWith(legs: seq<ConvertLeg>, cid: ConditionId): (i: nat)
    ensures i <= |legs|
    ensures i < |legs| ==> legs[i].conditionId == Some(cid)
    ensures i == |legs| ==> forall j :: 0 <= j < |legs| ==> legs[j].conditionId != Some(cid)
  {
    if legs == [] then 0
    else if legs[0].conditionId == Some(cid) then 0
    else 1 + LegWith(legs[1..], cid)
  }
}
