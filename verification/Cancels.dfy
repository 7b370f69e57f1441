/** Cancel bookkeeping: which orders to drop from tracking and which to retry. */
module Cancels {
  import opened Prelude

  type OrderId = string

  /** The venue's answer; the map names a reason for each order it declined to cancel. */
  datatype CancelResponse = CancelResponse(canceled: seq<OrderId>, notCanceled: map<OrderId, string>)

  const NOTHING := CancelResponse([], map[])

  const CANCEL_BATCH_SIZE: nat := 1000

  // ---------- Terminal reasons ----------

  const TERMINAL: seq<string> :=
    ["filled", "not found", "matched", "executed", "complete", "already cancel", "expired"]

  function LowerChar(c: char): char {
    if 'A' <= c <= 'Z' then (c as int + 32) as char else c
  }

  function Lower(s: string): string {
    seq(|s|, i requires 0 <= i < |s| => LowerChar(s[i]))
  }

  predicate Contains(text: string, part: string) {
    exists i :: 0 <= i <= |text| && FoundAt(text, part, i)
  }

  predicate FoundAt(text: string, part: string, i: int) {
    0 <= i && i + |part| <= |text| && text[i..i + |part|] == part
  }

  predicate ReasonIsTerminal(reason: string) {
    exists k :: 0 <= k < |TERMINAL| && Contains(Lower(reason), TERMINAL[k])
  }

  /** A reason is terminal wherever it has one of these words, in any case. */
  lemma {:induction false} TerminalWords(before: string, word: string, after: string)
    requires Lower(word) in ["filled", "not found", "matched", "executed", "complete", "already cancel", "expired"]
    ensures ReasonIsTerminal(before + word + after)
  {
    var text := Lower(before + word + after);
    assert text[|before|..|before| + |word|] == Lower(word);
    assert FoundAt(text, Lower(word), |before|);
  }

  lemma {:induction false} FoundHas(text: string, part: string, i: int, c: char)
    requires FoundAt(text, part, i) && c in part
    ensures c in text
  {
    var j :| 0 <= j < |part| && part[j] == c;
    assert text[i..i + |part|][j] == text[i + j];
  }

  /** It is not terminal when each of them has a letter the reason lacks. */
  lemma {:induction false} NotTerminal(reason: string, lacking: seq<char>)
    requires |lacking| == 7 && forall k :: 0 <= k < 7 ==> lacking[k] in TERMINAL[k] && lacking[k] !in Lower(reason)
    ensures !ReasonIsTerminal(reason)
  {
    hide FoundAt, Lower;
    forall k | 0 <= k < |TERMINAL| ensures !Contains(Lower(reason), TERMINAL[k]) {
      NotFound(Lower(reason), TERMINAL[k], lacking[k]);
    }
  }

  lemma {:induction false} NotFound(text: string, part: string, c: char)
    requires c in part && c !in text
    ensures !Contains(text, part)
  {
    hide FoundAt;
    forall i ensures !FoundAt(text, part, i) {
      if FoundAt(text, part, i) {
        FoundHas(text, part, i, c);
        assert false;
      }
    }
  }

  lemma {:induction false} LacksOneSet(reason: string)
    requires 'f' !in Lower(reason) && 'h' !in Lower(reason) && 'x' !in Lower(reason)
    requires 'p' !in Lower(reason) && 'c' !in Lower(reason)
    ensures !ReasonIsTerminal(reason)
  {
    hide Lower, ReasonIsTerminal;
    var lacking := ['f', 'f', 'h', 'x', 'p', 'c', 'x'];
    assert "filled"[0] == 'f' && "not found"[4] == 'f' && "matched"[4] == 'h' && "executed"[1] == 'x';
    assert "complete"[3] == 'p' && "already cancel"[8] == 'c' && "expired"[1] == 'x';
    NotTerminal(reason, lacking);
  }

  lemma {:induction false} LacksOtherSet(reason: string)
    requires 'f' !in Lower(reason) && 'm' !in Lower(reason) && 'x' !in Lower(reason) && 'y' !in Lower(reason)
    ensures !ReasonIsTerminal(reason)
  {
    hide Lower, ReasonIsTerminal;
    var lacking := ['f', 'f', 'm', 'x', 'm', 'y', 'x'];
    assert "filled"[0] == 'f' && "not found"[4] == 'f' && "matched"[0] == 'm' && "executed"[1] == 'x';
    assert "complete"[2] == 'm' && "already cancel"[6] == 'y' && "expired"[1] == 'x';
    NotTerminal(reason, lacking);
  }

  /** Lower-case letters only, none of them from this set. */
  ghost predicate Avoids(reason: string, letters: set<char>) {
    forall i :: 0 <= i < |reason| ==> !('A' <= reason[i] <= 'Z') && reason[i] !in letters
  }

  lemma {:induction false} AvoidsOneSet(reason: string)
    requires Avoids(reason, {'f', 'h', 'x', 'p', 'c'})
    ensures !ReasonIsTerminal(reason)
  {
    hide Lower, ReasonIsTerminal;
    LowerAlready(reason);
    LacksOneSet(reason);
  }

  lemma {:induction false} AvoidsOtherSet(reason: string)
    requires Avoids(reason, {'f', 'm', 'x', 'y'})
    ensures !ReasonIsTerminal(reason)
  {
    hide Lower, ReasonIsTerminal;
    LowerAlready(reason);
    LacksOtherSet(reason);
  }

  /** The venue's transient wordings are retried. */
  lemma {:induction false} LimitsAreTransient()
    ensures !ReasonIsTerminal("") && !ReasonIsTerminal("rate limited") && !ReasonIsTerminal("too many requests")
  {
    hide ReasonIsTerminal;
    AvoidsOneSet("");
    AvoidsOneSet("rate limited");
    AvoidsOneSet("too many requests");
  }

  lemma {:induction false} OutagesAreTransient()
    ensures !ReasonIsTerminal("service unavailable") && !ReasonIsTerminal("request timeout")
    ensures !ReasonIsTerminal("connection reset") && !ReasonIsTerminal("internal error")
  {
    hide ReasonIsTerminal;
    AvoidsOtherSet("service unavailable");
    AvoidsOneSet("request timeout");
    AvoidsOtherSet("connection reset");
    AvoidsOtherSet("internal error");
  }

  lemma {:induction false} LowerAlready(s: string)
    requires forall i :: 0 <= i < |s| ==> !('A' <= s[i] <= 'Z')
    ensures Lower(s) == s
  {
  }

  // ---------- Partition ----------

  /** Confirmed gone: canceled, or declined for a terminal reason. */
  predicate Gone(resp: CancelResponse, id: OrderId) {
    id in resp.canceled || (id in resp.notCanceled && ReasonIsTerminal(resp.notCanceled[id]))
  }

  /** The items of a batch that are (or are not) gone, in batch order. */
  function Select(batch: seq<OrderId>, resp: CancelResponse, gone: bool): seq<OrderId> {
    if batch == [] then []
    else
      var last := batch[|batch| - 1];
      Select(batch[..|batch| - 1], resp, gone) + if Gone(resp, last) == gone then [last] else []
  }

  /** The part of a batch that stays tracked: all of it when the answer is a transport error. */
  function Retried(batch: seq<OrderId>, result: Result<CancelResponse>): seq<OrderId> {
    match result
    case Err(_) => batch
    case Ok(resp) => Select(batch, resp, false)
  }

  method PartitionCancels(batch: seq<OrderId>, result: Result<CancelResponse>)
    returns (done: seq<OrderId>, retry: seq<OrderId>)
    ensures result.Err? ==> done == [] && retry == batch
    ensures result.Ok? ==> done == Select(batch, result.value, true) && retry == Select(batch, result.value, false)
    ensures multiset(done) + multiset(retry) == multiset(batch) && retry == Retried(batch, result)
  {
    if result.Err? {
      return [], batch;
    }
    done, retry := [], [];
    for i := 0 to |batch|
      invariant done == Select(batch[..i], result.value, true)
      invariant retry == Select(batch[..i], result.value, false)
    {
      assert batch[..i + 1][..i] == batch[..i];
      if Gone(result.value, batch[i]) {
        done := done + [batch[i]];
      } else {
        retry := retry + [batch[i]];
      }
    }
    assert batch[..|batch|] == batch;
    SelectSplits(batch, result.value);
  }

  lemma {:induction false} SelectSplits(batch: seq<OrderId>, resp: CancelResponse)
    ensures multiset(Select(batch, resp, true)) + multiset(Select(batch, resp, false)) == multiset(batch)
  {
    hide Gone;
    if batch != [] {
      hide Select;
      var rest, last := batch[..|batch| - 1], batch[|batch| - 1];
      SelectSplits(rest, resp);
      assert batch == rest + [last];
      SelectAppend(rest, resp, last);
      MultisetAppend(rest, last);
      MultisetAppend(Select(rest, resp, Gone(resp, last)), last);
    }
  }

  lemma {:induction false} SelectAppend(rest: seq<OrderId>, resp: CancelResponse, last: OrderId)
    ensures Select(rest + [last], resp, Gone(resp, last)) == Select(rest, resp, Gone(resp, last)) + [last]
    ensures Select(rest + [last], resp, !Gone(resp, last)) == Select(rest, resp, !Gone(resp, last))
  {
    hide Gone;
    assert (rest + [last])[..|rest|] == rest;
  }

  lemma {:induction false} MultisetAppend(s: seq<OrderId>, x: OrderId)
    ensures multiset(s + [x]) == multiset(s) + multiset{x}
  {
  }

  lemma {:induction false} SelectMembers(batch: seq<OrderId>, resp: CancelResponse, gone: bool, id: OrderId)
    ensures id in Select(batch, resp, gone) <==> id in batch && Gone(resp, id) == gone
  {
    hide Gone;
    if batch != [] {
      var rest, last := batch[..|batch| - 1], batch[|batch| - 1];
      SelectMembers(rest, resp, gone, id);
      assert batch == rest + [last];
    }
  }

  /** Order is kept: each half is the batch with the other half's items struck out. */
  ghost predicate InOrder(part: seq<OrderId>, batch: seq<OrderId>) {
    if part == [] then true
    else if batch == [] then false
    else if part[|part| - 1] == batch[|batch| - 1] then InOrder(part[..|part| - 1], batch[..|batch| - 1])
    else InOrder(part, batch[..|batch| - 1])
  }

  lemma {:induction false} SelectInOrder(batch: seq<OrderId>, resp: CancelResponse, gone: bool)
    ensures InOrder(Select(batch, resp, gone), batch)
  {
    hide Gone;
    if batch != [] {
      var rest, last := batch[..|batch| - 1], batch[|batch| - 1];
      var part := Select(batch, resp, gone);
      SelectInOrder(rest, resp, gone);
      SelectMembers(batch, resp, gone, last);
      assert part != [] ==> part[|part| - 1] in part;
      if Gone(resp, last) == gone {
        assert part[..|part| - 1] == Select(rest, resp, gone);
      } else {
        assert part == Select(rest, resp, gone);
      }
    }
  }

  // ---------- Cancelling one by one, and in batches ----------

  /** What one singular cancel comes back with: the venue's answer, or a transport error. */
  type Single = Result<CancelResponse>

  function MergeOne(merged: CancelResponse, id: OrderId, result: Single): CancelResponse {
    match result
    case Ok(resp) =>
      CancelResponse(merged.canceled + resp.canceled, merged.notCanceled + resp.notCanceled)
    case Err(text) => merged.(notCanceled := merged.notCanceled[id := text])
  }

  function MergeAll(ids: seq<OrderId>, results: seq<Single>): CancelResponse
    requires |ids| == |results|
  {
    if ids == [] then NOTHING
    else
      var n := |ids| - 1;
      MergeOne(MergeAll(ids[..n], results[..n]), ids[n], results[n])
  }

  /** Request `i` speaks of this order: its answer names it, or it failed and was for it. */
  predicate SpeaksOf(ids: seq<OrderId>, results: seq<Single>, i: nat, id: OrderId)
    requires i < |ids| == |results|
  {
    match results[i]
    case Ok(resp) => id in resp.notCanceled
    case Err(_) => ids[i] == id
  }

  ghost predicate CanceledBySome(results: seq<Single>, id: OrderId) {
    exists i :: 0 <= i < |results| && results[i].Ok? && id in results[i].value.canceled
  }

  /** The last request to speak of this order. */
  ghost predicate SpeaksLast(ids: seq<OrderId>, results: seq<Single>, i: nat, id: OrderId)
    requires i < |ids| == |results|
  {
    SpeaksOf(ids, results, i, id) && forall j :: i < j < |ids| ==> !SpeaksOf(ids, results, j, id)
  }

  /** The reason request `i` gives for the order. */
  function ReasonBy(ids: seq<OrderId>, results: seq<Single>, i: nat, id: OrderId): string
    requires i < |ids| == |results| && SpeaksOf(ids, results, i, id)
  {
    match results[i]
    case Ok(resp) => resp.notCanceled[id]
    case Err(text) => text
  }

  /** The merge has every order some answer canceled, and a reason for every order some answer declined
      or whose own request failed. */
  lemma {:induction false} SinglySays(ids: seq<OrderId>, results: seq<Single>, id: OrderId)
    requires |ids| == |results|
    ensures id in MergeAll(ids, results).canceled <==> CanceledBySome(results, id)
    ensures id in MergeAll(ids, results).notCanceled
       <==> exists i :: 0 <= i < |ids| && SpeaksOf(ids, results, i, id)
  {
    if ids != [] {
      var n := |ids| - 1;
      var before := MergeAll(ids[..n], results[..n]);
      SinglySays(ids[..n], results[..n], id);
      SpeakersGrow(ids, results, id);
      hide SpeaksOf, MergeAll;
      NextSpeaks(ids, results, before, id);
      if id in before.notCanceled {
        var i :| 0 <= i < n && SpeaksOf(ids[..n], results[..n], i, id);
        assert SpeaksOf(ids, results, i, id);
      }
      if i :| 0 <= i < |ids| && SpeaksOf(ids, results, i, id) {
        assert i < n ==> SpeaksOf(ids[..n], results[..n], i, id);
      }
    }
  }

  lemma {:induction false} NextSpeaks(ids: seq<OrderId>, results: seq<Single>, before: CancelResponse, id: OrderId)
    requires |ids| == |results| > 0 && before == MergeAll(ids[..|ids| - 1], results[..|ids| - 1])
    ensures var n, merged := |ids| - 1, MergeAll(ids, results);
            && (id in merged.notCanceled <==> id in before.notCanceled || SpeaksOf(ids, results, n, id))
            && (id in merged.canceled
                <==> id in before.canceled || (results[n].Ok? && id in results[n].value.canceled))
  {
  }

  lemma {:induction false} SpeakersGrow(ids: seq<OrderId>, results: seq<Single>, id: OrderId)
    requires |ids| == |results| > 0
    ensures var n := |ids| - 1;
            forall i :: 0 <= i < n ==>
              && (SpeaksOf(ids[..n], results[..n], i, id) <==> SpeaksOf(ids, results, i, id))
              && results[..n][i] == results[i]
  {
  }

  /** Of several reasons the last request's stands. */
  lemma {:induction false} LastSingleWins(ids: seq<OrderId>, results: seq<Single>, id: OrderId, i: nat)
    requires i < |ids| == |results| && SpeaksLast(ids, results, i, id)
    ensures id in MergeAll(ids, results).notCanceled
    ensures MergeAll(ids, results).notCanceled[id] == ReasonBy(ids, results, i, id)
  {
    var n := |ids| - 1;
    if i < n {
      SpeakersGrow(ids, results, id);
      LastSingleWins(ids[..n], results[..n], id, i);
      assert !SpeaksOf(ids, results, n, id);
    }
  }

  ghost predicate AllFailed(results: seq<Single>) {
    forall i :: 0 <= i < |results| ==> results[i].Err?
  }

  /** What the singular path answers. */
  ghost function SinglyAnswer(ids: seq<OrderId>, results: seq<Single>): Result<CancelResponse>
    requires |ids| == |results|
  {
    if ids != [] && AllFailed(results) then Err(results[0].error) else Ok(MergeAll(ids, results))
  }

  /** Results of the concurrent singular cancels, merged; only when every one failed is it an error. */
  method CancelSingly(ids: seq<OrderId>, results: seq<Single>) returns (r: Result<CancelResponse>)
    requires |ids| == |results|
    ensures r == SinglyAnswer(ids, results)
    ensures r.Ok? ==>
              forall id :: id in r.value.canceled <==> CanceledBySome(results, id)
    ensures r.Ok? ==>
              forall id :: id in r.value.notCanceled <==> exists i :: 0 <= i < |ids| && SpeaksOf(ids, results, i, id)
    ensures r.Ok? ==>
              forall id, i :: 0 <= i < |ids| && SpeaksLast(ids, results, i, id) ==>
                id in r.value.notCanceled && r.value.notCanceled[id] == ReasonBy(ids, results, i, id)
    ensures r.Err? <==> ids != [] && forall i :: 0 <= i < |results| ==> results[i].Err?
    ensures r.Err? ==> r.error == results[0].error
    ensures r.Ok? ==> r.value == MergeAll(ids, results)
  {
    forall id, i | 0 <= i < |ids| && SpeaksLast(ids, results, i, id)
      ensures id in MergeAll(ids, results).notCanceled
      ensures MergeAll(ids, results).notCanceled[id] == ReasonBy(ids, results, i, id)
    {
      LastSingleWins(ids, results, id, i);
    }
    forall id
      ensures id in MergeAll(ids, results).canceled <==> CanceledBySome(results, id)
      ensures id in MergeAll(ids, results).notCanceled
         <==> exists i :: 0 <= i < |ids| && SpeaksOf(ids, results, i, id)
    {
      SinglySays(ids, results, id);
    }
    if ids == [] {
      return Ok(NOTHING);
    }
    var merged := NOTHING;
    var firstErr: Option<string> := None;
    var okCount: nat := 0;
    for i := 0 to |ids|
      invariant merged == MergeAll(ids[..i], results[..i])
      invariant okCount == 0 <==> forall j :: 0 <= j < i ==> results[j].Err?
      invariant i == 0 ==> firstErr.None?
      invariant okCount == 0 && i > 0 ==> firstErr == Some(results[0].error)
    {
      assert ids[..i + 1][..i] == ids[..i] && results[..i + 1][..i] == results[..i];
      match results[i]
      case Ok(resp) =>
        okCount := okCount + 1;
        merged := CancelResponse(merged.canceled + resp.canceled, merged.notCanceled + resp.notCanceled);
      case Err(text) =>
        merged := merged.(notCanceled := merged.notCanceled[ids[i] := text]);
        if firstErr.None? {
          firstErr := Some(text);
        }
    }
    assert ids[..|ids|] == ids && results[..|results|] == results;
    if okCount == 0 {
      return Err(if firstErr.Some? then firstErr.value else "all singular cancels failed");
    }
    r := Ok(merged);
  }

  /** `ids.chunks(CANCEL_BATCH_SIZE)`. */
  function Chunks(ids: seq<OrderId>): seq<seq<OrderId>>
    decreases |ids|
  {
    if ids == [] then []
    else if |ids| <= CANCEL_BATCH_SIZE then [ids]
    else [ids[..CANCEL_BATCH_SIZE]] + Chunks(ids[CANCEL_BATCH_SIZE..])
  }

  function Flatten(chunks: seq<seq<OrderId>>): seq<OrderId> {
    if chunks == [] then [] else chunks[0] + Flatten(chunks[1..])
  }

  /** The chunks are nonempty, within the venue's limit, all but the last full, and are the ids in
      order. */
  lemma {:induction false} ChunksCover(ids: seq<OrderId>)
    ensures Flatten(Chunks(ids)) == ids
    ensures forall k :: 0 <= k < |Chunks(ids)| ==> 0 < |Chunks(ids)[k]| <= 1000
    ensures forall k :: 0 <= k < |Chunks(ids)| - 1 ==> |Chunks(ids)[k]| == 1000
    decreases |ids|
  {
    if ids != [] {
      if |ids| <= CANCEL_BATCH_SIZE {
        assert Chunks(ids) == [ids] && [ids][1..] == [] && ids + [] == ids;
      } else {
        var head, rest := ids[..CANCEL_BATCH_SIZE], ids[CANCEL_BATCH_SIZE..];
        ChunksCover(rest);
        assert ([head] + Chunks(rest))[1..] == Chunks(rest) && head + rest == ids;
      }
    }
  }

  /** Answers merged in order: cancellations appended, a later reason replacing an earlier one. */
  function MergeAnswers(answers: seq<CancelResponse>): CancelResponse {
    if answers == [] then NOTHING
    else
      var n := |answers| - 1;
      var before := MergeAnswers(answers[..n]);
      CancelResponse(before.canceled + answers[n].canceled, before.notCanceled + answers[n].notCanceled)
  }

  /** The `k`-th request goes through: the chunk it sends is answered. */
  predicate Answered(ids: seq<OrderId>, venue: (nat, seq<OrderId>) -> Single, k: nat) {
    k < |Chunks(ids)| && venue(k, Chunks(ids)[k]).Ok?
  }

  /** The answers to the first `n` chunks. */
  function AnswersTo(ids: seq<OrderId>, venue: (nat, seq<OrderId>) -> Single, n: nat): seq<CancelResponse>
    requires forall k :: 0 <= k < n ==> Answered(ids, venue, k)
  {
    seq(n, k requires 0 <= k < n => assert Answered(ids, venue, k); venue(k, Chunks(ids)[k]).value)
  }

  /** The first `n` chunks are answered, and `merged` is their answers merged. */
  ghost predicate MergedTo(ids: seq<OrderId>, venue: (nat, seq<OrderId>) -> Single, n: nat, merged: CancelResponse) {
    && (forall k :: 0 <= k < n ==> Answered(ids, venue, k))
    && merged == MergeAnswers(AnswersTo(ids, venue, n))
  }

  lemma {:induction false} MergedNone(ids: seq<OrderId>, venue: (nat, seq<OrderId>) -> Single)
    ensures MergedTo(ids, venue, 0, NOTHING)
  {
  }

  lemma {:induction false} MergedNext(
    ids: seq<OrderId>, venue: (nat, seq<OrderId>) -> Single, n: nat, merged: CancelResponse)
    requires MergedTo(ids, venue, n, merged) && Answered(ids, venue, n)
    ensures var resp := venue(n, Chunks(ids)[n]).value;
            MergedTo(ids, venue, n + 1,
                     CancelResponse(merged.canceled + resp.canceled, merged.notCanceled + resp.notCanceled))
  {
    hide Chunks;
    assert AnswersTo(ids, venue, n + 1)[..n] == AnswersTo(ids, venue, n);
  }

  lemma {:induction false} MergedMeans(
    ids: seq<OrderId>, venue: (nat, seq<OrderId>) -> Single, n: nat, merged: CancelResponse)
    requires MergedTo(ids, venue, n, merged)
    ensures forall k :: 0 <= k < n ==> Answered(ids, venue, k)
    ensures merged == MergeAnswers(AnswersTo(ids, venue, n))
  {
  }

  /** Chunk by chunk, each answered for its own ids; the first failing chunk fails the whole call,
      whatever was canceled before it, and the ones after it are not sent. */
  method CancelInBatches(ids: seq<OrderId>, venue: (nat, seq<OrderId>) -> Single)
    returns (r: Result<CancelResponse>, sent: nat)
    ensures sent <= |Chunks(ids)| && forall k :: 0 <= k < sent ==> Answered(ids, venue, k)
    ensures r.Ok? <==> sent == |Chunks(ids)|
    ensures r.Ok? ==> r.value == MergeAnswers(AnswersTo(ids, venue, sent))
    ensures r.Err? ==> venue(sent, Chunks(ids)[sent]) == Err(r.error)
  {
    hide Chunks, AtChunk, MergeAnswers, MergedTo;
    AtFirstChunk(ids);
    MergedNone(ids, venue);
    var merged := NOTHING;
    sent := 0;
    var pos: nat := 0;
    while pos < |ids|
      invariant pos <= |ids| && AtChunk(ids, pos, sent) && MergedTo(ids, venue, sent, merged)
    {
      var end := Min(pos + CANCEL_BATCH_SIZE, |ids|);
      ChunkNext(ids, pos, end, sent);
      var answer := venue(sent, ids[pos..end]);
      if answer.Err? {
        MergedMeans(ids, venue, sent, merged);
        return Err(answer.error), sent;
      }
      MergedNext(ids, venue, sent, merged);
      merged := CancelResponse(merged.canceled + answer.value.canceled, merged.notCanceled + answer.value.notCanceled);
      pos, sent := end, sent + 1;
    }
    AtLastChunk(ids, sent);
    MergedMeans(ids, venue, sent, merged);
    r := Ok(merged);
  }

  /** The first `k` chunks end at `pos`. */
  ghost predicate AtChunk(ids: seq<OrderId>, pos: nat, k: nat) {
    pos <= |ids| && k <= |Chunks(ids)| && Chunks(ids)[..k] + Chunks(ids[pos..]) == Chunks(ids)
  }

  lemma {:induction false} AtFirstChunk(ids: seq<OrderId>)
    ensures AtChunk(ids, 0, 0)
  {
    assert ids[0..] == ids;
  }

  lemma {:induction false} AtLastChunk(ids: seq<OrderId>, k: nat)
    requires AtChunk(ids, |ids|, k)
    ensures k == |Chunks(ids)|
  {
    assert ids[|ids|..] == [];
  }

  /** The chunk starting at `pos` is the `k`-th. */
  lemma {:induction false} ChunkNext(ids: seq<OrderId>, pos: nat, end: nat, k: nat)
    requires pos < |ids| && end == Min(pos + CANCEL_BATCH_SIZE, |ids|) && AtChunk(ids, pos, k)
    ensures k < |Chunks(ids)| && Chunks(ids)[k] == ids[pos..end] && AtChunk(ids, end, k + 1)
  {
    var all, rest := Chunks(ids), ids[pos..];
    if |rest| <= CANCEL_BATCH_SIZE {
      assert end == |ids| && ids[pos..end] == rest && ids[end..] == [];
    } else {
      assert rest[..CANCEL_BATCH_SIZE] == ids[pos..end] && rest[CANCEL_BATCH_SIZE..] == ids[end..];
    }
    assert Chunks(rest) == [ids[pos..end]] + Chunks(ids[end..]);
    assert all[k] == Chunks(rest)[0];
    assert all[..k + 1] == all[..k] + [all[k]];
  }

  /** The merge names exactly the orders some chunk's answer names: nothing a chunk reported is lost,
      and nothing is made up. Of several reasons the last one stands: `LastReasonWins`. */
  lemma {:induction false} MergedSays(answers: seq<CancelResponse>, id: OrderId)
    ensures id in MergeAnswers(answers).canceled <==> exists k :: 0 <= k < |answers| && id in answers[k].canceled
    ensures id in MergeAnswers(answers).notCanceled <==> exists k :: 0 <= k < |answers| && id in answers[k].notCanceled
  {
    if answers != [] {
      var n := |answers| - 1;
      var before, last := MergeAnswers(answers[..n]), answers[n];
      MergedSays(answers[..n], id);
      assert id in before.canceled + last.canceled <==> id in before.canceled || id in last.canceled;
      assert forall k :: 0 <= k < n ==> answers[..n][k] == answers[k];
    }
  }

  lemma {:induction false} LastReasonWins(answers: seq<CancelResponse>, id: OrderId, k: nat)
    requires k < |answers| && id in answers[k].notCanceled
    requires forall j :: k < j < |answers| ==> id !in answers[j].notCanceled
    ensures id in MergeAnswers(answers).notCanceled
    ensures MergeAnswers(answers).notCanceled[id] == answers[k].notCanceled[id]
  {
    var n := |answers| - 1;
    if k < n {
      assert answers[..n][k] == answers[k];
      LastReasonWins(answers[..n], id, k);
    }
  }

  // ---------- Live orders are never dropped ----------

  /** A venue's answer is truthful about the orders live once it has answered. */
  ghost predicate Truthful(resp: CancelResponse, live: set<OrderId>) {
    && (forall id :: id in resp.canceled ==> id !in live)
    && (forall id :: id in resp.notCanceled && ReasonIsTerminal(resp.notCanceled[id]) ==> id !in live)
  }

  lemma {:induction false} TruthfulIff(resp: CancelResponse, live: set<OrderId>)
    ensures Truthful(resp, live) <==> forall id :: Gone(resp, id) ==> id !in live
  {
    hide ReasonIsTerminal;
    if forall id :: Gone(resp, id) ==> id !in live {
      assert forall id :: id in resp.canceled ==> Gone(resp, id);
    }
  }

  lemma {:induction false} SingularPathTruthful(ids: seq<OrderId>, results: seq<Single>, live: set<OrderId>)
    requires |ids| == |results|
    requires forall i :: 0 <= i < |ids| && results[i].Ok? ==> Truthful(results[i].value, live)
    requires forall i :: 0 <= i < |ids| && results[i].Err? && ids[i] in live ==> !ReasonIsTerminal(results[i].error)
    ensures Truthful(MergeAll(ids, results), live)
  {
    hide ReasonIsTerminal;
    if ids != [] {
      var n := |ids| - 1;
      SingularPathTruthful(ids[..n], results[..n], live);
    }
  }

  lemma {:induction false} ReasonSurvives(ids: seq<OrderId>, results: seq<Single>, i: nat)
    requires |ids| == |results| && i < |ids| && Distinct(ids) && results[i].Err?
    requires forall j :: 0 <= j < |ids| && results[j].Ok? ==> ids[i] !in results[j].value.notCanceled
    ensures ids[i] in MergeAll(ids, results).notCanceled
    ensures MergeAll(ids, results).notCanceled[ids[i]] == results[i].error
  {
    var n := |ids| - 1;
    if i < n {
      ReasonSurvives(ids[..n], results[..n], i);
    }
  }

  /** Each singular answer speaks of its own order only. */
  ghost predicate AnswersOwn(ids: seq<OrderId>, results: seq<Single>)
    requires |ids| == |results|
  {
    forall i :: 0 <= i < |ids| && results[i].Ok? ==>
      && (forall id :: id in results[i].value.canceled ==> id == ids[i])
      && (forall id :: id in results[i].value.notCanceled ==> id == ids[i])
  }

  /** The one danger of the singular path, exactly: a transport error is folded in as a reason, so the
      merged answer is truthful if and only if no failed live order's error text reads as terminal. */
  lemma {:induction false} SingularPathTruthfulIff(ids: seq<OrderId>, results: seq<Single>, live: set<OrderId>)
    requires |ids| == |results| && Distinct(ids) && AnswersOwn(ids, results)
    requires forall i :: 0 <= i < |ids| && results[i].Ok? ==> Truthful(results[i].value, live)
    ensures Truthful(MergeAll(ids, results), live)
       <==> forall i :: 0 <= i < |ids| && results[i].Err? && ids[i] in live ==> !ReasonIsTerminal(results[i].error)
  {
    hide ReasonIsTerminal, MergeAll;
    if forall i :: 0 <= i < |ids| && results[i].Err? && ids[i] in live ==> !ReasonIsTerminal(results[i].error) {
      SingularPathTruthful(ids, results, live);
    } else {
      var i :| 0 <= i < |ids| && results[i].Err? && ids[i] in live && ReasonIsTerminal(results[i].error);
      ReasonSurvives(ids, results, i);
    }
  }

  /** What happens around the tracker. `Round` flushes a batch and requeues the rest of it. */
  datatype Happening =
    | Placed(id: OrderId)
    | Left(id: OrderId)
    | Round(batch: seq<OrderId>, result: Result<CancelResponse>, liveAfter: set<OrderId>)

  datatype Tracker = Tracker(live: set<OrderId>, tracked: seq<OrderId>)

  function Strike(tracked: seq<OrderId>, ids: seq<OrderId>): seq<OrderId> {
    if tracked == [] then []
    else
      var last := tracked[|tracked| - 1];
      Strike(tracked[..|tracked| - 1], ids) + if last in ids then [] else [last]
  }

  function Next(t: Tracker, h: Happening): Tracker {
    match h
    case Placed(id) => Tracker(t.live + {id}, t.tracked + [id])
    case Left(id) => t.(live := t.live - {id})
    case Round(batch, result, liveAfter) =>
      Tracker(liveAfter, Strike(t.tracked, batch) + Retried(batch, result))
  }

  /** Orders only leave by filling, expiring or being canceled, and the venue tells the truth. */
  ghost predicate Fair(t: Tracker, h: Happening) {
    match h
    case Round(batch, result, liveAfter) =>
      liveAfter <= t.live && (result.Ok? ==> Truthful(result.value, liveAfter))
    case _ => true
  }

  function RunAll(t: Tracker, run: seq<Happening>): Tracker {
    if run == [] then t else Next(RunAll(t, run[..|run| - 1]), run[|run| - 1])
  }

  ghost predicate FairRun(t: Tracker, run: seq<Happening>) {
    forall k :: 0 <= k < |run| ==> Fair(RunAll(t, run[..k]), run[k])
  }

  ghost predicate AllTracked(t: Tracker) {
    forall id :: id in t.live ==> id in t.tracked
  }

  lemma {:induction false} StrikeMembers(tracked: seq<OrderId>, ids: seq<OrderId>, id: OrderId)
    ensures id in Strike(tracked, ids) <==> id in tracked && id !in ids
  {
    if tracked != [] {
      StrikeMembers(tracked[..|tracked| - 1], ids, id);
      assert tracked == tracked[..|tracked| - 1] + [tracked[|tracked| - 1]];
    }
  }

  lemma {:induction false} StepTracks(t: Tracker, h: Happening)
    requires AllTracked(t) && Fair(t, h)
    ensures AllTracked(Next(t, h))
  {
    hide ReasonIsTerminal, Truthful;
    if h.Round? {
      forall id | id in h.liveAfter ensures id in Next(t, h).tracked {
        StrikeMembers(t.tracked, h.batch, id);
        if h.result.Ok? {
          TruthfulIff(h.result.value, h.liveAfter);
          SelectMembers(h.batch, h.result.value, false, id);
        }
      }
    }
  }

  /** Over any fair run of placements, fills and cancel rounds, every live order stays tracked. */
  lemma {:induction false} LiveOrdersStayTracked(t: Tracker, run: seq<Happening>)
    requires AllTracked(t) && FairRun(t, run)
    ensures AllTracked(RunAll(t, run))
  {
    if run != [] {
      var rest := run[..|run| - 1];
      assert forall k :: 0 <= k < |rest| ==> rest[..k] == run[..k];
      LiveOrdersStayTracked(t, rest);
      StepTracks(RunAll(t, rest), run[|run| - 1]);
    }
  }

  // ---------- Which answers the venue's truthfulness carries over to ----------

  /** A batch answer merged from truthful chunk answers is truthful. */
  lemma {:induction false} BatchPathTruthful(answers: seq<CancelResponse>, live: set<OrderId>)
    requires forall k :: 0 <= k < |answers| ==> Truthful(answers[k], live)
    ensures Truthful(MergeAnswers(answers), live)
  {
    hide ReasonIsTerminal;
    if answers != [] {
      BatchPathTruthful(answers[..|answers| - 1], live);
    }
  }

  lemma {:induction false} ChunkWithin(ids: seq<OrderId>, k: nat)
    requires k < |Chunks(ids)|
    ensures forall id :: id in Chunks(ids)[k] ==> id in ids
    decreases |ids|
  {
    if |ids| > CANCEL_BATCH_SIZE && k > 0 {
      var rest := ids[CANCEL_BATCH_SIZE..];
      ChunkWithin(rest, k - 1);
      assert Chunks(ids)[k] == Chunks(rest)[k - 1];
    }
  }

  /** Of distinct ids, none is in two chunks. */
  lemma {:induction false} ChunksApart(ids: seq<OrderId>, j: nat, k: nat, id: OrderId)
    requires Distinct(ids) && j < k < |Chunks(ids)|
    ensures id !in Chunks(ids)[j] || id !in Chunks(ids)[k]
    decreases |ids|
  {
    var head, rest := ids[..CANCEL_BATCH_SIZE], ids[CANCEL_BATCH_SIZE..];
    assert Chunks(ids)[k] == Chunks(rest)[k - 1];
    if j == 0 {
      ChunkWithin(rest, k - 1);
      HeadApart(ids, id);
    } else {
      assert Chunks(ids)[j] == Chunks(rest)[j - 1];
      ChunksApart(rest, j - 1, k - 1, id);
    }
  }

  lemma {:induction false} HeadApart(ids: seq<OrderId>, id: OrderId)
    requires Distinct(ids) && |ids| > CANCEL_BATCH_SIZE
    ensures id !in ids[..CANCEL_BATCH_SIZE] || id !in ids[CANCEL_BATCH_SIZE..]
  {
    if i :| 0 <= i < CANCEL_BATCH_SIZE && ids[i] == id {
      if k :| CANCEL_BATCH_SIZE <= k < |ids| && ids[k] == id {
        assert false;
      }
    }
  }

  predicate Names(resp: CancelResponse, id: OrderId) {
    id in resp.canceled || id in resp.notCanceled
  }

  /** Of an order named in one answer only, the merge says what that answer says. */
  lemma {:induction false} GoneInOne(answers: seq<CancelResponse>, id: OrderId, k: nat)
    requires k < |answers| && forall j :: 0 <= j < |answers| && j != k ==> !Names(answers[j], id)
    ensures Gone(MergeAnswers(answers), id) <==> Gone(answers[k], id)
  {
    hide ReasonIsTerminal, MergeAnswers;
    MergedSays(answers, id);
    if id in answers[k].notCanceled {
      LastReasonWins(answers, id, k);
    }
  }

  /** Each chunk's answer speaks of that chunk's orders only. */
  ghost predicate OwnChunks(ids: seq<OrderId>, venue: (nat, seq<OrderId>) -> Single) {
    forall k, id :: 0 <= k && Answered(ids, venue, k) && Names(venue(k, Chunks(ids)[k]).value, id) ==>
      id in Chunks(ids)[k]
  }

  ghost predicate AllAnswered(ids: seq<OrderId>, venue: (nat, seq<OrderId>) -> Single) {
    forall k :: 0 <= k < |Chunks(ids)| ==> Answered(ids, venue, k)
  }

  /** No chunk's answer calls a live order gone. */
  ghost predicate ChunksTruthful(ids: seq<OrderId>, venue: (nat, seq<OrderId>) -> Single, live: set<OrderId>) {
    forall k :: 0 <= k < |Chunks(ids)| && Answered(ids, venue, k) ==>
      Truthful(venue(k, Chunks(ids)[k]).value, live)
  }

  lemma {:induction false} ChunkGoneIsDone(
    ids: seq<OrderId>, venue: (nat, seq<OrderId>) -> Single, k: nat, id: OrderId)
    requires Distinct(ids) && OwnChunks(ids, venue) && AllAnswered(ids, venue) && k < |Chunks(ids)|
    requires Answered(ids, venue, k) && Gone(venue(k, Chunks(ids)[k]).value, id)
    ensures id in ids && Gone(MergeAnswers(AnswersTo(ids, venue, |Chunks(ids)|)), id)
  {
    hide ReasonIsTerminal, MergeAnswers, Chunks;
    var answers := AnswersTo(ids, venue, |Chunks(ids)|);
    assert Answered(ids, venue, k) && Names(answers[k], id);
    ChunkWithin(ids, k);
    forall j | 0 <= j < |answers| && j != k ensures !Names(answers[j], id) {
      assert Answered(ids, venue, j);
      if j < k {
        ChunksApart(ids, j, k, id);
      } else {
        ChunksApart(ids, k, j, id);
      }
    }
    GoneInOne(answers, id, k);
  }

  /** The two calls of a batched round, one after the other. A failing chunk retries everything, the
      orders earlier chunks canceled included; otherwise a live order is dropped exactly when some
      chunk's answer calls one gone. */
  method BatchRound(ids: seq<OrderId>, venue: (nat, seq<OrderId>) -> Single, ghost live: set<OrderId>)
    returns (done: seq<OrderId>, retry: seq<OrderId>)
    requires Distinct(ids) && OwnChunks(ids, venue)
    ensures multiset(done) + multiset(retry) == multiset(ids)
    ensures !AllAnswered(ids, venue) ==> done == [] && retry == ids
    ensures (forall id :: id in done ==> id !in live) <==> !AllAnswered(ids, venue) || ChunksTruthful(ids, venue, live)
  {
    hide ReasonIsTerminal, MergeAnswers, Chunks, Select, Truthful, AnswersTo;
    var answer, sent := CancelInBatches(ids, venue);
    done, retry := PartitionCancels(ids, answer);
    if answer.Ok? {
      forall id ensures id in done <==> id in ids && Gone(answer.value, id) {
        SelectMembers(ids, answer.value, true, id);
      }
      if ChunksTruthful(ids, venue, live) {
        AllTruthful(ids, venue, live);
        TruthfulIff(answer.value, live);
      } else {
        var k :| 0 <= k < |Chunks(ids)| && Answered(ids, venue, k)
                 && !Truthful(venue(k, Chunks(ids)[k]).value, live);
        TruthfulIff(venue(k, Chunks(ids)[k]).value, live);
        var id :| Gone(venue(k, Chunks(ids)[k]).value, id) && id in live;
        ChunkGoneIsDone(ids, venue, k, id);
        assert id in done;
      }
    } else {
      assert !Answered(ids, venue, sent);
    }
  }

  lemma {:induction false} AllTruthful(ids: seq<OrderId>, venue: (nat, seq<OrderId>) -> Single, live: set<OrderId>)
    requires AllAnswered(ids, venue) && ChunksTruthful(ids, venue, live)
    ensures Truthful(MergeAnswers(AnswersTo(ids, venue, |Chunks(ids)|)), live)
  {
    hide Truthful, Chunks, MergeAnswers;
    BatchPathTruthful(AnswersTo(ids, venue, |Chunks(ids)|), live);
  }

  /** No failed live order's error text reads as terminal. */
  ghost predicate NoMisreading(ids: seq<OrderId>, results: seq<Single>, live: set<OrderId>)
    requires |ids| == |results|
  {
    forall i :: 0 <= i < |ids| && results[i].Err? && ids[i] in live ==> !ReasonIsTerminal(results[i].error)
  }

  /** A singular round keeps every live order tracked exactly when every request failed, which retries
      the whole batch, or no failed live order's error text reads as terminal. */
  lemma {:induction false} SingularRoundTracksIff(
    t: Tracker, ids: seq<OrderId>, results: seq<Single>, live: set<OrderId>)
    requires |ids| == |results| && Distinct(ids) && AnswersOwn(ids, results)
    requires forall i :: 0 <= i < |ids| && results[i].Ok? ==> Truthful(results[i].value, live)
    requires AllTracked(t) && live <= t.live
    ensures AllTracked(Next(t, Round(ids, SinglyAnswer(ids, results), live)))
       <==> AllFailed(results) || NoMisreading(ids, results, live)
  {
    hide ReasonIsTerminal, MergeAll, Select, Strike, Truthful;
    var answer := SinglyAnswer(ids, results);
    var h := Round(ids, answer, live);
    SingularPathTruthfulIff(ids, results, live);
    if AllFailed(results) && ids != [] {
      StepTracks(t, h);
    } else if NoMisreading(ids, results, live) {
      StepTracks(t, h);
    } else {
      var i :| 0 <= i < |ids| && results[i].Err? && ids[i] in live && ReasonIsTerminal(results[i].error);
      ReasonSurvives(ids, results, i);
      SelectMembers(ids, answer.value, false, ids[i]);
      StrikeMembers(t.tracked, ids, ids[i]);
      assert ids[i] !in Next(t, h).tracked;
    }
  }

  /** Request `i` has its own order gone: its answer says so, or its error text reads so. */
  ghost predicate GoneBy(ids: seq<OrderId>, results: seq<Single>, i: nat)
    requires i < |ids| == |results|
  {
    match results[i]
    case Ok(resp) =>
      ids[i] in resp.canceled || (ids[i] in resp.notCanceled && ReasonIsTerminal(resp.notCanceled[ids[i]]))
    case Err(text) => ReasonIsTerminal(text)
  }

  lemma {:induction false} GoneByOwn(ids: seq<OrderId>, results: seq<Single>, i: nat)
    requires i < |ids| == |results| && Distinct(ids) && AnswersOwn(ids, results)
    ensures Gone(MergeAll(ids, results), ids[i]) <==> GoneBy(ids, results, i)
  {
    hide ReasonIsTerminal, MergeAll;
    var id := ids[i];
    SinglySays(ids, results, id);
    OthersSilent(ids, results, i);
    if SpeaksOf(ids, results, i, id) {
      LastSingleWins(ids, results, id, i);
    }
  }

  /** Of distinct orders, each is spoken of by its own request only. */
  lemma {:induction false} OthersSilent(ids: seq<OrderId>, results: seq<Single>, i: nat)
    requires i < |ids| == |results| && Distinct(ids) && AnswersOwn(ids, results)
    ensures forall j :: 0 <= j < |ids| && j != i ==> !SpeaksOf(ids, results, j, ids[i])
    ensures forall j :: 0 <= j < |ids| && j != i && results[j].Ok? ==> ids[i] !in results[j].value.canceled
  {
    forall j | 0 <= j < |ids| && j != i ensures ids[j] != ids[i] {
      assert if j < i then ids[j] != ids[i] else ids[i] != ids[j];
    }
  }

  /** The two calls of a singular round, one after the other. Exactly what is dropped: nothing when every
      request failed, else the orders whose own request has them gone. */
  method SingularRound(ids: seq<OrderId>, results: seq<Single>, ghost live: set<OrderId>)
    returns (done: seq<OrderId>, retry: seq<OrderId>)
    requires |ids| == |results| && Distinct(ids) && AnswersOwn(ids, results)
    requires forall i :: 0 <= i < |ids| && results[i].Ok? ==> Truthful(results[i].value, live)
    ensures multiset(done) + multiset(retry) == multiset(ids)
    ensures forall i :: 0 <= i < |ids| ==> (ids[i] in done <==> !AllFailed(results) && GoneBy(ids, results, i))
    ensures (forall id :: id in done ==> id !in live)
       <==> AllFailed(results) || NoMisreading(ids, results, live)
  {
    hide ReasonIsTerminal, MergeAll, Select, Truthful;
    var answer := CancelSingly(ids, results);
    done, retry := PartitionCancels(ids, answer);
    forall i | 0 <= i < |ids|
      ensures ids[i] in done <==> !AllFailed(results) && GoneBy(ids, results, i)
    {
      if answer.Ok? {
        SelectMembers(ids, answer.value, true, ids[i]);
        GoneByOwn(ids, results, i);
      }
    }
    SingularPathTruthfulIff(ids, results, live);
    if answer.Ok? {
      TruthfulIff(answer.value, live);
      forall id ensures id in done <==> id in ids && Gone(answer.value, id) {
        SelectMembers(ids, answer.value, true, id);
      }
      if i :| 0 <= i < |ids| && results[i].Err? && ids[i] in live && ReasonIsTerminal(results[i].error) {
        ReasonSurvives(ids, results, i);
        assert ids[i] in done;
      }
    }
  }

  /** The error text of a request the venue answers with status 404, whatever its body. */
  const NOT_FOUND := "CLOB cancel API 404 Not Found: "

  lemma {:induction false} NotFoundReadsAsTerminal(body: string)
    ensures ReasonIsTerminal(NOT_FOUND + body)
  {
    var text := Lower(NOT_FOUND + body);
    assert text[20..29] == "not found" && FoundAt(text, TERMINAL[1], 20);
    assert Contains(text, TERMINAL[1]);
  }

  lemma {:induction false} OneOkOneError(a: OrderId, b: OrderId, text: string)
    ensures MergeAll([a, b], [Ok(CancelResponse([a], map[])), Err(text)]) == CancelResponse([a], map[b := text])
  {
    var ids, results := [a, b], [Ok(CancelResponse([a], map[])), Err(text)];
    var none: map<OrderId, string> := map[];
    assert ids[..1][..0] == [] && results[..1][..0] == [];
    assert MergeAll(ids[..1], results[..1]) == CancelResponse([] + [a], none + none);
  }

  lemma {:induction false} BothGone(a: OrderId, b: OrderId, resp: CancelResponse)
    requires Gone(resp, a) && Gone(resp, b)
    ensures Select([a, b], resp, true) == [a, b] && Select([a, b], resp, false) == []
  {
    hide Gone;
    assert [a, b][..1] == [a] && [a][..0] == [];
    assert Select([a], resp, true) == [] + [a] && Select([a], resp, false) == [] + [];
  }

  /** So one request that goes through and one answered 404 drop a live order. */
  method NotFoundDropsALiveOrder(a: OrderId, b: OrderId, body: string)
    returns (done: seq<OrderId>, retry: seq<OrderId>)
    ensures done == [a, b] && retry == []
  {
    hide ReasonIsTerminal, MergeAll, Select;
    var results: seq<Single> := [Ok(CancelResponse([a], map[])), Err(NOT_FOUND + body)];
    var answer := CancelSingly([a, b], results);
    assert results[0].Ok?;
    OneOkOneError(a, b, NOT_FOUND + body);
    NotFoundReadsAsTerminal(body);
    BothGone(a, b, answer.value);
    done, retry := PartitionCancels([a, b], answer);
  }
}
