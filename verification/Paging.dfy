/** Paging a wallet's positions against an API that recycles its last reachable page: the offset is
    capped, and a request past the cap is served the page at the cap. */
module Paging {
  import opened Prelude

  const PAGE_LIMIT: nat := 500
  const MAX_OFFSET: nat := 10_000

  datatype Row = Row(asset: string, size: nat)

  /** Rows that can be reached at all. */
  const REACH: nat := MAX_OFFSET + PAGE_LIMIT

  /** What the API serves at an offset. */
  function Page(rows: seq<Row>, offset: nat): seq<Row> {
    var start := Min(Min(offset, MAX_OFFSET), |rows|);
    rows[start..Min(start + PAGE_LIMIT, |rows|)]
  }

  /** Every reachable row is returned once and in order, within 21 requests. */
  method AllPositions(rows: seq<Row>) returns (out: seq<Row>, requests: nat)
    ensures out == rows[..Min(|rows|, REACH)]
    ensures requests == Min(|rows|, MAX_OFFSET) / PAGE_LIMIT + 1 <= 21
  {
    out, requests := [], 0;
    var offset: nat := 0;
    while true
      invariant offset == requests * PAGE_LIMIT <= MAX_OFFSET && offset <= |rows|
      invariant out == rows[..offset]
      decreases MAX_OFFSET - offset
    {
      var page := Page(rows, offset);
      requests := requests + 1;
      var full := |page| >= PAGE_LIMIT;
      out := out + page;
      if !full || offset >= MAX_OFFSET {
        break;
      }
      offset := offset + PAGE_LIMIT;
    }
  }

  /** First row of each asset, in order. */
  function FirstPerAsset(rows: seq<Row>): seq<Row> {
    if rows == [] then []
    else
      var rest, last := rows[..|rows| - 1], rows[|rows| - 1];
      FirstPerAsset(rest) + if exists i :: 0 <= i < |rest| && rest[i].asset == last.asset then [] else [last]
  }

  function Assets(rows: seq<Row>): set<string> {
    set i | 0 <= i < |rows| :: rows[i].asset
  }

  lemma {:induction false} AssetsAppend(rows: seq<Row>, r: Row)
    ensures Assets(rows + [r]) == Assets(rows) + {r.asset}
  {
    var more := rows + [r];
    assert forall i :: 0 <= i < |rows| ==> more[i] == rows[i];
    assert more[|rows|] == r;
  }

  lemma {:induction false} FirstAppend(rows: seq<Row>, r: Row)
    ensures FirstPerAsset(rows + [r]) == FirstPerAsset(rows) + if r.asset in Assets(rows) then [] else [r]
  {
    assert (rows + [r])[..|rows|] == rows;
  }

  lemma {:induction false} FirstKeepsAssets(rows: seq<Row>)
    ensures Assets(FirstPerAsset(rows)) == Assets(rows)
    ensures forall i, j :: 0 <= i < j < |FirstPerAsset(rows)| ==>
              FirstPerAsset(rows)[i].asset != FirstPerAsset(rows)[j].asset
  {
    if rows != [] {
      var rest, last := rows[..|rows| - 1], rows[|rows| - 1];
      var kept, all := FirstPerAsset(rest), FirstPerAsset(rows);
      FirstKeepsAssets(rest);
      assert rows == rest + [last];
      AssetsAppend(rest, last);
      if last.asset in Assets(rest) {
        assert all == kept;
      } else {
        assert all == kept + [last];
        AssetsAppend(kept, last);
        assert Assets(all) == Assets(kept) + {last.asset};
        assert forall i :: 0 <= i < |kept| ==> kept[i].asset in Assets(kept);
      }
    }
  }

  lemma {:induction false} FirstIsAllWhenDistinct(rows: seq<Row>)
    requires forall i, j :: 0 <= i < j < |rows| ==> rows[i].asset != rows[j].asset
    ensures FirstPerAsset(rows) == rows
  {
    if rows == [] {
      NoRows();
    }
    hide FirstPerAsset;
    if rows != [] {
      var rest, last := rows[..|rows| - 1], rows[|rows| - 1];
      FirstIsAllWhenDistinct(rest);
      assert rows == rest + [last];
      FirstAppend(rest, last);
      assert last.asset !in Assets(rest);
    }
  }

  /** Adds one page's unseen rows to what `before` gave. */
  method AddNew(ghost before: seq<Row>, page: seq<Row>, out: seq<Row>, seen: set<string>)
    returns (out': seq<Row>, seen': set<string>, added: nat)
    requires out == FirstPerAsset(before) && seen == Assets(before)
    ensures out' == FirstPerAsset(before + page) && seen' == Assets(before + page)
    ensures added == |out'| - |out|
  {
    hide FirstPerAsset, Assets;
    out', seen', added := out, seen, 0;
    assert before + page[..0] == before;
    for k := 0 to |page|
      invariant out' == FirstPerAsset(before + page[..k]) && seen' == Assets(before + page[..k])
      invariant added == |out'| - |out|
    {
      assert before + page[..k + 1] == (before + page[..k]) + [page[k]];
      AssetsAppend(before + page[..k], page[k]);
      FirstAppend(before + page[..k], page[k]);
      if page[k].asset !in seen' {
        seen' := seen' + {page[k].asset};
        out' := out' + [page[k]];
        added := added + 1;
      }
    }
    assert page[..|page|] == page;
  }

  /** Page `k` holds an asset no earlier page did. */
  ghost predicate Adds(rows: seq<Row>, k: nat) {
    exists i :: 0 <= i < |Page(rows, k * 500)|
                && forall j :: 0 <= j < k * 500 && j < |rows| ==> rows[j].asset != Page(rows, k * 500)[i].asset
  }

  ghost predicate Full(rows: seq<Row>, k: nat) {
    |Page(rows, k * 500)| == 500
  }

  /** Paging ends with page `k`: it is short, at the offset cap, or adds nothing. */
  ghost predicate EndsAt(rows: seq<Row>, k: nat) {
    !Full(rows, k) || k >= 20 || !Adds(rows, k)
  }

  lemma {:induction false} AddsIff(rows: seq<Row>, k: nat, before: seq<Row>, page: seq<Row>)
    requires k <= 20 && k * 500 <= |rows| && before == rows[..k * 500] && page == Page(rows, k * 500)
    ensures Adds(rows, k) <==> !(Assets(page) <= Assets(before))
    ensures Assets(page) <= Assets(before) <==> |FirstPerAsset(before + page)| == |FirstPerAsset(before)|
  {
    hide FirstPerAsset;
    AssetsIn(before);
    AssetsIn(page);
    forall i | 0 <= i < |page|
      ensures page[i].asset !in Assets(before)
         <==> forall j :: 0 <= j < k * 500 && j < |rows| ==> rows[j].asset != page[i].asset
    {
      assert forall j :: 0 <= j < |before| ==> before[j] == rows[j];
    }
    FirstGrows(before, page);
  }

  lemma {:induction false} AssetsIn(rows: seq<Row>)
    ensures forall a :: a in Assets(rows) <==> exists i :: 0 <= i < |rows| && rows[i].asset == a
  {
  }

  /** Reading more rows keeps what was found, and finds more exactly when they name a new asset. */
  lemma {:induction false} FirstGrows(before: seq<Row>, page: seq<Row>)
    ensures |FirstPerAsset(before + page)| >= |FirstPerAsset(before)|
    ensures Assets(page) <= Assets(before) <==> |FirstPerAsset(before + page)| == |FirstPerAsset(before)|
    ensures Assets(before + page) == Assets(before) + Assets(page)
    decreases page
  {
    hide FirstPerAsset;
    if page == [] {
      assert before + page == before && Assets(page) == {};
    } else {
      var rest, last := page[..|page| - 1], page[|page| - 1];
      FirstGrows(before, rest);
      assert before + page == (before + rest) + [last] && page == rest + [last];
      FirstAppend(before + rest, last);
      AssetsAppend(before + rest, last);
      AssetsAppend(rest, last);
      assert last.asset in Assets(page);
    }
  }

  /** No asset is returned twice; without `hitCap` every asset is. With distinct assets the result is
      every reachable row, and `hitCap` tells exactly when the cap was reached. */
  method AllRedeemablePositions(rows: seq<Row>) returns (out: seq<Row>, hitCap: bool, requests: nat)
    ensures forall i, j :: 0 <= i < j < |out| ==> out[i].asset != out[j].asset
    ensures Assets(out) <= Assets(rows)
    ensures !hitCap ==> Assets(out) == Assets(rows)
    ensures DistinctAssets(rows) ==>
              out == rows[..Min(|rows|, REACH)] && (hitCap <==> |rows| >= REACH)
    ensures 0 < requests <= 21 && out == FirstPerAsset(rows[..Min(requests * 500, |rows|)])
    ensures EndsAt(rows, requests - 1) && forall k :: 0 <= k < requests - 1 ==> !EndsAt(rows, k)
    ensures hitCap <==> Full(rows, requests - 1)
  {
    hide FirstPerAsset, Adds, Full, EndsAt, Assets, Page;
    out, hitCap, requests := [], false, 0;
    NoRows();
    var seen: set<string> := {};
    var offset: nat := 0;
    while true
      invariant offset == requests * 500 <= MAX_OFFSET && offset <= |rows| && !hitCap
      invariant out == FirstPerAsset(rows[..offset]) && seen == Assets(rows[..offset])
      invariant forall k :: 0 <= k < requests ==> !EndsAt(rows, k)
      decreases MAX_OFFSET - offset
    {
      var page := Page(rows, offset);
      PageIs(rows, requests, page);
      AddsIff(rows, requests, rows[..offset], page);
      requests := requests + 1;
      var n := |page|;
      var added;
      out, seen, added := AddNew(rows[..offset], page, out, seen);
      if n < PAGE_LIMIT {
        break;
      }
      if offset >= MAX_OFFSET || added == 0 {
        hitCap := true;
        break;
      }
      offset := offset + PAGE_LIMIT;
    }
    WhatPagingGives(rows, requests);
  }

  /** Page `k` follows the pages before it. */
  lemma {:induction false} PageIs(rows: seq<Row>, k: nat, page: seq<Row>)
    requires k <= 20 && k * 500 <= |rows| && page == Page(rows, k * 500)
    ensures |page| <= 500 && rows[..k * 500] + page == rows[..Min(k * 500 + 500, |rows|)]
    ensures |page| == 500 ==> k * 500 + 500 <= |rows|
    ensures Full(rows, k) <==> |page| == 500
    ensures EndsAt(rows, k) <==> |page| < 500 || k == 20 || !Adds(rows, k)
  {
    hide Adds;
  }

  /** What the assets found and the last page's length mean. */
  lemma {:induction false} WhatPagingGives(rows: seq<Row>, requests: nat)
    requires 0 < requests <= 21 && (requests - 1) * 500 <= |rows|
    requires EndsAt(rows, requests - 1) && forall k :: 0 <= k < requests - 1 ==> !EndsAt(rows, k)
    ensures var out := FirstPerAsset(rows[..Min(requests * 500, |rows|)]);
            && (forall i, j :: 0 <= i < j < |out| ==> out[i].asset != out[j].asset)
            && Assets(out) <= Assets(rows)
            && (!Full(rows, requests - 1) ==> Assets(out) == Assets(rows))
            && (DistinctAssets(rows) ==>
                  out == rows[..Min(|rows|, REACH)] && (Full(rows, requests - 1) <==> |rows| >= REACH))
  {
    hide FirstPerAsset, Adds, EndsAt;
    var last := requests - 1;
    var read := rows[..Min(requests * 500, |rows|)];
    PageIs(rows, last, Page(rows, last * 500));
    FirstKeepsAssets(read);
    PrefixAssets(rows, |read|);
    if !Full(rows, last) {
      assert read == rows;
    }
    if DistinctAssets(rows) {
      FirstIsAllWhenDistinct(read);
      if Full(rows, last) && last < 20 {
        NewWhenDistinct(rows, last);
      }
    }
  }

  ghost predicate DistinctAssets(rows: seq<Row>) {
    forall i, j :: 0 <= i < j < |rows| ==> rows[i].asset != rows[j].asset
  }

  lemma {:induction false} PrefixAssets(rows: seq<Row>, n: nat)
    requires n <= |rows|
    ensures Assets(rows[..n]) <= Assets(rows)
  {
  }

  lemma {:induction false} NewWhenDistinct(rows: seq<Row>, k: nat)
    requires DistinctAssets(rows) && k < 20 && k * 500 <= |rows| && Full(rows, k)
    ensures Adds(rows, k)
  {
    var page := Page(rows, k * 500);
    assert page[0] == rows[k * 500];
  }

  lemma {:induction false} NoRows()
    ensures FirstPerAsset([]) == [] && Assets([]) == {}
  {
  }
}
