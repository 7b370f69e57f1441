/** What a drain does to the two sides of one condition, page-set by page-set, and exactly when that
    redeems it. */
module Sides {

  /** What is held of a condition as YES and as NO. */
  datatype Pair = Pair(yes: nat, no: nat)

  /** What one page-set says of the condition: the sides it names, and whether its redeem takes both
      sides, named or not. */
  datatype Listing = Listing(yes: bool, no: bool, both: bool)

  /** The part of the holding a page-set names. */
  function Named(h: Pair, l: Listing): nat {
    (if l.yes then h.yes else 0) + if l.no then h.no else 0
  }

  /** One pass: nothing while what is named is zero or below the floor. */
  function Step(h: Pair, l: Listing, floor: nat): Pair {
    if Named(h, l) == 0 || Named(h, l) < floor then h
    else if l.both then Pair(0, 0)
    else Pair(if l.yes then 0 else h.yes, if l.no then 0 else h.no)
  }

  function After(h: Pair, pages: seq<Listing>, floor: nat): Pair {
    if pages == [] then h
    else Step(After(h, pages[..|pages| - 1], floor), pages[|pages| - 1], floor)
  }

  /** Nothing, or less than the floor. */
  predicate Dust(h: Pair, floor: nat) {
    h.yes + h.no == 0 || h.yes + h.no < floor
  }

  /** A side worth redeeming on its own. */
  predicate Big(held: nat, floor: nat) {
    held != 0 && held >= floor
  }

  predicate NamesBig(h: Pair, l: Listing, floor: nat) {
    (l.yes && Big(h.yes, floor)) || (l.no && Big(h.no, floor))
  }

  /** The page-set names every side held. */
  predicate NamesAll(h: Pair, l: Listing) {
    (h.yes > 0 ==> l.yes) && (h.no > 0 ==> l.no)
  }

  ghost predicate NamedTogether(h: Pair, pages: seq<Listing>) {
    exists p :: 0 <= p < |pages| && NamesAll(h, pages[p])
  }

  ghost predicate YesNamed(pages: seq<Listing>) {
    exists p :: 0 <= p < |pages| && pages[p].yes
  }

  ghost predicate NoNamed(pages: seq<Listing>) {
    exists p :: 0 <= p < |pages| && pages[p].no
  }

  /** There is a side worth redeeming on its own, and every such side is named by some page-set. */
  ghost predicate NamedApart(h: Pair, pages: seq<Listing>, floor: nat) {
    && (Big(h.yes, floor) || Big(h.no, floor))
    && (Big(h.yes, floor) ==> YesNamed(pages))
    && (Big(h.no, floor) ==> NoNamed(pages))
  }

  ghost predicate NoneNamesBig(h: Pair, pages: seq<Listing>, floor: nat) {
    forall p :: 0 <= p < |pages| ==> !NamesBig(h, pages[p], floor)
  }

  /** The first page-set to name a side worth redeeming on its own has a redeem that takes both. */
  ghost predicate TakenAtOnce(h: Pair, pages: seq<Listing>, floor: nat) {
    exists p :: 0 <= p < |pages| && NamesBig(h, pages[p], floor) && pages[p].both
                && NoneNamesBig(h, pages[..p], floor)
  }

  ghost predicate Served(h: Pair, pages: seq<Listing>, floor: nat) {
    NamedTogether(h, pages) || NamedApart(h, pages, floor) || TakenAtOnce(h, pages, floor)
  }

  // ---------- One page-set more ----------

  lemma {:induction false} OneMore(h: Pair, rest: seq<Listing>, l: Listing, floor: nat)
    ensures After(h, rest + [l], floor) == Step(After(h, rest, floor), l, floor)
    ensures NamedTogether(h, rest + [l]) <==> NamedTogether(h, rest) || NamesAll(h, l)
    ensures YesNamed(rest + [l]) <==> YesNamed(rest) || l.yes
    ensures NoNamed(rest + [l]) <==> NoNamed(rest) || l.no
    ensures NoneNamesBig(h, rest + [l], floor) <==> NoneNamesBig(h, rest, floor) && !NamesBig(h, l, floor)
  {
    hide NamesAll, NamesBig, Step;
    var pages := rest + [l];
    assert pages[..|rest|] == rest && pages[|rest|] == l;
    assert forall p :: 0 <= p < |rest| ==> pages[p] == rest[p];
  }

  lemma {:induction false} OneMoreTaken(h: Pair, rest: seq<Listing>, l: Listing, floor: nat)
    ensures TakenAtOnce(h, rest + [l], floor)
       <==> TakenAtOnce(h, rest, floor) || (NoneNamesBig(h, rest, floor) && NamesBig(h, l, floor) && l.both)
  {
    hide NamesBig, NoneNamesBig;
    var pages := rest + [l];
    assert pages[..|rest|] == rest && pages[|rest|] == l;
    assert forall p :: 0 <= p < |rest| ==> pages[p] == rest[p] && pages[..p] == rest[..p];
  }

  // ---------- What is left ----------

  /** Two sides neither of which is worth redeeming alone go together or not at all. */
  lemma {:induction false} LeftOfSmall(h: Pair, pages: seq<Listing>, floor: nat)
    requires !Dust(h, floor) && !Big(h.yes, floor) && !Big(h.no, floor)
    ensures After(h, pages, floor) == if NamedTogether(h, pages) then Pair(0, 0) else h
  {
    hide NamedTogether;
    if pages == [] {
      NeverNamed(h);
    } else {
      var rest, l := pages[..|pages| - 1], pages[|pages| - 1];
      LeftOfSmall(h, rest, floor);
      OneMore(h, rest, l, floor);
      assert pages == rest + [l];
    }
  }

  lemma {:induction false} NeverNamed(h: Pair)
    ensures !NamedTogether(h, [])
  {
  }

  /** A side worth redeeming alone is gone once it is named, or once the first such side to be named
      was redeemed together with the other. */
  lemma {:induction false} LeftOfBig(h: Pair, pages: seq<Listing>, floor: nat)
    requires Big(h.yes, floor) || Big(h.no, floor)
    ensures var r := After(h, pages, floor);
            && r.yes <= h.yes && r.no <= h.no
            && (NoneNamesBig(h, pages, floor) ==> r == h)
            && (TakenAtOnce(h, pages, floor) ==> r == Pair(0, 0))
            && (Big(h.yes, floor) && !TakenAtOnce(h, pages, floor) ==> r.yes == if YesNamed(pages) then 0 else h.yes)
            && (Big(h.no, floor) && !TakenAtOnce(h, pages, floor) ==> r.no == if NoNamed(pages) then 0 else h.no)
  {
    hide TakenAtOnce, YesNamed, NoNamed, NoneNamesBig;
    if pages == [] {
      NothingYet(h, floor);
    } else {
      var rest, l := pages[..|pages| - 1], pages[|pages| - 1];
      LeftOfBig(h, rest, floor);
      OneMore(h, rest, l, floor);
      OneMoreTaken(h, rest, l, floor);
      NoneNamedYet(h, rest, floor);
      assert pages == rest + [l];
    }
  }

  lemma {:induction false} NothingYet(h: Pair, floor: nat)
    ensures NoneNamesBig(h, [], floor) && !TakenAtOnce(h, [], floor) && !YesNamed([]) && !NoNamed([])
  {
  }

  lemma {:induction false} NoneNamedYet(h: Pair, pages: seq<Listing>, floor: nat)
    ensures NoneNamesBig(h, pages, floor)
       <==> (Big(h.yes, floor) ==> !YesNamed(pages)) && (Big(h.no, floor) ==> !NoNamed(pages))
    ensures TakenAtOnce(h, pages, floor) ==> !NoneNamesBig(h, pages, floor)
  {
  }

  lemma {:induction false} DustStays(h: Pair, pages: seq<Listing>, floor: nat)
    requires Dust(h, floor)
    ensures After(h, pages, floor) == h
  {
    if pages != [] {
      DustStays(h, pages[..|pages| - 1], floor);
    }
  }

  /** The drain leaves dust of a condition exactly when it started as dust or the page-sets serve it:
      some page-set names every side held; or each side worth redeeming on its own is named some time;
      or the first of them to be named is redeemed along with the other. */
  lemma {:induction false} RedeemedIff(h: Pair, pages: seq<Listing>, floor: nat)
    ensures Dust(After(h, pages, floor), floor) <==> Dust(h, floor) || Served(h, pages, floor)
  {
    hide After, TakenAtOnce, NamedTogether, YesNamed, NoNamed;
    if Dust(h, floor) {
      DustStays(h, pages, floor);
    } else if Big(h.yes, floor) || Big(h.no, floor) {
      LeftOfBig(h, pages, floor);
      if NamedTogether(h, pages) {
        TogetherNamesEach(h, pages);
      }
    } else {
      LeftOfSmall(h, pages, floor);
      NoBigToTake(h, pages, floor);
    }
  }

  lemma {:induction false} TogetherNamesEach(h: Pair, pages: seq<Listing>)
    requires NamedTogether(h, pages)
    ensures (h.yes > 0 ==> YesNamed(pages)) && (h.no > 0 ==> NoNamed(pages))
  {
    var p :| 0 <= p < |pages| && NamesAll(h, pages[p]);
  }

  lemma {:induction false} NoBigToTake(h: Pair, pages: seq<Listing>, floor: nat)
    requires !Big(h.yes, floor) && !Big(h.no, floor)
    ensures !TakenAtOnce(h, pages, floor)
  {
  }

  /** When page-sets name all held sides of a condition or none of them, being served is being named. */
  lemma {:induction false} ServedWhenWhole(h: Pair, pages: seq<Listing>, floor: nat)
    requires forall p :: 0 <= p < |pages| ==> NamesAll(h, pages[p]) || Named(h, pages[p]) == 0
    ensures Served(h, pages, floor) <==> NamedTogether(h, pages)
  {
    if TakenAtOnce(h, pages, floor) {
      var p :| 0 <= p < |pages| && NamesBig(h, pages[p], floor) && pages[p].both
               && NoneNamesBig(h, pages[..p], floor);
      assert NamesAll(h, pages[p]);
    } else if NamedApart(h, pages, floor) {
      var p :| 0 <= p < |pages| && NamesBig(h, pages[p], floor);
      assert NamesAll(h, pages[p]);
    }
  }
}
