/**
 * The per-game card usage ledger: how many copies of each card the cities of one
 * game have taken so far. A missing key reads as zero, as a defaultdict(int) does.
 */
module Ledger {
  import opened Catalog

  type Counts = map<CardId, nat>

  /** The count recorded for c, zero when c was never recorded. */
  function Count(m: Counts, c: CardId): nat
  {
    if c in m then m[c] else 0
  }

  /** No card has been used more often than the quantity table allows. */
  ghost predicate WithinQuota(quantities: QuantityTable, m: Counts)
  {
    forall c :: Count(m, c) <= Quantity(quantities, c)
  }

  /** Adding the copies in `cards` on top of `ledger` keeps every card of `cards` within its quantity. */
  ghost predicate FitsQuota(quantities: QuantityTable, ledger: Counts, cards: seq<CardId>)
  {
    forall c :: c in cards ==> Count(ledger, c) + multiset(cards)[c] <= Quantity(quantities, c)
  }

  /** A ledger within quota stays within quota when a city that fits is recorded in it. */
  lemma RecordingFittingCityKeepsQuota(quantities: QuantityTable, before: Counts, cards: seq<CardId>, after: Counts)
    requires WithinQuota(quantities, before) && FitsQuota(quantities, before, cards)
    requires forall c :: Count(after, c) == Count(before, c) + multiset(cards)[c]
    ensures WithinQuota(quantities, after)
  {
    forall c ensures Count(after, c) <= Quantity(quantities, c) {
      if c !in cards {
        assert multiset(cards)[c] == 0;
      }
    }
  }

  /** The counts of a card list, recorded one copy at a time in list order. */
  function Tally(cards: seq<CardId>): Counts
  {
    if cards == [] then map[]
    else
      var m := Tally(cards[..|cards| - 1]);
      var c := cards[|cards| - 1];
      m[c := Count(m, c) + 1]
  }

  /** A tally counts every copy of every card of the list, and nothing else. */
  lemma {:induction false} TallyCounts(cards: seq<CardId>)
    ensures forall c :: Count(Tally(cards), c) == multiset(cards)[c]
  {
    if cards != [] {
      var n := |cards| - 1;
      TallyCounts(cards[..n]);
      assert cards == cards[..n] + [cards[n]];
      assert multiset(cards) == multiset(cards[..n]) + multiset{cards[n]};
    }
  }

  /** The usage ledger of one game, updated in place as each player's city is composed. */
  class UsageLedger {
    var counts: Counts

    /** A fresh ledger: no card used yet. */
    constructor ()
      ensures counts == map[]
    {
      counts := map[];
    }

    /** Adds each per-card count of `used` to the ledger; other cards keep their count. */
    method Merge(used: Counts)
      modifies this
      ensures forall c :: Count(counts, c) == Count(old(counts), c) + Count(used, c)
    {
      var pending := used.Keys;
      while pending != {}
        invariant pending <= used.Keys
        invariant forall c :: Count(counts, c) == Count(old(counts), c) + (if c in used && c !in pending then used[c] else 0)
        decreases pending
      {
        var c :| c in pending;
        counts := counts[c := Count(counts, c) + used[c]];
        pending := pending - {c};
      }
    }
  }
}
