/**
 * The city composer: seeds a player's city with the archetype cards that are still
 * under quota, then fills it with random catalogue picks, at most fifty attempts,
 * until a randomly drawn target size is reached.
 *
 * The random draws are inputs: `targetSize` is the drawn size and `picks[k]` is the
 * card drawn at attempt k. The quantity table is passed in as `quantities`.
 */
module Composer {
  import opened Catalog
  import opened Ledger
  import opened Numbers

  const MaxAttempts: nat := 50
  const MinCitySize: nat := 8
  const MaxCitySize: nat := 15

  /** Fifty draws, each a card identifier of the table. */
  predicate ValidPicks(quantities: QuantityTable, picks: seq<CardId>)
  {
    |picks| == MaxAttempts && forall j :: 0 <= j < |picks| ==> picks[j] in Keys(quantities)
  }

  /** Copies of c the game still has room for, given the ledger of earlier cities. */
  function Room(quantities: QuantityTable, ledger: Counts, c: CardId): nat
  {
    if Count(ledger, c) < Quantity(quantities, c) then Quantity(quantities, c) - Count(ledger, c) else 0
  }

  /**
   * The archetype card at index i makes it into the city: it is a catalogued card and
   * fewer copies of it precede it in the archetype than the game has room for.
   */
  predicate KeptAt(quantities: QuantityTable, archetype: seq<CardId>, ledger: Counts, i: nat)
    requires i < |archetype|
  {
    archetype[i] in Keys(quantities) && multiset(archetype[..i])[archetype[i]] < Room(quantities, ledger, archetype[i])
  }

  /** The cards the archetype contributes: the kept ones, in archetype order. */
  function Seed(quantities: QuantityTable, archetype: seq<CardId>, ledger: Counts): seq<CardId>
  {
    if archetype == [] then []
    else
      var i := |archetype| - 1;
      Seed(quantities, archetype[..i], ledger) + (if KeptAt(quantities, archetype, ledger, i) then [archetype[i]] else [])
  }

  /** One more copy of c still fits the game, counting the copies already in `cards`. */
  predicate UnderQuota(quantities: QuantityTable, ledger: Counts, cards: seq<CardId>, c: CardId)
  {
    Count(ledger, c) + multiset(cards)[c] < Quantity(quantities, c)
  }

  /** A composed city and the number of fill attempts spent on it. */
  datatype Composed = Composed(cards: seq<CardId>, attempts: nat)

  /**
   * The fill phase from attempt `attempts` on: while the city is below target and
   * attempts remain, the next pick is added exactly when it is under quota.
   */
  function Fill(quantities: QuantityTable, ledger: Counts, cards: seq<CardId>, targetSize: int, picks: seq<CardId>, attempts: nat): Composed
    requires ValidPicks(quantities, picks) && attempts <= MaxAttempts
    decreases MaxAttempts - attempts
  {
    if |cards| < targetSize && attempts < MaxAttempts then
      var c := picks[attempts];
      var next := if UnderQuota(quantities, ledger, cards, c) then cards + [c] else cards;
      Fill(quantities, ledger, next, targetSize, picks, attempts + 1)
    else
      Composed(cards, attempts)
  }

  /** The whole composition: the archetype seed, then the fill. */
  function ComposeCity(quantities: QuantityTable, archetype: seq<CardId>, ledger: Counts, targetSize: int, picks: seq<CardId>): Composed
    requires ValidPicks(quantities, picks)
  {
    Fill(quantities, ledger, Seed(quantities, archetype, ledger), targetSize, picks, 0)
  }

  // ---------------------------------------------------------------------------
  // Properties of the seed

  /** The seed holds each card as often as the archetype lists it, capped by the game's room. */
  lemma {:induction false} SeedCount(quantities: QuantityTable, archetype: seq<CardId>, ledger: Counts, c: CardId)
    ensures multiset(Seed(quantities, archetype, ledger))[c] ==
            if c in Keys(quantities) then Min(multiset(archetype)[c], Room(quantities, ledger, c)) else 0
  {
    if archetype != [] {
      var i := |archetype| - 1;
      SeedCount(quantities, archetype[..i], ledger, c);
      SeedLast(quantities, archetype, ledger, c);
      ArchetypeLast(archetype, c);
    }
  }

  /** The seed of a non-empty archetype counts c once more than its prefix's seed when the last card is c and kept. */
  lemma SeedLast(quantities: QuantityTable, archetype: seq<CardId>, ledger: Counts, c: CardId)
    requires archetype != []
    ensures var i := |archetype| - 1;
      multiset(Seed(quantities, archetype, ledger))[c] ==
      multiset(Seed(quantities, archetype[..i], ledger))[c] + (if KeptAt(quantities, archetype, ledger, i) && c == archetype[i] then 1 else 0)
  {
    var i := |archetype| - 1;
    var before := Seed(quantities, archetype[..i], ledger);
    var added := if KeptAt(quantities, archetype, ledger, i) then [archetype[i]] else [];
    assert multiset(before + added) == multiset(before) + multiset(added);
  }

  /** A non-empty archetype counts c once more than its prefix when its last card is c. */
  lemma ArchetypeLast(archetype: seq<CardId>, c: CardId)
    requires archetype != []
    ensures var i := |archetype| - 1;
      multiset(archetype)[c] == multiset(archetype[..i])[c] + (if c == archetype[i] then 1 else 0)
  {
    var i := |archetype| - 1;
    assert archetype == archetype[..i] + [archetype[i]];
    assert multiset(archetype) == multiset(archetype[..i]) + multiset{archetype[i]};
  }

  /** The seed is no longer than the archetype and only holds catalogued archetype cards. */
  lemma {:induction false} SeedFromArchetype(quantities: QuantityTable, archetype: seq<CardId>, ledger: Counts)
    ensures |Seed(quantities, archetype, ledger)| <= |archetype|
    ensures forall c :: c in Seed(quantities, archetype, ledger) ==> c in archetype && c in Keys(quantities)
  {
    if archetype != [] {
      var i := |archetype| - 1;
      SeedFromArchetype(quantities, archetype[..i], ledger);
    }
  }

  /** Every card of the seed fits in the game's remaining quota. */
  lemma SeedFitsQuota(quantities: QuantityTable, archetype: seq<CardId>, ledger: Counts)
    ensures FitsQuota(quantities, ledger, Seed(quantities, archetype, ledger))
  {
    var seed := Seed(quantities, archetype, ledger);
    forall c | c in seed
      ensures Count(ledger, c) + multiset(seed)[c] <= Quantity(quantities, c)
    {
      SeedCount(quantities, archetype, ledger, c);
    }
  }

  /** One step of the seed loop: the next archetype card is kept exactly when it passes the script's test. */
  lemma SeedStep(quantities: QuantityTable, archetype: seq<CardId>, ledger: Counts, i: nat)
    requires i < |archetype|
    ensures var c := archetype[i];
            var before := Seed(quantities, archetype[..i], ledger);
      Seed(quantities, archetype[..i + 1], ledger) ==
      before + (if c in Keys(quantities) && UnderQuota(quantities, ledger, before, c) then [c] else [])
  {
    var c := archetype[i];
    assert archetype[..i + 1][..i] == archetype[..i];
    SeedCount(quantities, archetype[..i], ledger, c);
  }

  // ---------------------------------------------------------------------------
  // Properties of the fill

  /**
   * The fill never removes cards, spends at most the remaining attempts, adds at most
   * one card per attempt, stops at the target or when attempts run out, and never
   * grows the city past the target.
   */
  lemma FillBounds(quantities: QuantityTable, ledger: Counts, cards: seq<CardId>, targetSize: int, picks: seq<CardId>, attempts: nat)
    requires ValidPicks(quantities, picks) && attempts <= MaxAttempts
    ensures var r := Fill(quantities, ledger, cards, targetSize, picks, attempts);
      && cards <= r.cards
      && attempts <= r.attempts <= MaxAttempts
      && |r.cards| - |cards| <= r.attempts - attempts
      && (|r.cards| >= targetSize || r.attempts == MaxAttempts)
      && |r.cards| <= Max(|cards|, targetSize)
      && (|cards| >= targetSize ==> r == Composed(cards, attempts))
  {
    FillGrows(quantities, ledger, cards, targetSize, picks, attempts);
    FillStops(quantities, ledger, cards, targetSize, picks, attempts);
  }

  /** The fill only appends, one card at most per attempt, and never runs past the last attempt. */
  lemma {:induction false} FillGrows(quantities: QuantityTable, ledger: Counts, cards: seq<CardId>, targetSize: int, picks: seq<CardId>, attempts: nat)
    requires ValidPicks(quantities, picks) && attempts <= MaxAttempts
    ensures var r := Fill(quantities, ledger, cards, targetSize, picks, attempts);
      && cards <= r.cards
      && attempts <= r.attempts <= MaxAttempts
      && |r.cards| - |cards| <= r.attempts - attempts
    decreases MaxAttempts - attempts
  {
    if |cards| < targetSize && attempts < MaxAttempts {
      var c := picks[attempts];
      var next := if UnderQuota(quantities, ledger, cards, c) then cards + [c] else cards;
      FillGrows(quantities, ledger, next, targetSize, picks, attempts + 1);
    }
  }

  /** The fill stops at the target or at the last attempt, never overshoots the target, and does nothing at or above it. */
  lemma {:induction false} FillStops(quantities: QuantityTable, ledger: Counts, cards: seq<CardId>, targetSize: int, picks: seq<CardId>, attempts: nat)
    requires ValidPicks(quantities, picks) && attempts <= MaxAttempts
    ensures var r := Fill(quantities, ledger, cards, targetSize, picks, attempts);
      && (|r.cards| >= targetSize || r.attempts == MaxAttempts)
      && |r.cards| <= Max(|cards|, targetSize)
      && (|cards| >= targetSize ==> r == Composed(cards, attempts))
    decreases MaxAttempts - attempts
  {
    if |cards| < targetSize && attempts < MaxAttempts {
      var c := picks[attempts];
      var next := if UnderQuota(quantities, ledger, cards, c) then cards + [c] else cards;
      FillStops(quantities, ledger, next, targetSize, picks, attempts + 1);
    }
  }

  /** Adding a card that is under quota keeps a fitting city fitting. */
  lemma AddUnderQuotaFits(quantities: QuantityTable, ledger: Counts, cards: seq<CardId>, c: CardId)
    requires FitsQuota(quantities, ledger, cards) && UnderQuota(quantities, ledger, cards, c)
    ensures FitsQuota(quantities, ledger, cards + [c])
  {
    var next := cards + [c];
    forall d | d in next ensures Count(ledger, d) + multiset(next)[d] <= Quantity(quantities, d) {
      if d != c {
        assert multiset(next)[d] == multiset(cards)[d];
      }
    }
  }

  /** The fill keeps the city within quota. */
  lemma {:induction false} FillKeepsQuota(quantities: QuantityTable, ledger: Counts, cards: seq<CardId>, targetSize: int, picks: seq<CardId>, attempts: nat)
    requires ValidPicks(quantities, picks) && attempts <= MaxAttempts
    requires FitsQuota(quantities, ledger, cards)
    ensures FitsQuota(quantities, ledger, Fill(quantities, ledger, cards, targetSize, picks, attempts).cards)
    decreases MaxAttempts - attempts
  {
    if |cards| < targetSize && attempts < MaxAttempts {
      var c := picks[attempts];
      if UnderQuota(quantities, ledger, cards, c) {
        AddUnderQuotaFits(quantities, ledger, cards, c);
        FillKeepsQuota(quantities, ledger, cards + [c], targetSize, picks, attempts + 1);
      } else {
        FillKeepsQuota(quantities, ledger, cards, targetSize, picks, attempts + 1);
      }
    }
  }

  /** A composed city fits the game's quota, holds only catalogued cards and starts with its seed. */
  lemma ComposedCityProperties(quantities: QuantityTable, archetype: seq<CardId>, ledger: Counts, targetSize: int, picks: seq<CardId>)
    requires ValidPicks(quantities, picks)
    ensures var seed := Seed(quantities, archetype, ledger);
            var r := ComposeCity(quantities, archetype, ledger, targetSize, picks);
      && FitsQuota(quantities, ledger, r.cards)
      && (forall c :: c in r.cards ==> c in Keys(quantities))
      && seed <= r.cards
      && r.attempts <= MaxAttempts
      && (|r.cards| >= targetSize || r.attempts == MaxAttempts)
      && |r.cards| - |seed| <= r.attempts
      && |r.cards| <= Max(|seed|, targetSize)
  {
    var seed := Seed(quantities, archetype, ledger);
    SeedFitsQuota(quantities, archetype, ledger);
    SeedFromArchetype(quantities, archetype, ledger);
    FillBounds(quantities, ledger, seed, targetSize, picks, 0);
    FillKeepsQuota(quantities, ledger, seed, targetSize, picks, 0);
    var r := ComposeCity(quantities, archetype, ledger, targetSize, picks);
    forall c | c in r.cards ensures c in Keys(quantities) {
      QuantityPositiveIffListed(quantities, c);
    }
  }

  /** The seed reads the ledger only through its counts. */
  lemma {:induction false} SeedSameCounts(quantities: QuantityTable, archetype: seq<CardId>, l1: Counts, l2: Counts)
    requires forall c :: Count(l1, c) == Count(l2, c)
    ensures Seed(quantities, archetype, l1) == Seed(quantities, archetype, l2)
  {
    if archetype != [] {
      var i := |archetype| - 1;
      SeedSameCounts(quantities, archetype[..i], l1, l2);
      assert Room(quantities, l1, archetype[i]) == Room(quantities, l2, archetype[i]);
    }
  }

  /** The fill reads the ledger only through its counts. */
  lemma {:induction false} FillSameCounts(quantities: QuantityTable, l1: Counts, l2: Counts, cards: seq<CardId>,
                                          targetSize: int, picks: seq<CardId>, attempts: nat)
    requires ValidPicks(quantities, picks) && attempts <= MaxAttempts
    requires forall c :: Count(l1, c) == Count(l2, c)
    ensures Fill(quantities, l1, cards, targetSize, picks, attempts) == Fill(quantities, l2, cards, targetSize, picks, attempts)
    decreases MaxAttempts - attempts
  {
    if |cards| < targetSize && attempts < MaxAttempts {
      var c := picks[attempts];
      assert UnderQuota(quantities, l1, cards, c) == UnderQuota(quantities, l2, cards, c);
      var next := if UnderQuota(quantities, l1, cards, c) then cards + [c] else cards;
      FillSameCounts(quantities, l1, l2, next, targetSize, picks, attempts + 1);
    }
  }

  /** Two ledgers with the same counts compose the same city. */
  lemma ComposeCitySameCounts(quantities: QuantityTable, archetype: seq<CardId>, l1: Counts, l2: Counts,
                              targetSize: int, picks: seq<CardId>)
    requires ValidPicks(quantities, picks)
    requires forall c :: Count(l1, c) == Count(l2, c)
    ensures ComposeCity(quantities, archetype, l1, targetSize, picks) == ComposeCity(quantities, archetype, l2, targetSize, picks)
  {
    SeedSameCounts(quantities, archetype, l1, l2);
    FillSameCounts(quantities, l1, l2, Seed(quantities, archetype, l1), targetSize, picks, 0);
  }

  // ---------------------------------------------------------------------------
  // The composer itself

  /** Recording one more copy of c keeps the per-call counts equal to the city's contents. */
  lemma CountsTrackCity(usedCounts: Counts, cards: seq<CardId>, c: CardId)
    requires forall d :: Count(usedCounts, d) == multiset(cards)[d]
    ensures forall d :: Count(usedCounts[c := Count(usedCounts, c) + 1], d) == multiset(cards + [c])[d]
  {
    assert multiset(cards + [c]) == multiset(cards) + multiset{c};
  }

  /** The archetype phase: takes, in order, every archetype card still under quota. */
  method TakeArchetypeCards(quantities: QuantityTable, archetype: seq<CardId>, gameCardUsage: Counts)
    returns (cards: seq<CardId>, usedCounts: Counts)
    ensures cards == Seed(quantities, archetype, gameCardUsage)
    ensures forall c :: Count(usedCounts, c) == multiset(cards)[c]
  {
    cards := [];
    usedCounts := map[];
    for i := 0 to |archetype|
      invariant cards == Seed(quantities, archetype[..i], gameCardUsage)
      invariant forall c :: Count(usedCounts, c) == multiset(cards)[c]
    {
      SeedStep(quantities, archetype, gameCardUsage, i);
      var cardId := archetype[i];
      if cardId in Keys(quantities) {
        var totalUsedInGame := Count(gameCardUsage, cardId) + Count(usedCounts, cardId);
        if totalUsedInGame < Quantity(quantities, cardId) {
          CountsTrackCity(usedCounts, cards, cardId);
          cards := cards + [cardId];
          usedCounts := usedCounts[cardId := Count(usedCounts, cardId) + 1];
        }
      }
    }
    assert archetype[..|archetype|] == archetype;
  }

  /**
   * The fill phase: up to fifty random picks, each added when under quota, until the
   * city reaches the target size.
   */
  method FillToTarget(quantities: QuantityTable, gameCardUsage: Counts, seed: seq<CardId>, seedCounts: Counts,
                      targetSize: int, picks: seq<CardId>)
    returns (cards: seq<CardId>, usedCounts: Counts)
    requires ValidPicks(quantities, picks)
    requires forall c :: Count(seedCounts, c) == multiset(seed)[c]
    ensures cards == Fill(quantities, gameCardUsage, seed, targetSize, picks, 0).cards
    ensures forall c :: Count(usedCounts, c) == multiset(cards)[c]
  {
    cards, usedCounts := seed, seedCounts;
    var attempts: nat := 0;
    while |cards| < targetSize && attempts < MaxAttempts
      invariant attempts <= MaxAttempts
      invariant Fill(quantities, gameCardUsage, cards, targetSize, picks, attempts) ==
                Fill(quantities, gameCardUsage, seed, targetSize, picks, 0)
      invariant forall c :: Count(usedCounts, c) == multiset(cards)[c]
      decreases MaxAttempts - attempts
    {
      var cardId := picks[attempts];
      var totalUsedInGame := Count(gameCardUsage, cardId) + Count(usedCounts, cardId);
      if totalUsedInGame < Quantity(quantities, cardId) {
        CountsTrackCity(usedCounts, cards, cardId);
        cards := cards + [cardId];
        usedCounts := usedCounts[cardId := Count(usedCounts, cardId) + 1];
      }
      attempts := attempts + 1;
    }
  }

  /**
   * Composes one player's city against the game's ledger. Returns the cards and how
   * many copies of each card this call added.
   */
  method GenerateCityCards(quantities: QuantityTable, archetype: seq<CardId>, gameCardUsage: Counts,
                           maxCards: int, targetSize: int, picks: seq<CardId>)
    returns (cards: seq<CardId>, usedCounts: Counts)
    requires MinCitySize <= targetSize <= Min(maxCards, MaxCitySize)
    requires ValidPicks(quantities, picks)
    ensures cards == ComposeCity(quantities, archetype, gameCardUsage, targetSize, picks).cards
    ensures forall c :: Count(usedCounts, c) == multiset(cards)[c]
    ensures FitsQuota(quantities, gameCardUsage, cards)
    ensures forall c :: c in cards ==> c in Keys(quantities)
    ensures Seed(quantities, archetype, gameCardUsage) <= cards
    ensures |cards| <= Max(|Seed(quantities, archetype, gameCardUsage)|, targetSize)
  {
    var seed, seedCounts := TakeArchetypeCards(quantities, archetype, gameCardUsage);
    cards, usedCounts := FillToTarget(quantities, gameCardUsage, seed, seedCounts, targetSize, picks);
    ComposedCityProperties(quantities, archetype, gameCardUsage, targetSize, picks);
  }
}
