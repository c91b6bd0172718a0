/**
 * One player's score record, in the three entry shapes the generator emits: a quick
 * entry (total only), a basic entry (a category breakdown reconciled with the total)
 * and a visual entry (a composed city whose cards determine the score).
 */
module PlayerScores {
  import opened Wrappers
  import opened Catalog
  import opened Ledger
  import Composer
  import opened Scoring

  datatype EntryType = Quick | Basic | Visual

  /** A player's identifier: the game's number and the player's seat in that game. */
  datatype PlayerId = PlayerId(game: nat, seat: nat)

  /** Resources left at the end of the game. */
  datatype Leftovers = Leftovers(berries: int, resin: int, pebbles: int, wood: int)

  /** The category breakdown of a basic entry. */
  datatype BasicBreakdown = BasicBreakdown(
    pointTokens: int, cardPoints: int, basicEvents: int, specialEvents: int,
    journeyPoints: int, prosperityPoints: int,
    constructionPoints: int, critterPoints: int, productionPoints: int,
    destinationPoints: int, governancePoints: int, travellerPoints: int,
    prosperityCardPoints: int, leftovers: Leftovers)

  /** The city and counters of a visual entry; the two counter maps are absent when empty. */
  datatype VisualBreakdown = VisualBreakdown(
    selectedCardIds: seq<CardId>,
    cardTokenCounts: Option<map<CardId, int>>,
    cardResourceCounts: Option<map<CardId, int>>,
    pointTokens: int, cardPoints: int, basicEvents: int, specialEvents: int,
    journeyPoints: int, leftovers: Leftovers)

  datatype Entry = QuickEntry | BasicEntry(basic: BasicBreakdown) | VisualEntry(visual: VisualBreakdown)

  datatype PlayerScore = PlayerScore(
    playerId: PlayerId, playerName: string, totalScore: int,
    tiebreakerResources: int, isWinner: bool, entry: Entry)
  {
    function Kind(): EntryType
    {
      match entry
      case QuickEntry => Quick
      case BasicEntry(_) => Basic
      case VisualEntry(_) => Visual
    }

    predicate IsQuickEntry() { entry.QuickEntry? }

    /** The cards of the player's city; only visual entries have one. */
    function City(): seq<CardId>
    {
      if entry.VisualEntry? then entry.visual.selectedCardIds else []
    }
  }

  /**
   * Every random draw one call of the generator may consume. Each entry shape reads
   * only its own fields; `architectBonus` is the draw inside the architect bonus and
   * `architectResources` the separate draw of the resource counter.
   */
  datatype ScoreDraws = ScoreDraws(
    baseScore: int, jitter: int, tiebreaker: int,
    cardPoints: int, pointTokens: int, basicEvents: int, specialEvents: int,
    journeyPoints: int, prosperityPoints: int,
    constructionPoints: int, critterPoints: int, productionPoints: int,
    destinationPoints: int, governancePoints: int, travellerPoints: int,
    archetype: nat, targetSize: int, picks: seq<CardId>,
    architectBonus: int, totalRedraw: int,
    clockTowerTokens: int, chapelTokens: int, architectResources: int,
    leftovers: Leftovers)

  /** The draws lie in the ranges the generator draws them from. */
  predicate ValidDraws(t: Tables, d: ScoreDraws)
  {
    && 25 <= d.baseScore <= 85 && -5 <= d.jitter <= 15 && 0 <= d.tiebreaker <= 10
    && 15 <= d.cardPoints <= 50 && 0 <= d.pointTokens <= 8 && 0 <= d.basicEvents <= 3
    && 0 <= d.specialEvents <= 2 && 0 <= d.journeyPoints <= 6 && 2 <= d.prosperityPoints <= 15
    && 5 <= d.constructionPoints <= 25 && 5 <= d.critterPoints <= 25 && 2 <= d.productionPoints <= 15
    && 2 <= d.destinationPoints <= 12 && 2 <= d.governancePoints <= 12 && 0 <= d.travellerPoints <= 8
    && d.archetype < |t.archetypes|
    && Composer.MinCitySize <= d.targetSize <= Composer.MaxCitySize
    && Composer.ValidPicks(t.quantities, d.picks)
    && 0 <= d.architectBonus <= 6 && 0 <= d.totalRedraw <= 10
    && 0 <= d.clockTowerTokens <= 3 && 0 <= d.chapelTokens <= 5 && 0 <= d.architectResources <= 6
    && 0 <= d.leftovers.berries <= 3 && 0 <= d.leftovers.resin <= 3
    && 0 <= d.leftovers.pebbles <= 3 && 0 <= d.leftovers.wood <= 3
  }

  /** No archetype is longer than the smallest target size. */
  predicate ShortArchetypes(t: Tables)
  {
    forall i :: 0 <= i < |t.archetypes| ==> |t.archetypes[i]| <= Composer.MinCitySize
  }

  /** The script's archetypes are all short: at most eight cards each. */
  lemma ScriptArchetypesAreShort()
    ensures ShortArchetypes(ScriptTables)
  {
  }

  // ---------------------------------------------------------------------------
  // Counters of a visual entry

  /** Tokens on clock_tower and chapel, for the ones the city holds; absent when it holds neither. */
  function CardTokenCounts(cards: seq<CardId>, clockTowerTokens: int, chapelTokens: int): (r: Option<map<CardId, int>>)
    ensures r.None? <==> ClockTower !in cards && Chapel !in cards
    ensures r.Some? ==> forall c :: c in r.value <==> c in cards && (c == ClockTower || c == Chapel)
    ensures r.Some? && ClockTower in r.value ==> r.value[ClockTower] == clockTowerTokens
    ensures r.Some? && Chapel in r.value ==> r.value[Chapel] == chapelTokens
  {
    var withClock: map<CardId, int> := if ClockTower in cards then map[ClockTower := clockTowerTokens] else map[];
    var counts := if Chapel in cards then withClock[Chapel := chapelTokens] else withClock;
    if counts == map[] then
      assert ClockTower !in counts && Chapel !in counts;
      None
    else
      assert ClockTower in counts || Chapel in counts;
      Some(counts)
  }

  /** Resources on architect when the city holds it; absent otherwise. */
  function CardResourceCounts(cards: seq<CardId>, architectResources: int): (r: Option<map<CardId, int>>)
    ensures r.None? <==> Architect !in cards
    ensures r.Some? ==> r.value.Keys == {Architect} && r.value[Architect] == architectResources
  {
    var counts: map<CardId, int> := if Architect in cards then map[Architect := architectResources] else map[];
    if counts == map[] then
      assert Architect !in counts;
      None
    else
      assert Architect in counts;
      Some(counts)
  }

  // ---------------------------------------------------------------------------
  // The three entry shapes

  /** A basic entry is consistent: its weighted checksum is its total, or card points sit at their floor above it. */
  predicate BasicConsistent(total: int, b: BasicBreakdown)
  {
    var checksum := WeightedTotal(b.cardPoints, b.pointTokens, b.basicEvents, b.specialEvents,
                                  b.journeyPoints, b.prosperityPoints);
    checksum == total || (b.cardPoints == MinCardPoints && checksum > total)
  }

  /**
   * The basic breakdown: card points reconciled with the total, every other category
   * exactly as drawn, and the prosperity-card points a copy of the prosperity points.
   */
  function BasicBreakdownOf(t: Tables, d: ScoreDraws, score: int): (b: BasicBreakdown)
    requires ValidDraws(t, d)
    ensures BasicConsistent(score, b)
    ensures b.cardPoints >= MinCardPoints
    ensures b.cardPoints == ReconcileCardPoints(d.cardPoints, d.pointTokens, d.basicEvents, d.specialEvents,
                                                d.journeyPoints, d.prosperityPoints, score)
    ensures b.pointTokens == d.pointTokens && b.basicEvents == d.basicEvents && b.specialEvents == d.specialEvents
    ensures b.journeyPoints == d.journeyPoints && b.prosperityPoints == d.prosperityPoints
    ensures b.constructionPoints == d.constructionPoints && b.critterPoints == d.critterPoints
    ensures b.productionPoints == d.productionPoints && b.destinationPoints == d.destinationPoints
    ensures b.governancePoints == d.governancePoints && b.travellerPoints == d.travellerPoints
    ensures b.prosperityCardPoints == b.prosperityPoints
    ensures b.leftovers == d.leftovers
  {
    var cardPoints := ReconcileCardPoints(d.cardPoints, d.pointTokens, d.basicEvents, d.specialEvents,
                                          d.journeyPoints, d.prosperityPoints, score);
    BasicBreakdown(d.pointTokens, cardPoints, d.basicEvents, d.specialEvents, d.journeyPoints, d.prosperityPoints,
                   d.constructionPoints, d.critterPoints, d.productionPoints, d.destinationPoints,
                   d.governancePoints, d.travellerPoints, d.prosperityPoints, d.leftovers)
  }

  /** The city a visual entry composes against the game's ledger. */
  function VisualCity(t: Tables, ledger: Counts, d: ScoreDraws): seq<CardId>
    requires ValidDraws(t, d)
  {
    Composer.ComposeCity(t.quantities, t.archetypes[d.archetype], ledger, d.targetSize, d.picks).cards
  }

  /** The checksum of a visual city before the range adjustment: card points, tokens, events, journey and bonus. */
  function VisualChecksum(cards: seq<CardId>, cardData: seq<CardMeta>, d: ScoreDraws): int
    requires 0 <= d.architectBonus <= 6
  {
    WeightedTotal(SumPoints(cards, cardData), d.pointTokens, d.basicEvents, d.specialEvents, d.journeyPoints,
                  CalculateConditionalBonus(cards, d.basicEvents, d.specialEvents, d.architectBonus))
  }

  /**
   * The score record a call of the generator returns, given the game's ledger before
   * the call. Winners are marked later, per game.
   */
  function PlayerScoreOf(t: Tables, playerName: string, playerId: PlayerId, entryType: EntryType,
                         cardData: seq<CardMeta>, ledger: Counts, d: ScoreDraws): PlayerScore
    requires ValidDraws(t, d)
  {
    var score := TargetScore(d.baseScore, d.jitter);
    match entryType
    case Quick =>
      PlayerScore(playerId, playerName, score, d.tiebreaker, false, QuickEntry)
    case Basic =>
      PlayerScore(playerId, playerName, score, d.tiebreaker, false, BasicEntry(BasicBreakdownOf(t, d, score)))
    case Visual =>
      var cards := VisualCity(t, ledger, d);
      var total := AdjustVisualTotal(VisualChecksum(cards, cardData, d), d.totalRedraw);
      var visual := VisualBreakdown(
        cards, CardTokenCounts(cards, d.clockTowerTokens, d.chapelTokens),
        CardResourceCounts(cards, d.architectResources),
        d.pointTokens, SumPoints(cards, cardData), d.basicEvents, d.specialEvents, d.journeyPoints, d.leftovers);
      PlayerScore(playerId, playerName, total, d.tiebreaker, false, VisualEntry(visual))
  }

  /**
   * A score record names its player, is not yet a winner, has the requested entry
   * shape and a total in [20, 100]. Quick and basic totals are the drawn target; a
   * basic breakdown is the draws with card points reconciled to it; a visual total is
   * the city's checksum whenever that lies in range.
   */
  lemma PlayerScoreProperties(t: Tables, playerName: string, playerId: PlayerId, entryType: EntryType,
                              cardData: seq<CardMeta>, ledger: Counts, d: ScoreDraws)
    requires ValidDraws(t, d)
    ensures var p := PlayerScoreOf(t, playerName, playerId, entryType, cardData, ledger, d);
      && p.playerId == playerId && p.playerName == playerName && !p.isWinner
      && p.Kind() == entryType && (p.IsQuickEntry() <==> entryType == Quick)
      && MinTotalScore <= p.totalScore <= MaxTotalScore
      && (entryType != Visual ==> p.totalScore == d.baseScore + d.jitter && p.City() == [])
      && (entryType == Basic ==> p.entry.basic == BasicBreakdownOf(t, d, p.totalScore))
      && (entryType == Basic ==> BasicConsistent(p.totalScore, p.entry.basic))
      && (entryType == Visual ==> p.City() == VisualCity(t, ledger, d))
      && (entryType == Visual ==> p.entry.visual.cardPoints == SumPoints(p.City(), cardData))
      && (entryType == Visual && MinTotalScore <= VisualChecksum(p.City(), cardData, d) <= MaxTotalScore ==>
            p.totalScore == VisualChecksum(p.City(), cardData, d))
  {
  }

  /**
   * A player's city fits the game's remaining quota, holds only base cards, and has
   * at most fifteen cards.
   */
  lemma PlayerCityFits(t: Tables, playerName: string, playerId: PlayerId, entryType: EntryType,
                       cardData: seq<CardMeta>, ledger: Counts, d: ScoreDraws)
    requires ValidDraws(t, d)
    ensures var city := PlayerScoreOf(t, playerName, playerId, entryType, cardData, ledger, d).City();
      && FitsQuota(t.quantities, ledger, city)
      && (forall c :: c in city ==> c in Keys(t.quantities))
      && (ShortArchetypes(t) ==> |city| <= Composer.MaxCitySize)
  {
    if entryType == Visual {
      var archetype := t.archetypes[d.archetype];
      Composer.ComposedCityProperties(t.quantities, archetype, ledger, d.targetSize, d.picks);
      Composer.SeedFromArchetype(t.quantities, archetype, ledger);
    }
  }

  /** The score record reads the game's ledger only through its counts. */
  lemma PlayerScoreSameCounts(t: Tables, playerName: string, playerId: PlayerId, entryType: EntryType,
                              cardData: seq<CardMeta>, l1: Counts, l2: Counts, d: ScoreDraws)
    requires ValidDraws(t, d)
    requires forall c :: Count(l1, c) == Count(l2, c)
    ensures PlayerScoreOf(t, playerName, playerId, entryType, cardData, l1, d) ==
            PlayerScoreOf(t, playerName, playerId, entryType, cardData, l2, d)
  {
    Composer.ComposeCitySameCounts(t.quantities, t.archetypes[d.archetype], l1, l2, d.targetSize, d.picks);
  }

  /**
   * Generates one player's score record and, for a visual entry, records the copies
   * its city takes in the game's ledger.
   */
  method GeneratePlayerScore(t: Tables, playerName: string, playerId: PlayerId, entryType: EntryType,
                             cardData: seq<CardMeta>, gameCardUsage: UsageLedger, d: ScoreDraws)
    returns (p: PlayerScore)
    requires ValidDraws(t, d)
    modifies gameCardUsage
    ensures p == PlayerScoreOf(t, playerName, playerId, entryType, cardData, old(gameCardUsage.counts), d)
    ensures forall c :: Count(gameCardUsage.counts, c) == Count(old(gameCardUsage.counts), c) + multiset(p.City())[c]
  {
    var score := TargetScore(d.baseScore, d.jitter);
    if entryType == Quick {
      p := PlayerScore(playerId, playerName, score, d.tiebreaker, false, QuickEntry);
    } else if entryType == Basic {
      p := PlayerScore(playerId, playerName, score, d.tiebreaker, false, BasicEntry(BasicBreakdownOf(t, d, score)));
    } else {
      var cards, usedCounts := Composer.GenerateCityCards(t.quantities, t.archetypes[d.archetype],
                                                          gameCardUsage.counts, Composer.MaxCitySize, d.targetSize, d.picks);
      gameCardUsage.Merge(usedCounts);
      var baseCardPoints := CalculateCardPoints(cards, cardData);
      var bonus := CalculateConditionalBonus(cards, d.basicEvents, d.specialEvents, d.architectBonus);
      var totalScore := WeightedTotal(baseCardPoints, d.pointTokens, d.basicEvents, d.specialEvents, d.journeyPoints, bonus);
      totalScore := AdjustVisualTotal(totalScore, d.totalRedraw);
      var visual := VisualBreakdown(
        cards, CardTokenCounts(cards, d.clockTowerTokens, d.chapelTokens),
        CardResourceCounts(cards, d.architectResources),
        d.pointTokens, baseCardPoints, d.basicEvents, d.specialEvents, d.journeyPoints, d.leftovers);
      p := PlayerScore(playerId, playerName, totalScore, d.tiebreaker, false, VisualEntry(visual));
    }
  }
}
