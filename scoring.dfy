/**
 * Score arithmetic of the generator: base points of a city looked up in the card
 * metadata, the conditional bonus rules, the clamps that keep totals in range, and
 * the reconciliation of a basic breakdown with its target total.
 */
module Scoring {
  import opened Wrappers
  import opened Catalog
  import opened Numbers

  const MinTotalScore: int := 20
  const MaxTotalScore: int := 100
  /** The floor that reconciliation keeps card points at. */
  const MinCardPoints: int := 15

  // ---------------------------------------------------------------------------
  // Card metadata and base points

  /**
   * The identifier of a metadata record: one of the base card identifiers, or any other
   * name (an expansion card, a misspelling), which no city card ever matches.
   */
  datatype MetaId = Known(card: CardId) | Unknown(name: string)

  /** One record of the card-metadata file; its module tag and base points may be absent. */
  datatype CardMeta = CardMeta(id: MetaId, moduleTag: Option<string>, basePoints: Option<int>)

  /** The records of the base module, in file order. */
  function BaseCards(cardData: seq<CardMeta>): (r: seq<CardMeta>)
    ensures |r| <= |cardData|
    ensures forall m :: m in r <==> m in cardData && m.moduleTag == Some("base")
  {
    if cardData == [] then []
    else (if cardData[0].moduleTag == Some("base") then [cardData[0]] else []) + BaseCards(cardData[1..])
  }

  /** The index of the first record whose identifier is `id`, if any. */
  function FirstMatch(cardData: seq<CardMeta>, id: CardId): (r: Option<nat>)
    ensures r.Some? ==> r.value < |cardData| && cardData[r.value].id == Known(id)
    ensures r.Some? ==> forall j :: 0 <= j < r.value ==> cardData[j].id != Known(id)
    ensures r.None? <==> forall j :: 0 <= j < |cardData| ==> cardData[j].id != Known(id)
  {
    if cardData == [] then None
    else if cardData[0].id == Known(id) then Some(0)
    else
      match FirstMatch(cardData[1..], id)
      case None => None
      case Some(k) => Some(k + 1)
  }

  /** The base points a record carries, zero when it carries none. */
  function PointsOrZero(meta: CardMeta): int
  {
    match meta.basePoints
    case Some(p) => p
    case None => 0
  }

  /** The base points of one card: those of its first record, zero for an unknown card. */
  function BasePointsOf(cardData: seq<CardMeta>, id: CardId): (r: int)
    ensures (forall m :: m in cardData ==> m.id != Known(id)) ==> r == 0
    ensures (forall m :: m in cardData ==> PointsOrZero(m) >= 0) ==> r >= 0
  {
    match FirstMatch(cardData, id)
    case None => 0
    case Some(i) => PointsOrZero(cardData[i])
  }

  /** Filtering keeps file order: the base records of two files put together are those of each, in turn. */
  lemma {:induction false} BaseCardsAppend(a: seq<CardMeta>, b: seq<CardMeta>)
    ensures BaseCards(a + b) == BaseCards(a) + BaseCards(b)
    decreases |a|
  {
    if a != [] {
      var head := if a[0].moduleTag == Some("base") then [a[0]] else [];
      assert (a + b)[1..] == a[1..] + b;
      assert BaseCards(a + b) == head + BaseCards(a[1..] + b);
      BaseCardsAppend(a[1..], b);
      assert head + (BaseCards(a[1..]) + BaseCards(b)) == (head + BaseCards(a[1..])) + BaseCards(b);
    } else {
      assert a + b == b;
    }
  }

  /** A record whose identifier is not `id` is skipped by the lookup. */
  lemma BasePointsOfSkips(meta: CardMeta, cardData: seq<CardMeta>, id: CardId)
    requires meta.id != Known(id)
    ensures BasePointsOf([meta] + cardData, id) == BasePointsOf(cardData, id)
  {
    assert ([meta] + cardData)[1..] == cardData;
  }

  /**
   * Looking a card up in the base records of a file finds the first base-tagged record
   * of the file with that identifier: duplicates further on, and records of other
   * modules before it, do not change its points.
   */
  lemma {:induction false} BaseLookupFindsFirstBaseRecord(cardData: seq<CardMeta>, id: CardId, i: nat)
    requires i < |cardData| && cardData[i].moduleTag == Some("base") && cardData[i].id == Known(id)
    requires forall j :: 0 <= j < i ==> !(cardData[j].moduleTag == Some("base") && cardData[j].id == Known(id))
    ensures BasePointsOf(BaseCards(cardData), id) == PointsOrZero(cardData[i])
    decreases i
  {
    if i > 0 {
      var rest := cardData[1..];
      assert rest[i - 1] == cardData[i];
      assert forall j :: 0 <= j < i - 1 ==> rest[j] == cardData[j + 1];
      BaseLookupFindsFirstBaseRecord(rest, id, i - 1);
      assert !(cardData[0].moduleTag == Some("base") && cardData[0].id == Known(id));
      if cardData[0].moduleTag == Some("base") {
        BasePointsOfSkips(cardData[0], BaseCards(rest), id);
      } else {
        assert BaseCards(cardData) == BaseCards(rest);
      }
    }
  }

  /** The base points of a city, every copy counted, summed in city order. */
  function SumPoints(cards: seq<CardId>, cardData: seq<CardMeta>): int
  {
    if cards == [] then 0
    else SumPoints(cards[..|cards| - 1], cardData) + BasePointsOf(cardData, cards[|cards| - 1])
  }

  /** The points of two card lists put together are the sum of their points. */
  lemma {:induction false} SumPointsAppend(a: seq<CardId>, b: seq<CardId>, cardData: seq<CardMeta>)
    ensures SumPoints(a + b, cardData) == SumPoints(a, cardData) + SumPoints(b, cardData)
  {
    if b == [] {
      assert a + b == a;
    } else {
      var n := |b| - 1;
      assert (a + b)[..|a + b| - 1] == a + b[..n];
      assert (a + b)[|a + b| - 1] == b[n];
      SumPointsAppend(a, b[..n], cardData);
    }
  }

  /** The points of a city depend only on which cards it holds and how often, not on their order. */
  lemma {:induction false} SumPointsPermutation(a: seq<CardId>, b: seq<CardId>, cardData: seq<CardMeta>)
    requires multiset(a) == multiset(b)
    ensures SumPoints(a, cardData) == SumPoints(b, cardData)
  {
    if a != [] {
      var n := |a| - 1;
      assert a[n] in multiset(b) by {
        assert a == a[..n] + [a[n]];
      }
      var k :| 0 <= k < |b| && b[k] == a[n];
      DropLastCopies(a);
      DropAtCopies(b, k);
      SumPointsPermutation(a[..n], b[..k] + b[k + 1..], cardData);
      SumPointsDropAt(b, k, cardData);
    }
  }

  /** Dropping the last card of a list removes one copy of it. */
  lemma DropLastCopies(a: seq<CardId>)
    requires a != []
    ensures multiset(a[..|a| - 1]) == multiset(a) - multiset{a[|a| - 1]}
  {
    assert a == a[..|a| - 1] + [a[|a| - 1]];
  }

  /** Dropping the card at index k of a list removes one copy of it. */
  lemma DropAtCopies(b: seq<CardId>, k: nat)
    requires k < |b|
    ensures multiset(b[..k] + b[k + 1..]) == multiset(b) - multiset{b[k]}
  {
    assert b == b[..k] + [b[k]] + b[k + 1..];
    assert multiset(b) == multiset(b[..k]) + multiset([b[k]]) + multiset(b[k + 1..]);
  }

  /** Dropping the card at index k of a list takes its points off the list's total. */
  lemma SumPointsDropAt(b: seq<CardId>, k: nat, cardData: seq<CardMeta>)
    requires k < |b|
    ensures SumPoints(b, cardData) == SumPoints(b[..k] + b[k + 1..], cardData) + BasePointsOf(cardData, b[k])
  {
    assert b == b[..k] + [b[k]] + b[k + 1..];
    SumPointsAppend(b[..k] + [b[k]], b[k + 1..], cardData);
    SumPointsAppend(b[..k], [b[k]], cardData);
    SumPointsAppend(b[..k], b[k + 1..], cardData);
    assert SumPoints([b[k]], cardData) == BasePointsOf(cardData, b[k]) by {
      assert [b[k]][..0] == [];
    }
  }

  /** With no negative base points in the metadata, a city's points are not negative. */
  lemma {:induction false} SumPointsNonNegative(cards: seq<CardId>, cardData: seq<CardMeta>)
    requires forall m :: m in cardData ==> PointsOrZero(m) >= 0
    ensures SumPoints(cards, cardData) >= 0
  {
    if cards != [] {
      SumPointsNonNegative(cards[..|cards| - 1], cardData);
    }
  }

  /** Sums the base points of the cards, looking each one up in the metadata. */
  method CalculateCardPoints(cards: seq<CardId>, cardData: seq<CardMeta>) returns (total: int)
    ensures total == SumPoints(cards, cardData)
  {
    total := 0;
    for i := 0 to |cards|
      invariant total == SumPoints(cards[..i], cardData)
    {
      assert cards[..i + 1][..i] == cards[..i];
      var card := FirstMatch(cardData, cards[i]);
      if card.Some? {
        total := total + PointsOrZero(cardData[card.value]);
      }
    }
    assert cards[..|cards|] == cards;
  }

  // ---------------------------------------------------------------------------
  // Conditional bonuses

  /** How many entries of `cards` belong to `category`, copies counted. */
  function CountIn(cards: seq<CardId>, category: seq<CardId>): (n: nat)
    ensures n <= |cards|
    ensures n == 0 <==> forall i :: 0 <= i < |cards| ==> cards[i] !in category
    ensures n == |cards| <==> forall i :: 0 <= i < |cards| ==> cards[i] in category
  {
    if cards == [] then 0
    else CountIn(cards[..|cards| - 1], category) + (if cards[|cards| - 1] in category then 1 else 0)
  }

  /** Counting over two lists put together adds the counts. */
  lemma {:induction false} CountInAppend(a: seq<CardId>, b: seq<CardId>, category: seq<CardId>)
    ensures CountIn(a + b, category) == CountIn(a, category) + CountIn(b, category)
  {
    if b == [] {
      assert a + b == a;
    } else {
      var n := |b| - 1;
      assert (a + b)[..|a + b| - 1] == a + b[..n];
      assert (a + b)[|a + b| - 1] == b[n];
      CountInAppend(a, b[..n], category);
    }
  }

  /**
   * The bonus that trigger cards in the city grant:
   * king, one point per basic event and two per special event;
   * architect, a drawn resource count capped at six;
   * castle, palace, school, theatre and ever_tree, one point per city card of their category;
   * wife with husband, a flat three.
   */
  function CalculateConditionalBonus(cards: seq<CardId>, basicEvents: int, specialEvents: int, architectDraw: int): (r: int)
    requires 0 <= architectDraw <= 6
    ensures NoTrigger(cards) ==> r == 0
  {
    (if King in cards then basicEvents + specialEvents * 2 else 0)
    + (if Architect in cards then Min(6, architectDraw) else 0)
    + (if Castle in cards then CountIn(cards, CommonConstructions) else 0)
    + (if Palace in cards then CountIn(cards, UniqueConstructions) else 0)
    + (if School in cards then CountIn(cards, CommonCritters) else 0)
    + (if Theatre in cards then CountIn(cards, UniqueCritters) else 0)
    + (if Wife in cards && Husband in cards then 3 else 0)
    + (if EverTree in cards then CountIn(cards, ProsperityCards) else 0)
  }

  /** No bonus rule applies to the city. */
  predicate NoTrigger(cards: seq<CardId>)
  {
    && King !in cards && Architect !in cards && Castle !in cards && Palace !in cards
    && School !in cards && Theatre !in cards && EverTree !in cards
    && !(Wife in cards && Husband in cards)
  }

  /**
   * With non-negative event counts the bonus is non-negative, and at most the king's
   * event points, six for architect, one per card for each of the five category rules,
   * and three for the pair.
   */
  lemma BonusBounds(cards: seq<CardId>, basicEvents: int, specialEvents: int, architectDraw: int)
    requires 0 <= architectDraw <= 6 && basicEvents >= 0 && specialEvents >= 0
    ensures 0 <= CalculateConditionalBonus(cards, basicEvents, specialEvents, architectDraw)
    ensures CalculateConditionalBonus(cards, basicEvents, specialEvents, architectDraw) <=
            basicEvents + 2 * specialEvents + 6 + 5 * |cards| + 3
  {
    var n := |cards|;
    BonusTermsBound(n, if King in cards then basicEvents + specialEvents * 2 else 0, basicEvents + 2 * specialEvents,
      if Architect in cards then Min(6, architectDraw) else 0,
      if Castle in cards then CountIn(cards, CommonConstructions) else 0,
      if Palace in cards then CountIn(cards, UniqueConstructions) else 0,
      if School in cards then CountIn(cards, CommonCritters) else 0,
      if Theatre in cards then CountIn(cards, UniqueCritters) else 0,
      if Wife in cards && Husband in cards then 3 else 0,
      if EverTree in cards then CountIn(cards, ProsperityCards) else 0);
  }

  /** Eight bonus terms within their own bounds add up within the sum of those bounds. */
  lemma BonusTermsBound(n: nat, king: int, events: int, architect: int, castle: nat, palace: nat, school: nat, theatre: nat, pair: int, everTree: nat)
    requires 0 <= king <= events && 0 <= architect <= 6 && 0 <= pair <= 3
    requires castle <= n && palace <= n && school <= n && theatre <= n && everTree <= n
    ensures 0 <= king + architect + castle + palace + school + theatre + pair + everTree <= events + 6 + 5 * n + 3
  {
  }

  /** The events enter the bonus only through king: one point per basic and two per special event. */
  lemma BonusEventTerm(cards: seq<CardId>, basicEvents: int, specialEvents: int, architectDraw: int)
    requires 0 <= architectDraw <= 6
    ensures CalculateConditionalBonus(cards, basicEvents, specialEvents, architectDraw) ==
            CalculateConditionalBonus(cards, 0, 0, architectDraw) +
            (if King in cards then basicEvents + 2 * specialEvents else 0)
  {
  }

  /** The drawn resource count enters the bonus only through architect, and adds between zero and six. */
  lemma BonusArchitectTerm(cards: seq<CardId>, basicEvents: int, specialEvents: int, architectDraw: int)
    requires 0 <= architectDraw <= 6
    ensures var withDraw := CalculateConditionalBonus(cards, basicEvents, specialEvents, architectDraw);
            var without := CalculateConditionalBonus(cards, basicEvents, specialEvents, 0);
      && withDraw - without == (if Architect in cards then architectDraw else 0)
      && 0 <= withDraw - without <= 6
  {
  }

  /** A city whose only trigger is the wife and husband pair earns exactly three. */
  lemma BonusOfPairAlone(cards: seq<CardId>, basicEvents: int, specialEvents: int, architectDraw: int)
    requires 0 <= architectDraw <= 6
    requires Wife in cards && Husband in cards
    requires King !in cards && Architect !in cards && Castle !in cards && Palace !in cards
    requires School !in cards && Theatre !in cards && EverTree !in cards
    ensures CalculateConditionalBonus(cards, basicEvents, specialEvents, architectDraw) == 3
  {
  }

  /**
   * The five rules that count cards of a category in the city: castle counts common
   * constructions, palace unique constructions, school common critters, theatre
   * unique critters, and ever tree prosperity cards.
   */
  const CountingRules: seq<(CardId, seq<CardId>)> :=
    [(Castle, CommonConstructions), (Palace, UniqueConstructions), (School, CommonCritters),
     (Theatre, UniqueCritters), (EverTree, ProsperityCards)]

  /**
   * A city whose only trigger is the card of one counting rule earns one point per
   * position of the city that holds a card of that rule's category.
   */
  lemma BonusOfCountingRuleAlone(cards: seq<CardId>, basicEvents: int, specialEvents: int, architectDraw: int,
                                 rule: nat)
    requires 0 <= architectDraw <= 6
    requires rule < |CountingRules| && CountingRules[rule].0 in cards
    requires forall k :: 0 <= k < |CountingRules| && k != rule ==> CountingRules[k].0 !in cards
    requires King !in cards && Architect !in cards && !(Wife in cards && Husband in cards)
    ensures CalculateConditionalBonus(cards, basicEvents, specialEvents, architectDraw) ==
            |set i | 0 <= i < |cards| && cards[i] in CountingRules[rule].1|
  {
    assert CountingRules[0].0 == Castle && CountingRules[1].0 == Palace && CountingRules[2].0 == School;
    assert CountingRules[3].0 == Theatre && CountingRules[4].0 == EverTree;
    CountInIsIndexCount(cards, CountingRules[rule].1);
  }

  /** CountIn is the number of positions of the list that hold a category card. */
  lemma {:induction false} CountInIsIndexCount(cards: seq<CardId>, category: seq<CardId>)
    ensures CountIn(cards, category) == |set i | 0 <= i < |cards| && cards[i] in category|
  {
    if cards != [] {
      var n := |cards| - 1;
      CountInIsIndexCount(cards[..n], category);
      var before := set i | 0 <= i < n && cards[..n][i] in category;
      var after := set i | 0 <= i < |cards| && cards[i] in category;
      assert before == set i | 0 <= i < n && cards[i] in category;
      if cards[n] in category {
        assert after == before + {n};
      } else {
        assert after == before;
      }
    }
  }

  // ---------------------------------------------------------------------------
  // Totals

  /** Clamps x into [lo, hi]. */
  function Clamp(x: int, lo: int, hi: int): (r: int)
    requires lo <= hi
    ensures lo <= r <= hi
    ensures lo <= x <= hi ==> r == x
    ensures x < lo ==> r == lo
    ensures x > hi ==> r == hi
  {
    Max(lo, Min(hi, x))
  }

  /**
   * The target total every entry shape starts from: a base in [25, 85] plus a jitter
   * in [-5, 15], clamped to [20, 100]. The clamp never binds on those ranges.
   */
  function TargetScore(baseScore: int, jitter: int): (r: int)
    requires 25 <= baseScore <= 85 && -5 <= jitter <= 15
    ensures MinTotalScore <= r <= MaxTotalScore
    ensures r == baseScore + jitter
  {
    Clamp(baseScore + jitter, MinTotalScore, MaxTotalScore)
  }

  /** The weighted checksum of a breakdown: events count two and three points each. */
  function WeightedTotal(cardPoints: int, pointTokens: int, basicEvents: int, specialEvents: int,
                         journeyPoints: int, extra: int): int
  {
    cardPoints + pointTokens + basicEvents * 2 + specialEvents * 3 + journeyPoints + extra
  }

  /**
   * Basic entries: shifts card points by the difference between the target score and
   * the weighted checksum, without going below fifteen.
   */
  function ReconcileCardPoints(cardPoints: int, pointTokens: int, basicEvents: int, specialEvents: int,
                               journeyPoints: int, prosperityPoints: int, score: int): (r: int)
    requires cardPoints >= MinCardPoints
    ensures r >= MinCardPoints
    ensures var diff := score - WeightedTotal(cardPoints, pointTokens, basicEvents, specialEvents, journeyPoints, prosperityPoints);
            cardPoints + diff >= MinCardPoints ==>
              WeightedTotal(r, pointTokens, basicEvents, specialEvents, journeyPoints, prosperityPoints) == score
    ensures WeightedTotal(r, pointTokens, basicEvents, specialEvents, journeyPoints, prosperityPoints) == score
            || (r == MinCardPoints &&
                WeightedTotal(r, pointTokens, basicEvents, specialEvents, journeyPoints, prosperityPoints) > score)
  {
    var totalCalc := WeightedTotal(cardPoints, pointTokens, basicEvents, specialEvents, journeyPoints, prosperityPoints);
    if totalCalc != score then Max(MinCardPoints, cardPoints + (score - totalCalc)) else cardPoints
  }

  /**
   * The floor can leave a basic breakdown above its total: with every other field at its
   * highest draw and the lowest target, the checksum is 56 while the total is 20.
   */
  lemma ReconciliationCanOvershoot()
    ensures ReconcileCardPoints(15, 8, 3, 2, 6, 15, 20) == MinCardPoints
    ensures WeightedTotal(ReconcileCardPoints(15, 8, 3, 2, 6, 15, 20), 8, 3, 2, 6, 15) == 56
  {
  }

  /**
   * Visual entries: a total outside [20, 100] is replaced by a redrawn value near the
   * violated bound; a total in range is kept.
   */
  function AdjustVisualTotal(total: int, redraw: int): (r: int)
    requires 0 <= redraw <= 10
    ensures MinTotalScore <= r <= MaxTotalScore
    ensures MinTotalScore <= total <= MaxTotalScore ==> r == total
    ensures total < MinTotalScore ==> r <= MinTotalScore + 10
    ensures total > MaxTotalScore ==> r >= MaxTotalScore - 10
  {
    if total < MinTotalScore then MinTotalScore + redraw
    else if total > MaxTotalScore then MaxTotalScore - redraw
    else total
  }
}
