/**
 * The static tables of the generator: how many copies of each base-game card exist,
 * the base card identifiers in table order, the player-name pool, the ten city
 * archetypes, and the card categories that the conditional bonuses count.
 */
module Catalog {

  /**
   * The base-game card identifiers, numbered in the order of the quantity table: the
   * card called `farm` is 0, `general_store` is 1, and so on up to `university` (47).
   */
  newtype CardId = i: int | 0 <= i < 48

  const Farm: CardId := 0
  const GeneralStore: CardId := 1
  const Inn: CardId := 2
  const Mine: CardId := 3
  const PostOffice: CardId := 4
  const ResinRefinery: CardId := 5
  const Storehouse: CardId := 6
  const TwigBarge: CardId := 7
  const Ruins: CardId := 8
  const BargeToad: CardId := 9
  const ChipSweep: CardId := 10
  const Husband: CardId := 11
  const Peddler: CardId := 12
  const PostalPigeon: CardId := 13
  const Teacher: CardId := 14
  const Wife: CardId := 15
  const Wanderer: CardId := 16
  const Woodcarver: CardId := 17
  const Architect: CardId := 18
  const Bard: CardId := 19
  const Castle: CardId := 20
  const Cemetery: CardId := 21
  const Chapel: CardId := 22
  const ClockTower: CardId := 23
  const Courthouse: CardId := 24
  const Crane: CardId := 25
  const Doctor: CardId := 26
  const Dungeon: CardId := 27
  const EverTree: CardId := 28
  const Fairgrounds: CardId := 29
  const Fool: CardId := 30
  const Historian: CardId := 31
  const Innkeeper: CardId := 32
  const Judge: CardId := 33
  const King: CardId := 34
  const Lookout: CardId := 35
  const MinerMole: CardId := 36
  const Monastery: CardId := 37
  const Monk: CardId := 38
  const Palace: CardId := 39
  const Queen: CardId := 40
  const Ranger: CardId := 41
  const School: CardId := 42
  const Shepherd: CardId := 43
  const Shopkeeper: CardId := 44
  const Theatre: CardId := 45
  const Undertaker: CardId := 46
  const University: CardId := 47

  /** A positive copy count. */
  type Copies = n: nat | n > 0 witness 1

  /** Copies of each common base-game card that one game can hold, in table order. */
  const CommonCardQuantities: seq<(CardId, Copies)> := [
    (Farm, 8), (GeneralStore, 3), (Inn, 3), (Mine, 3), (PostOffice, 3),
    (ResinRefinery, 3), (Storehouse, 3), (TwigBarge, 3), (Ruins, 3), (BargeToad, 3),
    (ChipSweep, 3), (Husband, 4), (Peddler, 3), (PostalPigeon, 3), (Teacher, 3),
    (Wife, 4), (Wanderer, 3), (Woodcarver, 3)
  ]

  /** The unique base-game cards: one copy each, in table order. */
  const UniqueCardQuantities: seq<(CardId, Copies)> := [
    (Architect, 1), (Bard, 1), (Castle, 1), (Cemetery, 1), (Chapel, 1),
    (ClockTower, 1), (Courthouse, 1), (Crane, 1), (Doctor, 1), (Dungeon, 1),
    (EverTree, 1), (Fairgrounds, 1), (Fool, 1), (Historian, 1), (Innkeeper, 1),
    (Judge, 1), (King, 1), (Lookout, 1), (MinerMole, 1), (Monastery, 1),
    (Monk, 1), (Palace, 1), (Queen, 1), (Ranger, 1), (School, 1),
    (Shepherd, 1), (Shopkeeper, 1), (Theatre, 1), (Undertaker, 1), (University, 1)
  ]

  /**
   * A quantity table: card identifiers with the copies one game can hold. The script's
   * table is an insertion-ordered dictionary, so it is kept as a sequence of entries.
   */
  type QuantityTable = seq<(CardId, Copies)>

  /** The script's quantity table. */
  const CardQuantities: QuantityTable := CommonCardQuantities + UniqueCardQuantities

  /** The table's keys, in table order. */
  const BaseCardIds: seq<CardId> := Keys(CardQuantities)

  /** The identifiers of a table, in table order. */
  function Keys(table: QuantityTable): seq<CardId>
  {
    seq(|table|, i requires 0 <= i < |table| => table[i].0)
  }

  /**
   * The copies `table` lists for c at its first entry; a card the table does not list
   * has no copies at all.
   */
  function Quantity(table: QuantityTable, c: CardId): nat
  {
    if table == [] then 0
    else if table[0].0 == c then table[0].1
    else Quantity(table[1..], c)
  }

  /** The fixed pool of player display names. */
  const Players: seq<string> := ["Alice", "Bob", "Charlie", "Diana", "Eve", "Frank", "Grace", "Henry"]

  /** Ten thematic end-game cities used to seed a composed city. */
  const CityArchetypes: seq<seq<CardId>> := [
    [Farm, GeneralStore, Mine, ResinRefinery, TwigBarge, BargeToad, ChipSweep, Peddler],
    [Castle, EverTree, Palace, School, Theatre, Architect, King, Wife],
    [ClockTower, Courthouse, Crane, Dungeon, University, Historian, Innkeeper, Judge],
    [Cemetery, Chapel, Inn, Lookout, Monastery, PostOffice, Queen],
    [Farm, Castle, School, Theatre, Historian, Shopkeeper, Teacher, Woodcarver],
    [EverTree, Palace, King, Architect, Wife, Husband],
    [Farm, GeneralStore, Castle, Palace, School, BargeToad, ChipSweep, Wife],
    [ClockTower, Courthouse, Chapel, Inn, Historian, Judge, Queen],
    [Architect, King, Queen, Historian, Judge, Shopkeeper, Teacher, Woodcarver],
    [Castle, Palace, School, Theatre, EverTree, Fairgrounds, University]
  ]

  /** Card categories counted by the conditional bonuses. */
  const CommonConstructions: seq<CardId> := [Farm, GeneralStore, Inn, Mine, PostOffice, ResinRefinery, Storehouse, TwigBarge, Ruins]
  const UniqueConstructions: seq<CardId> :=
    [Castle, Cemetery, Chapel, ClockTower, Courthouse, Crane, Dungeon, EverTree, Fairgrounds, Lookout, Monastery, Palace, School, Theatre, University]
  const CommonCritters: seq<CardId> := [BargeToad, ChipSweep, Husband, Peddler, PostalPigeon, Teacher, Wife, Wanderer, Woodcarver]
  const UniqueCritters: seq<CardId> :=
    [Architect, Bard, Doctor, Fool, Historian, Innkeeper, Judge, King, MinerMole, Monk, Queen, Ranger, Shepherd, Shopkeeper, Undertaker]
  const ProsperityCards: seq<CardId> := [Castle, EverTree, Palace, School, Theatre, Architect, King, Wife]

  /**
   * The tables a run of the generator reads: card quantities, city archetypes and the
   * player-name pool. The generator's operations are stated for any tables; the script
   * runs them on `ScriptTables`.
   */
  datatype Tables = Tables(quantities: QuantityTable, archetypes: seq<seq<CardId>>, playerPool: seq<string>)

  const ScriptTables: Tables := Tables(CardQuantities, CityArchetypes, Players)

  /** A table lists c exactly when its lookup finds copies of c. */
  lemma {:induction false} QuantityPositiveIffListed(table: QuantityTable, c: CardId)
    ensures Quantity(table, c) > 0 <==> c in Keys(table)
  {
    if table != [] {
      assert Keys(table) == [table[0].0] + Keys(table[1..]);
      QuantityPositiveIffListed(table[1..], c);
    }
  }

  /** Looking c up finds the first entry that lists it. */
  lemma {:induction false} QuantityOfFirstEntry(table: QuantityTable, i: nat, c: CardId)
    requires i < |table| && table[i].0 == c
    requires forall j :: 0 <= j < i ==> table[j].0 != c
    ensures Quantity(table, c) == table[i].1
  {
    if i > 0 {
      QuantityOfFirstEntry(table[1..], i - 1, c);
    }
  }

  /** The unique cards, `king` among them, exist once per game. */
  lemma KingIsUnique()
    ensures Quantity(CardQuantities, King) == 1
  {
    var king := |CommonCardQuantities| + 16;
    assert CardQuantities[king] == UniqueCardQuantities[16] == (King, 1);
    forall j | 0 <= j < king ensures CardQuantities[j].0 != King {
      if j < |CommonCardQuantities| {
        assert CardQuantities[j] == CommonCardQuantities[j];
      } else {
        assert CardQuantities[j] == UniqueCardQuantities[j - |CommonCardQuantities|];
      }
    }
    QuantityOfFirstEntry(CardQuantities, king, King);
  }
}
