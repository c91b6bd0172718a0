# Everdell test-data generator, modelled in Dafny

This project models the game-record generator `generate_test_data.py`. The generator
writes one hundred Everdell games as an export file.

Each game works as follows:
- It draws two to six distinct names from a pool of eight.
- It gives every player a score record in one of three entry shapes: quick (a total
  only), basic (a category breakdown reconciled with the total) or visual (a city of
  base-game cards whose points and conditional bonuses make up the total).
- It marks every player with the highest total as a winner.

The hundred games follow a shuffled 5 / 30 / 65 split of the shapes. They are dated
three days apart, plus a jitter of up to two days. Visual cities share one usage
ledger per game: a card is added to a city only while the game has used fewer copies
of it than the quantity table allows.

Every random draw is an explicit input, and its drawn range is a precondition:
- `ScoreDraws` holds one player's draws;
- `GameDraws` holds one game's draws;
- the fill phase receives its fifty catalogue picks as a sequence.

The quantity table, the archetypes and the name pool are passed in as `Tables`;
`Catalog.ScriptTables` holds the script's own. Card identifiers are numbered 0 to 47
in the order of the quantity table.

Modules, one per concern of the script:
- `Catalog`: the quantity table, archetypes, names and bonus categories.
- `Ledger`: the per-game usage ledger, a class updated in place.
- `Composer`: `generate_city_cards`.
- `Scoring`: card points, the conditional bonus, the clamps and the reconciliation.
- `PlayerScores`: `generate_player_score`.
- `Games`: winners, one game and the dataset of `main`.

The loops of the script are imperative methods: the two phases of the city composer,
the card-points accumulator, the ledger merge, the player loop, the winner flags and
the game loop. Each is proved equal to a functional specification, and the lemmas
state their properties on that specification.

## Model

| member | source | states |
|---|---|---|
| Catalog.Quantity | generate_test_data.py:8-24 | the `CARD_QUANTITIES[card]` lookup: the count of the first table entry that lists the card, zero for a card the table does not list; specification function, whose properties are stated by the two lemmas below |
| Catalog.QuantityPositiveIffListed | generate_test_data.py:8-24 | a card has copies in the table exactly when it is one of the table's identifiers (the `card_id in BASE_CARD_IDS` test) |
| Catalog.QuantityOfFirstEntry | generate_test_data.py:8-21 | the quantity of a card is the count of the first table entry that lists it |
| Catalog.KingIsUnique | generate_test_data.py:15-20 | the script's table holds exactly one copy of `king` |
| Ledger.RecordingFittingCityKeepsQuota | generate_test_data.py:213-215 | a ledger within quota stays within quota after the counts of a city that fits are added to it |
| Ledger.Tally | generate_test_data.py:55-75 | the per-call `used_counts` as a function of the kept cards, one increment per copy in city order; specification function, whose meaning is stated by `Ledger.TallyCounts` |
| Ledger.TallyCounts | generate_test_data.py:55-75 | counting a card list one copy at a time gives, for every card, its number of occurrences in the list |
| Ledger.UsageLedger.constructor | generate_test_data.py:298 | a fresh game ledger records no card |
| Ledger.UsageLedger.Merge | generate_test_data.py:214-215 | after the merge, each card's count is its old count plus its count in the per-call counts |
| Composer.Seed | generate_test_data.py:59-65 | the archetype phase as a function of the archetype and the game's ledger; specification function, whose properties are stated by the four Seed lemmas below |
| Composer.SeedCount | generate_test_data.py:59-65 | the archetype phase keeps each catalogued card as often as the archetype lists it, capped by the copies the game still has room for, and drops uncatalogued cards |
| Composer.SeedFromArchetype | generate_test_data.py:59-64 | the archetype phase yields no more cards than the archetype, all of them catalogued archetype cards |
| Composer.SeedFitsQuota | generate_test_data.py:59-65 | every card the archetype phase keeps fits the game's remaining quota |
| Composer.SeedStep | generate_test_data.py:59-65 | the next archetype card is kept exactly when it is catalogued and the ledger count plus this city's copies is below its quantity |
| Composer.Fill | generate_test_data.py:67-76 | the fill phase as a function of the city so far, the target size and the fifty picks; specification function, whose properties are stated by the Fill lemmas below |
| Composer.FillBounds | generate_test_data.py:68-77 | the fill never removes cards, uses at most fifty attempts, adds at most one card per attempt, stops at the target size or after the last attempt, never grows the city past the target, and does nothing once the target is reached |
| Composer.FillGrows | generate_test_data.py:70-76 | the fill only appends, spends at most the remaining attempts, and adds at most one card per attempt |
| Composer.FillStops | generate_test_data.py:70-76 | the fill ends at the target size or after the last attempt, never overshoots the target, and does nothing at or above it |
| Composer.AddUnderQuotaFits | generate_test_data.py:72-75 | adding a pick that is under quota keeps a fitting city fitting |
| Composer.FillKeepsQuota | generate_test_data.py:70-76 | the fill keeps a fitting city within the game's quota |
| Composer.ComposeCity | generate_test_data.py:53-78 | `generate_city_cards` as a function: the fill phase applied to the archetype phase's cards; specification function, whose properties are stated by `Composer.ComposedCityProperties` and `Composer.ComposeCitySameCounts` |
| Composer.ComposedCityProperties | generate_test_data.py:53-78 | a composed city fits the game's quota, holds only catalogued cards, starts with the archetype phase's cards, and obeys the fill bounds |
| Composer.SeedSameCounts | generate_test_data.py:62 | the archetype phase depends on the ledger only through its per-card counts |
| Composer.FillSameCounts | generate_test_data.py:72 | the fill depends on the ledger only through its per-card counts |
| Composer.ComposeCitySameCounts | generate_test_data.py:53-78 | two ledgers with equal counts compose the same city |
| Composer.CountsTrackCity | generate_test_data.py:64-65 | recording one more copy keeps the per-call counts equal to the occurrences in the city |
| Composer.TakeArchetypeCards | generate_test_data.py:55-65 | the archetype loop returns the archetype phase's cards, with counts equal to their occurrences |
| Composer.FillToTarget | generate_test_data.py:67-76 | the fill loop returns the fill specification's cards, with counts equal to their occurrences |
| Composer.GenerateCityCards | generate_test_data.py:53-78 | the composer returns the specified city, with per-call counts equal to the occurrences of each card; the city fits the quota, holds only catalogued cards, starts with the archetype cards and is no longer than the larger of that start and the target |
| Scoring.BaseCards | generate_test_data.py:273 | the base cards are exactly the metadata records tagged with the base module, and there are no more of them than records |
| Scoring.BaseCardsAppend | generate_test_data.py:273 | the filter keeps file order: the base records of two files put together are those of the first file followed by those of the second |
| Scoring.FirstMatch | generate_test_data.py:84 | the lookup finds the first record with the card's identifier, and finds nothing exactly when no record has it |
| Scoring.BasePointsOf | generate_test_data.py:84-86 | an unknown card scores zero; with no negative base points, a card scores at least zero |
| Scoring.BasePointsOfSkips | generate_test_data.py:84 | the lookup passes over a record whose identifier is another card's |
| Scoring.BaseLookupFindsFirstBaseRecord | generate_test_data.py:84-86 | looking a card up among the base records of a file gives the points of the first base-tagged record of the file with that identifier, whatever duplicates follow it and whatever records of other modules precede it |
| Scoring.SumPoints | generate_test_data.py:80-87 | `calculate_card_points` as a function: the base points of each copy, summed in city order; specification function, whose properties are stated by the SumPoints lemmas below and by `Scoring.CalculateCardPoints` |
| Scoring.SumPointsAppend | generate_test_data.py:82-86 | the points of two card lists put together are the sum of their points |
| Scoring.SumPointsPermutation | generate_test_data.py:82-86 | the points of a city depend only on the multiset of its cards, so every copy counts and order does not matter |
| Scoring.SumPointsNonNegative | generate_test_data.py:82-86 | with no negative base points in the metadata, a city's points are at least zero |
| Scoring.CalculateCardPoints | generate_test_data.py:80-87 | the accumulator loop returns the sum of the first matching record's base points over the cards, zero for unknown cards and for records without points |
| Scoring.CountIn | generate_test_data.py:105 | the category count is at most the city size, zero exactly when no card is in the category, and the city size exactly when every card is |
| Scoring.CountInIsIndexCount | generate_test_data.py:105 | the category count is the number of positions of the city holding a category card |
| Scoring.CalculateConditionalBonus | generate_test_data.py:89-137 | a city with none of the trigger cards earns no bonus |
| Scoring.BonusBounds | generate_test_data.py:89-137 | with non-negative event counts the bonus is at least zero and at most the king's events plus six, plus one per card for each of the five category rules, plus three |
| Scoring.BonusEventTerm | generate_test_data.py:94-95 | the events enter the bonus only through king: one point per basic event and two per special event |
| Scoring.BonusArchitectTerm | generate_test_data.py:98-99 | the architect term is the drawn count in [0, 6] when the city holds architect, and zero otherwise |
| Scoring.BonusOfPairAlone | generate_test_data.py:128-129 | wife together with husband, and no other trigger, earns exactly three |
| Scoring.BonusOfCountingRuleAlone | generate_test_data.py:101-135 | for each of the five counting rules (castle and common constructions, palace and unique constructions, school and common critters, theatre and unique critters, ever tree and prosperity cards), a city whose only trigger is that rule's card earns one point per position of the city holding a card of the rule's category |
| Scoring.Clamp | generate_test_data.py:144 | the clamp lands in [lo, hi], keeps a value already in range, and maps a value below or above the range to the violated bound |
| Scoring.TargetScore | generate_test_data.py:142-144 | the target total is in [20, 100] and equals base plus jitter: the clamp never binds on the drawn ranges |
| Scoring.ReconcileCardPoints | generate_test_data.py:174-180 | reconciled card points are at least fifteen; when shifting by the difference keeps them at fifteen or more, the weighted checksum equals the target; otherwise the points sit at fifteen with the checksum above the target |
| Scoring.ReconciliationCanOvershoot | generate_test_data.py:174-180 | with the lowest target and the highest other draws, card points stay at fifteen and the checksum is 56 against a total of 20 |
| Scoring.AdjustVisualTotal | generate_test_data.py:230-233 | the visual total lands in [20, 100]; a total in range is kept; one below range becomes at most 30 and one above becomes at least 90 |
| PlayerScores.ScriptArchetypesAreShort | generate_test_data.py:30-51 | no archetype of the script holds more than eight cards |
| PlayerScores.CardTokenCounts | generate_test_data.py:236-240 | the token map is absent exactly when the city holds neither clock_tower nor chapel; otherwise its keys are the ones the city holds, with their drawn token counts |
| PlayerScores.CardResourceCounts | generate_test_data.py:243-245 | the resource map is absent exactly when the city lacks architect; otherwise it maps architect alone to its drawn count |
| PlayerScores.BasicBreakdownOf | generate_test_data.py:159-206 | a basic breakdown's card points are the drawn card points reconciled with the total, so at least fifteen, and its checksum is the total unless the points sit at that floor above it; the other twelve categories and the leftovers are exactly the draws, and prosperity-card points repeat prosperity points |
| PlayerScores.PlayerScoreOf | generate_test_data.py:139-266 | `generate_player_score` as a function of the tables, the player, the entry shape, the metadata, the game's ledger before the call and the draws; specification function, whose properties are stated by the three lemmas below |
| PlayerScores.PlayerScoreProperties | generate_test_data.py:139-266 | a score record names its player, is not yet a winner, has the requested shape and a total in [20, 100]. Quick and basic totals are base plus jitter, with an empty city. A basic record carries the breakdown of its draws reconciled with its total. A visual record holds the composed city and that city's card points. A visual total is the checksum whenever the checksum is in range |
| PlayerScores.PlayerCityFits | generate_test_data.py:210-215 | a player's city fits the game's remaining quota, holds only base cards, and has at most fifteen cards when the archetypes are short |
| PlayerScores.PlayerScoreSameCounts | generate_test_data.py:211 | the score record depends on the ledger only through its per-card counts |
| PlayerScores.GeneratePlayerScore | generate_test_data.py:139-266 | the method returns the specified record and adds the city's copies of each card to the game's ledger |
| Games.PlayersOf | generate_test_data.py:304-311 | the first n seats give n records |
| Games.PlayerAtSeat | generate_test_data.py:304-311 | seat i's record is generated for its own name, identifier and draws, against the ledger of the seats before it |
| Games.PlayersOfStable | generate_test_data.py:304-311 | seat i's record is the same however many seats follow it |
| Games.PlayersOfLast | generate_test_data.py:306-310 | the last seat is generated against the ledger of the seats before it |
| Games.PlayersOfKeepsEarlier | generate_test_data.py:310 | appending a seat leaves the earlier records unchanged |
| Games.CityUsage | generate_test_data.py:298-311 | the game's ledger after the given players were generated: the copies of each card in their cities; specification function, whose properties are stated by `Games.CityUsageAppend` and `Games.GameWithinQuota` |
| Games.CityUsageAppend | generate_test_data.py:213-215 | recording a player adds exactly that player's city copies to the game's ledger |
| Games.GameWithinQuota | generate_test_data.py:298-311 | after any number of seats, the game's ledger is within the quantity table |
| Games.RecordingKeepsQuota | generate_test_data.py:213-215 | a ledger within quota stays within quota when a player whose city fits joins |
| Games.AllCardsHoldsCities | generate_test_data.py:298-311 | the copies of a card in two distinct seats' cities are all among the copies the game records |
| Games.SingleCopyInOneCity | generate_test_data.py:63 | in a game within quota, a card with one copy is in at most one city |
| Games.UniqueCardInAtMostOneCity | generate_test_data.py:298-311 | in a generated game, a card the table holds once is in the city of at most one player |
| Games.KingInAtMostOneCity | generate_test_data.py:298-311 | with the script's tables, at most one player of a game has king in their city |
| Games.TopScore | generate_test_data.py:314 | the maximum score bounds every total and is reached by some player |
| Games.WinnersAt | generate_test_data.py:315 | an identifier is listed exactly when a player with that identifier has the given total |
| Games.WinnersAtAppend | generate_test_data.py:315 | winners are listed in seat order: those of a first group of seats, then those of the next |
| Games.WinnerIds | generate_test_data.py:314-315 | the winner list is non-empty and holds exactly the identifiers of players with the maximum total |
| Games.Marked | generate_test_data.py:316-317 | each player is kept, with the winner flag set to whether the player's identifier is a winner |
| Games.MarkWinners | generate_test_data.py:316-317 | the flag loop sets each player's winner flag to membership of the winner list |
| Games.DayOffset | generate_test_data.py:320 | game g is dated within days [3g, 3g + 3) after the start |
| Games.DayOffsetIncreasing | generate_test_data.py:320 | a later game is dated strictly later, whatever the jitters |
| Games.GameOf | generate_test_data.py:284-330 | one iteration of the game loop as a function of the game number, the entry shape and the game's draws; specification function, whose properties are stated by the game lemmas below and by `Games.GenerateGame` |
| Games.SeatsOfGame | generate_test_data.py:304-311 | seat i holds the i-th drawn name and identifier (game, i), the game's entry shape and a total in [20, 100] |
| Games.MarkedSeatedAs | generate_test_data.py:316-317 | setting the winner flags keeps every seat's name, identifier, shape and total |
| Games.SeatIdsDistinct | generate_test_data.py:305 | the identifiers of a game's seats are pairwise distinct |
| Games.WinnersOfSeats | generate_test_data.py:313-317 | after marking, a player is flagged exactly when their total is the maximum and exactly when their identifier is a winner, and every winner is seated |
| Games.MarkedKeepsTopScore | generate_test_data.py:316-317 | setting the flags changes no total, so the maximum stays |
| Games.MarkedFlagsTopScorers | generate_test_data.py:313-317 | with distinct identifiers, a flag is set exactly for the players at the maximum total |
| Games.WinnersAreSeated | generate_test_data.py:315 | every winner identifier belongs to a seated player |
| Games.WinnerIsSeated | generate_test_data.py:315 | one winner identifier belongs to a seated player |
| Games.GameProperties | generate_test_data.py:284-328 | a game has two to six players (at most four on the usual branch), each seated with its own name and identifier, the game's shape and a total in [20, 100]; its winners are non-empty and exactly the players at the maximum, flagged as such; it is dated in its own window |
| Games.GeneratePlayers | generate_test_data.py:298-311 | the player loop with its shared in-place ledger returns the specified seats |
| Games.GenerateGame | generate_test_data.py:284-330 | the method builds the specified game: the seats, the winners, their flags and the date |
| Games.Repeat | generate_test_data.py:279 | n copies of a shape have length n and hold only that shape |
| Games.RepeatCount | generate_test_data.py:279 | n copies of x hold x n times and no other shape |
| Games.DistributionCount | generate_test_data.py:279 | the unshuffled list holds 5 quick, 30 basic and 65 visual shapes |
| Games.DistributionSize | generate_test_data.py:279 | the unshuffled list holds one hundred shapes |
| Games.ShuffledDistribution | generate_test_data.py:278-280 | any permutation of the list has one hundred shapes: 5 quick, 30 basic and 65 visual |
| Games.GamesOf | generate_test_data.py:284-330 | the first n games number n |
| Games.GamesOfStep | generate_test_data.py:330 | one more game extends the list by that game |
| Games.GamesOfAt | generate_test_data.py:284-330 | game g of the dataset is the game built from the g-th shape and draws |
| Games.GamesOfStable | generate_test_data.py:284-330 | game g is the same however many games follow it |
| Games.GamesOfLast | generate_test_data.py:321-330 | the last game is built from its own shape and draws |
| Games.GamesOfKeepsEarlier | generate_test_data.py:330 | appending a game leaves the earlier games unchanged |
| Games.GameOfShaped | generate_test_data.py:295-320 | a generated game has players, all of the game's shape, and is dated in its own window |
| Games.DatasetGamesShaped | generate_test_data.py:284-330 | every game of the dataset has players of its own shape and is dated in its own window |
| Games.ShapedGamesInOrder | generate_test_data.py:320 | games dated in their own windows are in strictly increasing date order |
| Games.DatasetOf | generate_test_data.py:268-338 | the export of `main` as a function of the tables, the metadata, the shuffled shapes and the draws of every game; specification function, whose properties are stated by `Games.DatasetProperties`, `Games.DatasetGamesShaped` and `Games.GenerateDataset` |
| Games.DatasetProperties | generate_test_data.py:276-338 | the export has version 2.1.0, the whole name pool and one hundred games; game g is of the g-th shape; the dates strictly increase |
| Games.GenerateDataset | generate_test_data.py:268-338 | the game loop builds the specified export |

## Left out

- Reading `assets/cards_data.json` and writing `test_data_100_games.json` (lines 270-271, 341-342). The metadata is the input `cardData` and the export is the `ExportData` value.
- `uuid.uuid4()` game identifiers, `datetime.now()` and `isoformat()` timestamps, and `timedelta` (lines 282, 320-323, 335). Only the integer day offset of each game is modelled.
- The `random` module. Every draw is a parameter, and its range is a precondition:
  - `random.random() < 0.7` is the boolean `usualCount`;
  - `random.sample` gives distinct names from the pool;
  - `random.shuffle` appears only as the permutation precondition of `Games.ShuffledDistribution`.
  The order in which the script consumes the random stream is not modelled.
- The summary counts printed at the end of `main` (lines 344-351): console output.
- `Games.GenerateDataset` and `Games.DatasetProperties` do not require the shapes to be a shuffle of the 5 / 30 / 65 list. `Games.ShuffledDistribution` states those counts separately for any shuffle.
- `Ledger.UsageLedger.Merge` states the merged ledger by per-card counts only. Reading a missing key of a `defaultdict(int)` inserts a zero entry (lines 62, 72, 215), and that change to the key set is not modelled; every count reads the same either way.
- Player identifiers are the pair (game, seat) rather than the string `player_{g}_{i}` (line 305).
- Card identifiers are numbered 0 to 47 in table order, not strings. A metadata record whose identifier is no base card is `Unknown(name)` and matches no city card.
- A metadata record whose `basePoints` key holds JSON `null` makes the script fail on `total += None` (line 86). The model has no such value: `None` stands for an absent key, which counts as zero.
- The JSON dictionaries of a score record are datatypes with the same fields. Which keys are present is fixed by the entry shape.
- `tiebreakerResources` and the leftover resources are independent filler draws, carried as they are drawn.
- The Android build configuration is not part of this model: it holds no program logic.
