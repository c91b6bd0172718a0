/**
 * Games and the exported dataset: a game draws its players from the name pool,
 * generates their score records against one shared usage ledger, and marks every
 * player with the highest total as a winner. The dataset is one hundred games whose
 * entry shapes follow a shuffled 5 / 30 / 65 split, dated three days apart.
 */
module Games {
  import opened Wrappers
  import opened Catalog
  import opened Ledger
  import Composer
  import opened Numbers
  import opened Scoring
  import opened PlayerScores

  const GameCount: nat := 100
  /** How many of the hundred games are entered in each shape. */
  const QuickGames: nat := 5
  const BasicGames: nat := 30
  const VisualGames: nat := 65
  const ExportVersion: string := "2.1.0"
  const MinPlayers: nat := 2
  const MaxPlayers: nat := 6
  /** The largest player count of the more likely branch of the player-count draw. */
  const UsualMaxPlayers: nat := 4

  datatype Game = Game(players: seq<PlayerScore>, winnerIds: seq<PlayerId>, dayOffset: nat,
                       expansionsUsed: seq<string>, notes: Option<string>)

  datatype ExportData = ExportData(version: string, games: seq<Game>, playerNames: seq<string>)

  /**
   * The draws of one game: which branch the player-count draw took, the players picked
   * from the pool (their number is the drawn count), each seat's score draws, and the
   * day jitter.
   */
  datatype GameDraws = GameDraws(usualCount: bool, names: seq<string>, scoreDraws: seq<ScoreDraws>, dayDraw: int)

  predicate ValidGameDraws(t: Tables, gd: GameDraws)
  {
    && MinPlayers <= |gd.names| <= (if gd.usualCount then UsualMaxPlayers else MaxPlayers)
    && (forall i, j :: 0 <= i < j < |gd.names| ==> gd.names[i] != gd.names[j])
    && (forall i :: 0 <= i < |gd.names| ==> gd.names[i] in t.playerPool)
    && |gd.scoreDraws| == |gd.names|
    && (forall i :: 0 <= i < |gd.scoreDraws| ==> ValidDraws(t, gd.scoreDraws[i]))
    && 0 <= gd.dayDraw <= 2
  }

  // ---------------------------------------------------------------------------
  // Card usage across a game

  /** The cards of all cities of `players`, in seat order. */
  function AllCards(players: seq<PlayerScore>): seq<CardId>
  {
    if players == [] then []
    else AllCards(players[..|players| - 1]) + players[|players| - 1].City()
  }

  /** The game's ledger once the cities of `players` are recorded. */
  function CityUsage(players: seq<PlayerScore>): Counts
  {
    Tally(AllCards(players))
  }

  /** The players of the first n seats, each generated against the ledger of the seats before. */
  function PlayersOf(t: Tables, gameNumber: nat, entryType: EntryType, cardData: seq<CardMeta>, gd: GameDraws, n: nat): (ps: seq<PlayerScore>)
    requires ValidGameDraws(t, gd) && n <= |gd.names|
    ensures |ps| == n
  {
    if n == 0 then []
    else
      var before := PlayersOf(t, gameNumber, entryType, cardData, gd, n - 1);
      before + [PlayerScoreOf(t, gd.names[n - 1], PlayerId(gameNumber, n - 1), entryType, cardData,
                              CityUsage(before), gd.scoreDraws[n - 1])]
  }

  /** Seat i's record is generated for its own name, identifier and draws, against the ledger of the seats before it. */
  lemma PlayerAtSeat(t: Tables, gameNumber: nat, entryType: EntryType, cardData: seq<CardMeta>, gd: GameDraws, n: nat, i: nat)
    requires ValidGameDraws(t, gd) && i < n <= |gd.names|
    ensures PlayersOf(t, gameNumber, entryType, cardData, gd, n)[i] ==
            PlayerScoreOf(t, gd.names[i], PlayerId(gameNumber, i), entryType, cardData,
                          CityUsage(PlayersOf(t, gameNumber, entryType, cardData, gd, i)), gd.scoreDraws[i])
  {
    PlayersOfStable(t, gameNumber, entryType, cardData, gd, n, i);
    PlayersOfLast(t, gameNumber, entryType, cardData, gd, i + 1);
  }

  /** Seat i's record is the same however many seats follow it. */
  lemma {:induction false} PlayersOfStable(t: Tables, gameNumber: nat, entryType: EntryType, cardData: seq<CardMeta>, gd: GameDraws, n: nat, i: nat)
    requires ValidGameDraws(t, gd) && i < n <= |gd.names|
    ensures PlayersOf(t, gameNumber, entryType, cardData, gd, n)[i] == PlayersOf(t, gameNumber, entryType, cardData, gd, i + 1)[i]
    decreases n
  {
    if i + 1 < n {
      PlayersOfKeepsEarlier(t, gameNumber, entryType, cardData, gd, n, i);
      PlayersOfStable(t, gameNumber, entryType, cardData, gd, n - 1, i);
    }
  }

  /** The last of n seats is generated against the ledger of the n - 1 seats before it. */
  lemma PlayersOfLast(t: Tables, gameNumber: nat, entryType: EntryType, cardData: seq<CardMeta>, gd: GameDraws, n: nat)
    requires ValidGameDraws(t, gd) && 0 < n <= |gd.names|
    ensures PlayersOf(t, gameNumber, entryType, cardData, gd, n)[n - 1] ==
            PlayerScoreOf(t, gd.names[n - 1], PlayerId(gameNumber, n - 1), entryType, cardData,
                          CityUsage(PlayersOf(t, gameNumber, entryType, cardData, gd, n - 1)), gd.scoreDraws[n - 1])
  {
  }

  /** Adding a seat leaves the records of the seats before it as they were. */
  lemma PlayersOfKeepsEarlier(t: Tables, gameNumber: nat, entryType: EntryType, cardData: seq<CardMeta>, gd: GameDraws, n: nat, i: nat)
    requires ValidGameDraws(t, gd) && i < n - 1 && n <= |gd.names|
    ensures PlayersOf(t, gameNumber, entryType, cardData, gd, n)[i] == PlayersOf(t, gameNumber, entryType, cardData, gd, n - 1)[i]
  {
  }

  /** Recording one more player adds that player's city to the ledger. */
  lemma CityUsageAppend(players: seq<PlayerScore>, p: PlayerScore)
    ensures forall c :: Count(CityUsage(players + [p]), c) == Count(CityUsage(players), c) + multiset(p.City())[c]
  {
    assert (players + [p])[..|players|] == players;
    assert AllCards(players + [p]) == AllCards(players) + p.City();
    TallyCounts(AllCards(players));
    TallyCounts(AllCards(players + [p]));
  }

  /** The cities of a game together never use more copies of a card than the quantity table holds. */
  lemma {:induction false} GameWithinQuota(t: Tables, gameNumber: nat, entryType: EntryType, cardData: seq<CardMeta>, gd: GameDraws, n: nat)
    requires ValidGameDraws(t, gd) && n <= |gd.names|
    ensures WithinQuota(t.quantities, CityUsage(PlayersOf(t, gameNumber, entryType, cardData, gd, n)))
    decreases n
  {
    if n > 0 {
      var before := PlayersOf(t, gameNumber, entryType, cardData, gd, n - 1);
      GameWithinQuota(t, gameNumber, entryType, cardData, gd, n - 1);
      PlayerCityFits(t, gd.names[n - 1], PlayerId(gameNumber, n - 1), entryType, cardData, CityUsage(before), gd.scoreDraws[n - 1]);
      RecordingKeepsQuota(t.quantities, before,
        PlayerScoreOf(t, gd.names[n - 1], PlayerId(gameNumber, n - 1), entryType, cardData, CityUsage(before), gd.scoreDraws[n - 1]));
    }
  }

  /** A game's ledger within quota stays within quota when a player whose city fits joins. */
  lemma RecordingKeepsQuota(quantities: QuantityTable, before: seq<PlayerScore>, p: PlayerScore)
    requires WithinQuota(quantities, CityUsage(before)) && FitsQuota(quantities, CityUsage(before), p.City())
    ensures WithinQuota(quantities, CityUsage(before + [p]))
  {
    CityUsageAppend(before, p);
    RecordingFittingCityKeepsQuota(quantities, CityUsage(before), p.City(), CityUsage(before + [p]));
  }

  /**
   * How many times c occurs in cards, counted by recursion over the sequence. It is
   * the same number as `multiset(cards)[c]` (OccurrencesAreCopies); the card-count
   * proofs below are stated with it so that the solver unfolds one recursive step at
   * a time instead of instantiating its multiset axioms on every index of the cards.
   */
  function Occurrences(cards: seq<CardId>, c: CardId): nat
    decreases |cards|
  {
    if |cards| == 0 then 0
    else Occurrences(cards[..|cards| - 1], c) + (if cards[|cards| - 1] == c then 1 else 0)
  }

  /** Occurrences adds up over a concatenation. */
  lemma {:induction false} OccurrencesConcat(a: seq<CardId>, b: seq<CardId>, c: CardId)
    ensures Occurrences(a + b, c) == Occurrences(a, c) + Occurrences(b, c)
    decreases |b|
  {
    if |b| == 0 {
      assert a + b == a;
    } else {
      var front := b[..|b| - 1];
      assert (a + b)[..|a + b| - 1] == a + front;
      OccurrencesConcat(a, front, c);
    }
  }

  /** Occurrences is the multiplicity of c in the multiset of cards. */
  lemma {:induction false} OccurrencesAreCopies(cards: seq<CardId>, c: CardId)
    ensures Occurrences(cards, c) == multiset(cards)[c]
    decreases |cards|
  {
    if |cards| > 0 {
      var n := |cards| - 1;
      assert cards == cards[..n] + [cards[n]];
      assert multiset(cards) == multiset(cards[..n]) + multiset{cards[n]};
      OccurrencesAreCopies(cards[..n], c);
    }
  }

  /** The copies of c in two distinct seats' cities are all among the copies the game's ledger records. */
  lemma {:induction false} AllCardsHoldsCities(players: seq<PlayerScore>, i: nat, j: nat, c: CardId)
    requires i < j < |players|
    ensures Occurrences(players[i].City(), c) + Occurrences(players[j].City(), c) <= Occurrences(AllCards(players), c)
  {
    AllCardsBefore(players, i, j, c);
    AllCardsFrom(players, j, c);
  }

  /** Seat i's copies of c are among those of the seats before seat j, for i < j. */
  lemma {:induction false} AllCardsBefore(players: seq<PlayerScore>, i: nat, j: nat, c: CardId)
    requires i < j <= |players|
    ensures Occurrences(players[i].City(), c) <= Occurrences(AllCards(players[..j]), c)
  {
    AllCardsAt(players, i, c);
    AllCardsGrows(players, i + 1, j, c);
  }

  /** The copies of c before seat j and those in seat j's city are all among the copies of all seats. */
  lemma {:induction false} AllCardsFrom(players: seq<PlayerScore>, j: nat, c: CardId)
    requires j < |players|
    ensures Occurrences(AllCards(players[..j]), c) + Occurrences(players[j].City(), c) <= Occurrences(AllCards(players), c)
  {
    AllCardsAt(players, j, c);
    AllCardsOfPrefix(players, j + 1, c);
  }

  /** The copies of c among the first k seats' cities are among those of the first m seats, for k <= m. */
  lemma {:induction false} AllCardsGrows(players: seq<PlayerScore>, k: nat, m: nat, c: CardId)
    requires k <= m <= |players|
    ensures Occurrences(AllCards(players[..k]), c) <= Occurrences(AllCards(players[..m]), c)
    decreases m - k
  {
    if k < m {
      AllCardsAt(players, k, c);
      AllCardsGrows(players, k + 1, m, c);
    }
  }

  /** The copies of c among the cities of the first k seats are among those of all seats. */
  lemma {:induction false} AllCardsOfPrefix(players: seq<PlayerScore>, k: nat, c: CardId)
    requires k <= |players|
    ensures Occurrences(AllCards(players[..k]), c) <= Occurrences(AllCards(players), c)
    decreases |players|
  {
    if k < |players| {
      var front := players[..|players| - 1];
      assert front[..k] == players[..k];
      AllCardsOfPrefix(front, k, c);
      OccurrencesConcat(AllCards(front), players[|players| - 1].City(), c);
    } else {
      assert players[..k] == players;
    }
  }

  /** The copies of c among the first k + 1 seats are those among the first k plus those of seat k's city. */
  lemma {:induction false} AllCardsAt(players: seq<PlayerScore>, k: nat, c: CardId)
    requires k < |players|
    ensures Occurrences(AllCards(players[..k + 1]), c) == Occurrences(AllCards(players[..k]), c) + Occurrences(players[k].City(), c)
  {
    var upTo := players[..k + 1];
    assert upTo[..k] == players[..k] && upTo[k] == players[k];
    assert AllCards(upTo) == AllCards(players[..k]) + players[k].City();
    OccurrencesConcat(AllCards(players[..k]), players[k].City(), c);
  }

  /** A card the quantity table holds once is in at most one city of a game within quota. */
  lemma SingleCopyInOneCity(quantities: QuantityTable, players: seq<PlayerScore>, c: CardId, i: nat, j: nat)
    requires Quantity(quantities, c) == 1 && WithinQuota(quantities, CityUsage(players))
    requires i < j < |players| && c in players[i].City()
    ensures c !in players[j].City()
  {
    if c in players[j].City() {
      AllCardsHoldsCities(players, i, j, c);
      OccurrencesAreCopies(players[i].City(), c);
      OccurrencesAreCopies(players[j].City(), c);
      OccurrencesAreCopies(AllCards(players), c);
      TallyCounts(AllCards(players));
      assert false;
    }
  }

  /** A card the quantity table holds once is in the city of at most one player of a game. */
  lemma UniqueCardInAtMostOneCity(t: Tables, gameNumber: nat, entryType: EntryType, cardData: seq<CardMeta>, gd: GameDraws,
                                  c: CardId, i: nat, j: nat)
    requires ValidGameDraws(t, gd) && i < j < |gd.names| && Quantity(t.quantities, c) == 1
    ensures var ps := PlayersOf(t, gameNumber, entryType, cardData, gd, |gd.names|);
      c in ps[i].City() ==> c !in ps[j].City()
  {
    var ps := PlayersOf(t, gameNumber, entryType, cardData, gd, |gd.names|);
    GameWithinQuota(t, gameNumber, entryType, cardData, gd, |gd.names|);
    if c in ps[i].City() {
      SingleCopyInOneCity(t.quantities, ps, c, i, j);
    }
  }

  /** With the script's tables, at most one player of a game has the king in their city. */
  lemma KingInAtMostOneCity(gameNumber: nat, entryType: EntryType, cardData: seq<CardMeta>, gd: GameDraws, i: nat, j: nat)
    requires ValidGameDraws(ScriptTables, gd) && i < j < |gd.names|
    ensures var ps := PlayersOf(ScriptTables, gameNumber, entryType, cardData, gd, |gd.names|);
      King in ps[i].City() ==> King !in ps[j].City()
  {
    KingIsUnique();
    UniqueCardInAtMostOneCity(ScriptTables, gameNumber, entryType, cardData, gd, King, i, j);
  }

  // ---------------------------------------------------------------------------
  // Winners

  /** The highest total of the game. */
  function TopScore(players: seq<PlayerScore>): (m: int)
    requires players != []
    ensures forall i :: 0 <= i < |players| ==> players[i].totalScore <= m
    ensures exists i :: 0 <= i < |players| && players[i].totalScore == m
  {
    if |players| == 1 then players[0].totalScore
    else Max(TopScore(players[..|players| - 1]), players[|players| - 1].totalScore)
  }

  /** The identifiers of the players whose total is `top`, in seat order. */
  function WinnersAt(players: seq<PlayerScore>, top: int): (r: seq<PlayerId>)
    ensures forall id :: id in r <==> exists i :: 0 <= i < |players| && players[i].playerId == id && players[i].totalScore == top
  {
    if players == [] then []
    else
      var last := players[|players| - 1];
      WinnersAt(players[..|players| - 1], top) + (if last.totalScore == top then [last.playerId] else [])
  }

  /** Winners are listed in seat order: the winners of two groups of seats are those of the first, then of the second. */
  lemma {:induction false} WinnersAtAppend(a: seq<PlayerScore>, b: seq<PlayerScore>, top: int)
    ensures WinnersAt(a + b, top) == WinnersAt(a, top) + WinnersAt(b, top)
    decreases |b|
  {
    if b == [] {
      assert a + b == a;
    } else {
      var n := |b| - 1;
      assert (a + b)[..|a + b| - 1] == a + b[..n];
      assert (a + b)[|a + b| - 1] == b[n];
      WinnersAtAppend(a, b[..n], top);
    }
  }

  /** The identifiers of the players with the highest total; there is always at least one. */
  function WinnerIds(players: seq<PlayerScore>): (r: seq<PlayerId>)
    requires players != []
    ensures r != []
    ensures forall id :: id in r <==> exists i :: 0 <= i < |players| && players[i].playerId == id && players[i].totalScore == TopScore(players)
  {
    var top := TopScore(players);
    var i :| 0 <= i < |players| && players[i].totalScore == top;
    assert players[i].playerId in WinnersAt(players, top);
    WinnersAt(players, top)
  }

  /** The players with each winner flag set to whether the player's identifier is among `winnerIds`. */
  function Marked(players: seq<PlayerScore>, winnerIds: seq<PlayerId>): (r: seq<PlayerScore>)
    ensures |r| == |players|
    ensures forall i :: 0 <= i < |players| ==> r[i] == players[i].(isWinner := players[i].playerId in winnerIds)
  {
    if players == [] then []
    else
      var last := players[|players| - 1];
      Marked(players[..|players| - 1], winnerIds) + [last.(isWinner := last.playerId in winnerIds)]
  }

  /** Sets each player's winner flag to whether the player's identifier is among the winners. */
  method MarkWinners(players: seq<PlayerScore>, winnerIds: seq<PlayerId>) returns (marked: seq<PlayerScore>)
    ensures marked == Marked(players, winnerIds)
  {
    marked := [];
    for i := 0 to |players|
      invariant marked == Marked(players[..i], winnerIds)
    {
      assert players[..i + 1][..i] == players[..i];
      marked := marked + [players[i].(isWinner := players[i].playerId in winnerIds)];
    }
    assert players[..|players|] == players;
  }

  // ---------------------------------------------------------------------------
  // One game

  /** The game's date, in days after the start date: three days per game plus a jitter. */
  function DayOffset(gameNumber: nat, dayDraw: int): (r: nat)
    requires 0 <= dayDraw <= 2
    ensures 3 * gameNumber <= r < 3 * (gameNumber + 1)
  {
    gameNumber * 3 + dayDraw
  }

  /** A later game is dated strictly later, whatever the jitters. */
  lemma DayOffsetIncreasing(g1: nat, r1: int, g2: nat, r2: int)
    requires g1 < g2 && 0 <= r1 <= 2 && 0 <= r2 <= 2
    ensures DayOffset(g1, r1) < DayOffset(g2, r2)
  {
  }

  /** The game the generator builds from its draws. */
  function GameOf(t: Tables, gameNumber: nat, entryType: EntryType, cardData: seq<CardMeta>, gd: GameDraws): Game
    requires ValidGameDraws(t, gd)
  {
    var players := PlayersOf(t, gameNumber, entryType, cardData, gd, |gd.names|);
    var winners := WinnerIds(players);
    Game(Marked(players, winners), winners, DayOffset(gameNumber, gd.dayDraw), [], None)
  }

  /**
   * Seat i of `ps` holds the i-th drawn name and the identifier of seat i of the game,
   * has the game's entry shape and a total in [20, 100].
   */
  ghost predicate SeatedAs(ps: seq<PlayerScore>, gameNumber: nat, names: seq<string>, entryType: EntryType)
  {
    && |ps| == |names|
    && forall i :: 0 <= i < |ps| ==>
         && ps[i].playerId == PlayerId(gameNumber, i)
         && ps[i].playerName == names[i]
         && ps[i].Kind() == entryType
         && MinTotalScore <= ps[i].totalScore <= MaxTotalScore
  }

  /** Each seat of a game holds its own name and identifier, the game's entry shape and a total in [20, 100]. */
  lemma SeatsOfGame(t: Tables, gameNumber: nat, entryType: EntryType, cardData: seq<CardMeta>, gd: GameDraws)
    requires ValidGameDraws(t, gd)
    ensures SeatedAs(PlayersOf(t, gameNumber, entryType, cardData, gd, |gd.names|), gameNumber, gd.names, entryType)
  {
    var ps := PlayersOf(t, gameNumber, entryType, cardData, gd, |gd.names|);
    forall i | 0 <= i < |ps|
      ensures && ps[i].playerId == PlayerId(gameNumber, i)
              && ps[i].playerName == gd.names[i]
              && ps[i].Kind() == entryType
              && MinTotalScore <= ps[i].totalScore <= MaxTotalScore
    {
      PlayerAtSeat(t, gameNumber, entryType, cardData, gd, |gd.names|, i);
      PlayerScoreProperties(t, gd.names[i], PlayerId(gameNumber, i), entryType, cardData,
                            CityUsage(PlayersOf(t, gameNumber, entryType, cardData, gd, i)), gd.scoreDraws[i]);
    }
  }

  /** Setting the winner flags keeps every seat as it was. */
  lemma MarkedSeatedAs(ps: seq<PlayerScore>, w: seq<PlayerId>, gameNumber: nat, names: seq<string>, entryType: EntryType)
    requires SeatedAs(ps, gameNumber, names, entryType)
    ensures SeatedAs(Marked(ps, w), gameNumber, names, entryType)
  {
  }

  /** Seats hold pairwise distinct identifiers. */
  lemma SeatIdsDistinct(ps: seq<PlayerScore>, gameNumber: nat, names: seq<string>, entryType: EntryType)
    requires SeatedAs(ps, gameNumber, names, entryType)
    ensures forall i, j :: 0 <= i < j < |ps| ==> ps[i].playerId != ps[j].playerId
  {
  }

  /**
   * A generated game: two to six players in seat order with their own names and
   * identifiers, all of the game's entry shape, totals in [20, 100]; the winners are
   * exactly the players with the highest total, at least one, and are flagged so.
   */
  lemma GameProperties(t: Tables, gameNumber: nat, entryType: EntryType, cardData: seq<CardMeta>, gd: GameDraws)
    requires ValidGameDraws(t, gd)
    ensures var g := GameOf(t, gameNumber, entryType, cardData, gd);
      && MinPlayers <= |g.players| <= MaxPlayers
      && |g.players| <= (if gd.usualCount then UsualMaxPlayers else MaxPlayers)
      && SeatedAs(g.players, gameNumber, gd.names, entryType)
      && g.winnerIds != []
      && (forall i :: 0 <= i < |g.players| ==>
            && (g.players[i].isWinner <==> g.players[i].totalScore == TopScore(g.players))
            && (g.players[i].isWinner <==> g.players[i].playerId in g.winnerIds))
      && (forall id :: id in g.winnerIds ==> exists i :: 0 <= i < |g.players| && g.players[i].playerId == id)
      && 3 * gameNumber <= g.dayOffset < 3 * (gameNumber + 1)
  {
    var ps := PlayersOf(t, gameNumber, entryType, cardData, gd, |gd.names|);
    SeatsOfGame(t, gameNumber, entryType, cardData, gd);
    WinnersOfSeats(ps, gameNumber, gd.names, entryType);
  }

  /** Marking the winners of seated players: the seats stay, and the flags and winner list agree with the top score. */
  lemma WinnersOfSeats(ps: seq<PlayerScore>, gameNumber: nat, names: seq<string>, entryType: EntryType)
    requires ps != [] && SeatedAs(ps, gameNumber, names, entryType)
    ensures var m := Marked(ps, WinnerIds(ps));
      && SeatedAs(m, gameNumber, names, entryType)
      && (forall i :: 0 <= i < |m| ==>
            && (m[i].isWinner <==> m[i].totalScore == TopScore(m))
            && (m[i].isWinner <==> m[i].playerId in WinnerIds(ps)))
      && (forall id :: id in WinnerIds(ps) ==> exists i :: 0 <= i < |m| && m[i].playerId == id)
  {
    MarkedSeatedAs(ps, WinnerIds(ps), gameNumber, names, entryType);
    SeatIdsDistinct(ps, gameNumber, names, entryType);
    MarkedFlagsTopScorers(ps);
    WinnersAreSeated(ps);
  }

  /** Setting winner flags changes no total, so the top score stays. */
  lemma MarkedKeepsTopScore(ps: seq<PlayerScore>, w: seq<PlayerId>)
    requires ps != []
    ensures TopScore(Marked(ps, w)) == TopScore(ps)
  {
    var m := Marked(ps, w);
    var k :| 0 <= k < |ps| && ps[k].totalScore == TopScore(ps);
    assert m[k].totalScore == TopScore(ps);
    var k' :| 0 <= k' < |m| && m[k'].totalScore == TopScore(m);
    assert ps[k'].totalScore == TopScore(m);
  }

  /**
   * With distinct identifiers, a player is flagged exactly when the player reaches the
   * top score, and exactly when the player's identifier is among the winners.
   */
  lemma MarkedFlagsTopScorers(ps: seq<PlayerScore>)
    requires ps != []
    requires forall i, j :: 0 <= i < j < |ps| ==> ps[i].playerId != ps[j].playerId
    ensures var m := Marked(ps, WinnerIds(ps));
      forall i :: 0 <= i < |m| ==>
        && (m[i].isWinner <==> m[i].totalScore == TopScore(m))
        && (m[i].isWinner <==> m[i].playerId in WinnerIds(ps))
  {
    var w := WinnerIds(ps);
    var m := Marked(ps, w);
    MarkedKeepsTopScore(ps, w);
    forall i | 0 <= i < |m|
      ensures && (m[i].isWinner <==> m[i].totalScore == TopScore(m))
              && (m[i].isWinner <==> m[i].playerId in w)
    {
      assert m[i] == ps[i].(isWinner := ps[i].playerId in w);
      if ps[i].playerId in w {
        var k :| 0 <= k < |ps| && ps[k].playerId == ps[i].playerId && ps[k].totalScore == TopScore(ps);
        assert k == i;
      }
    }
  }

  /** Every winner identifier is the identifier of a seated player. */
  lemma WinnersAreSeated(ps: seq<PlayerScore>)
    requires ps != []
    ensures var m := Marked(ps, WinnerIds(ps));
      forall id :: id in WinnerIds(ps) ==> exists i :: 0 <= i < |m| && m[i].playerId == id
  {
    forall id | id in WinnerIds(ps)
      ensures exists i :: 0 <= i < |Marked(ps, WinnerIds(ps))| && Marked(ps, WinnerIds(ps))[i].playerId == id
    {
      WinnerIsSeated(ps, id);
    }
  }

  /** One winner identifier belongs to a seated player. */
  lemma WinnerIsSeated(ps: seq<PlayerScore>, id: PlayerId)
    requires ps != [] && id in WinnerIds(ps)
    ensures exists i :: 0 <= i < |Marked(ps, WinnerIds(ps))| && Marked(ps, WinnerIds(ps))[i].playerId == id
  {
    var m := Marked(ps, WinnerIds(ps));
    var k :| 0 <= k < |ps| && ps[k].playerId == id && ps[k].totalScore == TopScore(ps);
    assert m[k].playerId == id;
  }

  /** Generates each seat's record in turn against one fresh ledger shared by the game. */
  method GeneratePlayers(t: Tables, gameNumber: nat, entryType: EntryType, cardData: seq<CardMeta>, gd: GameDraws)
    returns (players: seq<PlayerScore>)
    requires ValidGameDraws(t, gd)
    ensures players == PlayersOf(t, gameNumber, entryType, cardData, gd, |gd.names|)
  {
    var gameCardUsage := new UsageLedger();
    players := [];
    TallyCounts([]);
    for i := 0 to |gd.names|
      invariant players == PlayersOf(t, gameNumber, entryType, cardData, gd, i)
      invariant forall c :: Count(gameCardUsage.counts, c) == Count(CityUsage(players), c)
    {
      var ledgerBefore := gameCardUsage.counts;
      var p := GeneratePlayerScore(t, gd.names[i], PlayerId(gameNumber, i), entryType, cardData, gameCardUsage, gd.scoreDraws[i]);
      PlayerScoreSameCounts(t, gd.names[i], PlayerId(gameNumber, i), entryType, cardData, ledgerBefore, CityUsage(players), gd.scoreDraws[i]);
      CityUsageAppend(players, p);
      players := players + [p];
    }
  }

  /** Builds one game: the seats' records, then the winners. */
  method GenerateGame(t: Tables, gameNumber: nat, entryType: EntryType, cardData: seq<CardMeta>, gd: GameDraws) returns (game: Game)
    requires ValidGameDraws(t, gd)
    ensures game == GameOf(t, gameNumber, entryType, cardData, gd)
  {
    var players := GeneratePlayers(t, gameNumber, entryType, cardData, gd);
    var winnerIds := WinnerIds(players);
    var marked := MarkWinners(players, winnerIds);
    game := Game(marked, winnerIds, DayOffset(gameNumber, gd.dayDraw), [], None);
  }

  // ---------------------------------------------------------------------------
  // The dataset

  /** n copies of x. */
  function Repeat(x: EntryType, n: nat): (r: seq<EntryType>)
    ensures |r| == n && forall i :: 0 <= i < n ==> r[i] == x
  {
    if n == 0 then [] else Repeat(x, n - 1) + [x]
  }

  /** The entry shapes before shuffling: five quick, thirty basic, sixty-five visual. */
  function EntryTypeDistribution(): seq<EntryType>
  {
    Repeat(Quick, QuickGames) + Repeat(Basic, BasicGames) + Repeat(Visual, VisualGames)
  }

  /** n copies of x hold x n times and nothing else. */
  lemma {:induction false} RepeatCount(x: EntryType, n: nat, y: EntryType)
    ensures multiset(Repeat(x, n))[y] == if x == y then n else 0
    decreases n
  {
    if n > 0 {
      RepeatCount(x, n - 1, y);
    }
  }

  /** Any shuffle of the distribution has one hundred shapes: five quick, thirty basic, sixty-five visual. */
  lemma ShuffledDistribution(entryTypes: seq<EntryType>)
    requires multiset(entryTypes) == multiset(EntryTypeDistribution())
    ensures |entryTypes| == GameCount
    ensures multiset(entryTypes)[Quick] == QuickGames
    ensures multiset(entryTypes)[Basic] == BasicGames
    ensures multiset(entryTypes)[Visual] == VisualGames
  {
    assert |multiset(entryTypes)| == |entryTypes|;
    DistributionSize();
    DistributionCount(Quick);
    DistributionCount(Basic);
    DistributionCount(Visual);
  }

  /** The unshuffled distribution holds each shape as often as its share says. */
  lemma DistributionCount(y: EntryType)
    ensures multiset(EntryTypeDistribution())[y] == match y case Quick => QuickGames case Basic => BasicGames case Visual => VisualGames
  {
    ThreeRunsCount(Repeat(Quick, QuickGames), Repeat(Basic, BasicGames), Repeat(Visual, VisualGames), y);
    RepeatCount(Quick, QuickGames, y);
    RepeatCount(Basic, BasicGames, y);
    RepeatCount(Visual, VisualGames, y);
  }

  /** The unshuffled distribution has one hundred shapes. */
  lemma DistributionSize()
    ensures |multiset(EntryTypeDistribution())| == GameCount
  {
    assert |multiset(EntryTypeDistribution())| == |EntryTypeDistribution()|;
  }

  /** Copies of y in three runs laid end to end add up. */
  lemma ThreeRunsCount(a: seq<EntryType>, b: seq<EntryType>, c: seq<EntryType>, y: EntryType)
    ensures multiset(a + b + c)[y] == multiset(a)[y] + multiset(b)[y] + multiset(c)[y]
  {
  }

  /** An entry shape and valid draws for each of the hundred games. */
  predicate DrawsPerGame(t: Tables, entryTypes: seq<EntryType>, draws: seq<GameDraws>)
  {
    |entryTypes| == GameCount && |draws| == GameCount && AllGameDrawsValid(t, draws)
  }

  /** Every game's draws lie in their ranges. */
  predicate AllGameDrawsValid(t: Tables, draws: seq<GameDraws>)
  {
    forall g :: 0 <= g < |draws| ==> ValidGameDraws(t, draws[g])
  }

  /** The first n games of the dataset, game g built from its own number, entry shape and draws. */
  function GamesOf(t: Tables, cardData: seq<CardMeta>, entryTypes: seq<EntryType>, draws: seq<GameDraws>, n: nat): (r: seq<Game>)
    requires AllGameDrawsValid(t, draws) && n <= |entryTypes| && n <= |draws|
    ensures |r| == n
  {
    if n == 0 then []
    else GamesOf(t, cardData, entryTypes, draws, n - 1) + [GameOf(t, n - 1, entryTypes[n - 1], cardData, draws[n - 1])]
  }

  /** One more game extends the list by that game. */
  lemma GamesOfStep(t: Tables, cardData: seq<CardMeta>, entryTypes: seq<EntryType>, draws: seq<GameDraws>, n: nat)
    requires AllGameDrawsValid(t, draws) && n < |entryTypes| && n < |draws|
    ensures GamesOf(t, cardData, entryTypes, draws, n + 1)
      == GamesOf(t, cardData, entryTypes, draws, n) + [GameOf(t, n, entryTypes[n], cardData, draws[n])]
  {
  }

  /** The export the generator writes: one hundred games built from the base cards only. */
  function DatasetOf(t: Tables, cardData: seq<CardMeta>, entryTypes: seq<EntryType>, draws: seq<GameDraws>): ExportData
    requires DrawsPerGame(t, entryTypes, draws)
  {
    ExportData(ExportVersion, GamesOf(t, BaseCards(cardData), entryTypes, draws, GameCount), t.playerPool)
  }

  /** The shape a game's players were entered in. */
  function GameKind(game: Game): EntryType
    requires game.players != []
  {
    game.players[0].Kind()
  }

  /** Game g of a dataset: it has players, all of the g-th entry shape, and is dated in the g-th three-day window. */
  ghost predicate Shaped(game: Game, gameNumber: nat, entryType: EntryType)
  {
    && game.players != [] && GameKind(game) == entryType
    && 3 * gameNumber <= game.dayOffset < 3 * (gameNumber + 1)
  }

  /** A generated game has players of its entry shape and is dated in its own window. */
  lemma GameOfShaped(t: Tables, gameNumber: nat, entryType: EntryType, cardData: seq<CardMeta>, gd: GameDraws)
    requires ValidGameDraws(t, gd)
    ensures Shaped(GameOf(t, gameNumber, entryType, cardData, gd), gameNumber, entryType)
  {
    PlayerAtSeat(t, gameNumber, entryType, cardData, gd, |gd.names|, 0);
    PlayerScoreProperties(t, gd.names[0], PlayerId(gameNumber, 0), entryType, cardData,
                          CityUsage(PlayersOf(t, gameNumber, entryType, cardData, gd, 0)), gd.scoreDraws[0]);
  }

  /**
   * The dataset: version 2.1.0, the whole name pool, and one hundred games, game g
   * entered in the g-th shape, dated in increasing order.
   */
  lemma DatasetProperties(t: Tables, cardData: seq<CardMeta>, entryTypes: seq<EntryType>, draws: seq<GameDraws>)
    requires DrawsPerGame(t, entryTypes, draws)
    ensures var data := DatasetOf(t, cardData, entryTypes, draws);
      && data.version == ExportVersion && data.playerNames == t.playerPool
      && |data.games| == GameCount
      && (forall g :: 0 <= g < GameCount ==> data.games[g].players != [] && GameKind(data.games[g]) == entryTypes[g])
      && (forall g1, g2 :: 0 <= g1 < g2 < GameCount ==> data.games[g1].dayOffset < data.games[g2].dayOffset)
  {
    DatasetGamesShaped(t, cardData, entryTypes, draws);
    ShapedGamesInOrder(DatasetOf(t, cardData, entryTypes, draws).games, entryTypes);
  }

  /** Game g of the dataset has players of the g-th entry shape and is dated in the g-th window. */
  lemma DatasetGamesShaped(t: Tables, cardData: seq<CardMeta>, entryTypes: seq<EntryType>, draws: seq<GameDraws>)
    requires DrawsPerGame(t, entryTypes, draws)
    ensures var games := DatasetOf(t, cardData, entryTypes, draws).games;
      |games| == GameCount && forall g :: 0 <= g < GameCount ==> Shaped(games[g], g, entryTypes[g])
  {
    var games := DatasetOf(t, cardData, entryTypes, draws).games;
    forall g | 0 <= g < GameCount
      ensures Shaped(games[g], g, entryTypes[g])
    {
      GamesOfAt(t, BaseCards(cardData), entryTypes, draws, GameCount, g);
      GameOfShaped(t, g, entryTypes[g], BaseCards(cardData), draws[g]);
    }
  }

  /** Game g of the first n games is the game built from the g-th entry shape and draws. */
  lemma GamesOfAt(t: Tables, cardData: seq<CardMeta>, entryTypes: seq<EntryType>, draws: seq<GameDraws>, n: nat, g: nat)
    requires AllGameDrawsValid(t, draws) && g < n <= |entryTypes| && n <= |draws|
    ensures GamesOf(t, cardData, entryTypes, draws, n)[g] == GameOf(t, g, entryTypes[g], cardData, draws[g])
  {
    GamesOfStable(t, cardData, entryTypes, draws, n, g);
    GamesOfLast(t, cardData, entryTypes, draws, g + 1);
  }

  /** Game g is the same however many games follow it. */
  lemma {:induction false} GamesOfStable(t: Tables, cardData: seq<CardMeta>, entryTypes: seq<EntryType>, draws: seq<GameDraws>, n: nat, g: nat)
    requires AllGameDrawsValid(t, draws) && g < n <= |entryTypes| && n <= |draws|
    ensures GamesOf(t, cardData, entryTypes, draws, n)[g] == GamesOf(t, cardData, entryTypes, draws, g + 1)[g]
    decreases n
  {
    if g + 1 < n {
      GamesOfStable(t, cardData, entryTypes, draws, n - 1, g);
      GamesOfKeepsEarlier(t, cardData, entryTypes, draws, n, g);
    }
  }

  /** The last of n games is built from the (n - 1)-th entry shape and draws. */
  lemma GamesOfLast(t: Tables, cardData: seq<CardMeta>, entryTypes: seq<EntryType>, draws: seq<GameDraws>, n: nat)
    requires AllGameDrawsValid(t, draws) && 0 < n <= |entryTypes| && n <= |draws|
    ensures GamesOf(t, cardData, entryTypes, draws, n)[n - 1] == GameOf(t, n - 1, entryTypes[n - 1], cardData, draws[n - 1])
  {
  }

  /** Adding a game leaves the games before it as they were. */
  lemma GamesOfKeepsEarlier(t: Tables, cardData: seq<CardMeta>, entryTypes: seq<EntryType>, draws: seq<GameDraws>, n: nat, g: nat)
    requires AllGameDrawsValid(t, draws) && g < n - 1 && n <= |entryTypes| && n <= |draws|
    ensures GamesOf(t, cardData, entryTypes, draws, n)[g] == GamesOf(t, cardData, entryTypes, draws, n - 1)[g]
  {
  }

  /** Games in their own windows are dated in increasing order. */
  lemma ShapedGamesInOrder(games: seq<Game>, entryTypes: seq<EntryType>)
    requires |games| <= |entryTypes|
    requires forall g :: 0 <= g < |games| ==> Shaped(games[g], g, entryTypes[g])
    ensures forall g :: 0 <= g < |games| ==> games[g].players != [] && GameKind(games[g]) == entryTypes[g]
    ensures forall g1, g2 :: 0 <= g1 < g2 < |games| ==> games[g1].dayOffset < games[g2].dayOffset
  {
    forall g1, g2 | 0 <= g1 < g2 < |games|
      ensures games[g1].dayOffset < games[g2].dayOffset
    {
      assert Shaped(games[g1], g1, entryTypes[g1]) && Shaped(games[g2], g2, entryTypes[g2]);
    }
  }

  /** Generates the hundred games of the dataset and the export around them. */
  method GenerateDataset(t: Tables, cardData: seq<CardMeta>, entryTypes: seq<EntryType>, draws: seq<GameDraws>) returns (data: ExportData)
    requires DrawsPerGame(t, entryTypes, draws)
    ensures data == DatasetOf(t, cardData, entryTypes, draws)
  {
    var baseCards := BaseCards(cardData);
    var games: seq<Game> := [];
    var gameNum := 0;
    while gameNum < GameCount
      invariant 0 <= gameNum <= GameCount
      invariant games == GamesOf(t, baseCards, entryTypes, draws, gameNum)
    {
      var game := GenerateGame(t, gameNum, entryTypes[gameNum], baseCards, draws[gameNum]);
      GamesOfStep(t, baseCards, entryTypes, draws, gameNum);
      games := games + [game];
      gameNum := gameNum + 1;
    }
    data := ExportData(ExportVersion, games, t.playerPool);
  }
}
