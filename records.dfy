/** Records shared by the app shell, the Budget Boss game and the progress
    analytics: the games database, mistakes and the arguments of `endGame`. */
module Records {
  import opened JsMath

  datatype Option<T> = None | Some(value: T)

  /** The subject a game belongs to (its translated category label). */
  datatype Category = Budgeting | Debt | Investing | Banking

  /** One entry of the games database; titles and icons are left to the UI. */
  datatype GameInfo = GameInfo(id: string, category: Category, pointsPerGame: nat)

  const GamesDatabase: seq<GameInfo> := [
    GameInfo("budget-boss", Budgeting, 15),
    GameInfo("savings-sprint", Debt, 25),
    GameInfo("investment-clicker", Investing, 18),
    GameInfo("credit-card-swipe", Banking, 14),
    GameInfo("money-memory", Banking, 10),
    GameInfo("stock-trader", Investing, 20)
  ]

  /** `gamesDatabase.find(g => g.id === id)`: the first game with that id. */
  function FindGame(id: string): (r: Option<GameInfo>)
    ensures r.Some? ==> r.value.id == id
  {
    FindFacts(GamesDatabase, id);
    FindIn(GamesDatabase, id)
  }

  function FindIn(games: seq<GameInfo>, id: string): Option<GameInfo>
  {
    if games == [] then None
    else if games[0].id == id then Some(games[0])
    else FindIn(games[1..], id)
  }

  /** The search finds a game exactly when one has the id, and what it finds
      is the first such game. */
  lemma {:induction false} FindFacts(games: seq<GameInfo>, id: string)
    ensures FindIn(games, id).Some? <==> exists i :: 0 <= i < |games| && games[i].id == id
    ensures FindIn(games, id).Some? ==>
      exists i :: (0 <= i < |games| && games[i] == FindIn(games, id).value
        && games[i].id == id && forall j :: 0 <= j < i ==> games[j].id != id)
  {
    if games != [] && games[0].id != id {
      FindFacts(games[1..], id);
      if FindIn(games, id).Some? {
        var i :| 0 <= i < |games[1..]| && games[1..][i] == FindIn(games, id).value
          && games[1..][i].id == id && forall j :: 0 <= j < i ==> games[1..][j].id != id;
        assert games[i + 1] == games[1..][i];
        forall j | 0 <= j < i + 1 ensures games[j].id != id {
          if j > 0 {
            assert games[j] == games[1..][j - 1];
          }
        }
      }
      if exists i :: 0 <= i < |games| && games[i].id == id {
        var i :| 0 <= i < |games| && games[i].id == id;
        assert games[1..][i - 1] == games[i];
      }
    } else if games != [] {
      assert games[0] == FindIn(games, id).value;
    }
  }

  /** The kind a mistake may carry; the games modelled here attach none. */
  datatype MistakeType = Overspending | Undersaving | OtherType

  /** A mistake recorded for review: the Budget Boss entry fields, and the
      optional `type` the spending-habit analysis looks at. */
  datatype Mistake = Mistake(
    game: string,
    category: string,
    title: string,
    choice: string,
    smarterChoice: string,
    pointsLoss: int,
    moneyLoss: int,
    kind: Option<MistakeType>)

  /** A value handed to `endGame`: a number, NaN, or something that is not a number. */
  datatype Arg = Num(n: int) | NaNValue | NonNumber

  /** `finishGame`: the share of the maximum reached, clamped to [0, 1],
      scales the game's points; NaN when the share is 0/0. */
  function FinishPoints(pointsPerGame: nat, score: int, maxScore: int): (r: Arg)
    ensures maxScore != 0 ==> r.Num? && 0 <= r.n <= pointsPerGame
    ensures maxScore != 0 && score as real / maxScore as real >= 1.0 ==> r == Num(pointsPerGame)
    ensures maxScore != 0 && score as real / maxScore as real <= 0.0 ==> r == Num(0)
    ensures maxScore == 0 ==> (r == NaNValue <==> score == 0)
  {
    if maxScore == 0 then
      if score > 0 then Num(pointsPerGame) else if score < 0 then Num(0) else NaNValue
    else
      var pct := MinReal(1.0, MaxReal(0.0, score as real / maxScore as real));
      ScaledPoints(pointsPerGame, pct);
      Num(Round(pointsPerGame as real * pct))
  }

  lemma ScaledPoints(ppg: nat, pct: real)
    requires 0.0 <= pct <= 1.0
    ensures 0 <= Round(ppg as real * pct) <= ppg
    ensures pct == 1.0 ==> Round(ppg as real * pct) == ppg
    ensures pct == 0.0 ==> Round(ppg as real * pct) == 0
  {
    var x := ppg as real * pct;
    assert x <= ppg as real by {
      ProductNonNegative(ppg as real, 1.0 - pct);
      assert ppg as real * (1.0 - pct) == ppg as real - x;
    }
    ProductNonNegative(ppg as real, pct);
    RoundBetween(ppg as real * pct, 0, ppg);
    if pct == 1.0 {
      RoundOfInt(ppg);
    }
    if pct == 0.0 {
      RoundOfInt(0);
    }
  }
}
