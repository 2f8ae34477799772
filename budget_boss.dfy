/** Budget Boss: one scenario a day, paid for out of a fixed budget, until
    the budget runs out (a loss) or the last day is reached (a win). The
    scenario pool is an input: its titles, texts and costs are data. */
module BudgetBoss {
  import opened JsMath
  import opened Records
  import App

  // ---------------------------------------------------------------------
  // Configuration and records
  // ---------------------------------------------------------------------

  datatype Difficulty = Beginner | Intermediate | Advanced

  datatype LevelConfig = LevelConfig(days: nat, budget: nat)

  /** The three difficulty levels: days to survive and the starting budget. */
  function Config(d: Difficulty): (c: LevelConfig)
    ensures 10 <= c.days <= MaxDays && c.budget > 0
  {
    match d
    case Beginner => LevelConfig(10, 1500)
    case Intermediate => LevelConfig(15, 2100)
    case Advanced => LevelConfig(30, 3600)
  }

  /** The longest game, in days. */
  const MaxDays := 30
  /** The size of the scenario pool the game ships with. */
  const ScenarioCount := 50

  datatype ScenarioCategory = Essential | Emergency | Opportunity | Social | Temptation

  function CategoryName(c: ScenarioCategory): string
  {
    match c
    case Essential => "essential"
    case Emergency => "emergency"
    case Opportunity => "opportunity"
    case Social => "social"
    case Temptation => "temptation"
  }

  /** Categories where the cheapest choice is the smart one; essentials and
      emergencies never count as mistakes. */
  predicate Discretionary(c: ScenarioCategory)
  {
    c == Opportunity || c == Social || c == Temptation
  }

  /** A choice costs `cost`; a negative cost is income. */
  datatype Choice = Choice(text: string, cost: int)

  datatype Scenario = Scenario(cat: ScenarioCategory, title: string, choices: seq<Choice>)

  /** A line of the decision log. */
  datatype Decision = Decision(day: int, title: string, choice: string, cost: int)

  predicate PoolValid(pool: seq<Scenario>)
  {
    |pool| == ScenarioCount && forall k :: 0 <= k < |pool| ==> |pool[k].choices| > 0
  }

  // ---------------------------------------------------------------------
  // The optimal choice and the mistake it implies
  // ---------------------------------------------------------------------

  /** The first cheapest choice: the one a left-to-right scan keeping
      strictly cheaper choices ends with. */
  function FirstCheapest(cs: seq<Choice>): (i: nat)
    requires |cs| > 0
    ensures i < |cs|
    ensures forall j :: 0 <= j < |cs| ==> cs[i].cost <= cs[j].cost
    ensures forall j :: 0 <= j < i ==> cs[j].cost > cs[i].cost
    decreases |cs|
  {
    if |cs| == 1 then 0
    else
      var k := FirstCheapest(cs[..|cs| - 1]);
      if cs[|cs| - 1].cost < cs[k].cost then |cs| - 1 else k
  }

  /** The choice `makeDecision` measures the chosen one against: the first
      cheapest for discretionary scenarios, the chosen one otherwise. */
  function OptimalIndex(s: Scenario, chosen: nat): (i: nat)
    requires chosen < |s.choices|
    ensures i < |s.choices|
    ensures s.choices[i].cost <= s.choices[chosen].cost
  {
    if Discretionary(s.cat) then FirstCheapest(s.choices) else chosen
  }

  /** The mistake recorded for a choice, if it is one: the difference to
      the optimal cost is the points lost, and 500 times it the money lost. */
  function MistakeOf(s: Scenario, chosen: nat): (m: Option<Mistake>)
    requires chosen < |s.choices|
    ensures m.Some? <==> Discretionary(s.cat) && exists j :: 0 <= j < |s.choices| && s.choices[j].cost < s.choices[chosen].cost
    ensures m.Some? ==>
      && m.value.pointsLoss > 0
      && m.value.moneyLoss == 500 * m.value.pointsLoss
      && m.value.category == CategoryName(s.cat)
      && m.value.choice == s.choices[chosen].text
      && m.value.kind.None?
  {
    var optimal := s.choices[OptimalIndex(s, chosen)];
    var choice := s.choices[chosen];
    if choice.cost > optimal.cost then
      var loss := choice.cost - optimal.cost;
      Some(Mistake("Budget Boss", CategoryName(s.cat), s.title, choice.text, optimal.text, loss, loss * 500, None))
    else
      None
  }

  /** The recent mistakes after one more, newest first: the oldest drops
      off once there are more than 10. */
  function WithMistake(recent: seq<Mistake>, m: Mistake): (r: seq<Mistake>)
    requires |recent| <= App.RecentMistakeCap
    ensures |r| == Min(|recent| + 1, App.RecentMistakeCap)
    ensures r[0] == m
    ensures forall i :: 1 <= i < |r| ==> r[i] == recent[i - 1]
  {
    var grown := [m] + recent;
    if |grown| > App.RecentMistakeCap then grown[..|grown| - 1] else grown
  }

  function MistakesAfter(recent: seq<Mistake>, s: Scenario, chosen: nat): (r: seq<Mistake>)
    requires |recent| <= App.RecentMistakeCap && chosen < |s.choices|
    ensures |r| <= App.RecentMistakeCap
  {
    var m := MistakeOf(s, chosen);
    if m.Some? then WithMistake(recent, m.value) else recent
  }

  /** Budget Boss never records a mistake on an essential or an emergency,
      so every mistake it records feeds the lifestyle share of spending. */
  lemma MistakesAreDiscretionary(recent: seq<Mistake>, s: Scenario, chosen: nat)
    requires |recent| <= App.RecentMistakeCap && chosen < |s.choices|
    ensures MistakesAfter(recent, s, chosen) != recent ==> Discretionary(s.cat)
    ensures MistakesAfter(recent, s, chosen) != recent && (s.cat == Opportunity || s.cat == Social) ==>
      App.LifestylePercent(MistakesAfter(recent, s, chosen)) > 20
  {
    var m := MistakeOf(s, chosen);
    if m.Some? && (s.cat == Opportunity || s.cat == Social) {
      var r := MistakesAfter(recent, s, chosen);
      assert r[0] == m.value;
      assert App.DiscretionaryCount(r) >= 1 by {
        assert r == [r[0]] + r[1..];
      }
    }
  }

  /** Choosing a cheapest option is never a mistake. */
  lemma CheapestIsNoMistake(s: Scenario, chosen: nat)
    requires chosen < |s.choices|
    requires forall j :: 0 <= j < |s.choices| ==> s.choices[chosen].cost <= s.choices[j].cost
    ensures MistakeOf(s, chosen).None?
  {
  }

  // ---------------------------------------------------------------------
  // The scenario draw
  // ---------------------------------------------------------------------

  /** The positions of the pool not yet used, in pool order. */
  function Available(n: nat, used: seq<nat>): (r: seq<nat>)
    ensures forall i :: i in r <==> 0 <= i < n && i !in used
  {
    if n == 0 then []
    else
      var earlier := Available(n - 1, used);
      var last := if n - 1 in used then [] else [n - 1];
      assert forall i :: i in earlier + last <==> i in earlier || i in last;
      earlier + last
  }

  /** While fewer scenarios were used than the pool holds, one is left. */
  lemma {:induction false} SomeLeft(n: nat, used: seq<nat>)
    requires |used| < n
    ensures Available(n, used) != []
  {
    if n - 1 !in used {
      assert n - 1 in Available(n, used);
    } else {
      var rest := Without(used, n - 1);
      SomeLeft(n - 1, rest);
      var i := Available(n - 1, rest)[0];
      assert i in Available(n, used);
    }
  }

  /** `used` without any occurrence of `x`. */
  function Without(used: seq<nat>, x: nat): (r: seq<nat>)
    ensures forall i :: i in r <==> i in used && i != x
    ensures x in used ==> |r| < |used|
    ensures |r| <= |used|
  {
    if used == [] then []
    else if used[0] == x then Without(used[1..], x)
    else [used[0]] + Without(used[1..], x)
  }

  datatype Drawn = Drawn(index: nat, used: seq<nat>)

  /** The scenario of the day, drawn with the random number `u` among the
      unused ones; once all are used, the record is cleared and the whole
      pool is drawn from. */
  function Draw(n: nat, used: seq<nat>, u: real): (d: Drawn)
    requires n > 0 && 0.0 <= u < 1.0
    ensures d.index < n
    ensures Available(n, used) != [] ==> d.index !in used && d.used == used + [d.index]
    ensures Available(n, used) == [] ==> d.used == [d.index]
  {
    var available := Available(n, used);
    if available != [] then
      var i := available[RandomIndex(u, |available|)];
      assert i in available;
      Drawn(i, used + [i])
    else
      var all := Available(n, []);
      assert 0 in all;
      var i := all[RandomIndex(u, |all|)];
      assert i in all;
      Drawn(i, [i])
  }

  /** The draw as written: the record is cleared when nothing is left, but
      the pick is still made from the empty list, so no scenario comes out
      (the page then fails reading the title of `undefined`). */
  function DrawAsWritten(n: nat, used: seq<nat>, u: real): (d: Option<Drawn>)
    requires 0.0 <= u < 1.0
    ensures d.None? <==> Available(n, used) == []
  {
    var available := Available(n, used);
    if available == [] then None
    else
      var i := available[RandomIndex(u, |available|)];
      Some(Drawn(i, used + [i]))
  }

  /** An exhausted pool defeats the draw as written; the corrected draw
      still gives a scenario. */
  lemma ExhaustedDrawFails()
    ensures DrawAsWritten(1, [0], 0.0).None?
    ensures Draw(1, [0], 0.0) == Drawn(0, [0])
  {
    assert Available(1, [0]) == [];
    assert Available(1, []) == [0];
  }

  /** Both draws agree while scenarios are left, and within one game they
      always are: at most 30 days are played from a pool of 50. */
  lemma DrawsAgreeWithinGame(n: nat, used: seq<nat>, u: real)
    requires n == ScenarioCount && |used| < MaxDays && 0.0 <= u < 1.0
    ensures DrawAsWritten(n, used, u) == Some(Draw(n, used, u))
  {
    SomeLeft(n, used);
  }

  // ---------------------------------------------------------------------
  // The day's decision
  // ---------------------------------------------------------------------

  datatype Screen = Playing | Won | Lost

  /** How a decision ends: the next day, or a finished game with the
      arguments it hands to `endGame` (score, total, points). */
  datatype Outcome = NextDay | Finished(won: bool, score: int, total: int, points: int)

  /** The game state, with the scenario on screen. */
  datatype State = State(
    level: Difficulty,
    currentDay: int,
    budget: int,
    totalDays: int,
    decisionsLog: seq<Decision>,
    usedScenarios: seq<nat>,
    current: nat,
    screen: Screen)

  predicate NoRepeats(s: seq<nat>)
  {
    forall i, j :: 0 <= i < j < |s| ==> s[i] != s[j]
  }

  /** A game in progress or just over: one scenario drawn per day, never
      the same twice, and one decision logged per day played. A game still
      in play has money left. */
  predicate Inv(r: State, n: nat)
  {
    && 1 <= r.currentDay <= r.totalDays
    && r.totalDays == Config(r.level).days
    && |r.usedScenarios| == r.currentDay
    && NoRepeats(r.usedScenarios)
    && (forall i :: 0 <= i < |r.usedScenarios| ==> r.usedScenarios[i] < n)
    && r.current == r.usedScenarios[|r.usedScenarios| - 1]
    && (r.screen == Playing ==> |r.decisionsLog| == r.currentDay - 1 && r.budget > 0)
    && (r.screen == Lost ==> |r.decisionsLog| == r.currentDay && r.budget <= 0)
    && (r.screen == Won ==> |r.decisionsLog| == r.currentDay == r.totalDays && r.budget > 0)
  }

  /** `startGame` followed by the first day's draw. */
  function Start(level: Difficulty, n: nat, u: real): (r: State)
    requires n > 0 && 0.0 <= u < 1.0
    ensures Inv(r, n) && r.screen == Playing && r.currentDay == 1
    ensures r.budget == Config(level).budget && r.decisionsLog == []
  {
    SomeLeft(n, []);
    var d := Draw(n, [], u);
    State(level, 1, Config(level).budget, Config(level).days, [], d.used, d.index, Playing)
  }

  /** The points of a win: the share of the budget kept, in percent, plus 50. */
  function VictoryPoints(budget: int, levelBudget: nat): (p: int)
    requires levelBudget > 0
    ensures budget > 0 ==> p >= 50
    ensures budget >= levelBudget ==> p >= 150
  {
    var share := budget as real / levelBudget as real * 100.0;
    if budget > 0 then
      assert share >= 0.0;
      RoundMonotone(0.0, share);
      RoundOfInt(0);
      if budget >= levelBudget then
        QuotientAtLeastOne(budget as real, levelBudget as real);
        assert share >= 100.0;
        RoundMonotone(100.0, share);
        RoundOfInt(100);
        Round(share) + 50
      else
        Round(share) + 50
    else
      Round(share) + 50
  }

  /** The points of a loss: the share of the days survived times the game's points. */
  function GameOverPoints(survived: int, totalDays: int, pointsPerGame: nat): (p: int)
    requires totalDays > 0
    ensures 0 <= survived <= totalDays ==> 0 <= p <= pointsPerGame
  {
    var x := survived as real / totalDays as real * pointsPerGame as real;
    if 0 <= survived <= totalDays then
      var q := survived as real / totalDays as real;
      assert 0.0 <= q <= 1.0 by {
        assert q * totalDays as real == survived as real;
      }
      ProductNonNegative(q, pointsPerGame as real);
      ProductNonNegative(1.0 - q, pointsPerGame as real);
      RoundBetween(x, 0, pointsPerGame);
      Round(x)
    else
      Round(x)
  }

  datatype Decided = Decided(state: State, outcome: Outcome)

  /** `makeDecision` and the callback after its feedback: pay for the
      choice, log it, then lose if the budget is gone, else win on the last
      day, else move to the next day and draw its scenario. */
  function Decide(r: State, pool: seq<Scenario>, chosen: nat, pointsPerGame: nat, u: real): (d: Decided)
    requires PoolValid(pool) && Inv(r, |pool|) && r.screen == Playing
    requires chosen < |pool[r.current].choices| && 0.0 <= u < 1.0
    ensures Inv(d.state, |pool|)
  {
    var s := pool[r.current];
    var choice := s.choices[chosen];
    var budget := r.budget - choice.cost;
    var log := r.decisionsLog + [Decision(r.currentDay, s.title, choice.text, choice.cost)];
    var paid := r.(budget := budget, decisionsLog := log);
    if budget <= 0 then
      Decided(paid.(screen := Lost),
              Finished(false, r.currentDay, r.totalDays, GameOverPoints(r.currentDay, r.totalDays, pointsPerGame)))
    else if r.currentDay >= r.totalDays then
      var points := VictoryPoints(budget, Config(r.level).budget);
      Decided(paid.(screen := Won), Finished(true, points, 100, points))
    else
      SomeLeft(|pool|, r.usedScenarios);
      var d := Draw(|pool|, r.usedScenarios, u);
      NoRepeatsExtended(r.usedScenarios, d.index);
      Decided(paid.(currentDay := r.currentDay + 1, usedScenarios := d.used, current := d.index), NextDay)
  }

  lemma NoRepeatsExtended(s: seq<nat>, x: nat)
    requires NoRepeats(s) && x !in s
    ensures NoRepeats(s + [x])
  {
  }

  /** The budget falls by exactly the chosen cost and the decision is
      logged; running out of money loses even on the last day; a win needs
      money left on the last day; otherwise play moves on one day. */
  lemma DecideRules(r: State, pool: seq<Scenario>, chosen: nat, pointsPerGame: nat, u: real)
    requires PoolValid(pool) && Inv(r, |pool|) && r.screen == Playing
    requires chosen < |pool[r.current].choices| && 0.0 <= u < 1.0
    ensures var d := Decide(r, pool, chosen, pointsPerGame, u);
      var cost := pool[r.current].choices[chosen].cost;
      && d.state.budget == r.budget - cost
      && d.state.decisionsLog[..|r.decisionsLog|] == r.decisionsLog
      && d.state.decisionsLog[|r.decisionsLog|] == Decision(r.currentDay, pool[r.current].title, pool[r.current].choices[chosen].text, cost)
      && (d.state.screen == Lost <==> r.budget - cost <= 0)
      && (d.state.screen == Won <==> r.budget - cost > 0 && r.currentDay == r.totalDays)
      && (d.outcome == NextDay <==> d.state.screen == Playing)
      && (d.state.screen == Playing ==>
            d.state.currentDay == r.currentDay + 1 && d.state.current !in r.usedScenarios)
      && (d.state.screen == Lost ==>
            && d.outcome.Finished? && 0 <= d.outcome.points <= pointsPerGame
            && d.outcome.score == r.currentDay && d.outcome.total == r.totalDays)
      && (d.state.screen == Won ==>
            && d.outcome.Finished? && d.outcome.points >= 50
            && d.outcome.score == d.outcome.points && d.outcome.total == 100)
  {
    var d := Decide(r, pool, chosen, pointsPerGame, u);
    var log := r.decisionsLog + [Decision(r.currentDay, pool[r.current].title, pool[r.current].choices[chosen].text, pool[r.current].choices[chosen].cost)];
    assert d.state.decisionsLog == log;
    assert log[..|r.decisionsLog|] == r.decisionsLog;
  }

  /** The game lasts the level's number of days at most: each decision that
      does not end the game moves one day on, and none does on the last day. */
  lemma LastDayEndsGame(r: State, pool: seq<Scenario>, chosen: nat, pointsPerGame: nat, u: real)
    requires PoolValid(pool) && Inv(r, |pool|) && r.screen == Playing && r.currentDay == r.totalDays
    requires chosen < |pool[r.current].choices| && 0.0 <= u < 1.0
    ensures Decide(r, pool, chosen, pointsPerGame, u).outcome.Finished?
  {
  }

  // ---------------------------------------------------------------------
  // The game, updated in place
  // ---------------------------------------------------------------------

  class Game {
    const pool: seq<Scenario>
    /** The points of the games database entry the game was started from. */
    const pointsPerGame: nat
    var level: Difficulty
    var currentDay: int
    var budget: int
    var totalDays: int
    var decisionsLog: seq<Decision>
    var usedScenarios: seq<nat>
    var current: nat
    var screen: Screen

    function Snapshot(): State
      reads this
    {
      State(level, currentDay, budget, totalDays, decisionsLog, usedScenarios, current, screen)
    }

    predicate Valid()
      reads this
    {
      PoolValid(pool) && Inv(Snapshot(), |pool|)
    }

    /** `startGame(levelKey)` and the first day on screen. */
    constructor (levelKey: Difficulty, scenarios: seq<Scenario>, game: GameInfo, u: real)
      requires PoolValid(scenarios) && 0.0 <= u < 1.0
      ensures Valid() && pool == scenarios && pointsPerGame == game.pointsPerGame
      ensures Snapshot() == Start(levelKey, |scenarios|, u)
    {
      pool := scenarios;
      pointsPerGame := game.pointsPerGame;
      var config := Config(levelKey);
      level := levelKey;
      currentDay := 1;
      budget := config.budget;
      totalDays := config.days;
      decisionsLog := [];
      usedScenarios := [];
      screen := Playing;
      new;
      ghost var r0 := Snapshot();
      SomeLeft(|pool|, []);
      ShowGameplay(u);
      assert Snapshot() == Start(levelKey, |scenarios|, u) by {
        var d := Draw(|pool|, [], u);
        assert Snapshot() == r0.(usedScenarios := d.used, current := d.index);
      }
    }

    /** The draw of `showGameplay`, with the exhausted case corrected. */
    method ShowGameplay(u: real)
      requires |pool| > 0 && 0.0 <= u < 1.0
      modifies this
      ensures var d := Draw(|pool|, old(usedScenarios), u);
        Snapshot() == old(Snapshot()).(usedScenarios := d.used, current := d.index)
    {
      var available := Available(|pool|, usedScenarios);
      if available == [] {
        usedScenarios := [];
        available := Available(|pool|, []);
        assert 0 in available;
      }
      current := available[RandomIndex(u, |available|)];
      usedScenarios := usedScenarios + [current];
    }

    /** `makeDecision` with the choice at position `chosen` of the scenario
      on screen; records a mistake in the player's profile. `u` draws the
      next day's scenario. */
    method MakeDecision(chosen: nat, u: real, app: App.AppState) returns (outcome: Outcome)
      requires Valid() && screen == Playing && chosen < |pool[current].choices| && 0.0 <= u < 1.0
      requires App.Valid(app.Snapshot())
      modifies this, app
      ensures Valid() && App.Valid(app.Snapshot())
      ensures Decided(Snapshot(), outcome) == Decide(old(Snapshot()), pool, chosen, pointsPerGame, u)
      ensures app.Snapshot() == old(app.Snapshot()).(recentMistakes :=
        MistakesAfter(old(app.recentMistakes), pool[old(current)], chosen))
    {
      ghost var r0 := Snapshot();
      var scenario := pool[current];
      var choice := scenario.choices[chosen];
      RecordMistake(scenario, chosen, app);
      budget := budget - choice.cost;
      decisionsLog := decisionsLog + [Decision(currentDay, scenario.title, choice.text, choice.cost)];
      if budget <= 0 {
        screen := Lost;
        outcome := Finished(false, currentDay, totalDays, GameOverPoints(currentDay, totalDays, pointsPerGame));
        assert Decided(Snapshot(), outcome) == Decide(r0, pool, chosen, pointsPerGame, u);
      } else if currentDay >= totalDays {
        screen := Won;
        var finalPoints := VictoryPoints(budget, Config(level).budget);
        outcome := Finished(true, finalPoints, 100, finalPoints);
        assert Decided(Snapshot(), outcome) == Decide(r0, pool, chosen, pointsPerGame, u);
      } else {
        currentDay := currentDay + 1;
        ghost var r1 := Snapshot();
        ShowGameplay(u);
        assert Snapshot() == Decide(r0, pool, chosen, pointsPerGame, u).state by {
          var d := Draw(|pool|, r0.usedScenarios, u);
          assert Snapshot() == r1.(usedScenarios := d.used, current := d.index);
        }
        outcome := NextDay;
      }
    }
  }

  /** The mistake bookkeeping of `makeDecision`, on the player's profile. */
  method RecordMistake(scenario: Scenario, chosen: nat, app: App.AppState)
    requires chosen < |scenario.choices| && |app.recentMistakes| <= App.RecentMistakeCap
    modifies app
    ensures app.Snapshot() == old(app.Snapshot()).(recentMistakes :=
      MistakesAfter(old(app.recentMistakes), scenario, chosen))
  {
    var choice := scenario.choices[chosen];
    var optimal := FindOptimal(scenario, chosen);
    if choice.cost > scenario.choices[optimal].cost {
      var loss := choice.cost - scenario.choices[optimal].cost;
      app.recentMistakes := [Mistake("Budget Boss", CategoryName(scenario.cat), scenario.title, choice.text,
                                     scenario.choices[optimal].text, loss, loss * 500, None)] + app.recentMistakes;
      if |app.recentMistakes| > App.RecentMistakeCap {
        app.recentMistakes := app.recentMistakes[..|app.recentMistakes| - 1];
      }
    }
  }

  /** The optimal choice of `makeDecision`, found by the same scan. */
  method FindOptimal(scenario: Scenario, chosen: nat) returns (optimal: nat)
    requires chosen < |scenario.choices|
    ensures optimal == OptimalIndex(scenario, chosen)
  {
    var cs := scenario.choices;
    optimal := 0;
    if Discretionary(scenario.cat) {
      for j := 0 to |cs|
        invariant optimal < |cs|
        invariant j == 0 ==> optimal == 0
        invariant j > 0 ==> optimal == FirstCheapest(cs[..j])
      {
        assert cs[..j + 1][..j] == cs[..j];
        if cs[j].cost < cs[optimal].cost {
          optimal := j;
        }
      }
      assert cs[..|cs|] == cs;
    } else {
      optimal := chosen;
    }
  }
}
