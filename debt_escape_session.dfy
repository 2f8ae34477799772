/** A running game of Debt Escape: the closure state of the game, changed
    field by field by the handlers the buttons call. Each handler is proved
    to perform the transition of the same name in module DebtEscape. */
module DebtEscapeSession {
  import opened JsMath
  import opened DebtEscape

  class Game {
    var level: int
    var month: int
    var savings: int
    var debt: int
    var stress: int
    var shownTemptations: seq<Item>
    var metrics: Metrics
    var screen: Screen

    /** The state of the game as a value. */
    function Snapshot(): Sim
      reads this
    {
      Sim(level, month, savings, debt, stress, shownTemptations, metrics, screen)
    }

    predicate Valid()
      reads this
    {
      Inv(Snapshot())
    }

    /** A new game: level 1, month 1, nothing saved or owed, stress 20, on the intro card. */
    constructor ()
      ensures Valid() && Snapshot() == Initial()
    {
      level := 1;
      month := 1;
      savings := 0;
      debt := 0;
      stress := 20;
      shownTemptations := [];
      metrics := Metrics(0, 0, 0, 0, 0);
      screen := LevelIntro;
    }

    /** The bill settlement of `startDebtMonth`. */
    method Settle(skipDeduction: bool)
      requires Valid()
      modifies this
      ensures Valid()
      ensures Snapshot() == DebtEscape.Settle(old(Snapshot()), skipDeduction)
    {
      if !skipDeduction {
        var lvl := Level(level);
        var fixedCosts := FixedCosts(lvl);
        savings := savings + lvl.income;
        if savings < fixedCosts {
          debt := debt + (fixedCosts - savings);
          savings := 0;
        } else {
          savings := savings - fixedCosts;
        }
      }
    }

    /** Takes one temptation off the pool and records its title. */
    method PickTemptation(u: real) returns (t: Temptation)
      requires Valid() && 0.0 <= u < 1.0
      modifies this
      ensures Valid()
      ensures var drawn := DrawTemptation(Level(level).temptations, old(shownTemptations), u);
        t == drawn.temptation && Snapshot() == old(Snapshot()).(shown := drawn.shown)
    {
      var pool := Level(level).temptations;
      var available := Unshown(pool, shownTemptations);
      if available == [] {
        shownTemptations := [];
        assert pool[0] in Unshown(pool, []);
        available := Unshown(pool, []);
      }
      t := available[RandomIndex(u, |available|)];
      shownTemptations := shownTemptations + [t.title];
    }

    /** The boss-fight draw, which falls back on the whole pool without
      clearing the record. */
    method PickBossTemptation(u: real) returns (t: Temptation)
      requires Valid() && 0.0 <= u < 1.0
      modifies this
      ensures Valid()
      ensures var drawn := DrawBossTemptation(Level(level).temptations, old(shownTemptations), u);
        t == drawn.temptation && Snapshot() == old(Snapshot()).(shown := drawn.shown)
    {
      var pool := Level(level).temptations;
      var available := Unshown(pool, shownTemptations);
      if available != [] {
        t := available[RandomIndex(u, |available|)];
      } else {
        t := pool[RandomIndex(u, |pool|)];
      }
      shownTemptations := shownTemptations + [t.title];
    }

    /** `renderGameUI`: the level-3 event, then the prompt of the month. */
    method Render(d: Draw) returns (prompt: Prompt)
      requires Valid() && d.Valid()
      modifies this
      ensures Valid()
      ensures Step(Snapshot(), prompt) == DebtEscape.Render(old(Snapshot()), d)
    {
      RandomEvent(d);
      if level == 4 && month % 3 == 1 {
        prompt := StrategyChoice;
      } else if level == FinalLevel {
        var t := PickBossTemptation(d.pick);
        prompt := BossFight(t, BossButtons(t));
      } else {
        var t := PickTemptation(d.pick);
        prompt := Offer(t, ChoiceButtons(t));
      }
    }

    /** The level-3 random event of `renderGameUI`, on the month's screen. */
    method RandomEvent(d: Draw)
      requires Valid() && d.Valid()
      modifies this
      ensures Valid()
      ensures Snapshot() == LevelThreeEvent(old(Snapshot()), d).(screen := MonthInPlay)
    {
      screen := MonthInPlay;
      if level == 3 && d.eventRoll < 0.3 {
        var events := Level(3).events;
        savings := savings - events[RandomIndex(d.eventPick, |events|)].cost;
      }
    }

    /** `startDebtMonth`, the action of the "Begin Month" button when `skipDeduction` is false. */
    method StartMonth(skipDeduction: bool, d: Draw) returns (prompt: Prompt)
      requires Valid() && d.Valid()
      modifies this
      ensures Valid()
      ensures Step(Snapshot(), prompt) == DebtEscape.StartMonth(old(Snapshot()), skipDeduction, d)
    {
      Settle(skipDeduction);
      prompt := Render(d);
    }

    /** `repayDebt`: move up to `amount` from savings to the debt, then re-render. */
    method RepayDebt(amount: int, d: Draw) returns (prompt: Prompt)
      requires Valid() && d.Valid()
      modifies this
      ensures Valid()
      ensures Step(Snapshot(), prompt) == DebtEscape.RepayDebt(old(Snapshot()), amount, d)
    {
      ghost var s0 := Snapshot();
      var actual := Min(Min(amount, savings), debt);
      if actual <= 0 {
        return NoPrompt;
      }
      savings := savings - actual;
      debt := debt - actual;
      metrics := metrics.(totalRepaid := metrics.totalRepaid + actual);
      assert Snapshot() == Repay(s0, amount);
      prompt := StartMonth(true, d);
    }

    /** `finishMonth`: the month's verdict, interest, and the next month. */
    method FinishMonth(bossWin: bool, d: Draw) returns (prompt: Prompt)
      requires Valid() && d.Valid() && !screen.GameOver? && screen != LevelIntro
      modifies this
      ensures Valid()
      ensures Step(Snapshot(), prompt) == DebtEscape.FinishMonth(old(Snapshot()), bossWin, d)
    {
      Conclude(bossWin);
      if screen == LevelIntro || screen.GameOver? {
        prompt := NoPrompt;
      } else {
        prompt := StartMonth(false, d);
      }
    }

    /** The verdict part of `finishMonth`: level-up, win or loss on the
        last month; loss on the debt limit or burnout; otherwise interest
        and the next month number. */
    method Conclude(bossWin: bool)
      requires Valid()
      modifies this
      ensures Valid()
      ensures Snapshot() == DebtEscape.Conclude(old(Snapshot()), bossWin)
    {
      if month >= Level(level).duration {
        CloseLevel(bossWin);
      } else {
        CloseMonth(bossWin);
      }
    }

    /** The last month of a level: level-up, the final win, or a loss. */
    method CloseLevel(bossWin: bool)
      requires Valid() && month >= Level(level).duration
      modifies this
      ensures Valid()
      ensures Snapshot() == DebtEscape.Conclude(old(Snapshot()), bossWin)
    {
      ghost var s0 := Snapshot();
      metrics := metrics.(monthsSurvived := metrics.monthsSurvived + 1);
      var lvl := Level(level);
      if (savings >= lvl.goal && debt <= 0) || (lvl.isBoss && bossWin) {
        if level < FinalLevel {
          level := level + 1;
          month := 1;
          debt := Level(level).initialDebt;
          stress := 20;
          shownTemptations := [];
          screen := LevelIntro;
        } else {
          screen := GameOver(true, FinalFreedom);
        }
      } else {
        screen := GameOver(false, ObjectiveFailed);
      }
      assert Snapshot() == DebtEscape.Conclude(s0, bossWin);
    }

    /** A month before the last: a loss on the debt limit or burnout, or
        interest and the next month number. */
    method CloseMonth(bossWin: bool)
      requires Valid() && month < Level(level).duration
      modifies this
      ensures Valid()
      ensures Snapshot() == DebtEscape.Conclude(old(Snapshot()), bossWin)
    {
      ghost var s0 := Snapshot();
      metrics := metrics.(monthsSurvived := metrics.monthsSurvived + 1);
      var lvl := Level(level);
      if debt > lvl.debtLimit || stress >= 100 {
        screen := GameOver(false, if debt > lvl.debtLimit then DebtLimitExceeded else MentalBurnout);
      } else {
        if lvl.interestRate != 0.0 && debt > 0 {
          var interest := Round(debt as real * lvl.interestRate);
          assert debt as real * lvl.interestRate >= 0.0;
          debt := debt + interest;
          metrics := metrics.(totalInterest := metrics.totalInterest + interest);
        }
        month := month + 1;
      }
      assert Snapshot() == DebtEscape.Conclude(s0, bossWin);
    }

    /** `handleChoice`: pay for, or resist, the temptation; then finish the month. */
    method HandleChoice(kind: ChoiceKind, cost: int, stressChange: int, d: Draw) returns (prompt: Prompt)
      requires Valid() && d.Valid() && !screen.GameOver? && screen != LevelIntro
      modifies this
      ensures Valid()
      ensures Step(Snapshot(), prompt) == DebtEscape.HandleChoice(old(Snapshot()), kind, cost, stressChange, d)
    {
      Choose(kind, cost, stressChange);
      prompt := FinishMonth(false, d);
    }

    /** `handleChoice` up to its call of `finishMonth`: pay for, or resist, the temptation. */
    method Choose(kind: ChoiceKind, cost: int, stressChange: int)
      requires Valid()
      modifies this
      ensures Valid()
      ensures Snapshot() == DebtEscape.Choose(old(Snapshot()), kind, cost, stressChange)
    {
      var change := stressChange;
      if kind == Impulse || kind == Balanced {
        metrics := metrics.(luxuriesBought := metrics.luxuriesBought + 1);
        var finalCost := if kind == Balanced then Round(cost as real * 0.4) else cost;
        if savings >= finalCost {
          savings := savings - finalCost;
        } else {
          debt := debt + finalCost;
          change := change + 5;
        }
      } else {
        metrics := metrics.(luxuriesResisted := metrics.luxuriesResisted + 1);
      }
      stress := Clamp(0, 100, stress + change);
    }

    /** `applyRepayment`: the level-4 strategy, then finish the month. */
    method ApplyRepayment(strategy: Strategy, d: Draw) returns (prompt: Prompt)
      requires Valid() && d.Valid() && !screen.GameOver? && screen != LevelIntro
      modifies this
      ensures Valid()
      ensures Step(Snapshot(), prompt) == DebtEscape.ApplyRepayment(old(Snapshot()), strategy, d)
    {
      if strategy == Snowball {
        stress := Max(0, stress - 10);
      } else {
        debt := Max(0, debt - 500);
      }
      prompt := FinishMonth(false, d);
    }

    /** The boss countdown reaching zero. */
    method BossTimerExpired(d: Draw) returns (prompt: Prompt)
      requires Valid() && d.Valid() && !screen.GameOver? && screen != LevelIntro
      modifies this
      ensures Valid()
      ensures Step(Snapshot(), prompt) == DebtEscape.FinishMonth(old(Snapshot()), true, d)
    {
      prompt := FinishMonth(true, d);
    }

    /** The summary `endGame` shows once the game is over. */
    method Report() returns (r: Report)
      requires screen.GameOver?
      ensures r == MakeReport(Snapshot(), screen.won)
      ensures 0 <= r.financialIQ <= 100
    {
      r := MakeReport(Snapshot(), screen.won);
    }
  }
}
