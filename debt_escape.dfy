/** "Save or Sink: Debt Escape": the level catalogue, the month-by-month
    transitions of the simulation as functions on a snapshot of its state,
    and the end-of-game report. The session class in debt_escape_session.dfy
    runs these transitions in place. */
module DebtEscape {
  import opened JsMath

  /** The translation keys that name the temptations of the catalogue. */
  datatype Item =
    Canteen | Tshirt | Movie | Zomato | Posters | Gaming | Music | Latte | Sneaker |
    Stationary | Auto | Recharge | Maggi | Textbook | Party | PhoneCase | AppPurchase |
    PowerBank | GymMembership | OnlineCourse | Hoodie | Keyboard | OttBundle | Pods |
    DesignerBag | Vpn | FastCharger | MobileSkin | IndieGame | Mouse | EnergyDrinks |
    PizzaParty | Therapy | MusicFest | Calculator | Uber | ExamGuide | GamingTopup | DeskLamp |
    SoftDrinks | Pillow | StressBall | NoiseCancelling | Vitamins | Suit | Dinner |
    Smartwatch | PremiumGym | Getaway | Bike | Perfume | TradingBot | Decor | LeatherShoes |
    GourmetCoffee | Monitor | ErgoChair | GoaFlight | Villa | PartyPass | Bikini | Jeep |
    Seafood | GoaMerch | Polaroids | Sunscreen | JetSki

  /** The translation keys that name the random events of level 3. */
  datatype Mishap =
    LibraryBook | LaptopRepair | RecordFine | StolenCycle | FeverMeds

  datatype Temptation = Temptation(title: Item, cost: int)
  datatype RandomEvent = RandomEvent(title: Mishap, cost: int)

  /** One year of the game. A level that leaves `initialDebt` or
      `interestRate` undefined has 0 here, which JavaScript treats alike
      (both are falsy). `expenses` lists the amounts of the fixed bills. */
  datatype LevelConfig = LevelConfig(
    duration: int,
    income: int,
    goal: int,
    debtLimit: int,
    initialDebt: int,
    interestRate: real,
    expenses: seq<int>,
    temptations: seq<Temptation>,
    events: seq<RandomEvent>,
    isBoss: bool)

  const FinalLevel := 5

  function Sum(xs: seq<int>): (r: int)
    ensures (forall i :: 0 <= i < |xs| ==> xs[i] >= 0) ==> r >= 0
  {
    if xs == [] then 0 else xs[0] + Sum(xs[1..])
  }

  /** The total of a level's fixed bills, charged every month. */
  function FixedCosts(lvl: LevelConfig): int
  {
    Sum(lvl.expenses)
  }

  // ---------------------------------------------------------------------
  // Level catalogue (titles are the translation keys of the temptations)
  // ---------------------------------------------------------------------

  function Temptations(n: int): (ts: seq<Temptation>)
    requires 1 <= n <= FinalLevel
    ensures |ts| > 0
  {
    if n == 1 then
      [Temptation(Canteen, 500), Temptation(Tshirt, 1200), Temptation(Movie, 800),
       Temptation(Zomato, 600), Temptation(Posters, 400), Temptation(Gaming, 500),
       Temptation(Music, 199), Temptation(Latte, 350), Temptation(Sneaker, 2500),
       Temptation(Stationary, 600), Temptation(Auto, 200), Temptation(Recharge, 799),
       Temptation(Maggi, 150), Temptation(Textbook, 400), Temptation(Party, 1000)]
    else if n == 2 then
      [Temptation(PhoneCase, 800), Temptation(AppPurchase, 500), Temptation(PowerBank, 1500),
       Temptation(GymMembership, 2000), Temptation(OnlineCourse, 500), Temptation(Hoodie, 1800),
       Temptation(Keyboard, 3500), Temptation(OttBundle, 800), Temptation(Pods, 2500),
       Temptation(DesignerBag, 2200), Temptation(Vpn, 400), Temptation(FastCharger, 1200),
       Temptation(MobileSkin, 600), Temptation(IndieGame, 450), Temptation(Mouse, 900)]
    else if n == 3 then
      [Temptation(EnergyDrinks, 500), Temptation(PizzaParty, 1200), Temptation(Therapy, 1500),
       Temptation(MusicFest, 3000), Temptation(Calculator, 2500), Temptation(Uber, 1000),
       Temptation(ExamGuide, 800), Temptation(GamingTopup, 1000), Temptation(DeskLamp, 1200),
       Temptation(SoftDrinks, 400), Temptation(Pillow, 1500), Temptation(StressBall, 300),
       Temptation(NoiseCancelling, 3500), Temptation(Vitamins, 800)]
    else if n == 4 then
      [Temptation(Suit, 8000), Temptation(Dinner, 5000), Temptation(Smartwatch, 4000),
       Temptation(PremiumGym, 6000), Temptation(Getaway, 12000), Temptation(Bike, 3500),
       Temptation(Perfume, 4500), Temptation(TradingBot, 2000), Temptation(Decor, 7000),
       Temptation(LeatherShoes, 3000), Temptation(GourmetCoffee, 600), Temptation(Monitor, 2500),
       Temptation(ErgoChair, 15000)]
    else
      [Temptation(GoaFlight, 8000), Temptation(Villa, 6000), Temptation(PartyPass, 3000),
       Temptation(Bikini, 4500), Temptation(Jeep, 2000), Temptation(Seafood, 2500),
       Temptation(GoaMerch, 1500), Temptation(Polaroids, 5000), Temptation(Sunscreen, 1200),
       Temptation(JetSki, 2000)]
  }

  /** The catalogue exactly as the source writes it: no level sets `isBoss`. */
  function LevelAsWritten(n: int): (lvl: LevelConfig)
    requires 1 <= n <= FinalLevel
    ensures lvl.duration >= 1 && |lvl.temptations| > 0 && !lvl.isBoss
    ensures lvl.initialDebt >= 0 && lvl.interestRate >= 0.0
    ensures n == 3 ==> |lvl.events| > 0
  {
    if n == 1 then
      LevelConfig(6, 12000, 2500, 6000, 0, 0.0, [4000, 3000, 1000], Temptations(1), [], false)
    else if n == 2 then
      LevelConfig(6, 18000, 4000, 15000, 8000, 0.04, [5000, 4000, 1000, 500], Temptations(2), [], false)
    else if n == 3 then
      LevelConfig(6, 25000, 6000, 30000, 0, 0.0, [8000, 6000, 2000, 1500], Temptations(3),
        [RandomEvent(LibraryBook, 2000), RandomEvent(LaptopRepair, 6000), RandomEvent(RecordFine, 1000),
         RandomEvent(StolenCycle, 4000), RandomEvent(FeverMeds, 1500)], false)
    else if n == 4 then
      LevelConfig(8, 45000, 15000, 60000, 37000, 0.05, [15000, 5000, 8000, 2000], Temptations(4), [], false)
    else
      LevelConfig(10, 50000, 0, 60000, 0, 0.0, [10000, 5000], Temptations(5), [], false)
  }

  /** The catalogue the model plays: as written, except that the final
      level is the boss level whose survival timer can clear it. */
  function Level(n: int): (lvl: LevelConfig)
    requires 1 <= n <= FinalLevel
    ensures lvl.duration >= 1 && |lvl.temptations| > 0
    ensures lvl.isBoss <==> n == FinalLevel
    ensures lvl == LevelAsWritten(n).(isBoss := n == FinalLevel)
    ensures n == 3 ==> |lvl.events| > 0
  {
    LevelAsWritten(n).(isBoss := n == FinalLevel)
  }

  /** Level 1: bills of 8000, no interest. */
  lemma LevelOneFigures()
    ensures FixedCosts(Level(1)) == 8000 && Level(1).income == 12000
    ensures Level(1).interestRate == 0.0 && Level(1).initialDebt == 0
  {
    assert Sum([1000]) == 1000;
    assert Sum([3000, 1000]) == 4000 by { assert [3000, 1000][1..] == [1000]; }
    assert Sum([4000, 3000, 1000]) == 8000 by { assert [4000, 3000, 1000][1..] == [3000, 1000]; }
  }

  /** Level 2: bills of 10500, a debt of 8000 at 4%. */
  lemma LevelTwoFigures()
    ensures FixedCosts(Level(2)) == 10500 && Level(2).income == 18000
    ensures Level(2).interestRate == 0.04 && Level(2).initialDebt == 8000
  {
    assert Sum([500]) == 500;
    assert Sum([1000, 500]) == 1500 by { assert [1000, 500][1..] == [500]; }
    assert Sum([4000, 1000, 500]) == 5500 by { assert [4000, 1000, 500][1..] == [1000, 500]; }
    assert Sum([5000, 4000, 1000, 500]) == 10500 by { assert [5000, 4000, 1000, 500][1..] == [4000, 1000, 500]; }
  }

  /** Level 3: bills of 17500, no interest. */
  lemma LevelThreeFigures()
    ensures FixedCosts(Level(3)) == 17500 && Level(3).income == 25000
    ensures Level(3).interestRate == 0.0 && Level(3).initialDebt == 0
  {
    assert Sum([1500]) == 1500;
    assert Sum([2000, 1500]) == 3500 by { assert [2000, 1500][1..] == [1500]; }
    assert Sum([6000, 2000, 1500]) == 9500 by { assert [6000, 2000, 1500][1..] == [2000, 1500]; }
    assert Sum([8000, 6000, 2000, 1500]) == 17500 by { assert [8000, 6000, 2000, 1500][1..] == [6000, 2000, 1500]; }
  }

  /** Level 4: bills of 30000, a debt of 37000 at 5%. */
  lemma LevelFourFigures()
    ensures FixedCosts(Level(4)) == 30000 && Level(4).income == 45000
    ensures Level(4).interestRate == 0.05 && Level(4).initialDebt == 37000
  {
    assert Sum([2000]) == 2000;
    assert Sum([8000, 2000]) == 10000 by { assert [8000, 2000][1..] == [2000]; }
    assert Sum([5000, 8000, 2000]) == 15000 by { assert [5000, 8000, 2000][1..] == [8000, 2000]; }
    assert Sum([15000, 5000, 8000, 2000]) == 30000 by { assert [15000, 5000, 8000, 2000][1..] == [5000, 8000, 2000]; }
  }

  /** Level 5: bills of 15000, no interest. */
  lemma LevelFiveFigures()
    ensures FixedCosts(Level(5)) == 15000 && Level(5).income == 50000
    ensures Level(5).interestRate == 0.0 && Level(5).initialDebt == 0
  {
    assert Sum([5000]) == 5000;
    assert Sum([10000, 5000]) == 15000 by { assert [10000, 5000][1..] == [5000]; }
  }

  /** Bills, incomes, debts and interest rates of the five years. */
  lemma CatalogueFigures()
    ensures FixedCosts(Level(1)) == 8000 && FixedCosts(Level(2)) == 10500
    ensures FixedCosts(Level(3)) == 17500 && FixedCosts(Level(4)) == 30000
    ensures FixedCosts(Level(5)) == 15000
    ensures forall n :: 1 <= n <= FinalLevel ==> FixedCosts(Level(n)) < Level(n).income
    ensures forall n :: 1 <= n <= FinalLevel ==> (Level(n).interestRate != 0.0 <==> n == 2 || n == 4)
    ensures Level(2).interestRate == 0.04 && Level(4).interestRate == 0.05
    ensures Level(2).initialDebt == 8000 && Level(4).initialDebt == 37000
  {
    LevelOneFigures();
    LevelTwoFigures();
    LevelThreeFigures();
    LevelFourFigures();
    LevelFiveFigures();
    forall n | 1 <= n <= FinalLevel
      ensures FixedCosts(Level(n)) < Level(n).income
      ensures Level(n).interestRate != 0.0 <==> n == 2 || n == 4
    {
      assert n == 1 || n == 2 || n == 3 || n == 4 || n == 5;
    }
  }

  // ---------------------------------------------------------------------
  // State snapshot
  // ---------------------------------------------------------------------

  datatype Metrics = Metrics(
    totalInterest: int,
    luxuriesBought: nat,
    luxuriesResisted: nat,
    totalRepaid: int,
    monthsSurvived: nat)

  datatype EndReason = FinalFreedom | ObjectiveFailed | DebtLimitExceeded | MentalBurnout

  /** What the game shows: a level's intro card, a month in play, or the end report. */
  datatype Screen = LevelIntro | MonthInPlay | GameOver(won: bool, reason: EndReason)

  datatype Sim = Sim(
    level: int,
    month: int,
    savings: int,
    debt: int,
    stress: int,
    shown: seq<Item>,
    metrics: Metrics,
    screen: Screen)

  /** Kinds of answer to a temptation; any type other than impulse or
      balanced is handled as resisting. */
  datatype ChoiceKind = Frugal | Balanced | Impulse

  /** The level-4 strategies; any strategy other than snowball takes the avalanche branch. */
  datatype Strategy = Snowball | Avalanche

  /** The arguments one choice button passes to the choice handler. */
  datatype Button = Button(kind: ChoiceKind, cost: int, stressChange: int)

  /** The prompt a month shows. `NoPrompt` means the screen did not change. */
  datatype Prompt =
    | NoPrompt
    | Offer(temptation: Temptation, buttons: seq<Button>)
    | StrategyChoice
    | BossFight(temptation: Temptation, buttons: seq<Button>)

  datatype Step = Step(sim: Sim, prompt: Prompt)

  /** The random draws one render of a month consumes, each in [0, 1):
      whether the level-3 event fires, which event, which temptation. */
  datatype Draw = Draw(eventRoll: real, eventPick: real, pick: real) {
    predicate Valid() {
      0.0 <= eventRoll < 1.0 && 0.0 <= eventPick < 1.0 && 0.0 <= pick < 1.0
    }
  }

  /** What stays true of the simulation whatever the player does. */
  predicate Inv(s: Sim)
  {
    && 1 <= s.level <= FinalLevel
    && 1 <= s.month <= Level(s.level).duration
    && 0 <= s.stress <= 100
  }

  function Initial(): (s: Sim)
    ensures Inv(s) && s.savings == 0 && s.debt == 0 && s.stress == 20
  {
    Sim(1, 1, 0, 0, 20, [], Metrics(0, 0, 0, 0, 0), LevelIntro)
  }

  // ---------------------------------------------------------------------
  // Transitions
  // ---------------------------------------------------------------------

  /** The amount a repayment actually moves: `Math.min(amount, savings, debt)`. */
  function RepayAmount(s: Sim, amount: int): int
  {
    Min(Min(amount, s.savings), s.debt)
  }

  /** `repayDebt` without its re-render. */
  function Repay(s: Sim, amount: int): (r: Sim)
    ensures RepayAmount(s, amount) <= 0 ==> r == s
    ensures RepayAmount(s, amount) > 0 ==>
      && s.debt - r.debt == RepayAmount(s, amount)
      && s.savings - r.savings == RepayAmount(s, amount)
      && r.metrics.totalRepaid - s.metrics.totalRepaid == RepayAmount(s, amount)
      && 0 <= r.debt && 0 <= r.savings
      && r == s.(savings := r.savings, debt := r.debt, metrics := r.metrics)
      && r.metrics == s.metrics.(totalRepaid := r.metrics.totalRepaid)
    ensures r.savings - r.debt == s.savings - s.debt
  {
    var actual := RepayAmount(s, amount);
    if actual <= 0 then s
    else s.(savings := s.savings - actual, debt := s.debt - actual,
            metrics := s.metrics.(totalRepaid := s.metrics.totalRepaid + actual))
  }

  /** The bill settlement of `startDebtMonth`: income in, fixed costs out,
      any shortfall carried into debt. */
  function Settle(s: Sim, skipDeduction: bool): (r: Sim)
    requires 1 <= s.level <= FinalLevel
    ensures skipDeduction ==> r == s
    ensures !skipDeduction ==>
      var lvl := Level(s.level);
      var after := s.savings + lvl.income - FixedCosts(lvl);
      && r.savings >= 0
      && (after >= 0 ==> r.savings == after && r.debt == s.debt)
      && (after < 0 ==> r.savings == 0 && r.debt == s.debt - after)
      && r.savings - r.debt == s.savings - s.debt + lvl.income - FixedCosts(lvl)
      && r == s.(savings := r.savings, debt := r.debt)
  {
    if skipDeduction then s
    else
      var lvl := Level(s.level);
      var fixedCosts := FixedCosts(lvl);
      var savings := s.savings + lvl.income;
      if savings < fixedCosts then s.(debt := s.debt + (fixedCosts - savings), savings := 0)
      else s.(savings := savings - fixedCosts)
  }

  /** The random event of a level-3 month: with probability 0.3 one of the
      level's events is charged to savings, with no check against the balance. */
  function LevelThreeEvent(s: Sim, d: Draw): (r: Sim)
    requires 1 <= s.level <= FinalLevel && d.Valid()
    ensures s.level != 3 || d.eventRoll >= 0.3 ==> r == s
    ensures s.level == 3 && d.eventRoll < 0.3 ==>
      var events := Level(3).events;
      r == s.(savings := s.savings - events[RandomIndex(d.eventPick, |events|)].cost)
  {
    if s.level == 3 && d.eventRoll < 0.3 then
      var events := Level(3).events;
      s.(savings := s.savings - events[RandomIndex(d.eventPick, |events|)].cost)
    else s
  }

  /** The temptations whose titles have not been shown yet, in catalogue order. */
  function Unshown(pool: seq<Temptation>, shown: seq<Item>): (r: seq<Temptation>)
    ensures forall t :: t in r <==> t in pool && t.title !in shown
    ensures |r| <= |pool|
  {
    if pool == [] then []
    else (if pool[0].title in shown then [] else [pool[0]]) + Unshown(pool[1..], shown)
  }

  datatype Drawn = Drawn(temptation: Temptation, shown: seq<Item>)

  /** `renderTemptation`: a temptation not shown yet, recorded as shown;
      once all were shown the record is cleared and the draw retried. */
  function DrawTemptation(pool: seq<Temptation>, shown: seq<Item>, u: real): (r: Drawn)
    requires |pool| > 0 && 0.0 <= u < 1.0
    ensures r.temptation in pool
    ensures Unshown(pool, shown) != [] ==>
      r.temptation.title !in shown && r.shown == shown + [r.temptation.title]
    ensures Unshown(pool, shown) == [] ==> r.shown == [r.temptation.title]
  {
    var available := Unshown(pool, shown);
    if available == [] then
      assert pool[0] in Unshown(pool, []);
      var again := Unshown(pool, []);
      var t := again[RandomIndex(u, |again|)];
      Drawn(t, [t.title])
    else
      var t := available[RandomIndex(u, |available|)];
      Drawn(t, shown + [t.title])
  }

  /** The boss-fight draw: an unshown temptation when there is one, else any
      temptation; the record is never cleared. */
  function DrawBossTemptation(pool: seq<Temptation>, shown: seq<Item>, u: real): (r: Drawn)
    requires |pool| > 0 && 0.0 <= u < 1.0
    ensures r.temptation in pool
    ensures r.shown == shown + [r.temptation.title]
    ensures Unshown(pool, shown) != [] ==> r.temptation.title !in shown
  {
    var available := Unshown(pool, shown);
    var t := if available != [] then available[RandomIndex(u, |available|)]
             else pool[RandomIndex(u, |pool|)];
    Drawn(t, shown + [t.title])
  }

  /** The three choice buttons of a temptation card as the source renders
      them: the balanced button passes the already discounted price. */
  function ChoiceButtonsAsWritten(t: Temptation): (bs: seq<Button>)
    ensures |bs| == 3 && bs[1].kind == Balanced
  {
    [Button(Frugal, t.cost, 15), Button(Balanced, Round(t.cost as real * 0.4), 5), Button(Impulse, t.cost, -15)]
  }

  /** The three choice buttons with every button passing the temptation's
      own price, so that the handler's 40% discount is applied once. */
  function ChoiceButtons(t: Temptation): (bs: seq<Button>)
    ensures |bs| == 3
    ensures forall b :: b in bs ==> b.cost == t.cost
    ensures bs[0].kind == Frugal && bs[1].kind == Balanced && bs[2].kind == Impulse
  {
    [Button(Frugal, t.cost, 15), Button(Balanced, t.cost, 5), Button(Impulse, t.cost, -15)]
  }

  /** The only button of the boss fight: giving in. */
  function BossButtons(t: Temptation): (bs: seq<Button>)
    ensures |bs| == 1 && bs[0].kind == Impulse && bs[0].cost == t.cost
  {
    [Button(Impulse, t.cost, 30)]
  }

  /** `renderGameUI`: the level-3 event, then the month's prompt — the
      strategy choice in level-4 months 1, 4, 7; the boss fight in level 5;
      a temptation otherwise. */
  function Render(s: Sim, d: Draw): (r: Step)
    requires 1 <= s.level <= FinalLevel && d.Valid()
    ensures r.sim.screen == MonthInPlay
    ensures r.sim.level == s.level && r.sim.month == s.month && r.sim.debt == s.debt
    ensures r.sim.stress == s.stress && r.sim.metrics == s.metrics
    ensures r.sim.savings == LevelThreeEvent(s, d).savings
    ensures s.level == 4 && s.month % 3 == 1 <==> r.prompt == StrategyChoice
    ensures s.level == FinalLevel <==> r.prompt.BossFight?
    ensures r.prompt.Offer? ==> r.prompt.temptation in Level(s.level).temptations
    ensures r.prompt.StrategyChoice? ==> r.sim.shown == s.shown
  {
    var e := LevelThreeEvent(s, d).(screen := MonthInPlay);
    var pool := Level(s.level).temptations;
    if s.level == 4 && s.month % 3 == 1 then Step(e, StrategyChoice)
    else if s.level == FinalLevel then
      var drawn := DrawBossTemptation(pool, e.shown, d.pick);
      Step(e.(shown := drawn.shown), BossFight(drawn.temptation, BossButtons(drawn.temptation)))
    else
      var drawn := DrawTemptation(pool, e.shown, d.pick);
      Step(e.(shown := drawn.shown), Offer(drawn.temptation, ChoiceButtons(drawn.temptation)))
  }

  /** The price the choice handler charges for a purchase of kind `kind`
      given the price `cost` it is passed. */
  function Charge(kind: ChoiceKind, cost: int): int
  {
    if kind == Balanced then Round(cost as real * 0.4) else cost
  }

  /** `handleChoice` up to its call of `finishMonth`. */
  function Choose(s: Sim, kind: ChoiceKind, cost: int, stressChange: int): (r: Sim)
    ensures 0 <= r.stress <= 100
    ensures kind == Frugal ==>
      && r.metrics == s.metrics.(luxuriesResisted := s.metrics.luxuriesResisted + 1)
      && r == s.(stress := Clamp(0, 100, s.stress + stressChange), metrics := r.metrics)
    ensures kind != Frugal ==>
      var c := Charge(kind, cost);
      && r.metrics == s.metrics.(luxuriesBought := s.metrics.luxuriesBought + 1)
      && r == s.(savings := r.savings, debt := r.debt, stress := r.stress, metrics := r.metrics)
      && (s.savings >= c ==> r.savings == s.savings - c && r.debt == s.debt
                             && r.stress == Clamp(0, 100, s.stress + stressChange))
      && (s.savings < c ==> r.savings == s.savings && r.debt == s.debt + c
                            && r.stress == Clamp(0, 100, s.stress + 5 + stressChange))
    ensures r.savings - r.debt == s.savings - s.debt - (if kind == Frugal then 0 else Charge(kind, cost))
  {
    if kind == Frugal then
      s.(metrics := s.metrics.(luxuriesResisted := s.metrics.luxuriesResisted + 1),
         stress := Clamp(0, 100, s.stress + stressChange))
    else
      var bought := s.metrics.(luxuriesBought := s.metrics.luxuriesBought + 1);
      var c := Charge(kind, cost);
      if s.savings >= c then
        s.(metrics := bought, savings := s.savings - c, stress := Clamp(0, 100, s.stress + stressChange))
      else
        s.(metrics := bought, debt := s.debt + c, stress := Clamp(0, 100, s.stress + 5 + stressChange))
  }

  /** `applyRepayment` as written: snowball lowers stress by 10, avalanche
      lowers debt by 500, neither with a floor. */
  function ApplyStrategyAsWritten(s: Sim, strategy: Strategy): (r: Sim)
    ensures strategy == Snowball ==> r.stress == s.stress - 10 && r.debt == s.debt
    ensures strategy == Avalanche ==> r.debt == s.debt - 500 && r.stress == s.stress
    ensures r == s.(stress := r.stress, debt := r.debt)
  {
    if strategy == Snowball then s.(stress := s.stress - 10) else s.(debt := s.debt - 500)
  }

  /** `applyRepayment` with both gauges floored at 0: snowball cannot push
      stress below zero and avalanche cannot turn debt into a credit. */
  function ApplyStrategy(s: Sim, strategy: Strategy): (r: Sim)
    ensures strategy == Snowball ==> r.stress == Max(0, s.stress - 10) && r.debt == s.debt
    ensures strategy == Avalanche ==> r.debt == Max(0, s.debt - 500) && r.stress == s.stress
    ensures 0 <= s.stress <= 100 ==> 0 <= r.stress <= 100
    ensures s.debt >= 0 ==> r.debt >= 0
    ensures s.stress >= 10 && (strategy == Avalanche ==> s.debt >= 500) ==> r == ApplyStrategyAsWritten(s, strategy)
    ensures r == s.(stress := r.stress, debt := r.debt)
  {
    if strategy == Snowball then s.(stress := Max(0, s.stress - 10)) else s.(debt := Max(0, s.debt - 500))
  }

  /** A level's objective: the savings goal reached with no debt left. */
  predicate ObjectiveMet(s: Sim, lvl: LevelConfig)
  {
    s.savings >= lvl.goal && s.debt <= 0
  }

  /** The condition under which the last month of a level clears it. */
  predicate LevelCleared(s: Sim, lvl: LevelConfig, bossWin: bool)
  {
    ObjectiveMet(s, lvl) || (lvl.isBoss && bossWin)
  }

  /** The interest of `finishMonth`: only on levels with a rate and positive debt. */
  function AccrueInterest(s: Sim, lvl: LevelConfig): (r: Sim)
    requires lvl.interestRate >= 0.0
    ensures r.debt - s.debt == r.metrics.totalInterest - s.metrics.totalInterest
    ensures lvl.interestRate == 0.0 || s.debt <= 0 ==> r == s
    ensures lvl.interestRate != 0.0 && s.debt > 0 ==>
      r.debt == s.debt + Round(s.debt as real * lvl.interestRate)
    ensures r.debt >= s.debt
    ensures r == s.(debt := r.debt, metrics := s.metrics.(totalInterest := r.metrics.totalInterest))
  {
    if lvl.interestRate != 0.0 && s.debt > 0 then
      var interest := Round(s.debt as real * lvl.interestRate);
      assert s.debt as real * lvl.interestRate >= 0.0;
      s.(debt := s.debt + interest, metrics := s.metrics.(totalInterest := s.metrics.totalInterest + interest))
    else s
  }

  /** The part of `finishMonth` that decides the month: level-up, win or
      loss on the last month; loss on the debt limit or burnout; otherwise
      interest and the next month number. */
  function Conclude(s: Sim, bossWin: bool): (r: Sim)
    requires Inv(s)
    ensures r.savings == s.savings
    ensures r.metrics.monthsSurvived == s.metrics.monthsSurvived + 1
    ensures var lvl := Level(s.level);
      s.month >= lvl.duration ==>
        && r.metrics == s.metrics.(monthsSurvived := s.metrics.monthsSurvived + 1)
        && if LevelCleared(s, lvl, bossWin) then
          if s.level < FinalLevel then
            && r.screen == LevelIntro && r.level == s.level + 1 && r.month == 1
            && r.debt == Level(s.level + 1).initialDebt
            && r.stress == 20 && r.shown == []
          else
            && r.screen == GameOver(true, FinalFreedom) && r.debt == s.debt
            && r.stress == s.stress && r.shown == s.shown
        else
          && r.screen == GameOver(false, ObjectiveFailed) && r.debt == s.debt
          && r.stress == s.stress && r.shown == s.shown
    ensures var lvl := Level(s.level);
      s.month < lvl.duration ==>
        if s.debt > lvl.debtLimit || s.stress >= 100 then
          && r.screen == GameOver(false, if s.debt > lvl.debtLimit then DebtLimitExceeded else MentalBurnout)
          && r.debt == s.debt && r.month == s.month && r.stress == s.stress && r.shown == s.shown
          && r.metrics == s.metrics.(monthsSurvived := s.metrics.monthsSurvived + 1)
        else
          r == AccrueInterest(s.(metrics := s.metrics.(monthsSurvived := s.metrics.monthsSurvived + 1)), lvl)
                 .(month := s.month + 1)
    ensures Inv(r)
  {
    var s1 := s.(metrics := s.metrics.(monthsSurvived := s.metrics.monthsSurvived + 1));
    var lvl := Level(s.level);
    if s.month >= lvl.duration then
      if LevelCleared(s, lvl, bossWin) then
        if s.level < FinalLevel then
          s1.(level := s.level + 1, month := 1, debt := Level(s.level + 1).initialDebt,
              stress := 20, shown := [], screen := LevelIntro)
        else s1.(screen := GameOver(true, FinalFreedom))
      else s1.(screen := GameOver(false, ObjectiveFailed))
    else if s.debt > lvl.debtLimit || s.stress >= 100 then
      s1.(screen := GameOver(false, if s.debt > lvl.debtLimit then DebtLimitExceeded else MentalBurnout))
    else
      var s2 := AccrueInterest(s1, lvl);
      s2.(month := s2.month + 1)
  }

  /** Whether `Conclude` left the game in a month that goes on. */
  predicate Continues(s: Sim)
  {
    s.screen != LevelIntro && !s.screen.GameOver?
  }

  /** `finishMonth`: decide the month and, when play goes on, settle the
      next month's bills and render it. */
  function FinishMonth(s: Sim, bossWin: bool, d: Draw): (r: Step)
    requires Inv(s) && d.Valid() && !s.screen.GameOver? && s.screen != LevelIntro
    ensures Inv(r.sim)
    ensures r.sim.metrics.monthsSurvived == s.metrics.monthsSurvived + 1
    ensures !Continues(Conclude(s, bossWin)) ==> r == Step(Conclude(s, bossWin), NoPrompt)
    ensures Continues(Conclude(s, bossWin)) ==> r == Render(Settle(Conclude(s, bossWin), false), d)
  {
    var c := Conclude(s, bossWin);
    if Continues(c) then Render(Settle(c, false), d) else Step(c, NoPrompt)
  }

  /** `startDebtMonth`: settle the bills (unless only re-rendering) and render the month. */
  function StartMonth(s: Sim, skipDeduction: bool, d: Draw): (r: Step)
    requires Inv(s) && d.Valid()
    ensures Inv(r.sim)
    ensures r == Render(Settle(s, skipDeduction), d)
  {
    Render(Settle(s, skipDeduction), d)
  }

  /** `repayDebt`: a repayment that moves money re-renders the month. */
  function RepayDebt(s: Sim, amount: int, d: Draw): (r: Step)
    requires Inv(s) && d.Valid()
    ensures Inv(r.sim)
    ensures RepayAmount(s, amount) <= 0 ==> r == Step(s, NoPrompt)
    ensures RepayAmount(s, amount) > 0 ==> r == Render(Repay(s, amount), d)
  {
    if RepayAmount(s, amount) <= 0 then Step(s, NoPrompt) else StartMonth(Repay(s, amount), true, d)
  }

  /** `handleChoice`: resolve the temptation, then finish the month. */
  function HandleChoice(s: Sim, kind: ChoiceKind, cost: int, stressChange: int, d: Draw): (r: Step)
    requires Inv(s) && d.Valid() && !s.screen.GameOver? && s.screen != LevelIntro
    ensures Inv(r.sim)
    ensures r == FinishMonth(Choose(s, kind, cost, stressChange), false, d)
  {
    FinishMonth(Choose(s, kind, cost, stressChange), false, d)
  }

  /** `applyRepayment`: apply the strategy, then finish the month. */
  function ApplyRepayment(s: Sim, strategy: Strategy, d: Draw): (r: Step)
    requires Inv(s) && d.Valid() && !s.screen.GameOver? && s.screen != LevelIntro
    ensures Inv(r.sim)
    ensures r == FinishMonth(ApplyStrategy(s, strategy), false, d)
  {
    FinishMonth(ApplyStrategy(s, strategy), false, d)
  }

  // ---------------------------------------------------------------------
  // End-of-game report
  // ---------------------------------------------------------------------

  datatype Grade = APlus | A | B | C | D | F

  datatype Tip = AvalancheTip | EmergencyFundTip | MindfulSpendingTip | DebtToIncomeTip | IndexFundTip | CreditScoreTip

  datatype Report = Report(discipline: int, financialIQ: int, grade: Grade, tips: seq<Tip>)

  /** Share of temptations resisted, as a rounded percentage; 100 before any choice. */
  function Discipline(m: Metrics): (r: int)
    ensures 0 <= r <= 100
    ensures m.luxuriesBought + m.luxuriesResisted == 0 ==> r == 100
    ensures m.luxuriesBought == 0 ==> r == 100
    ensures m.luxuriesResisted == 0 && m.luxuriesBought > 0 ==> r == 0
  {
    var total := m.luxuriesBought + m.luxuriesResisted;
    if total > 0 then
      RoundedShare(m.luxuriesResisted, total);
      Round(m.luxuriesResisted as real / total as real * 100.0)
    else 100
  }

  /** The rounded percentage of `part` in `whole` is within [0, 100],
      0 for no part and 100 for the whole. */
  lemma RoundedShare(part: nat, whole: nat)
    requires part <= whole && whole > 0
    ensures 0 <= Round(part as real / whole as real * 100.0) <= 100
    ensures part == whole ==> Round(part as real / whole as real * 100.0) == 100
    ensures part == 0 ==> Round(part as real / whole as real * 100.0) == 0
  {
    PercentBounds(part as real, whole as real);
    RoundBetween(part as real / whole as real * 100.0, 0, 100);
    if part == whole {
      var w := whole as real;
      assert w / w * w == w;
      assert w / w == 1.0;
      RoundOfInt(100);
    }
    if part == 0 {
      RoundOfInt(0);
    }
  }

  function FinancialIQ(m: Metrics, won: bool): (r: int)
    ensures 0 <= r <= 100
    ensures r == Clamp(0, 100, 50 + (if won then 30 else 0) + Round(Discipline(m) as real / 5.0)
                               - Round(m.totalInterest as real / 500.0))
  {
    var iq := 50 + (if won then 30 else 0);
    var iq' := iq + Round(Discipline(m) as real / 5.0);
    var iq'' := iq' - Round(m.totalInterest as real / 500.0);
    Clamp(0, 100, iq'')
  }

  function GradeOf(iq: int): (g: Grade)
  {
    if iq >= 90 then APlus
    else if iq >= 80 then A
    else if iq >= 70 then B
    else if iq >= 60 then C
    else if iq >= 50 then D
    else F
  }

  /** The five threshold checks of the report, in the order the source runs them. */
  function CheckedTips(s: Sim, discipline: int): (ts: seq<Tip>)
    ensures |ts| <= 5 && CreditScoreTip !in ts
    ensures AvalancheTip in ts <==> s.metrics.totalInterest > 2000
    ensures EmergencyFundTip in ts <==> s.stress > 80
    ensures MindfulSpendingTip in ts <==> discipline < 50
    ensures DebtToIncomeTip in ts <==> s.debt > 15000
    ensures IndexFundTip in ts <==> s.metrics.totalRepaid > 10000
  {
    (if s.metrics.totalInterest > 2000 then [AvalancheTip] else [])
    + (if s.stress > 80 then [EmergencyFundTip] else [])
    + (if discipline < 50 then [MindfulSpendingTip] else [])
    + (if s.debt > 15000 then [DebtToIncomeTip] else [])
    + (if s.metrics.totalRepaid > 10000 then [IndexFundTip] else [])
  }

  /** `endGame`'s summary of a finished game. */
  function MakeReport(s: Sim, won: bool): (r: Report)
    ensures r.discipline == Discipline(s.metrics)
    ensures r.financialIQ == FinancialIQ(s.metrics, won)
    ensures r.grade == GradeOf(r.financialIQ)
    ensures |r.tips| >= |CheckedTips(s, r.discipline)|
    ensures r.tips[..|CheckedTips(s, r.discipline)|] == CheckedTips(s, r.discipline)
    ensures CreditScoreTip in r.tips <==> |CheckedTips(s, r.discipline)| < 3
    ensures 1 <= |r.tips| <= 5
  {
    var discipline := Discipline(s.metrics);
    var iq := FinancialIQ(s.metrics, won);
    var checked := CheckedTips(s, discipline);
    var tips := if |checked| < 3 then checked + [CreditScoreTip] else checked;
    assert tips[..|checked|] == checked;
    Report(discipline, iq, GradeOf(iq), tips)
  }

  // ---------------------------------------------------------------------
  // Properties across transitions, and the defects of the code as written
  // ---------------------------------------------------------------------

  /** The balanced button as written is discounted twice: a 500 temptation
      is charged 80 instead of 40% of 500. */
  lemma BalancedChargedTwiceAsWritten()
    ensures var t := Temptation(Canteen, 500);
      var b := ChoiceButtonsAsWritten(t)[1];
      Charge(b.kind, b.cost) == 80 && Round(t.cost as real * 0.4) == 200
  {
    assert Round(500.0 * 0.4) == 200 by { RoundOfInt(200); }
    assert Round(200.0 * 0.4) == 80 by { RoundOfInt(80); }
  }

  /** Every button of a corrected card charges what its label promises:
      the full price for impulse, 40% of it for balanced, nothing for frugal. */
  lemma ButtonsChargeOnce(t: Temptation)
    ensures var bs := ChoiceButtons(t);
      && Charge(bs[1].kind, bs[1].cost) == Round(t.cost as real * 0.4)
      && Charge(bs[2].kind, bs[2].cost) == t.cost
      && forall s :: Choose(s, bs[0].kind, bs[0].cost, bs[0].stressChange).savings == s.savings
  {
  }

  /** With the catalogue as written the boss flag plays no part: surviving
      the boss timer clears the final level only if the objective is met anyway. */
  lemma BossWinIgnoredAsWritten(s: Sim, bossWin: bool)
    ensures LevelCleared(s, LevelAsWritten(FinalLevel), bossWin) <==> ObjectiveMet(s, LevelAsWritten(FinalLevel))
  {
  }

  /** A concrete final month lost despite the boss timer running out. */
  lemma BossTimerLosesAsWritten()
    ensures var s := Sim(FinalLevel, 10, 1000, 500, 50, [], Metrics(0, 0, 0, 0, 9), MonthInPlay);
      !LevelCleared(s, LevelAsWritten(FinalLevel), true) && LevelCleared(s, Level(FinalLevel), true)
  {
  }

  /** With the boss flag set, outlasting the boss timer in the last month
      of the final level wins the game whatever the balances. */
  lemma BossSurvivalWins(s: Sim)
    requires Inv(s) && s.level == FinalLevel && s.month == Level(FinalLevel).duration
    ensures Conclude(s, true).screen == GameOver(true, FinalFreedom)
  {
  }

  /** The strategies as written leave the gauges: stress 5 becomes -5 and a
      debt of 300 becomes a credit of 200. */
  lemma StrategiesUnflooredAsWritten()
    ensures var s := Sim(4, 1, 0, 300, 5, [], Metrics(0, 0, 0, 0, 0), MonthInPlay);
      && Inv(s)
      && ApplyStrategyAsWritten(s, Snowball).stress == -5 && !Inv(ApplyStrategyAsWritten(s, Snowball))
      && ApplyStrategyAsWritten(s, Avalanche).debt == -200
  {
  }

  /** The level-3 event is charged with no check of the balance, so it can
      leave savings negative: 1000 in savings and the 6000 laptop repair. */
  lemma LevelThreeEventOverdraws()
    ensures var s := Sim(3, 2, 1000, 0, 20, [], Metrics(0, 0, 0, 0, 1), MonthInPlay);
      LevelThreeEvent(s, Draw(0.1, 0.2, 0.0)).savings == -5000
  {
    assert RandomIndex(0.2, 5) == 1;
  }

  /** Savings stay non-negative outside level 3: every other transition
      keeps them so, and only the level-3 event withdraws without a check. */
  lemma SavingsNonNegativeOutsideLevelThree(s: Sim, d: Draw)
    requires Inv(s) && d.Valid() && s.savings >= 0 && s.level != 3
    ensures Render(s, d).sim.savings >= 0
    ensures forall kind, cost, change :: Choose(s, kind, cost, change).savings >= 0
  {
  }

  /** Nothing but the level-3 event, purchases and bills moves money: a
      repayment leaves the net balance (savings minus debt) unchanged and
      the interest is exactly the growth of the debt. */
  lemma NetBalanceAccounting(s: Sim, amount: int)
    requires Inv(s)
    ensures var r := Repay(s, amount); r.savings - r.debt == s.savings - s.debt
    ensures var r := AccrueInterest(s, Level(s.level));
      r.debt - s.debt == r.metrics.totalInterest - s.metrics.totalInterest
  {
  }

  /** The titles in `shown` are all distinct. */
  predicate DistinctTitles(shown: seq<Item>)
  {
    forall i, j :: 0 <= i < j < |shown| ==> shown[i] != shown[j]
  }

  /** Drawing a temptation never records a title twice in one cycle. */
  lemma DrawKeepsTitlesDistinct(pool: seq<Temptation>, shown: seq<Item>, u: real)
    requires |pool| > 0 && 0.0 <= u < 1.0 && DistinctTitles(shown)
    ensures DistinctTitles(DrawTemptation(pool, shown, u).shown)
  {
    var r := DrawTemptation(pool, shown, u);
    if Unshown(pool, shown) != [] {
      assert r.temptation.title !in shown;
      forall i, j | 0 <= i < j < |r.shown| ensures r.shown[i] != r.shown[j] {
        if j == |shown| {
          assert r.shown[j] == r.temptation.title;
          assert r.shown[i] == shown[i];
        }
      }
    }
  }

  /** Recording one more title never makes more temptations available. */
  lemma {:induction false} UnshownShrinks(pool: seq<Temptation>, shown: seq<Item>, title: Item)
    ensures |Unshown(pool, shown + [title])| <= |Unshown(pool, shown)|
    ensures (exists t :: t in Unshown(pool, shown) && t.title == title) ==>
      |Unshown(pool, shown + [title])| < |Unshown(pool, shown)|
  {
    if pool != [] {
      UnshownShrinks(pool[1..], shown, title);
      assert Unshown(pool, shown) ==
        (if pool[0].title in shown then [] else [pool[0]]) + Unshown(pool[1..], shown);
      assert Unshown(pool, shown + [title]) ==
        (if pool[0].title in shown + [title] then [] else [pool[0]]) + Unshown(pool[1..], shown + [title]);
      if exists t :: t in Unshown(pool, shown) && t.title == title {
        var t :| t in Unshown(pool, shown) && t.title == title;
        if pool[0].title != title {
          assert t in Unshown(pool[1..], shown);
        }
      }
    }
  }

  /** Each draw within a cycle shrinks the set of available temptations,
      so a cycle ends after at most as many draws as the pool has entries. */
  lemma DrawMakesProgress(pool: seq<Temptation>, shown: seq<Item>, u: real)
    requires |pool| > 0 && 0.0 <= u < 1.0 && Unshown(pool, shown) != []
    ensures |Unshown(pool, DrawTemptation(pool, shown, u).shown)| < |Unshown(pool, shown)|
  {
    var r := DrawTemptation(pool, shown, u);
    UnshownShrinks(pool, shown, r.temptation.title);
  }

  /** The grade bands: a higher IQ never earns a lower grade. */
  function GradeRank(g: Grade): nat
  {
    match g
    case APlus => 5
    case A => 4
    case B => 3
    case C => 2
    case D => 1
    case F => 0
  }

  lemma GradeMonotone(x: int, y: int)
    requires x <= y
    ensures GradeRank(GradeOf(x)) <= GradeRank(GradeOf(y))
    ensures GradeOf(x) == APlus <==> x >= 90
    ensures GradeOf(x) == F <==> x < 50
  {
  }

  /** Winning is worth at least as much IQ as losing with the same record,
      and a perfect discipline with no interest paid on a win scores 100. */
  lemma FinancialIQFacts(m: Metrics)
    ensures FinancialIQ(m, false) <= FinancialIQ(m, true)
    ensures m.luxuriesBought == 0 && m.totalInterest == 0 ==> FinancialIQ(m, true) == 100
  {
    if m.luxuriesBought == 0 && m.totalInterest == 0 {
      RoundOfInt(20);
      RoundOfInt(0);
      assert 100 as real / 5.0 == 20 as real;
    }
  }
}
