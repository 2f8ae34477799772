/** Investment Growth: $1,000 of cash to place in savings, bonds and
    stocks, ten simulated years of returns and market events, and a final
    score out of 100. The random part of the yearly returns is a parameter. */
module InvestmentGrowth {
  import opened JsMath
  import opened Records

  /** The investment types, in the order the portfolio lists them. */
  datatype Asset = Savings | Bonds | Stocks

  const Assets: seq<Asset> := [Savings, Bonds, Stocks]

  /** The place of a type in `Assets`. */
  function Position(a: Asset): (i: nat)
    ensures i < |Assets| && Assets[i] == a
  {
    match a
    case Savings => 0
    case Bonds => 1
    case Stocks => 2
  }

  const StartBalance := 1000.0
  const TargetYears := 10
  const SavingsReturn := 0.03
  const BondsReturn := 0.06
  const BondsRaisedReturn := 0.08
  const BondsVolatility := 0.02
  const StocksReturn := 0.12
  const StocksVolatility := 0.08
  const EmergencyCost := 150.0

  /** A point of the history chart: the year, the cash, and each holding. */
  datatype Entry = Entry(year: int, total: real, savings: real, bonds: real, stocks: real)

  /** `gameState` with the bonds base return, which the year-7 event changes. */
  datatype Growth = Growth(balance: real, portfolio: map<Asset, real>, years: int, history: seq<Entry>,
                           firstInvestments: set<Asset>, diversified: bool, bondsBaseReturn: real)

  /** Holdings are never negative and, once positive, never return to 0, so
      a type has had its first investment exactly when its holding is
      positive, and the portfolio is diversified exactly when all three are;
      the history has one point per year played; the bonds return is raised
      from year 7 on. */
  predicate Inv(g: Growth)
  {
    && (forall a: Asset :: a in g.portfolio && g.portfolio[a] >= 0.0)
    && (forall a: Asset :: a in g.firstInvestments <==> g.portfolio[a] > 0.0)
    && (g.diversified <==> forall a: Asset :: g.portfolio[a] > 0.0)
    && 0 <= g.years <= TargetYears
    && |g.history| == g.years + 1 && g.history[g.years].year == g.years
    && g.bondsBaseReturn == if g.years >= 7 then BondsRaisedReturn else BondsReturn
  }

  /** No holdings at all. */
  const NoHoldings: map<Asset, real> := map[Savings := 0.0, Bonds := 0.0, Stocks := 0.0]

  lemma NoHoldingsComplete()
    ensures forall a: Asset :: a in NoHoldings && NoHoldings[a] == 0.0
  {
    forall a: Asset
      ensures a in NoHoldings && NoHoldings[a] == 0.0
    {
      match a
      case Savings =>
      case Bonds =>
      case Stocks =>
    }
  }

  function Initial(): (g: Growth)
    ensures Inv(g) && g.balance == StartBalance && g.years == 0 && !g.diversified
  {
    NoHoldingsComplete();
    assert NoHoldings[Savings] == 0.0;
    Growth(StartBalance, NoHoldings, 0, [Entry(0, StartBalance, 0.0, 0.0, 0.0)], {}, false, BondsReturn)
  }

  /** The sum of the holdings. */
  function Holdings(p: map<Asset, real>): real
    requires forall a: Asset :: a in p
  {
    p[Savings] + p[Bonds] + p[Stocks]
  }

  /** Adding to one holding adds as much to the sum. */
  lemma HoldingsUpdate(p: map<Asset, real>, a: Asset, x: real)
    requires forall b: Asset :: b in p
    ensures Holdings(p[a := p[a] + x]) == Holdings(p) + x
  {
    match a
    case Savings =>
    case Bonds =>
    case Stocks =>
  }

  /** The number of types with a positive holding, as `checkDiversification` counts them. */
  function Invested(p: map<Asset, real>): (n: nat)
    requires forall a: Asset :: a in p
    ensures n <= 3
    ensures n >= 3 <==> forall a: Asset :: p[a] > 0.0
  {
    AllThree(p);
    (if p[Savings] > 0.0 then 1 else 0) + (if p[Bonds] > 0.0 then 1 else 0) + (if p[Stocks] > 0.0 then 1 else 0)
  }

  /** Every asset is one of the three. */
  lemma AllThree(p: map<Asset, real>)
    requires forall a: Asset :: a in p
    ensures (forall a: Asset :: p[a] > 0.0) <==> p[Savings] > 0.0 && p[Bonds] > 0.0 && p[Stocks] > 0.0
  {
    if p[Savings] > 0.0 && p[Bonds] > 0.0 && p[Stocks] > 0.0 {
      forall a: Asset
        ensures p[a] > 0.0
      {
        match a
        case Savings =>
        case Bonds =>
        case Stocks =>
      }
    }
  }

  // ---------------------------------------------------------------------
  // Investing
  // ---------------------------------------------------------------------

  /** What the investment click ends with: the money moved, the
      not-enough-cash message, or nothing at all. */
  datatype InvestResult = Placed | NotEnoughCash | Ignored

  /** A state after an investment click, and which lessons popped up. */
  datatype InvestStep = InvestStep(next: Growth, result: InvestResult, lessonShown: bool, diversificationShown: bool)

  /** `checkDiversification`: the flag is set, and its lesson shown, the
      first time all three types hold money. */
  function CheckDiversification(g: Growth): (r: (Growth, bool))
    requires forall a: Asset :: a in g.portfolio
    ensures r.1 <==> !g.diversified && forall a: Asset :: g.portfolio[a] > 0.0
    ensures r.0 == g.(diversified := g.diversified || r.1)
  {
    if Invested(g.portfolio) >= 3 && !g.diversified then (g.(diversified := true), true) else (g, false)
  }

  /** The money moved from the cash to the holding of `a`, and the type
      marked as invested in. */
  function Place(g: Growth, a: Asset, amount: int): (r: Growth)
    requires Inv(g) && amount > 0 && g.balance >= amount as real
    ensures forall b: Asset :: b in r.portfolio && r.portfolio[b] >= 0.0
    ensures forall b: Asset :: b in r.firstInvestments <==> r.portfolio[b] > 0.0
    ensures r.years == g.years && r.history == g.history && r.bondsBaseReturn == g.bondsBaseReturn
    ensures r.diversified == g.diversified
  {
    g.(balance := g.balance - amount as real,
       portfolio := g.portfolio[a := g.portfolio[a] + amount as real],
       firstInvestments := g.firstInvestments + {a})
  }

  /** The invest button of type `a` with the slider at `amount`. It goes
      through exactly when the amount is positive and covered by the cash,
      and then moves exactly that amount from the cash to the holding, so
      cash plus holdings stay the same; otherwise nothing changes, with a
      message only when the amount is above the cash. A type's lesson pops
      up on its first investment only, the diversification lesson when the
      last of the three types gets money, and neither flag is ever reset. */
  function Invest(g: Growth, a: Asset, amount: int): (r: InvestStep)
    requires Inv(g)
    ensures Inv(r.next)
    ensures r.result == Placed <==> amount > 0 && g.balance >= amount as real
    ensures r.result == Placed ==>
      && r.next.balance == g.balance - amount as real
      && r.next.portfolio == g.portfolio[a := g.portfolio[a] + amount as real]
      && r.next.balance + Holdings(r.next.portfolio) == g.balance + Holdings(g.portfolio)
      && r.next.years == g.years && r.next.history == g.history
      && a in r.next.firstInvestments
    ensures r.result == NotEnoughCash <==> !(amount > 0 && g.balance >= amount as real) && amount as real > g.balance
    ensures r.result != Placed ==> r.next == g && !r.lessonShown && !r.diversificationShown
    ensures r.lessonShown <==> r.result == Placed && a !in g.firstInvestments
    ensures g.firstInvestments <= r.next.firstInvestments
    ensures r.diversificationShown <==> !g.diversified && r.next.diversified
    ensures g.diversified ==> r.next.diversified
  {
    if amount > 0 && g.balance >= amount as real then
      HoldingsUpdate(g.portfolio, a, amount as real);
      var checked := CheckDiversification(Place(g, a, amount));
      InvestStep(checked.0, Placed, a !in g.firstInvestments, checked.1)
    else if amount as real > g.balance then InvestStep(g, NotEnoughCash, false, false)
    else InvestStep(g, Ignored, false, false)
  }

  // ---------------------------------------------------------------------
  // A year
  // ---------------------------------------------------------------------

  /** The return of a type for the year: the base return, plus for bonds
      and stocks a deviation drawn from [-volatility, volatility) (bonds
      use half their volatility on either side). */
  function ReturnRate(g: Growth, a: Asset, uBonds: real, uStocks: real): (rate: real)
    requires 0.0 <= uBonds < 1.0 && 0.0 <= uStocks < 1.0
    requires g.bondsBaseReturn == BondsReturn || g.bondsBaseReturn == BondsRaisedReturn
    ensures rate > 0.0
  {
    match a
    case Savings => SavingsReturn
    case Bonds => g.bondsBaseReturn + (uBonds - 0.5) * BondsVolatility
    case Stocks => StocksReturn + (uStocks - 0.5) * StocksVolatility * 2.0
  }

  /** What a year's growth needs: holdings that are never negative, a
      known bonds return, and draws in [0, 1). */
  predicate Growable(g: Growth, uBonds: real, uStocks: real)
  {
    && (forall b: Asset :: b in g.portfolio && g.portfolio[b] >= 0.0)
    && 0.0 <= uBonds < 1.0 && 0.0 <= uStocks < 1.0
    && (g.bondsBaseReturn == BondsReturn || g.bondsBaseReturn == BondsRaisedReturn)
  }

  /** The growth of one holding: its return, if the holding is positive. */
  function GrowthOf(g: Growth, a: Asset, uBonds: real, uStocks: real): (growth: real)
    requires Growable(g, uBonds, uStocks)
    ensures growth >= 0.0
    ensures growth > 0.0 <==> g.portfolio[a] > 0.0
  {
    if g.portfolio[a] > 0.0 then
      var rate := ReturnRate(g, a, uBonds, uStocks);
      ProductNonNegative(g.portfolio[a], rate);
      assert g.portfolio[a] * rate > 0.0;
      g.portfolio[a] * rate
    else 0.0
  }

  /** The growth of the first `n` types of `Assets`. */
  function PartialGrowth(g: Growth, n: nat, uBonds: real, uStocks: real): (total: real)
    requires n <= |Assets|
    requires Growable(g, uBonds, uStocks)
    ensures total >= 0.0
  {
    if n == 0 then 0.0 else PartialGrowth(g, n - 1, uBonds, uStocks) + GrowthOf(g, Assets[n - 1], uBonds, uStocks)
  }

  /** A holding once the first `i` types of `Assets` have grown. */
  function GrownTo(g: Growth, a: Asset, i: nat, uBonds: real, uStocks: real): real
    requires Growable(g, uBonds, uStocks)
  {
    g.portfolio[a] + if Position(a) < i then GrowthOf(g, a, uBonds, uStocks) else 0.0
  }

  /** The holdings after the year's growth. */
  function Grown(g: Growth, uBonds: real, uStocks: real): (p: map<Asset, real>)
    requires Growable(g, uBonds, uStocks)
    ensures forall a: Asset :: a in p && p[a] == g.portfolio[a] + GrowthOf(g, a, uBonds, uStocks)
  {
    g.portfolio[Savings := g.portfolio[Savings] + GrowthOf(g, Savings, uBonds, uStocks)]
               [Bonds := g.portfolio[Bonds] + GrowthOf(g, Bonds, uBonds, uStocks)]
               [Stocks := g.portfolio[Stocks] + GrowthOf(g, Stocks, uBonds, uStocks)]
  }

  /** The total growth credited to the cash is the growth added to the holdings. */
  lemma GrowthIsHoldingsGrowth(g: Growth, uBonds: real, uStocks: real)
    requires Growable(g, uBonds, uStocks)
    ensures PartialGrowth(g, |Assets|, uBonds, uStocks) == Holdings(Grown(g, uBonds, uStocks)) - Holdings(g.portfolio)
  {
    assert Assets[0] == Savings && Assets[1] == Bonds && Assets[2] == Stocks;
    assert PartialGrowth(g, 1, uBonds, uStocks) == GrowthOf(g, Savings, uBonds, uStocks);
    assert PartialGrowth(g, 2, uBonds, uStocks) == PartialGrowth(g, 1, uBonds, uStocks) + GrowthOf(g, Bonds, uBonds, uStocks);
  }

  datatype MarketEvent = BullMarket | Crash | RateRise | Emergency

  /** The event of a year, as `marketEvents.find` picks it. */
  function EventOf(year: int): (e: Option<MarketEvent>)
    ensures e == Some(BullMarket) <==> year == 3
    ensures e == Some(Emergency) <==> year == 4
    ensures e == Some(Crash) <==> year == 5
    ensures e == Some(RateRise) <==> year == 7
    ensures e.None? <==> year !in {3, 4, 5, 7}
  {
    if year == 3 then Some(BullMarket)
    else if year == 5 then Some(Crash)
    else if year == 7 then Some(RateRise)
    else if year == 4 then Some(Emergency)
    else None
  }

  /** `applyMarketEvent`. */
  function ApplyEvent(g: Growth, e: MarketEvent): (r: Growth)
    requires Stocks in g.portfolio
  {
    match e
    case BullMarket => g.(portfolio := g.portfolio[Stocks := g.portfolio[Stocks] * 1.25])
    case Crash => g.(portfolio := g.portfolio[Stocks := g.portfolio[Stocks] * 0.85])
    case RateRise => g.(bondsBaseReturn := BondsRaisedReturn)
    case Emergency => g.(balance := g.balance + -EmergencyCost)
  }

  /** The final score: the cash as a share of $2,500, capped at 100, with
      20 more for a diversified portfolio, still capped at 100. */
  function FinalScore(balance: real, diversified: bool): (s: int)
    ensures s <= 100
    ensures balance >= 0.0 ==> s >= 0
    ensures balance >= 2500.0 ==> s == 100
    ensures !diversified ==> s == Min(100, Round(balance / 2500.0 * 100.0))
    ensures diversified ==> s == Min(100, Min(100, Round(balance / 2500.0 * 100.0)) + 20)
  {
    var base := Min(100, Round(balance / 2500.0 * 100.0));
    if diversified then Min(100, base + 20) else base
  }

  /** A richer ending never scores less, and diversifying never costs points. */
  lemma ScoreMonotone(b1: real, b2: real, d1: bool, d2: bool)
    requires b1 <= b2 && (d1 ==> d2)
    ensures FinalScore(b1, d1) <= FinalScore(b2, d2)
  {
    RoundMonotone(b1 / 2500.0 * 100.0, b2 / 2500.0 * 100.0);
  }

  /** The first part of a year: the counter moves on and each positive
      holding grows, the growth credited to the holding and to the cash. */
  function Grow(g: Growth, uBonds: real, uStocks: real): (r: Growth)
    requires Inv(g) && g.years < TargetYears
    requires 0.0 <= uBonds < 1.0 && 0.0 <= uStocks < 1.0
    ensures forall a: Asset :: a in r.portfolio && r.portfolio[a] >= g.portfolio[a]
    ensures forall a: Asset :: r.portfolio[a] > 0.0 <==> g.portfolio[a] > 0.0
    ensures r.balance >= g.balance && r.years == g.years + 1
    ensures r.history == g.history && r.firstInvestments == g.firstInvestments
    ensures r.diversified == g.diversified && r.bondsBaseReturn == g.bondsBaseReturn
  {
    g.(years := g.years + 1, portfolio := Grown(g, uBonds, uStocks),
       balance := g.balance + PartialGrowth(g, |Assets|, uBonds, uStocks))
  }

  /** The closing title of the game over screen. */
  datatype Verdict = WallStreetWolf | SmartInvestor | Rookie

  function VerdictOf(score: int): (v: Verdict)
  {
    if score >= 80 then WallStreetWolf else if score >= 50 then SmartInvestor else Rookie
  }

  /** The cash needed for a title: $1,987.50 for the top one and $1,237.50
      for the middle one, or $500 less each with a diversified portfolio,
      whose 20-point bonus is worth $500 of cash. */
  lemma {:induction false} VerdictThresholds(balance: real, diversified: bool)
    ensures var bonus := if diversified then 500.0 else 0.0;
      && (VerdictOf(FinalScore(balance, diversified)) == WallStreetWolf <==> balance + bonus >= 1987.5)
      && (VerdictOf(FinalScore(balance, diversified)) == Rookie <==> balance + bonus < 1237.5)
  {
    var x := balance / 2500.0 * 100.0;
    var r := Round(x);
    assert x == balance / 25.0;
    assert r >= 80 <==> x >= 79.5;
    assert r >= 60 <==> x >= 59.5;
    assert r >= 50 <==> x >= 49.5;
    assert r >= 30 <==> x >= 29.5;
  }

  /** A state after a year, and the score handed to `finishGame` after the tenth. */
  datatype YearStep = YearStep(next: Growth, finished: Option<int>)

  /** `advanceYear`. A year moves the counter by one and adds one history
      point recording the new cash and holdings; the game finishes exactly
      on the tenth year, scored from the cash. */
  function AdvanceYear(g: Growth, uBonds: real, uStocks: real): (r: YearStep)
    requires Inv(g) && g.years < TargetYears
    requires 0.0 <= uBonds < 1.0 && 0.0 <= uStocks < 1.0
    ensures Inv(r.next)
    ensures r.next.years == g.years + 1
    ensures |r.next.history| == |g.history| + 1 && r.next.history[..|g.history|] == g.history
    ensures r.next.history[g.years + 1] == Entry(g.years + 1, r.next.balance, r.next.portfolio[Savings],
                                                 r.next.portfolio[Bonds], r.next.portfolio[Stocks])
    ensures r.finished.Some? <==> r.next.years == TargetYears
    ensures r.finished.Some? ==> r.finished.value == FinalScore(r.next.balance, r.next.diversified)
  {
    CloseYear(Grow(g, uBonds, uStocks))
  }

  /** The rest of a year, once the holdings have grown: the year's event,
      the history point, and the score after the tenth year. Only year 4
      costs cash ($150); stocks gain a quarter in year 3 and lose 15% in
      year 5, no other year touches the holdings; bonds return 8% from
      year 7 on; nothing else changes. */
  function CloseYear(grown: Growth): (r: YearStep)
    requires forall a: Asset :: a in grown.portfolio
    ensures r.next.balance == grown.balance - (if grown.years == 4 then EmergencyCost else 0.0)
    ensures grown.years == 3 ==> r.next.portfolio == grown.portfolio[Stocks := grown.portfolio[Stocks] * 1.25]
    ensures grown.years == 5 ==> r.next.portfolio == grown.portfolio[Stocks := grown.portfolio[Stocks] * 0.85]
    ensures grown.years !in {3, 5} ==> r.next.portfolio == grown.portfolio
    ensures r.next.bondsBaseReturn == if grown.years == 7 then BondsRaisedReturn else grown.bondsBaseReturn
    ensures r.next.years == grown.years && r.next.firstInvestments == grown.firstInvestments
    ensures r.next.diversified == grown.diversified
    ensures r.next.history == grown.history + [Entry(grown.years, r.next.balance, r.next.portfolio[Savings],
                                                     r.next.portfolio[Bonds], r.next.portfolio[Stocks])]
  {
    var event := EventOf(grown.years);
    var after := if event.Some? then ApplyEvent(grown, event.value) else grown;
    var point := Entry(grown.years, after.balance, after.portfolio[Savings], after.portfolio[Bonds], after.portfolio[Stocks]);
    var next := after.(history := after.history + [point]);
    YearStep(next, if grown.years >= TargetYears then Some(FinalScore(next.balance, next.diversified)) else None)
  }

  /** The growth is credited twice: added to the holdings and to the cash
      alike, so outside the event years cash plus holdings rise by twice it. */
  lemma GrowthCountedTwice(g: Growth, uBonds: real, uStocks: real)
    requires Inv(g) && g.years < TargetYears && g.years + 1 !in {3, 4, 5, 7}
    requires 0.0 <= uBonds < 1.0 && 0.0 <= uStocks < 1.0
    ensures var r := AdvanceYear(g, uBonds, uStocks);
      var growth := PartialGrowth(g, |Assets|, uBonds, uStocks);
      r.next.balance + Holdings(r.next.portfolio) == g.balance + Holdings(g.portfolio) + 2.0 * growth
  {
    GrowthIsHoldingsGrowth(g, uBonds, uStocks);
  }

  // ---------------------------------------------------------------------
  // The game, updated in place
  // ---------------------------------------------------------------------

  class Game {
    var balance: real
    var portfolio: map<Asset, real>
    var years: int
    var history: seq<Entry>
    var firstInvestments: set<Asset>
    var diversified: bool
    var bondsBaseReturn: real

    function Snapshot(): Growth
      reads this
    {
      Growth(balance, portfolio, years, history, firstInvestments, diversified, bondsBaseReturn)
    }

    predicate Valid()
      reads this
    {
      Inv(Snapshot())
    }

    /** `loadInvestmentClicker`. */
    constructor ()
      ensures Valid() && Snapshot() == Initial()
    {
      balance := StartBalance;
      portfolio := NoHoldings;
      years := 0;
      history := [Entry(0, StartBalance, 0.0, 0.0, 0.0)];
      firstInvestments := {};
      diversified := false;
      bondsBaseReturn := BondsReturn;
      NoHoldingsComplete();
      assert NoHoldings[Savings] == 0.0;
    }

    /** The click handler of an invest button; the buttons exist until the
        tenth year ends the game. */
    method InvestClicked(a: Asset, amount: int) returns (result: InvestResult, lessonShown: bool, diversificationShown: bool)
      requires Valid() && years < TargetYears
      modifies this
      ensures Valid() && InvestStep(Snapshot(), result, lessonShown, diversificationShown) == Invest(old(Snapshot()), a, amount)
    {
      lessonShown, diversificationShown := false, false;
      if amount > 0 && balance >= amount as real {
        lessonShown := PlaceNow(a, amount);
        diversificationShown := CheckDiversificationNow();
        result := Placed;
      } else if amount as real > balance {
        result := NotEnoughCash;
      } else {
        result := Ignored;
      }
    }

    /** The money moved to the holding; true when it is the type's first investment. */
    method PlaceNow(a: Asset, amount: int) returns (first: bool)
      requires Valid() && amount > 0 && balance >= amount as real
      modifies this
      ensures Snapshot() == Place(old(Snapshot()), a, amount)
      ensures first <==> a !in old(firstInvestments)
    {
      balance := balance - amount as real;
      portfolio := portfolio[a := portfolio[a] + amount as real];
      first := a !in firstInvestments;
      if first {
        firstInvestments := firstInvestments + {a};
      }
    }

    /** `checkDiversification`. */
    method CheckDiversificationNow() returns (shown: bool)
      requires forall a: Asset :: a in portfolio
      modifies this
      ensures (Snapshot(), shown) == CheckDiversification(old(Snapshot()))
    {
      var invested := 0;
      if portfolio[Savings] > 0.0 { invested := invested + 1; }
      if portfolio[Bonds] > 0.0 { invested := invested + 1; }
      if portfolio[Stocks] > 0.0 { invested := invested + 1; }
      assert invested == Invested(portfolio);
      shown := false;
      if invested >= 3 && !diversified {
        diversified := true;
        shown := true;
      }
    }

    /** The advance-year button. */
    method AdvanceYearClicked(uBonds: real, uStocks: real) returns (finished: Option<int>)
      requires Valid() && years < TargetYears
      requires 0.0 <= uBonds < 1.0 && 0.0 <= uStocks < 1.0
      modifies this
      ensures Valid() && YearStep(Snapshot(), finished) == AdvanceYear(old(Snapshot()), uBonds, uStocks)
    {
      ghost var g0 := Snapshot();
      years := years + 1;
      var totalGrowth := GrowHoldings(uBonds, uStocks, g0);
      balance := balance + totalGrowth;
      ghost var g1 := Snapshot();
      assert g1 == Grow(g0, uBonds, uStocks);
      finished := CloseYearNow();
      assert AdvanceYear(g0, uBonds, uStocks) == CloseYear(g1);
    }

    /** The end of `advanceYear`, after the loop over the holdings. */
    method CloseYearNow() returns (finished: Option<int>)
      requires forall a: Asset :: a in portfolio
      modifies this
      ensures YearStep(Snapshot(), finished) == CloseYear(old(Snapshot()))
    {
      var event := EventOf(years);
      if event.Some? {
        ApplyMarketEvent(event.value);
      }
      history := history + [Entry(years, balance, portfolio[Savings], portfolio[Bonds], portfolio[Stocks])];
      if years >= TargetYears {
        finished := Some(FinalScore(balance, diversified));
      } else {
        finished := None;
      }
    }

    /** The loop of `advanceYear` over the investment types: each positive
        holding grows by its return, and the growth is summed. */
    method GrowHoldings(uBonds: real, uStocks: real, ghost g0: Growth) returns (totalGrowth: real)
      requires Growable(g0, uBonds, uStocks) && portfolio == g0.portfolio && bondsBaseReturn == g0.bondsBaseReturn
      modifies this
      ensures portfolio == Grown(g0, uBonds, uStocks) && totalGrowth == PartialGrowth(g0, |Assets|, uBonds, uStocks)
      ensures balance == old(balance) && years == old(years) && history == old(history)
      ensures firstInvestments == old(firstInvestments) && diversified == old(diversified)
      ensures bondsBaseReturn == old(bondsBaseReturn)
    {
      totalGrowth := 0.0;
      for i := 0 to |Assets|
        invariant totalGrowth == PartialGrowth(g0, i, uBonds, uStocks)
        invariant forall a: Asset :: a in portfolio && portfolio[a] == GrownTo(g0, a, i, uBonds, uStocks)
        invariant balance == old(balance) && years == old(years) && history == old(history)
        invariant firstInvestments == old(firstInvestments) && diversified == old(diversified)
        invariant bondsBaseReturn == g0.bondsBaseReturn
      {
        var growth := GrowOne(Assets[i], uBonds, uStocks, g0);
        totalGrowth := totalGrowth + growth;
      }
      assert forall a: Asset :: portfolio[a] == Grown(g0, uBonds, uStocks)[a];
    }

    /** One pass of that loop: a positive holding grows by its return. */
    method GrowOne(a: Asset, uBonds: real, uStocks: real, ghost g0: Growth) returns (growth: real)
      requires Growable(g0, uBonds, uStocks) && bondsBaseReturn == g0.bondsBaseReturn
      requires a in portfolio && portfolio[a] == g0.portfolio[a]
      modifies this
      ensures growth == GrowthOf(g0, a, uBonds, uStocks)
      ensures portfolio == old(portfolio)[a := g0.portfolio[a] + growth]
      ensures balance == old(balance) && years == old(years) && history == old(history)
      ensures firstInvestments == old(firstInvestments) && diversified == old(diversified)
      ensures bondsBaseReturn == old(bondsBaseReturn)
    {
      growth := 0.0;
      if portfolio[a] > 0.0 {
        var rate := ReturnRate(Snapshot(), a, uBonds, uStocks);
        growth := portfolio[a] * rate;
        portfolio := portfolio[a := portfolio[a] + growth];
      }
    }

    /** `applyMarketEvent`. */
    method ApplyMarketEvent(e: MarketEvent)
      requires Stocks in portfolio
      modifies this
      ensures Snapshot() == ApplyEvent(old(Snapshot()), e)
    {
      match e
      case BullMarket => portfolio := portfolio[Stocks := portfolio[Stocks] * 1.25];
      case Crash => portfolio := portfolio[Stocks := portfolio[Stocks] * 0.85];
      case RateRise => bondsBaseReturn := BondsRaisedReturn;
      case Emergency => balance := balance + -EmergencyCost;
    }
  }
}
