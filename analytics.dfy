/** The progress-analytics aggregator: a bounded log of completed games and
    of mistakes, per-subject mastery counters, four resilience metrics,
    spending-habit shares and the Financial IQ derived from them. */
module Analytics {
  import opened JsMath
  import opened Records

  datatype GameRecord = GameRecord(
    gameId: string,
    score: int,
    correct: int,
    total: int,
    accuracy: Option<real>,
    timeTaken: int,
    timestamp: int,
    mistakes: seq<Mistake>)

  datatype LoggedMistake = LoggedMistake(mistake: Mistake, gameId: string, timestamp: int)

  datatype Mastery = Mastery(gamesPlayed: nat, totalScore: int, totalCorrect: int, totalQuestions: int)

  datatype Resilience = Resilience(
    emergencyFundScore: int,
    debtManagementScore: int,
    savingsConsistency: int,
    investmentKnowledge: int)

  /** The keys of the spending-habit shares, in their declaration order. */
  datatype Bucket = Needs | Wants | Savings | DebtRepayment

  const Buckets: seq<Bucket> := [Needs, Wants, Savings, DebtRepayment]

  const GameHistoryCap := 100
  const MistakeLogCap := 50
  /** Two completions of one game closer than this (in ms) are the same completion. */
  const DuplicateWindow := 2000
  /** How many of the newest games the Financial IQ averages. */
  const IQWindow := 20

  datatype State = State(
    gameHistory: seq<GameRecord>,
    mistakeLog: seq<LoggedMistake>,
    subjectMastery: map<Category, Mastery>,
    resilience: Resilience,
    spendingHabits: map<Bucket, int>)

  /** Every spending bucket has a value. */
  predicate FullHabits(h: map<Bucket, int>)
  {
    Needs in h && Wants in h && Savings in h && DebtRepayment in h
  }

  lemma EveryBucketListed(b: Bucket)
    ensures b in Buckets && (b == Needs || b == Wants || b == Savings || b == DebtRepayment)
  {
  }

  function InitialState(): (st: State)
    ensures FullHabits(st.spendingHabits) && st.gameHistory == [] && st.mistakeLog == []
  {
    State([], [], map[], Resilience(0, 0, 0, 0),
      map[Needs := 25, Wants := 25, Savings := 25, DebtRepayment := 25])
  }

  // ---------------------------------------------------------------------
  // Game and mistake log
  // ---------------------------------------------------------------------

  /** The accuracy of a record in percent; undefined (not finite) when the total is 0. */
  function Accuracy(correct: int, total: int): (a: Option<real>)
    ensures a.Some? <==> total != 0
    ensures a.Some? && 0 <= correct <= total ==> 0.0 <= a.value <= 100.0
    ensures a.Some? && correct == total ==> a.value == 100.0
  {
    if total == 0 then None
    else
      PercentOfTotal(correct, total);
      Some(correct as real / total as real * 100.0)
  }

  lemma PercentOfTotal(correct: int, total: int)
    requires total != 0
    ensures 0 <= correct <= total ==> 0.0 <= correct as real / total as real * 100.0 <= 100.0
    ensures correct == total ==> correct as real / total as real * 100.0 == 100.0
  {
    if 0 <= correct <= total {
      PercentBounds(correct as real, total as real);
    }
  }

  /** `slice(-n)`: the newest `n` entries, or all of them when there are fewer. */
  function KeepLast<T>(s: seq<T>, n: nat): (r: seq<T>)
    ensures |r| == if |s| > n then n else |s|
    ensures r == s[|s| - |r|..]
  {
    if |s| > n then s[|s| - n..] else s
  }

  /** The mistakes of one completion as they enter the mistake log. */
  function Tagged(mistakes: seq<Mistake>, gameId: string, now: int): (r: seq<LoggedMistake>)
    ensures |r| == |mistakes|
    ensures forall i :: 0 <= i < |r| ==> r[i].mistake == mistakes[i] && r[i].gameId == gameId
  {
    seq(|mistakes|, i requires 0 <= i < |mistakes| => LoggedMistake(mistakes[i], gameId, now))
  }

  // ---------------------------------------------------------------------
  // Subject mastery
  // ---------------------------------------------------------------------

  function MasteryOf(m: map<Category, Mastery>, c: Category): Mastery
  {
    if c in m then m[c] else Mastery(0, 0, 0, 0)
  }

  /** `updateSubjectMastery`: one more game of the subject, with its score,
      correct answers and questions added; other subjects untouched. */
  function MasteryAfter(m: map<Category, Mastery>, gameId: string, score: int, correct: int, total: int)
    : (r: map<Category, Mastery>)
    ensures FindGame(gameId).None? ==> r == m
    ensures FindGame(gameId).Some? ==>
      var c := FindGame(gameId).value.category;
      && r.Keys == m.Keys + {c}
      && r[c].gamesPlayed == MasteryOf(m, c).gamesPlayed + 1
      && r[c].totalScore == MasteryOf(m, c).totalScore + score
      && r[c].totalCorrect == MasteryOf(m, c).totalCorrect + correct
      && r[c].totalQuestions == MasteryOf(m, c).totalQuestions + total
      && forall d :: d in m && d != c ==> r[d] == m[d]
  {
    match FindGame(gameId)
    case None => m
    case Some(game) =>
      var prev := MasteryOf(m, game.category);
      m[game.category := Mastery(prev.gamesPlayed + 1, prev.totalScore + score,
                                 prev.totalCorrect + correct, prev.totalQuestions + total)]
  }

  /** `updateSubjectMasteryPartial`: only the answer counters move. */
  function MasteryAfterPartial(m: map<Category, Mastery>, gameId: string, correct: int, total: int)
    : (r: map<Category, Mastery>)
    ensures FindGame(gameId).None? ==> r == m
    ensures FindGame(gameId).Some? ==>
      var c := FindGame(gameId).value.category;
      && r.Keys == m.Keys + {c}
      && r[c].gamesPlayed == MasteryOf(m, c).gamesPlayed
      && r[c].totalScore == MasteryOf(m, c).totalScore
      && r[c].totalCorrect == MasteryOf(m, c).totalCorrect + correct
      && r[c].totalQuestions == MasteryOf(m, c).totalQuestions + total
      && forall d :: d in m && d != c ==> r[d] == m[d]
  {
    match FindGame(gameId)
    case None => m
    case Some(game) =>
      var prev := MasteryOf(m, game.category);
      m[game.category := Mastery(prev.gamesPlayed, prev.totalScore,
                                 prev.totalCorrect + correct, prev.totalQuestions + total)]
  }

  /** A full update is a partial update that also counts the game and its score. */
  lemma FullIsPartialPlusGame(m: map<Category, Mastery>, gameId: string, score: int, correct: int, total: int)
    requires FindGame(gameId).Some?
    ensures var c := FindGame(gameId).value.category;
      var p := MasteryAfterPartial(m, gameId, correct, total)[c];
      MasteryAfter(m, gameId, score, correct, total)[c]
        == p.(gamesPlayed := p.gamesPlayed + 1, totalScore := p.totalScore + score)
  {
  }

  /** Counters of all subjects together: each full update adds exactly one game. */
  function GamesCounted(m: map<Category, Mastery>): nat
  {
    MasteryOf(m, Budgeting).gamesPlayed + MasteryOf(m, Debt).gamesPlayed
    + MasteryOf(m, Investing).gamesPlayed + MasteryOf(m, Banking).gamesPlayed
  }

  lemma MasteryCountsGames(m: map<Category, Mastery>, gameId: string, score: int, correct: int, total: int)
    ensures GamesCounted(MasteryAfter(m, gameId, score, correct, total))
      == GamesCounted(m) + (if FindGame(gameId).Some? then 1 else 0)
    ensures GamesCounted(MasteryAfterPartial(m, gameId, correct, total)) == GamesCounted(m)
  {
    var r := MasteryAfter(m, gameId, score, correct, total);
    var p := MasteryAfterPartial(m, gameId, correct, total);
    if FindGame(gameId).Some? {
      var c := FindGame(gameId).value.category;
      forall d | d != c ensures MasteryOf(r, d) == MasteryOf(m, d) && MasteryOf(p, d) == MasteryOf(m, d) {
      }
    }
  }

  // ---------------------------------------------------------------------
  // Resilience metrics
  // ---------------------------------------------------------------------

  predicate RoutesToEmergency(gameId: string)
  {
    Contains(gameId, "emergency") || Contains(gameId, "savings")
  }

  predicate RoutesToDebt(gameId: string)
  {
    Contains(gameId, "debt") || Contains(gameId, "loan") || Contains(gameId, "credit")
  }

  predicate RoutesToInvestment(gameId: string)
  {
    Contains(gameId, "investment") || Contains(gameId, "stock")
  }

  /** `Math.round((old + score) / 2)`. */
  function Blend(prev: int, score: int): (r: int)
    ensures r == (prev + score + 1) / 2
    ensures Min(prev, score) <= r <= Max(prev, score)
  {
    RoundHalf(prev, score);
    Round((prev + score) as real / 2.0)
  }

  /** `updateResilienceMetrics`: each metric the game id routes to moves
      halfway to the score (capped at 100); the others keep their value. */
  function ResilienceAfter(r: Resilience, gameId: string, score: int): (r': Resilience)
    ensures var s := Min(100, score);
      && r'.emergencyFundScore == (if RoutesToEmergency(gameId) then Blend(r.emergencyFundScore, s) else r.emergencyFundScore)
      && r'.savingsConsistency == (if RoutesToEmergency(gameId) then Blend(r.savingsConsistency, s) else r.savingsConsistency)
      && r'.debtManagementScore == (if RoutesToDebt(gameId) then Blend(r.debtManagementScore, s) else r.debtManagementScore)
      && r'.investmentKnowledge == (if RoutesToInvestment(gameId) then Blend(r.investmentKnowledge, s) else r.investmentKnowledge)
  {
    var s := Min(100, score);
    var r1 := if RoutesToEmergency(gameId)
      then r.(emergencyFundScore := Blend(r.emergencyFundScore, s), savingsConsistency := Blend(r.savingsConsistency, s))
      else r;
    var r2 := if RoutesToDebt(gameId) then r1.(debtManagementScore := Blend(r1.debtManagementScore, s)) else r1;
    if RoutesToInvestment(gameId) then r2.(investmentKnowledge := Blend(r2.investmentKnowledge, s)) else r2
  }

  predicate InPercentRange(r: Resilience)
  {
    && 0 <= r.emergencyFundScore <= 100
    && 0 <= r.debtManagementScore <= 100
    && 0 <= r.savingsConsistency <= 100
    && 0 <= r.investmentKnowledge <= 100
  }

  /** Metrics in [0, 100] stay there after any non-negative score. */
  lemma ResilienceStaysInRange(r: Resilience, gameId: string, score: int)
    requires InPercentRange(r) && score >= 0
    ensures InPercentRange(ResilienceAfter(r, gameId, score))
  {
  }

  /** Where the six games' results are routed: Debt Escape to the
      emergency-fund and savings metrics, Credit Card Master to debt
      management, the two investing games to investment knowledge, and
      Budget Boss and Money Memory nowhere. */
  lemma RoutingOfSavingsSprint()
    ensures RoutesToEmergency("savings-sprint") && !RoutesToDebt("savings-sprint") && !RoutesToInvestment("savings-sprint")
  {
    assert OccursAt("savings-sprint", "savings", 0);
    ContainsWitness("savings-sprint", "savings");
    SavingsSprintLacksDebt(); SavingsSprintLacksLoan(); SavingsSprintLacksCredit(); SavingsSprintLacksInvestment(); SavingsSprintLacksStock();
  }

  lemma RoutingOfCreditCardSwipe()
    ensures RoutesToDebt("credit-card-swipe") && !RoutesToEmergency("credit-card-swipe") && !RoutesToInvestment("credit-card-swipe")
  {
    assert OccursAt("credit-card-swipe", "credit", 0);
    ContainsWitness("credit-card-swipe", "credit");
    CreditCardSwipeLacksEmergency(); CreditCardSwipeLacksSavings(); CreditCardSwipeLacksInvestment(); CreditCardSwipeLacksStock();
  }

  lemma RoutingOfInvestmentClicker()
    ensures RoutesToInvestment("investment-clicker") && !RoutesToEmergency("investment-clicker") && !RoutesToDebt("investment-clicker")
  {
    assert OccursAt("investment-clicker", "investment", 0);
    ContainsWitness("investment-clicker", "investment");
    InvestmentClickerLacksEmergency(); InvestmentClickerLacksSavings(); InvestmentClickerLacksDebt(); InvestmentClickerLacksLoan(); InvestmentClickerLacksCredit();
  }

  lemma RoutingOfStockTrader()
    ensures RoutesToInvestment("stock-trader") && !RoutesToEmergency("stock-trader") && !RoutesToDebt("stock-trader")
  {
    assert OccursAt("stock-trader", "stock", 0);
    ContainsWitness("stock-trader", "stock");
    StockTraderLacksEmergency(); StockTraderLacksSavings(); StockTraderLacksDebt(); StockTraderLacksLoan(); StockTraderLacksCredit();
  }

  lemma RoutingOfBudgetBoss()
    ensures !RoutesToEmergency("budget-boss") && !RoutesToDebt("budget-boss") && !RoutesToInvestment("budget-boss")
  {
    BudgetBossLacksEmergency(); BudgetBossLacksSavings(); BudgetBossLacksDebt(); BudgetBossLacksLoan(); BudgetBossLacksCredit(); BudgetBossLacksInvestment(); BudgetBossLacksStock();
  }

  lemma RoutingOfMoneyMemory()
    ensures !RoutesToEmergency("money-memory") && !RoutesToDebt("money-memory") && !RoutesToInvestment("money-memory")
  {
    MoneyMemoryLacksEmergency(); MoneyMemoryLacksSavings(); MoneyMemoryLacksDebt(); MoneyMemoryLacksLoan(); MoneyMemoryLacksCredit(); MoneyMemoryLacksInvestment(); MoneyMemoryLacksStock();
  }

  // One absent keyword per lemma: each rests on a character (or, for
  // "debt" in "budget-boss", a pair of characters) the id lacks.

  lemma SavingsSprintLacksDebt() ensures !Contains("savings-sprint", "debt") {
    MissingCharNotContained("savings-sprint", "debt", 'd');
  }
  lemma SavingsSprintLacksLoan() ensures !Contains("savings-sprint", "loan") {
    MissingCharNotContained("savings-sprint", "loan", 'l');
  }
  lemma SavingsSprintLacksCredit() ensures !Contains("savings-sprint", "credit") {
    MissingCharNotContained("savings-sprint", "credit", 'c');
  }
  lemma SavingsSprintLacksInvestment() ensures !Contains("savings-sprint", "investment") {
    MissingCharNotContained("savings-sprint", "investment", 'm');
  }
  lemma SavingsSprintLacksStock() ensures !Contains("savings-sprint", "stock") {
    MissingCharNotContained("savings-sprint", "stock", 'o');
  }
  lemma CreditCardSwipeLacksEmergency() ensures !Contains("credit-card-swipe", "emergency") {
    MissingCharNotContained("credit-card-swipe", "emergency", 'm');
  }
  lemma CreditCardSwipeLacksSavings() ensures !Contains("credit-card-swipe", "savings") {
    MissingCharNotContained("credit-card-swipe", "savings", 'v');
  }
  lemma CreditCardSwipeLacksInvestment() ensures !Contains("credit-card-swipe", "investment") {
    MissingCharNotContained("credit-card-swipe", "investment", 'v');
  }
  lemma CreditCardSwipeLacksStock() ensures !Contains("credit-card-swipe", "stock") {
    MissingCharNotContained("credit-card-swipe", "stock", 'o');
  }
  lemma InvestmentClickerLacksEmergency() ensures !Contains("investment-clicker", "emergency") {
    MissingCharNotContained("investment-clicker", "emergency", 'g');
  }
  lemma InvestmentClickerLacksSavings() ensures !Contains("investment-clicker", "savings") {
    MissingCharNotContained("investment-clicker", "savings", 'a');
  }
  lemma InvestmentClickerLacksDebt() ensures !Contains("investment-clicker", "debt") {
    MissingCharNotContained("investment-clicker", "debt", 'd');
  }
  lemma InvestmentClickerLacksLoan() ensures !Contains("investment-clicker", "loan") {
    MissingCharNotContained("investment-clicker", "loan", 'o');
  }
  lemma InvestmentClickerLacksCredit() ensures !Contains("investment-clicker", "credit") {
    MissingCharNotContained("investment-clicker", "credit", 'd');
  }
  lemma StockTraderLacksEmergency() ensures !Contains("stock-trader", "emergency") {
    MissingCharNotContained("stock-trader", "emergency", 'm');
  }
  lemma StockTraderLacksSavings() ensures !Contains("stock-trader", "savings") {
    MissingCharNotContained("stock-trader", "savings", 'v');
  }
  lemma StockTraderLacksDebt() ensures !Contains("stock-trader", "debt") {
    MissingCharNotContained("stock-trader", "debt", 'b');
  }
  lemma StockTraderLacksLoan() ensures !Contains("stock-trader", "loan") {
    MissingCharNotContained("stock-trader", "loan", 'l');
  }
  lemma StockTraderLacksCredit() ensures !Contains("stock-trader", "credit") {
    MissingCharNotContained("stock-trader", "credit", 'i');
  }
  lemma BudgetBossLacksEmergency() ensures !Contains("budget-boss", "emergency") {
    MissingCharNotContained("budget-boss", "emergency", 'm');
  }
  lemma BudgetBossLacksSavings() ensures !Contains("budget-boss", "savings") {
    MissingCharNotContained("budget-boss", "savings", 'a');
  }
  lemma BudgetBossLacksDebt() ensures !Contains("budget-boss", "debt") {
    MissingPairNotContained("budget-boss", "debt");
  }
  lemma BudgetBossLacksLoan() ensures !Contains("budget-boss", "loan") {
    MissingCharNotContained("budget-boss", "loan", 'l');
  }
  lemma BudgetBossLacksCredit() ensures !Contains("budget-boss", "credit") {
    MissingCharNotContained("budget-boss", "credit", 'c');
  }
  lemma BudgetBossLacksInvestment() ensures !Contains("budget-boss", "investment") {
    MissingCharNotContained("budget-boss", "investment", 'i');
  }
  lemma BudgetBossLacksStock() ensures !Contains("budget-boss", "stock") {
    MissingCharNotContained("budget-boss", "stock", 'c');
  }
  lemma MoneyMemoryLacksEmergency() ensures !Contains("money-memory", "emergency") {
    MissingCharNotContained("money-memory", "emergency", 'g');
  }
  lemma MoneyMemoryLacksSavings() ensures !Contains("money-memory", "savings") {
    MissingCharNotContained("money-memory", "savings", 's');
  }
  lemma MoneyMemoryLacksDebt() ensures !Contains("money-memory", "debt") {
    MissingCharNotContained("money-memory", "debt", 'd');
  }
  lemma MoneyMemoryLacksLoan() ensures !Contains("money-memory", "loan") {
    MissingCharNotContained("money-memory", "loan", 'l');
  }
  lemma MoneyMemoryLacksCredit() ensures !Contains("money-memory", "credit") {
    MissingCharNotContained("money-memory", "credit", 'c');
  }
  lemma MoneyMemoryLacksInvestment() ensures !Contains("money-memory", "investment") {
    MissingCharNotContained("money-memory", "investment", 'i');
  }
  lemma MoneyMemoryLacksStock() ensures !Contains("money-memory", "stock") {
    MissingCharNotContained("money-memory", "stock", 's');
  }

  // ---------------------------------------------------------------------
  // Spending habits
  // ---------------------------------------------------------------------

  /** The shift one mistake of a budgeting game makes to the shares. */
  function AdjustOne(h: map<Bucket, int>, m: Mistake): (r: map<Bucket, int>)
    requires FullHabits(h)
    ensures FullHabits(r)
  {
    if m.kind == Some(Overspending) then h[Wants := h[Wants] + 5]
    else if m.kind == Some(Undersaving) then h[Savings := h[Savings] - 3]
    else h
  }

  /** The shifts of a list of mistakes, applied in order. */
  function AdjustAll(h: map<Bucket, int>, ms: seq<Mistake>): (r: map<Bucket, int>)
    requires FullHabits(h)
    ensures FullHabits(r)
  {
    if ms == [] then h else AdjustOne(AdjustAll(h, ms[..|ms| - 1]), ms[|ms| - 1])
  }

  function CountKind(ms: seq<Mistake>, k: MistakeType): (n: nat)
    ensures n <= |ms|
  {
    if ms == [] then 0 else CountKind(ms[..|ms| - 1], k) + (if ms[|ms| - 1].kind == Some(k) then 1 else 0)
  }

  /** Each overspending mistake adds 5 to wants and each undersaving one
      takes 3 from savings; needs and debt do not move. */
  lemma {:induction false} AdjustAllCounts(h: map<Bucket, int>, ms: seq<Mistake>)
    requires FullHabits(h)
    ensures var r := AdjustAll(h, ms);
      && r[Wants] == h[Wants] + 5 * CountKind(ms, Overspending)
      && r[Savings] == h[Savings] - 3 * CountKind(ms, Undersaving)
      && r[Needs] == h[Needs] && r[DebtRepayment] == h[DebtRepayment]
  {
    if ms != [] {
      AdjustAllCounts(h, ms[..|ms| - 1]);
    }
  }

  function HabitsTotal(h: map<Bucket, int>): int
    requires FullHabits(h)
  {
    h[Needs] + h[Wants] + h[Savings] + h[DebtRepayment]
  }

  /** A bucket's share of the total, as a rounded percentage. */
  function Share(v: int, total: int): int
    requires total > 0
  {
    Round(v as real / total as real * 100.0)
  }

  /** The normalisation: with a positive total each bucket becomes its
      rounded percentage of the total; otherwise nothing changes. */
  function Normalize(h: map<Bucket, int>): (r: map<Bucket, int>)
    requires FullHabits(h)
    ensures FullHabits(r) && r.Keys == h.Keys
    ensures HabitsTotal(h) <= 0 ==> r == h
    ensures HabitsTotal(h) > 0 ==> forall b :: b in h ==> r[b] == Share(h[b], HabitsTotal(h))
  {
    var t := HabitsTotal(h);
    if t > 0 then map b | b in h :: Share(h[b], t) else h
  }

  /** `updateSpendingHabits`: shifts for budgeting games, then normalisation. */
  function HabitsAfter(h: map<Bucket, int>, gameId: string, ms: seq<Mistake>): (r: map<Bucket, int>)
    requires FullHabits(h)
    ensures FullHabits(r)
    ensures r == Normalize(if Contains(gameId, "budget") then AdjustAll(h, ms) else h)
  {
    Normalize(if Contains(gameId, "budget") then AdjustAll(h, ms) else h)
  }

  /** Mistakes that carry no type (such as the Budget Boss ones) leave the
      shares to the normalisation alone. */
  lemma UntypedMistakesOnlyNormalize(h: map<Bucket, int>, gameId: string, ms: seq<Mistake>)
    requires FullHabits(h)
    requires forall i :: 0 <= i < |ms| ==> ms[i].kind.None?
    ensures HabitsAfter(h, gameId, ms) == Normalize(h)
  {
    UntypedAdjustNothing(h, ms);
  }

  lemma {:induction false} UntypedAdjustNothing(h: map<Bucket, int>, ms: seq<Mistake>)
    requires FullHabits(h)
    requires forall i :: 0 <= i < |ms| ==> ms[i].kind.None?
    ensures AdjustAll(h, ms) == h
  {
    if ms != [] {
      UntypedAdjustNothing(h, ms[..|ms| - 1]);
    }
  }

  /** A non-negative part of a positive total has a share in [0, 100]. */
  lemma ShareInRange(v: int, total: int)
    requires 0 <= v <= total && total > 0
    ensures 0 <= Share(v, total) <= 100
  {
    PercentBounds(v as real, total as real);
    RoundBetween(v as real / total as real * 100.0, 0, 100);
  }

  /** The exact shares of four parts of a total add up to 100. */
  lemma ExactSharesSum(a: int, b: int, c: int, d: int)
    requires a + b + c + d > 0
    ensures var t := (a + b + c + d) as real;
      a as real / t * 100.0 + b as real / t * 100.0 + c as real / t * 100.0 + d as real / t * 100.0 == 100.0
  {
    var t := (a + b + c + d) as real;
    AddFractions(a as real, b as real, t);
    AddFractions((a + b) as real, c as real, t);
    AddFractions((a + b + c) as real, d as real, t);
    assert t / t == 1.0;
  }

  lemma AddFractions(x: real, y: real, t: real)
    requires t != 0.0
    ensures x / t + y / t == (x + y) / t
  {
  }

  /** With non-negative buckets and a positive total every share lies in
      [0, 100] and the four rounded shares add up to 100 within 2. */
  lemma NormalizedShares(h: map<Bucket, int>)
    requires FullHabits(h) && HabitsTotal(h) > 0
    requires h[Needs] >= 0 && h[Wants] >= 0 && h[Savings] >= 0 && h[DebtRepayment] >= 0
    ensures var r := Normalize(h);
      && 0 <= r[Needs] <= 100 && 0 <= r[Wants] <= 100
      && 0 <= r[Savings] <= 100 && 0 <= r[DebtRepayment] <= 100
    ensures 99 <= HabitsTotal(Normalize(h)) <= 102
  {
    var t := HabitsTotal(h);
    ShareInRange(h[Needs], t);
    ShareInRange(h[Wants], t);
    ShareInRange(h[Savings], t);
    ShareInRange(h[DebtRepayment], t);
    ExactSharesSum(h[Needs], h[Wants], h[Savings], h[DebtRepayment]);
  }

  // ---------------------------------------------------------------------
  // Financial IQ and labels
  // ---------------------------------------------------------------------

  /** The sum of the accuracies of `games`; undefined once one is undefined. */
  function AccuracySum(games: seq<GameRecord>): (r: Option<real>)
    ensures r.Some? <==> forall i :: 0 <= i < |games| ==> games[i].accuracy.Some?
  {
    if games == [] then Some(0.0)
    else
      var rest := AccuracySum(games[1..]);
      if games[0].accuracy.None? || rest.None? then None
      else
        assert forall i :: 1 <= i < |games| ==> games[i] == games[1..][i - 1];
        Some(games[0].accuracy.value + rest.value)
  }

  predicate AccuraciesInRange(games: seq<GameRecord>)
  {
    forall i :: 0 <= i < |games| ==> games[i].accuracy.Some? && 0.0 <= games[i].accuracy.value <= 100.0
  }

  lemma {:induction false} AccuracySumBounds(games: seq<GameRecord>)
    requires AccuraciesInRange(games)
    ensures AccuracySum(games).Some?
    ensures 0.0 <= AccuracySum(games).value <= 100.0 * |games| as real
  {
    if games != [] {
      assert AccuraciesInRange(games[1..]) by {
        forall i | 0 <= i < |games[1..]| ensures games[1..][i] == games[i + 1] {
        }
      }
      AccuracySumBounds(games[1..]);
    }
  }

  function ResilienceAverage(r: Resilience): real
  {
    (r.emergencyFundScore + r.debtManagementScore + r.savingsConsistency + r.investmentKnowledge) as real / 4.0
  }

  /** `calculateFinancialIQ`: 0 with no games; otherwise 60% of the mean
      accuracy of the newest 20 games and 40% of the mean resilience metric,
      rounded and capped at 100. Undefined when an accuracy is. */
  function FinancialIQ(history: seq<GameRecord>, r: Resilience): (iq: Option<int>)
    ensures history == [] ==> iq == Some(0)
    ensures iq.Some? ==> iq.value <= 100
    ensures history != [] ==>
      (iq.None? <==> exists i :: 0 <= i < |KeepLast(history, IQWindow)| && KeepLast(history, IQWindow)[i].accuracy.None?)
  {
    if history == [] then Some(0)
    else
      var recent := KeepLast(history, IQWindow);
      match AccuracySum(recent)
      case None => None
      case Some(sum) =>
        var avg := sum / |recent| as real;
        Some(Min(100, Round(avg * 0.6 + ResilienceAverage(r) * 0.4)))
  }

  lemma KeepLastAccuracies(history: seq<GameRecord>, n: nat)
    requires AccuraciesInRange(history)
    ensures AccuraciesInRange(KeepLast(history, n))
  {
    var recent := KeepLast(history, n);
    forall i | 0 <= i < |recent| ensures recent[i] == history[|history| - |recent| + i] {
    }
  }

  lemma MeanInRange(sum: real, n: nat)
    requires n > 0 && 0.0 <= sum <= 100.0 * n as real
    ensures 0.0 <= sum / n as real <= 100.0
  {
    var avg := sum / n as real;
    assert avg * n as real == sum;
  }

  /** With accuracies and metrics in [0, 100] the Financial IQ is defined and in [0, 100]. */
  lemma FinancialIQInRange(history: seq<GameRecord>, r: Resilience)
    requires AccuraciesInRange(history) && InPercentRange(r)
    ensures FinancialIQ(history, r).Some?
    ensures 0 <= FinancialIQ(history, r).value <= 100
  {
    if history != [] {
      var recent := KeepLast(history, IQWindow);
      KeepLastAccuracies(history, IQWindow);
      AccuracySumBounds(recent);
      var sum := AccuracySum(recent).value;
      MeanInRange(sum, |recent|);
      var avg := sum / |recent| as real;
      var x := avg * 0.6 + ResilienceAverage(r) * 0.4;
      assert 0.0 <= ResilienceAverage(r) <= 100.0;
      RoundBetween(x, 0, 100);
    }
  }

  datatype IQRank = Master | Expert | Advanced | Intermediate | Developing | Beginner

  function IQRankOf(score: int): (rank: IQRank)
  {
    if score >= 90 then Master
    else if score >= 80 then Expert
    else if score >= 70 then Advanced
    else if score >= 60 then Intermediate
    else if score >= 50 then Developing
    else Beginner
  }

  function RankLevel(rank: IQRank): nat
  {
    match rank
    case Master => 5
    case Expert => 4
    case Advanced => 3
    case Intermediate => 2
    case Developing => 1
    case Beginner => 0
  }

  /** A higher score never earns a lower rank; the bands start at 50, 60, 70, 80, 90. */
  lemma IQRankMonotone(x: int, y: int)
    requires x <= y
    ensures RankLevel(IQRankOf(x)) <= RankLevel(IQRankOf(y))
    ensures RankLevel(IQRankOf(x)) == (if x >= 50 then Min(5, x / 10 - 4) else 0)
  {
  }

  datatype AccuracyColor = SuccessColor | InfoColor | WarningColor | DangerColor

  /** `getAccuracyColor`: bands at 90, 75 and 60 percent. */
  function AccuracyColorOf(accuracy: real): (c: AccuracyColor)
    ensures c == SuccessColor <==> accuracy >= 90.0
    ensures c == DangerColor <==> accuracy < 60.0
    ensures c == InfoColor <==> 75.0 <= accuracy < 90.0
  {
    if accuracy >= 90.0 then SuccessColor
    else if accuracy >= 75.0 then InfoColor
    else if accuracy >= 60.0 then WarningColor
    else DangerColor
  }

  /** How long ago a timestamp was, in the unit `getTimeAgo` shows. */
  datatype TimeAgo = JustNow | MinutesAgo(minutes: int) | HoursAgo(hours: int) | DaysAgo(days: int) | OnDate

  /** `getTimeAgo` with both instants in milliseconds. */
  function TimeAgoOf(now: int, past: int): (r: TimeAgo)
    ensures r == JustNow <==> now - past < 60000
    ensures r.MinutesAgo? ==> 1 <= r.minutes < 60 && r.minutes * 60000 <= now - past < (r.minutes + 1) * 60000
    ensures r.HoursAgo? ==> 1 <= r.hours < 24 && r.hours * 3600000 <= now - past < (r.hours + 1) * 3600000
    ensures r.DaysAgo? ==> 1 <= r.days < 7 && r.days * 86400000 <= now - past < (r.days + 1) * 86400000
    ensures r == OnDate <==> now - past >= 7 * 86400000
  {
    var diffMins := (now - past) / 60000;
    var diffHours := diffMins / 60;
    var diffDays := diffHours / 24;
    if diffMins < 1 then JustNow
    else if diffMins < 60 then MinutesAgo(diffMins)
    else if diffHours < 24 then HoursAgo(diffHours)
    else if diffDays < 7 then DaysAgo(diffDays)
    else OnDate
  }

  // ---------------------------------------------------------------------
  // Whole operations on the state
  // ---------------------------------------------------------------------

  /** `logGameCompletion` at time `now`. */
  function Log(st: State, gameId: string, score: int, correct: int, total: int, timeTaken: int,
               mistakes: seq<Mistake>, now: int): (r: State)
    requires FullHabits(st.spendingHabits)
    ensures FullHabits(r.spendingHabits)
    ensures r.gameHistory == KeepLast(st.gameHistory + [GameRecord(gameId, score, correct, total,
      Accuracy(correct, total), timeTaken, now, mistakes)], GameHistoryCap)
    ensures r.mistakeLog == KeepLast(st.mistakeLog + Tagged(mistakes, gameId, now), MistakeLogCap)
    ensures r.subjectMastery == MasteryAfter(st.subjectMastery, gameId, score, correct, total)
    ensures r.resilience == ResilienceAfter(st.resilience, gameId, score)
    ensures r.spendingHabits == HabitsAfter(st.spendingHabits, gameId, mistakes)
  {
    State(
      KeepLast(st.gameHistory + [GameRecord(gameId, score, correct, total, Accuracy(correct, total), timeTaken, now, mistakes)], GameHistoryCap),
      KeepLast(st.mistakeLog + Tagged(mistakes, gameId, now), MistakeLogCap),
      MasteryAfter(st.subjectMastery, gameId, score, correct, total),
      ResilienceAfter(st.resilience, gameId, score),
      HabitsAfter(st.spendingHabits, gameId, mistakes))
  }

  /** One completion appends exactly one record, newest last, keeps at most
      100 records and 50 mistakes, and keeps the newest of the older ones. */
  lemma LogAppendsOne(st: State, gameId: string, score: int, correct: int, total: int, timeTaken: int,
                      mistakes: seq<Mistake>, now: int)
    requires FullHabits(st.spendingHabits)
    ensures var r := Log(st, gameId, score, correct, total, timeTaken, mistakes, now);
      && |r.gameHistory| == Min(|st.gameHistory| + 1, GameHistoryCap)
      && r.gameHistory[|r.gameHistory| - 1].gameId == gameId
      && r.gameHistory[|r.gameHistory| - 1].timestamp == now
      && r.gameHistory[..|r.gameHistory| - 1] == st.gameHistory[|st.gameHistory| + 1 - |r.gameHistory|..]
      && |r.mistakeLog| == Min(|st.mistakeLog| + |mistakes|, MistakeLogCap)
      && |r.mistakeLog| <= MistakeLogCap
  {
    var r := Log(st, gameId, score, correct, total, timeTaken, mistakes, now);
    var grown := st.gameHistory + [GameRecord(gameId, score, correct, total, Accuracy(correct, total), timeTaken, now, mistakes)];
    assert r.gameHistory == grown[|grown| - |r.gameHistory|..];
    assert r.gameHistory[..|r.gameHistory| - 1] == grown[|grown| - |r.gameHistory|..|grown| - 1];
  }

  /** The completion event: every field may be missing. */
  datatype CompletionEvent = CompletionEvent(
    gameId: Option<string>,
    score: Option<int>,
    correct: Option<int>,
    total: Option<int>,
    timeTaken: Option<int>,
    mistakes: Option<seq<Mistake>>)

  /** `x || 0` on an optional number. */
  function OrZero(x: Option<int>): int
  {
    if x.Some? then x.value else 0
  }

  /** A present, non-empty game id. */
  predicate HasGameId(e: CompletionEvent)
  {
    e.gameId.Some? && e.gameId.value != ""
  }

  /** The score an event is logged with: its own score, else the percentage
      of correct answers, else 0. Undefined (NaN) when a total is given
      without a score or a correct count. */
  function EventScore(e: CompletionEvent): (r: Option<int>)
    ensures e.score.Some? ==> r == e.score
    ensures e.score.None? && OrZero(e.total) == 0 ==> r == Some(0)
    ensures r.None? <==> e.score.None? && OrZero(e.total) != 0 && e.correct.None?
  {
    if e.score.Some? then e.score
    else if OrZero(e.total) != 0 then
      if e.correct.Some? then Some(Round(e.correct.value as real / e.total.value as real * 100.0)) else None
    else Some(0)
  }

  /** The newest record is a completion of `gameId` less than 2 s before `now`. */
  predicate IsDuplicate(st: State, gameId: string, now: int)
  {
    && |st.gameHistory| > 0
    && st.gameHistory[|st.gameHistory| - 1].gameId == gameId
    && -DuplicateWindow < st.gameHistory[|st.gameHistory| - 1].timestamp - now < DuplicateWindow
  }

  /** `handleGameComplete`: ignore events without a game id and repeats of
      the completion just logged; log everything else with defaults. */
  function HandleComplete(st: State, e: CompletionEvent, now: int): (r: State)
    requires FullHabits(st.spendingHabits)
    ensures FullHabits(r.spendingHabits)
    ensures !HasGameId(e) || IsDuplicate(st, e.gameId.value, now) || EventScore(e).None? ==> r == st
    ensures HasGameId(e) && !IsDuplicate(st, e.gameId.value, now) && EventScore(e).Some? ==>
      r == Log(st, e.gameId.value, EventScore(e).value, OrZero(e.correct), OrZero(e.total),
               OrZero(e.timeTaken), if e.mistakes.Some? then e.mistakes.value else [], now)
  {
    if !HasGameId(e) || IsDuplicate(st, e.gameId.value, now) || EventScore(e).None? then st
    else Log(st, e.gameId.value, EventScore(e).value, OrZero(e.correct), OrZero(e.total),
             OrZero(e.timeTaken), if e.mistakes.Some? then e.mistakes.value else [], now)
  }

  /** A completion logged at `now` makes any event for the same game within
      the next two seconds a no-op. */
  lemma RepeatedCompletionIgnored(st: State, gameId: string, score: int, correct: int, total: int,
                                  timeTaken: int, mistakes: seq<Mistake>, now: int, e: CompletionEvent, later: int)
    requires FullHabits(st.spendingHabits)
    requires e.gameId == Some(gameId) && now <= later < now + DuplicateWindow
    ensures var logged := Log(st, gameId, score, correct, total, timeTaken, mistakes, now);
      HandleComplete(logged, e, later) == logged
  {
    LogAppendsOne(st, gameId, score, correct, total, timeTaken, mistakes, now);
  }

  /** `handleGameProgress`: partial mastery, and the spending shifts when the
      event carries mistakes. */
  function HandleProgress(st: State, e: CompletionEvent): (r: State)
    requires FullHabits(st.spendingHabits)
    ensures FullHabits(r.spendingHabits)
    ensures r.gameHistory == st.gameHistory && r.mistakeLog == st.mistakeLog && r.resilience == st.resilience
    ensures !HasGameId(e) ==> r == st
    ensures HasGameId(e) ==>
      r.subjectMastery == MasteryAfterPartial(st.subjectMastery, e.gameId.value, OrZero(e.correct), OrZero(e.total))
  {
    if !HasGameId(e) then st
    else
      var m := MasteryAfterPartial(st.subjectMastery, e.gameId.value, OrZero(e.correct), OrZero(e.total));
      var h := if e.mistakes.Some? && |e.mistakes.value| > 0
        then HabitsAfter(st.spendingHabits, e.gameId.value, e.mistakes.value) else st.spendingHabits;
      st.(subjectMastery := m, spendingHabits := h)
  }

  // ---------------------------------------------------------------------
  // The singleton, updated in place
  // ---------------------------------------------------------------------

  class ProgressAnalytics {
    var gameHistory: seq<GameRecord>
    var mistakeLog: seq<LoggedMistake>
    var subjectMastery: map<Category, Mastery>
    var resilience: Resilience
    var spendingHabits: map<Bucket, int>

    function Snapshot(): State
      reads this
    {
      State(gameHistory, mistakeLog, subjectMastery, resilience, spendingHabits)
    }

    predicate Valid()
      reads this
    {
      FullHabits(spendingHabits)
    }

    constructor ()
      ensures Valid() && Snapshot() == InitialState()
    {
      gameHistory := [];
      mistakeLog := [];
      subjectMastery := map[];
      resilience := Resilience(0, 0, 0, 0);
      spendingHabits := map[Needs := 25, Wants := 25, Savings := 25, DebtRepayment := 25];
    }

    method UpdateSubjectMastery(gameId: string, score: int, correct: int, total: int)
      modifies this
      ensures subjectMastery == MasteryAfter(old(subjectMastery), gameId, score, correct, total)
      ensures gameHistory == old(gameHistory) && mistakeLog == old(mistakeLog)
      ensures resilience == old(resilience) && spendingHabits == old(spendingHabits)
    {
      var game := FindGame(gameId);
      if game.None? {
        return;
      }
      var category := game.value.category;
      if category !in subjectMastery {
        subjectMastery := subjectMastery[category := Mastery(0, 0, 0, 0)];
      }
      var mastery := subjectMastery[category];
      mastery := mastery.(gamesPlayed := mastery.gamesPlayed + 1);
      mastery := mastery.(totalScore := mastery.totalScore + score);
      mastery := mastery.(totalCorrect := mastery.totalCorrect + correct);
      mastery := mastery.(totalQuestions := mastery.totalQuestions + total);
      subjectMastery := subjectMastery[category := mastery];
    }

    method UpdateSubjectMasteryPartial(gameId: string, correct: int, total: int)
      modifies this
      ensures subjectMastery == MasteryAfterPartial(old(subjectMastery), gameId, correct, total)
      ensures gameHistory == old(gameHistory) && mistakeLog == old(mistakeLog)
      ensures resilience == old(resilience) && spendingHabits == old(spendingHabits)
    {
      var game := FindGame(gameId);
      if game.None? {
        return;
      }
      var category := game.value.category;
      if category !in subjectMastery {
        subjectMastery := subjectMastery[category := Mastery(0, 0, 0, 0)];
      }
      var mastery := subjectMastery[category];
      mastery := mastery.(totalCorrect := mastery.totalCorrect + correct);
      mastery := mastery.(totalQuestions := mastery.totalQuestions + total);
      subjectMastery := subjectMastery[category := mastery];
    }

    method UpdateResilienceMetrics(gameId: string, score: int)
      modifies this
      ensures spendingHabits == old(spendingHabits)
      ensures Snapshot() == old(Snapshot()).(resilience := ResilienceAfter(old(resilience), gameId, score))
    {
      var scorePercent := Min(100, score);
      if RoutesToEmergency(gameId) {
        resilience := resilience.(emergencyFundScore := Round((resilience.emergencyFundScore + scorePercent) as real / 2.0));
        resilience := resilience.(savingsConsistency := Round((resilience.savingsConsistency + scorePercent) as real / 2.0));
      }
      if RoutesToDebt(gameId) {
        resilience := resilience.(debtManagementScore := Round((resilience.debtManagementScore + scorePercent) as real / 2.0));
      }
      if RoutesToInvestment(gameId) {
        resilience := resilience.(investmentKnowledge := Round((resilience.investmentKnowledge + scorePercent) as real / 2.0));
      }
    }

    method UpdateSpendingHabits(gameId: string, mistakes: seq<Mistake>)
      requires Valid()
      modifies this
      ensures Valid()
      ensures Snapshot() == old(Snapshot()).(spendingHabits := HabitsAfter(old(spendingHabits), gameId, mistakes))
    {
      if Contains(gameId, "budget") {
        ShiftForMistakes(mistakes);
      }
      NormalizeHabits();
    }

    /** The shifts of a budgeting game: wants up by 5 per overspending, savings down by 3 per undersaving. */
    method ShiftForMistakes(mistakes: seq<Mistake>)
      requires Valid()
      modifies this
      ensures Valid()
      ensures Snapshot() == old(Snapshot()).(spendingHabits := AdjustAll(old(spendingHabits), mistakes))
    {
      for i := 0 to |mistakes|
        invariant FullHabits(spendingHabits)
        invariant spendingHabits == AdjustAll(old(spendingHabits), mistakes[..i])
        invariant Snapshot() == old(Snapshot()).(spendingHabits := spendingHabits)
      {
        assert mistakes[..i + 1][..i] == mistakes[..i];
        var mistake := mistakes[i];
        if mistake.kind == Some(Overspending) {
          spendingHabits := spendingHabits[Wants := spendingHabits[Wants] + 5];
        } else if mistake.kind == Some(Undersaving) {
          spendingHabits := spendingHabits[Savings := spendingHabits[Savings] - 3];
        }
      }
      assert mistakes[..|mistakes|] == mistakes;
    }

    /** Each share rescaled to a percentage of the total, when the total is positive. */
    method NormalizeHabits()
      requires Valid()
      modifies this
      ensures Valid()
      ensures Snapshot() == old(Snapshot()).(spendingHabits := Normalize(old(spendingHabits)))
    {
      ghost var adjusted := spendingHabits;
      var total := HabitsTotal(spendingHabits);
      if total > 0 {
        for i := 0 to |Buckets|
          invariant FullHabits(spendingHabits) && spendingHabits.Keys == adjusted.Keys
          invariant forall j :: 0 <= j < i ==> spendingHabits[Buckets[j]] == Share(adjusted[Buckets[j]], total)
          invariant forall j :: i <= j < |Buckets| ==> spendingHabits[Buckets[j]] == adjusted[Buckets[j]]
          invariant Snapshot() == old(Snapshot()).(spendingHabits := spendingHabits)
        {
          var key := Buckets[i];
          spendingHabits := spendingHabits[key := Share(spendingHabits[key], total)];
        }
        assert spendingHabits[Needs] == Share(adjusted[Needs], total) by { assert Buckets[0] == Needs; }
        assert spendingHabits[Wants] == Share(adjusted[Wants], total) by { assert Buckets[1] == Wants; }
        assert spendingHabits[Savings] == Share(adjusted[Savings], total) by { assert Buckets[2] == Savings; }
        assert spendingHabits[DebtRepayment] == Share(adjusted[DebtRepayment], total) by { assert Buckets[3] == DebtRepayment; }
        forall b | b in spendingHabits ensures b in adjusted && spendingHabits[b] == Share(adjusted[b], total) {
          EveryBucketListed(b);
        }
        assert spendingHabits == Normalize(adjusted);
      }
    }

    /** `logGameCompletion`. */
    method LogGameCompletion(gameId: string, score: int, correct: int, total: int, timeTaken: int,
                             mistakes: seq<Mistake>, now: int)
      requires Valid()
      modifies this
      ensures Valid()
      ensures Snapshot() == Log(old(Snapshot()), gameId, score, correct, total, timeTaken, mistakes, now)
    {
      var record := GameRecord(gameId, score, correct, total, Accuracy(correct, total), timeTaken, now, mistakes);
      gameHistory := gameHistory + [record];
      for i := 0 to |mistakes|
        invariant mistakeLog == old(mistakeLog) + Tagged(mistakes[..i], gameId, now)
        invariant Snapshot() == old(Snapshot()).(gameHistory := old(gameHistory) + [record], mistakeLog := mistakeLog)
      {
        mistakeLog := mistakeLog + [LoggedMistake(mistakes[i], gameId, now)];
      }
      assert mistakes[..|mistakes|] == mistakes;
      UpdateSubjectMastery(gameId, score, correct, total);
      UpdateResilienceMetrics(gameId, score);
      UpdateSpendingHabits(gameId, mistakes);
      if |gameHistory| > GameHistoryCap {
        gameHistory := gameHistory[|gameHistory| - GameHistoryCap..];
      }
      if |mistakeLog| > MistakeLogCap {
        mistakeLog := mistakeLog[|mistakeLog| - MistakeLogCap..];
      }
    }

    /** `handleGameComplete`; reports whether the event was logged. */
    method HandleGameComplete(e: CompletionEvent, now: int) returns (logged: bool)
      requires Valid()
      modifies this
      ensures Valid()
      ensures Snapshot() == HandleComplete(old(Snapshot()), e, now)
      ensures logged <==> HasGameId(e) && !IsDuplicate(old(Snapshot()), e.gameId.value, now) && EventScore(e).Some?
    {
      if e.gameId.None? || e.gameId.value == "" {
        return false;
      }
      if |gameHistory| > 0 {
        var lastGame := gameHistory[|gameHistory| - 1];
        if lastGame.gameId == e.gameId.value && -DuplicateWindow < lastGame.timestamp - now < DuplicateWindow {
          return false;
        }
      }
      var score := EventScore(e);
      if score.None? {
        return false;
      }
      LogGameCompletion(e.gameId.value, score.value, OrZero(e.correct), OrZero(e.total), OrZero(e.timeTaken),
        if e.mistakes.Some? then e.mistakes.value else [], now);
      logged := true;
    }

    /** `handleGameProgress`. */
    method HandleGameProgress(e: CompletionEvent)
      requires Valid()
      modifies this
      ensures Valid()
      ensures Snapshot() == HandleProgress(old(Snapshot()), e)
    {
      if e.gameId.None? || e.gameId.value == "" {
        return;
      }
      UpdateSubjectMasteryPartial(e.gameId.value, OrZero(e.correct), OrZero(e.total));
      if e.mistakes.Some? && |e.mistakes.value| > 0 {
        UpdateSpendingHabits(e.gameId.value, e.mistakes.value);
      }
    }

    /** `calculateFinancialIQ` on the current state. */
    function CalculateFinancialIQ(): (iq: Option<int>)
      reads this
      ensures iq == FinancialIQ(gameHistory, resilience)
    {
      FinancialIQ(gameHistory, resilience)
    }
  }
}
