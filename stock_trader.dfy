/** Stock Trader: five stocks whose prices take a random step every tick of
    the market, a cash balance of $1,000 to trade them with, and a market
    that closes after thirty days. Random draws are parameters. */
module StockTrader {
  import opened JsMath
  import opened Records

  datatype Symbol = BANK | TECH | NRGY | HLTH | RTL
  datatype Sector = Banking | Technology | Energy | Healthcare | Retail

  /** A listed stock; `history` holds its most recent prices, newest last. */
  datatype Stock = Stock(symbol: Symbol, sector: Sector, volatility: real, price: real, trend: real, history: seq<real>)

  const StartCash := 1000.0
  const MaxDays := 30
  const HistoryCap := 50

  /** The stock configuration, each with its opening price as its history. */
  const StockConfig: seq<Stock> := [
    Stock(BANK, Sector.Banking, 0.02, 50.0, 0.001, [50.0]),
    Stock(TECH, Technology, 0.05, 120.0, 0.002, [120.0]),
    Stock(NRGY, Energy, 0.03, 75.0, 0.0, [75.0]),
    Stock(HLTH, Healthcare, 0.015, 90.0, 0.001, [90.0]),
    Stock(RTL, Retail, 0.025, 45.0, -0.001, [45.0])
  ]

  /** A news item: the sector it moves and by what fraction. */
  datatype News = News(sector: Sector, impact: real)

  const NewsItems: seq<News> := [
    News(Technology, 0.05), News(Sector.Banking, -0.04), News(Energy, 0.06), News(Retail, -0.05), News(Healthcare, 0.08)
  ]

  /** Cash, shares held per symbol, the listed stocks, the day, the stock
      picked for the trading form, and whether the market is still open. */
  datatype Market = Market(cash: real, portfolio: map<Symbol, int>, stocks: seq<Stock>, day: int,
                           selected: Option<Symbol>, active: bool)

  predicate DistinctSymbols(stocks: seq<Stock>)
  {
    forall i, j :: 0 <= i < j < |stocks| ==> stocks[i].symbol != stocks[j].symbol
  }

  predicate Listed(stocks: seq<Stock>, sym: Symbol)
  {
    exists k :: 0 <= k < |stocks| && stocks[k].symbol == sym
  }

  lemma ListedCons(stocks: seq<Stock>, sym: Symbol)
    requires stocks != []
    ensures Listed(stocks, sym) <==> stocks[0].symbol == sym || Listed(stocks[1..], sym)
  {
    if Listed(stocks[1..], sym) {
      var k :| 0 <= k < |stocks[1..]| && stocks[1..][k].symbol == sym;
      assert stocks[k + 1].symbol == sym;
    }
    if Listed(stocks, sym) {
      var k :| 0 <= k < |stocks| && stocks[k].symbol == sym;
      if k > 0 {
        assert stocks[1..][k - 1].symbol == sym;
      }
    }
  }

  lemma DistinctTail(stocks: seq<Stock>)
    requires stocks != [] && DistinctSymbols(stocks)
    ensures DistinctSymbols(stocks[1..])
    ensures !Listed(stocks[1..], stocks[0].symbol)
  {
    var rest := stocks[1..];
    forall i, j | 0 <= i < j < |rest|
      ensures rest[i].symbol != rest[j].symbol
    {
      assert rest[i] == stocks[i + 1] && rest[j] == stocks[j + 1];
    }
    forall k | 0 <= k < |rest|
      ensures rest[k].symbol != stocks[0].symbol
    {
      assert rest[k] == stocks[k + 1];
    }
  }

  /** A price at least $1, and a history of 1 to 50 prices ending with it. */
  predicate StockOk(s: Stock)
  {
    s.price >= 1.0 && 1 <= |s.history| <= HistoryCap && s.history[|s.history| - 1] == s.price
  }

  /** The ledger never goes negative, every symbol has an entry, the listed
      stocks are distinct and well-formed, and only a listed stock is picked. */
  predicate Ledger(m: Market)
  {
    && m.cash >= 0.0
    && (forall sym: Symbol :: sym in m.portfolio && m.portfolio[sym] >= 0)
    && DistinctSymbols(m.stocks)
    && (forall k :: 0 <= k < |m.stocks| ==> StockOk(m.stocks[k]))
    && (m.selected.Some? ==> Listed(m.stocks, m.selected.value))
  }

  /** The market is open on days 1 to 30 and closed on day 31. */
  predicate Clock(m: Market)
  {
    1 <= m.day <= MaxDays + 1 && (m.active <==> m.day <= MaxDays)
  }

  predicate Inv(m: Market)
  {
    Ledger(m) && Clock(m)
  }

  function Initial(): (m: Market)
    ensures Inv(m)
    ensures m.cash == StartCash && m.day == 1 && m.active && m.selected == None
    ensures forall sym: Symbol :: m.portfolio[sym] == 0
  {
    EmptyPortfolioComplete();
    Market(StartCash, EmptyPortfolio, StockConfig, 1, None, true)
  }

  /** No shares of any symbol. */
  const EmptyPortfolio: map<Symbol, int> := map[BANK := 0, TECH := 0, NRGY := 0, HLTH := 0, RTL := 0]

  lemma EmptyPortfolioComplete()
    ensures forall sym: Symbol :: sym in EmptyPortfolio && EmptyPortfolio[sym] == 0
  {
    forall sym: Symbol
      ensures sym in EmptyPortfolio && EmptyPortfolio[sym] == 0
    {
      match sym
      case BANK =>
      case TECH =>
      case NRGY =>
      case HLTH =>
      case RTL =>
    }
  }

  // ---------------------------------------------------------------------
  // Valuation
  // ---------------------------------------------------------------------

  /** `stocks.find`: the first stock with the symbol. */
  function FindStock(stocks: seq<Stock>, sym: Symbol): (r: Option<Stock>)
    ensures r.Some? <==> Listed(stocks, sym)
    ensures r.Some? ==> r.value in stocks && r.value.symbol == sym
  {
    if stocks == [] then None
    else if stocks[0].symbol == sym then Some(stocks[0])
    else
      ListedCons(stocks, sym);
      FindStock(stocks[1..], sym)
  }

  /** The shares held, valued at the current prices. */
  function Value(stocks: seq<Stock>, portfolio: map<Symbol, int>): real
    requires forall sym: Symbol :: sym in portfolio
  {
    if stocks == [] then 0.0
    else stocks[0].price * portfolio[stocks[0].symbol] as real + Value(stocks[1..], portfolio)
  }

  /** Cash plus the shares at the current prices. */
  function Equity(m: Market): real
    requires forall sym: Symbol :: sym in m.portfolio
  {
    m.cash + Value(m.stocks, m.portfolio)
  }

  lemma {:induction false} ValueIgnoresUnlisted(stocks: seq<Stock>, portfolio: map<Symbol, int>, sym: Symbol, c: int)
    requires forall s: Symbol :: s in portfolio
    requires !Listed(stocks, sym)
    ensures Value(stocks, portfolio[sym := c]) == Value(stocks, portfolio)
  {
    if stocks != [] {
      ListedCons(stocks, sym);
      ValueIgnoresUnlisted(stocks[1..], portfolio, sym, c);
    }
  }

  /** Changing the holding of a listed symbol changes the value by the
      change in shares times that stock's price. */
  lemma {:induction false} ValueChange(stocks: seq<Stock>, portfolio: map<Symbol, int>, sym: Symbol, c: int)
    requires forall s: Symbol :: s in portfolio
    requires DistinctSymbols(stocks) && Listed(stocks, sym)
    ensures Value(stocks, portfolio[sym := c])
         == Value(stocks, portfolio) + (c - portfolio[sym]) as real * FindStock(stocks, sym).value.price
  {
    DistinctTail(stocks);
    ListedCons(stocks, sym);
    if stocks[0].symbol == sym {
      ValueChangeHead(stocks, portfolio, c);
    } else {
      ValueChange(stocks[1..], portfolio, sym, c);
      ValueChangeTail(stocks, portfolio, sym, c);
    }
  }

  /** The step of `ValueChange` for the first listed stock. */
  lemma ValueChangeHead(stocks: seq<Stock>, portfolio: map<Symbol, int>, c: int)
    requires forall s: Symbol :: s in portfolio
    requires stocks != [] && !Listed(stocks[1..], stocks[0].symbol)
    ensures Value(stocks, portfolio[stocks[0].symbol := c])
         == Value(stocks, portfolio) + (c - portfolio[stocks[0].symbol]) as real * stocks[0].price
  {
    var sym := stocks[0].symbol;
    ValueIgnoresUnlisted(stocks[1..], portfolio, sym, c);
    ScaledDifference(stocks[0].price, portfolio[sym], c);
  }

  /** The step of `ValueChange` past a first stock of another symbol. */
  lemma ValueChangeTail(stocks: seq<Stock>, portfolio: map<Symbol, int>, sym: Symbol, c: int)
    requires forall s: Symbol :: s in portfolio
    requires stocks != [] && stocks[0].symbol != sym
    ensures Value(stocks, portfolio[sym := c]) - Value(stocks, portfolio)
         == Value(stocks[1..], portfolio[sym := c]) - Value(stocks[1..], portfolio)
    ensures FindStock(stocks, sym) == FindStock(stocks[1..], sym)
  {
    assert portfolio[sym := c][stocks[0].symbol] == portfolio[stocks[0].symbol];
  }

  lemma ScaledDifference(p: real, a: int, b: int)
    ensures p * b as real == p * a as real + (b - a) as real * p
  {
  }

  // ---------------------------------------------------------------------
  // Trading
  // ---------------------------------------------------------------------

  datatype TradeKind = Buy | Sell

  /** The notification a trade ends with. */
  datatype TradeResult = InvalidQuantity | Bought | Sold | InsufficientFunds | NotEnoughShares

  datatype TradeStep = TradeStep(next: Market, result: TradeResult)

  /** `selectStock`: pick a listed stock for the trading form. */
  function Select(m: Market, sym: Symbol): (r: Market)
    requires Inv(m) && Listed(m.stocks, sym)
    ensures Inv(r) && r.selected == Some(sym) && r == m.(selected := Some(sym))
  {
    m.(selected := Some(sym))
  }

  /** What a trade needs of the market: a ledger entry for every symbol and a listed stock picked. */
  predicate Tradable(m: Market)
  {
    (forall sym: Symbol :: sym in m.portfolio) && m.selected.Some? && Listed(m.stocks, m.selected.value)
  }

  /** `executeTrade` with the parsed quantity (`None` when it is not a
      number) on the stock picked in the trading form. */
  function Trade(m: Market, kind: TradeKind, qty: Option<int>): (r: TradeStep)
    requires Tradable(m)
    ensures Inv(m) ==> Inv(r.next)
  {
    if qty.None? || qty.value <= 0 then TradeStep(m, InvalidQuantity)
    else
      var q := qty.value;
      var stock := FindStock(m.stocks, m.selected.value).value;
      var totalCost := q as real * stock.price;
      assert Inv(m) ==> totalCost >= 0.0 by {
        if Inv(m) {
          ProductNonNegative(q as real, stock.price);
        }
      }
      match kind
      case Buy =>
        if m.cash >= totalCost then TradeStep(Exchange(m, stock.symbol, q), Bought)
        else TradeStep(m, InsufficientFunds)
      case Sell =>
        if m.portfolio[stock.symbol] >= q then TradeStep(Exchange(m, stock.symbol, -q), Sold)
        else TradeStep(m, NotEnoughShares)
  }

  /** `delta` shares of a listed stock change hands at its price: bought
      when positive, sold when negative. */
  function Exchange(m: Market, sym: Symbol, delta: int): (r: Market)
    requires (forall s: Symbol :: s in m.portfolio) && Listed(m.stocks, sym)
    ensures r.cash == m.cash - delta as real * FindStock(m.stocks, sym).value.price
    ensures r.portfolio == m.portfolio[sym := m.portfolio[sym] + delta]
    ensures r == m.(cash := r.cash, portfolio := r.portfolio)
  {
    var price := FindStock(m.stocks, sym).value.price;
    m.(cash := m.cash - delta as real * price, portfolio := m.portfolio[sym := m.portfolio[sym] + delta])
  }

  /** An exchange at the current price keeps the equity. */
  lemma ExchangeKeepsEquity(m: Market, sym: Symbol, delta: int)
    requires (forall s: Symbol :: s in m.portfolio) && DistinctSymbols(m.stocks) && Listed(m.stocks, sym)
    ensures Equity(Exchange(m, sym, delta)) == Equity(m)
  {
    ValueChange(m.stocks, m.portfolio, sym, m.portfolio[sym] + delta);
  }

  /** A trade happens exactly when the quantity is positive and the cash
      covers a buy or the holding covers a sale; any other outcome changes
      nothing. */
  lemma TradeOutcomes(m: Market, kind: TradeKind, qty: Option<int>)
    requires Tradable(m)
    ensures var r := Trade(m, kind, qty);
      var price := FindStock(m.stocks, m.selected.value).value.price;
      && (r.result == InvalidQuantity <==> qty.None? || qty.value <= 0)
      && (r.result == Bought <==> kind == Buy && qty.Some? && qty.value > 0 && m.cash >= qty.value as real * price)
      && (r.result == Sold <==> kind == Sell && qty.Some? && qty.value > 0 && m.portfolio[m.selected.value] >= qty.value)
      && (r.result != Bought && r.result != Sold ==> r.next == m)
  {
  }

  /** A trade that goes through moves `qty` shares of the picked stock and
      their price in cash, and nothing else. */
  lemma TradeEffects(m: Market, kind: TradeKind, qty: Option<int>)
    requires Tradable(m)
    ensures var r := Trade(m, kind, qty);
      var sym := m.selected.value;
      var price := FindStock(m.stocks, sym).value.price;
      && (r.result == Bought ==> r.next == Exchange(m, sym, qty.value))
      && (r.result == Sold ==> r.next == Exchange(m, sym, -qty.value))
      && (r.result == Bought ==> r.next.cash == m.cash - qty.value as real * price
                                 && r.next.portfolio[sym] == m.portfolio[sym] + qty.value)
      && (r.result == Sold ==> r.next.cash == m.cash + qty.value as real * price
                               && r.next.portfolio[sym] == m.portfolio[sym] - qty.value)
  {
  }

  /** A trade at the current price never changes the equity: cash and
      shares are exchanged at their value. */
  lemma TradeKeepsEquity(m: Market, kind: TradeKind, qty: Option<int>)
    requires Inv(m) && m.selected.Some?
    ensures Equity(Trade(m, kind, qty).next) == Equity(m)
  {
    var r := Trade(m, kind, qty);
    TradeOutcomes(m, kind, qty);
    TradeEffects(m, kind, qty);
    if r.result == Bought {
      ExchangeKeepsEquity(m, m.selected.value, qty.value);
    } else if r.result == Sold {
      ExchangeKeepsEquity(m, m.selected.value, -qty.value);
    }
  }

  lemma ScaleLe(a: real, b: real, c: real)
    requires a <= b && c >= 0.0
    ensures a * c <= b * c
  {
    ProductNonNegative(b - a, c);
  }

  lemma ScaleLt(a: real, b: real, c: real)
    requires a < b && c > 0.0
    ensures a * c < b * c
  {
  }

  /** `setMaxBuy`: the whole number of shares the cash buys at the price. */
  function MaxBuy(cash: real, price: real): (q: int)
    requires price > 0.0
    ensures q as real * price <= cash < (q + 1) as real * price
  {
    var x := cash / price;
    var q := x.Floor;
    assert x * price == cash;
    ScaleLe(q as real, x, price);
    ScaleLt(x, (q + 1) as real, price);
    q
  }

  /** The quantity `setMaxBuy` fills in is the largest buy that goes through. */
  lemma MaxBuyIsLargestBuy(m: Market)
    requires Tradable(m) && m.cash >= 0.0 && FindStock(m.stocks, m.selected.value).value.price > 0.0
    ensures var price := FindStock(m.stocks, m.selected.value).value.price;
      var q := MaxBuy(m.cash, price);
      && q >= 0
      && (q > 0 ==> Trade(m, Buy, Some(q)).result == Bought)
      && Trade(m, Buy, Some(q + 1)).result == InsufficientFunds
  {
    var price := FindStock(m.stocks, m.selected.value).value.price;
    var q := MaxBuy(m.cash, price);
    if q < 0 {
      ScaleLe((q + 1) as real, 0.0, price);
      assert false;
    }
  }

  /** The quantity `setMaxSell` fills in sells the whole holding. */
  lemma MaxSellSellsAll(m: Market)
    requires Tradable(m) && m.portfolio[m.selected.value] > 0
    ensures var r := Trade(m, Sell, Some(m.portfolio[m.selected.value]));
      r.result == Sold && r.next.portfolio[m.selected.value] == 0
  {
  }

  // ---------------------------------------------------------------------
  // The market
  // ---------------------------------------------------------------------

  /** The news item moves the price of every stock of its sector. */
  function ApplyNews(s: Stock, news: News): (r: Stock)
    ensures r.symbol == s.symbol && r.history == s.history
    ensures r.price == if s.sector == news.sector then s.price * (1.0 + news.impact) else s.price
  {
    if s.sector == news.sector then s.(price := s.price * (1.0 + news.impact)) else s
  }

  /** The oldest price is dropped once the history passes 50 prices. */
  function Capped(h: seq<real>): (r: seq<real>)
    requires h != []
    ensures |h| <= HistoryCap + 1 ==> |r| <= HistoryCap
    ensures r != [] && r[|r| - 1] == h[|h| - 1]
    ensures r == h || r == h[1..]
  {
    if |h| > HistoryCap then h[1..] else h
  }

  /** One random step of a stock: the price moves by a factor within its
      volatility around its trend, never below $1, and is recorded. */
  function Step(s: Stock, u: real): (r: Stock)
    requires 1 <= |s.history| <= HistoryCap
    ensures StockOk(r)
    ensures r.symbol == s.symbol && r.sector == s.sector
    ensures r.price == MaxReal(1.0, s.price * (1.0 + (u * s.volatility * 2.0 - s.volatility) + s.trend))
    ensures r.history == Capped(s.history + [r.price])
    ensures r == s.(price := r.price, history := r.history)
  {
    var price := MaxReal(1.0, s.price * (1.0 + (u * s.volatility * 2.0 - s.volatility) + s.trend));
    s.(price := price, history := Capped(s.history + [price]))
  }

  /** The news of a tick, if any: one tick in ten, a uniformly drawn item. */
  function TickNews(newsRoll: real, newsPick: real): (r: Option<News>)
    requires 0.0 <= newsPick < 1.0
    ensures newsRoll < 0.1 <==> r.Some?
    ensures r.Some? ==> r.value in NewsItems
  {
    if newsRoll < 0.1 then Some(NewsItems[RandomIndex(newsPick, |NewsItems|)]) else None
  }

  /** The news moves the prices of its sector and keeps every stock's symbol and history. */
  function NewsApplied(stocks: seq<Stock>, news: Option<News>): (r: seq<Stock>)
    ensures |r| == |stocks|
    ensures forall k :: 0 <= k < |stocks| ==> r[k].symbol == stocks[k].symbol && r[k].history == stocks[k].history
    ensures forall k :: 0 <= k < |stocks| ==> r[k] == stocks[k].(price := r[k].price)
    ensures forall k :: 0 <= k < |stocks| ==>
      r[k].price == if news.Some? && stocks[k].sector == news.value.sector
                    then stocks[k].price * (1.0 + news.value.impact) else stocks[k].price
  {
    if news.None? then stocks
    else seq(|stocks|, k requires 0 <= k < |stocks| => ApplyNews(stocks[k], news.value))
  }

  function Stepped(stocks: seq<Stock>, draws: seq<real>): (r: seq<Stock>)
    requires |draws| == |stocks|
    requires forall k :: 0 <= k < |stocks| ==> 1 <= |stocks[k].history| <= HistoryCap
    ensures |r| == |stocks|
    ensures forall k :: 0 <= k < |stocks| ==> r[k].symbol == stocks[k].symbol && StockOk(r[k])
    ensures forall k :: 0 <= k < |stocks| ==> r[k] == Step(stocks[k], draws[k])
  {
    seq(|stocks|, k requires 0 <= k < |stocks| => Step(stocks[k], draws[k]))
  }

  /** `updateMarket`: the news of the tick, a step of every stock, the next day. */
  function UpdateMarket(m: Market, newsRoll: real, newsPick: real, draws: seq<real>): (r: Market)
    requires Ledger(m) && 0.0 <= newsPick < 1.0 && |draws| == |m.stocks|
    ensures Ledger(r)
    ensures r.day == m.day + 1 && r.cash == m.cash && r.portfolio == m.portfolio && r.active == m.active
    ensures |r.stocks| == |m.stocks|
    ensures forall k :: 0 <= k < |m.stocks| ==>
      && r.stocks[k].symbol == m.stocks[k].symbol
      && r.stocks[k].price >= 1.0
      && r.stocks[k].history[|r.stocks[k].history| - 1] == r.stocks[k].price
    ensures r.stocks == Stepped(NewsApplied(m.stocks, TickNews(newsRoll, newsPick)), draws)
  {
    var moved := NewsApplied(m.stocks, TickNews(newsRoll, newsPick));
    var stepped := Stepped(moved, draws);
    SameSymbols(m.stocks, stepped, m.selected);
    m.(stocks := stepped, day := m.day + 1)
  }

  /** Stocks that keep their symbols, position by position, keep them
      distinct and keep every symbol listed. */
  lemma SameSymbols(a: seq<Stock>, b: seq<Stock>, selected: Option<Symbol>)
    requires |a| == |b| && forall k :: 0 <= k < |a| ==> a[k].symbol == b[k].symbol
    ensures DistinctSymbols(a) ==> DistinctSymbols(b)
    ensures selected.Some? && Listed(a, selected.value) ==> Listed(b, selected.value)
  {
    if selected.Some? && Listed(a, selected.value) {
      var k :| 0 <= k < |a| && a[k].symbol == selected.value;
      assert b[k].symbol == selected.value;
    }
  }

  /** The price of a stock after a market update: the news of the tick
      first, if it concerns the stock's sector, then the random step. */
  lemma UpdatedPrice(m: Market, newsRoll: real, newsPick: real, draws: seq<real>, k: nat)
    requires Ledger(m) && 0.0 <= newsPick < 1.0 && |draws| == |m.stocks| && k < |m.stocks|
    ensures var s := m.stocks[k];
      var news := TickNews(newsRoll, newsPick);
      var p := if news.Some? && s.sector == news.value.sector then s.price * (1.0 + news.value.impact) else s.price;
      UpdateMarket(m, newsRoll, newsPick, draws).stocks[k].price
        == MaxReal(1.0, p * (1.0 + (draws[k] * s.volatility * 2.0 - s.volatility) + s.trend))
  {
    var moved := NewsApplied(m.stocks, TickNews(newsRoll, newsPick));
    var r := UpdateMarket(m, newsRoll, newsPick, draws);
    assert r.stocks[k] == Step(moved[k], draws[k]);
    assert moved[k] == m.stocks[k].(price := moved[k].price);
  }

  /** `checkGameEnd`: the market closes once the day passes 30. */
  function CheckGameEnd(m: Market): (r: Market)
    ensures r.active == (m.active && m.day <= MaxDays)
    ensures r == m.(active := r.active)
  {
    if m.day > MaxDays then m.(active := false) else m
  }

  /** A tick of the interval: nothing once the market is closed. */
  function Tick(m: Market, newsRoll: real, newsPick: real, draws: seq<real>): (r: Market)
    requires Inv(m) && 0.0 <= newsPick < 1.0 && |draws| == |m.stocks|
    ensures Inv(r) && |r.stocks| == |m.stocks|
  {
    if m.active then CheckGameEnd(UpdateMarket(m, newsRoll, newsPick, draws)) else m
  }

  /** Every tick of an open market is one more day, the market stays open
      through day 30 and closes on the tick that reaches day 31; a closed
      market no longer moves. */
  lemma TickAdvancesDay(m: Market, newsRoll: real, newsPick: real, draws: seq<real>)
    requires Inv(m) && 0.0 <= newsPick < 1.0 && |draws| == |m.stocks|
    ensures var r := Tick(m, newsRoll, newsPick, draws);
      && (m.active ==> r.day == m.day + 1 && (r.active <==> m.day < MaxDays))
      && (!m.active ==> r == m)
  {
  }

  /** The random draws of one interval tick. */
  datatype TickDraw = TickDraw(newsRoll: real, newsPick: real, draws: seq<real>)

  /** Draws a tick can use on a market of `n` stocks. */
  predicate DrawsFit(ts: seq<TickDraw>, n: nat)
  {
    forall i :: 0 <= i < |ts| ==> 0.0 <= ts[i].newsPick < 1.0 && |ts[i].draws| == n
  }

  /** The market after the interval has fired once per element of `ts`. */
  function Ticks(m: Market, ts: seq<TickDraw>): (r: Market)
    requires Inv(m) && DrawsFit(ts, |m.stocks|)
    ensures Inv(r)
    decreases |ts|
  {
    if ts == [] then m
    else Ticks(Tick(m, ts[0].newsRoll, ts[0].newsPick, ts[0].draws), ts[1..])
  }

  /** The interval moves the market once per tick until it has moved it up
      to day 31, and the market is open exactly while that day is not reached. */
  lemma {:induction false} AtMostThirtyUpdates(m: Market, ts: seq<TickDraw>)
    requires Inv(m) && DrawsFit(ts, |m.stocks|)
    ensures Ticks(m, ts).day == Min(m.day + |ts|, MaxDays + 1)
    ensures Ticks(m, ts).active <==> m.day + |ts| <= MaxDays
    decreases |ts|
  {
    if ts != [] {
      var m1 := Tick(m, ts[0].newsRoll, ts[0].newsPick, ts[0].draws);
      TickAdvancesDay(m, ts[0].newsRoll, ts[0].newsPick, ts[0].draws);
      assert DrawsFit(ts[1..], |m1.stocks|) by {
        forall i | 0 <= i < |ts[1..]| ensures 0.0 <= ts[1..][i].newsPick < 1.0 && |ts[1..][i].draws| == |m1.stocks| {
          assert ts[1..][i] == ts[i + 1];
        }
      }
      AtMostThirtyUpdates(m1, ts[1..]);
    }
  }

  /** From the opening market, `n` ticks leave the day at min(n, 30) + 1:
      a game sees at most thirty price updates, and exactly thirty once it stops. */
  lemma ThirtyUpdatesFromStart(ts: seq<TickDraw>)
    requires DrawsFit(ts, |Initial().stocks|)
    ensures Ticks(Initial(), ts).day - 1 == Min(|ts|, MaxDays)
    ensures !Ticks(Initial(), ts).active <==> |ts| >= MaxDays
  {
    AtMostThirtyUpdates(Initial(), ts);
  }

  // ---------------------------------------------------------------------
  // The closing screen
  // ---------------------------------------------------------------------

  /** The profit as a percentage of the $1,000 start. */
  function ProfitPercent(m: Market): real
    requires forall sym: Symbol :: sym in m.portfolio
  {
    (Equity(m) - StartCash) / StartCash * 100.0
  }

  datatype Verdict = WallStreetWizard | GreatTrader | SafeAndSteady | CrashSurvivor

  function VerdictOf(percent: real): (v: Verdict)
    ensures v == WallStreetWizard <==> percent > 50.0
    ensures v == GreatTrader <==> 20.0 < percent <= 50.0
    ensures v == SafeAndSteady <==> 0.0 < percent <= 20.0
    ensures v == CrashSurvivor <==> percent <= 0.0
  {
    if percent > 50.0 then WallStreetWizard
    else if percent > 20.0 then GreatTrader
    else if percent > 0.0 then SafeAndSteady
    else CrashSurvivor
  }

  /** A game without a single trade ends on no profit, whatever the market did. */
  lemma NoTradeNoProfit(m: Market)
    requires Inv(m) && m.cash == StartCash && forall sym: Symbol :: m.portfolio[sym] == 0
    ensures ProfitPercent(m) == 0.0 && VerdictOf(ProfitPercent(m)) == CrashSurvivor
  {
    ZeroHoldingsNoValue(m.stocks, m.portfolio);
  }

  lemma {:induction false} ZeroHoldingsNoValue(stocks: seq<Stock>, portfolio: map<Symbol, int>)
    requires forall sym: Symbol :: sym in portfolio && portfolio[sym] == 0
    ensures Value(stocks, portfolio) == 0.0
  {
    if stocks != [] {
      ZeroHoldingsNoValue(stocks[1..], portfolio);
    }
  }

  // ---------------------------------------------------------------------
  // The game, updated in place
  // ---------------------------------------------------------------------

  class Trader {
    var cash: real
    var portfolio: map<Symbol, int>
    var stocks: seq<Stock>
    var day: int
    var selectedStock: Option<Symbol>
    var gameActive: bool

    function Snapshot(): Market
      reads this
    {
      Market(cash, portfolio, stocks, day, selectedStock, gameActive)
    }

    predicate Valid()
      reads this
    {
      Inv(Snapshot())
    }

    /** `loadStockTrader`: the opening state. */
    constructor ()
      ensures Valid() && Snapshot() == Initial()
    {
      cash := StartCash;
      portfolio := EmptyPortfolio;
      stocks := StockConfig;
      day := 1;
      selectedStock := None;
      gameActive := true;
      EmptyPortfolioComplete();
    }

    method SelectStock(sym: Symbol)
      requires Valid() && Listed(stocks, sym)
      modifies this
      ensures Valid() && Snapshot() == Select(old(Snapshot()), sym)
    {
      selectedStock := Some(sym);
    }

    /** `setMaxBuy`: the quantity filled into the form. */
    method SetMaxBuy() returns (q: int)
      requires Valid() && selectedStock.Some?
      ensures var price := FindStock(stocks, selectedStock.value).value.price;
        q as real * price <= cash < (q + 1) as real * price
    {
      var stock := FindStock(stocks, selectedStock.value).value;
      q := MaxBuy(cash, stock.price);
    }

    /** `setMaxSell`: the quantity filled into the form. */
    method SetMaxSell() returns (q: int)
      requires Valid() && selectedStock.Some?
      ensures q == portfolio[selectedStock.value] && q >= 0
    {
      q := portfolio[selectedStock.value];
    }

    method ExecuteTrade(kind: TradeKind, qty: Option<int>) returns (result: TradeResult)
      requires Valid() && selectedStock.Some?
      modifies this
      ensures Valid() && TradeStep(Snapshot(), result) == Trade(old(Snapshot()), kind, qty)
    {
      if qty.None? || qty.value <= 0 {
        return InvalidQuantity;
      }
      if kind == Buy {
        result := BuyShares(qty.value);
      } else {
        result := SellShares(qty.value);
      }
    }

    /** The buy branch of `executeTrade`, for a positive quantity. */
    method BuyShares(q: int) returns (result: TradeResult)
      requires Valid() && selectedStock.Some? && q > 0
      modifies this
      ensures Valid() && TradeStep(Snapshot(), result) == Trade(old(Snapshot()), Buy, Some(q))
    {
      ghost var m0 := Snapshot();
      var stock := FindStock(stocks, selectedStock.value).value;
      var totalCost := q as real * stock.price;
      if cash >= totalCost {
        cash := cash - totalCost;
        portfolio := portfolio[stock.symbol := portfolio[stock.symbol] + q];
        result := Bought;
        assert Snapshot() == Exchange(m0, stock.symbol, q);
      } else {
        result := InsufficientFunds;
      }
    }

    /** The sell branch of `executeTrade`, for a positive quantity. */
    method SellShares(q: int) returns (result: TradeResult)
      requires Valid() && selectedStock.Some? && q > 0
      modifies this
      ensures Valid() && TradeStep(Snapshot(), result) == Trade(old(Snapshot()), Sell, Some(q))
    {
      ghost var m0 := Snapshot();
      var stock := FindStock(stocks, selectedStock.value).value;
      var totalCost := q as real * stock.price;
      if portfolio[stock.symbol] >= q {
        cash := cash + totalCost;
        portfolio := portfolio[stock.symbol := portfolio[stock.symbol] - q];
        result := Sold;
        assert Snapshot() == Exchange(m0, stock.symbol, -q);
      } else {
        result := NotEnoughShares;
      }
    }

    /** `updateMarket`, stock by stock. */
    method MoveMarket(newsRoll: real, newsPick: real, draws: seq<real>)
      requires Ledger(Snapshot()) && 0.0 <= newsPick < 1.0 && |draws| == |stocks|
      modifies this
      ensures Snapshot() == UpdateMarket(old(Snapshot()), newsRoll, newsPick, draws)
    {
      ghost var m0 := Snapshot();
      if newsRoll < 0.1 {
        ApplyNewsInPlace(NewsItems[RandomIndex(newsPick, |NewsItems|)]);
      }
      assert stocks == NewsApplied(m0.stocks, TickNews(newsRoll, newsPick));
      StepAll(draws);
      day := day + 1;
    }

    /** The news loop of `updateMarket`. */
    method ApplyNewsInPlace(news: News)
      modifies this
      ensures stocks == NewsApplied(old(stocks), Some(news))
      ensures cash == old(cash) && portfolio == old(portfolio) && day == old(day)
      ensures selectedStock == old(selectedStock) && gameActive == old(gameActive)
    {
      ghost var before := stocks;
      var k := 0;
      while k < |stocks|
        invariant 0 <= k <= |stocks| == |before|
        invariant forall j :: 0 <= j < k ==> stocks[j] == ApplyNews(before[j], news)
        invariant forall j :: k <= j < |stocks| ==> stocks[j] == before[j]
        invariant cash == old(cash) && portfolio == old(portfolio) && day == old(day)
        invariant selectedStock == old(selectedStock) && gameActive == old(gameActive)
      {
        if stocks[k].sector == news.sector {
          stocks := stocks[k := stocks[k].(price := stocks[k].price * (1.0 + news.impact))];
        }
        k := k + 1;
      }
    }

    /** The price loop of `updateMarket`. */
    method StepAll(draws: seq<real>)
      requires |draws| == |stocks|
      requires forall k :: 0 <= k < |stocks| ==> 1 <= |stocks[k].history| <= HistoryCap
      modifies this
      ensures stocks == Stepped(old(stocks), draws)
      ensures cash == old(cash) && portfolio == old(portfolio) && day == old(day)
      ensures selectedStock == old(selectedStock) && gameActive == old(gameActive)
    {
      ghost var before := stocks;
      var k := 0;
      while k < |stocks|
        invariant 0 <= k <= |stocks| == |before|
        invariant forall j :: 0 <= j < |before| ==> 1 <= |before[j].history| <= HistoryCap
        invariant forall j :: 0 <= j < k ==> stocks[j] == Step(before[j], draws[j])
        invariant forall j :: k <= j < |stocks| ==> stocks[j] == before[j]
        invariant cash == old(cash) && portfolio == old(portfolio) && day == old(day)
        invariant selectedStock == old(selectedStock) && gameActive == old(gameActive)
      {
        StepStock(k, draws[k]);
        k := k + 1;
      }
      ghost var stepped := Stepped(before, draws);
      assert forall j :: 0 <= j < |stocks| ==> stocks[j] == stepped[j];
    }

    /** One pass of the loop over the stocks: the stock at `k` takes its random step. */
    method StepStock(k: nat, u: real)
      requires k < |stocks| && 1 <= |stocks[k].history| <= HistoryCap
      modifies this
      ensures stocks == old(stocks)[k := Step(old(stocks)[k], u)]
      ensures cash == old(cash) && portfolio == old(portfolio) && day == old(day)
      ensures selectedStock == old(selectedStock) && gameActive == old(gameActive)
    {
      var s := stocks[k];
      var price := MaxReal(1.0, s.price * (1.0 + (u * s.volatility * 2.0 - s.volatility) + s.trend));
      var history := s.history + [price];
      if |history| > HistoryCap {
        history := history[1..];
      }
      ghost var stepped := Step(s, u);
      assert stepped.price == price;
      assert stepped.history == history;
      stocks := stocks[k := s.(price := price, history := history)];
    }

    method CheckEnd()
      modifies this
      ensures Snapshot() == CheckGameEnd(old(Snapshot()))
    {
      if day > MaxDays {
        gameActive := false;
      }
    }

    /** The two-second interval: move the market and check for its close. */
    method IntervalTick(newsRoll: real, newsPick: real, draws: seq<real>)
      requires Valid() && 0.0 <= newsPick < 1.0 && |draws| == |stocks|
      modifies this
      ensures Valid() && Snapshot() == Tick(old(Snapshot()), newsRoll, newsPick, draws)
    {
      if gameActive {
        MoveMarket(newsRoll, newsPick, draws);
        CheckEnd();
      }
    }
  }
}
