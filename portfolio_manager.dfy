/** The multi-instrument portfolio engine: one shared cash pool, a share count
    per configured instrument (flat at 0, long above 0), buy and sell execution
    with a commission that is a fraction of the notional, daily mark-to-market
    snapshots and the performance summary with its running-peak drawdown.

    Everything the engine changes is gathered in the value `PortfolioState`; the
    effect of each operation on that value is a function (`Bought`, `Sold`,
    `Snapshotted`), and the class `PortfolioManager` holds the same state in
    fields and is proved to update them exactly as those functions say. */
module Portfolio {
  import opened Basics

  type Ticker = string

  /** PortfolioConfig: starting cash, commission as a fraction of the trade's
      notional, and the per-position cap and the cash reserve, both as
      fractions of the current portfolio value. */
  datatype Config = Config(initialCash: real, commission: real, maxPositionSize: real, minCashReserve: real)

  /** The dataclass defaults: 1,000,000 cash, 0.05% commission, 25% cap, 10% reserve. */
  const DefaultConfig := Config(1000000.0, 0.0005, 0.25, 0.1)

  /** One executed order, as appended to the trade log. */
  datatype Trade = Trade(date: Date, stock: Ticker, side: Side, price: real, quantity: int,
                         value: real, commission: real, cashAfter: real)

  /** One daily mark-to-market record, with a copy of the positions. */
  datatype Snapshot = Snapshot(date: Date, cash: real, stockValue: real, totalValue: real,
                               positions: map<Ticker, int>)

  /** Everything a PortfolioManager changes, as one value. */
  datatype PortfolioState = PortfolioState(cash: real, positions: map<Ticker, int>,
                                           tradeLog: seq<Trade>, dailyValues: seq<Snapshot>)

  /** Positions are kept for exactly the configured instruments, and each one
      is flat (0 shares) or long (a positive number of shares). */
  ghost predicate Consistent(stocks: seq<Ticker>, st: PortfolioState) {
    (forall s :: s in st.positions <==> s in stocks) &&
    (forall s :: s in st.positions ==> st.positions[s] >= 0)
  }

  /** `reset`: the initial cash, every configured instrument flat, empty logs. */
  function Initial(config: Config, stocks: seq<Ticker>): (st: PortfolioState)
    ensures Consistent(stocks, st)
    ensures st.cash == config.initialCash && st.tradeLog == [] && st.dailyValues == []
    ensures forall s :: s in st.positions ==> st.positions[s] == 0
  {
    PortfolioState(config.initialCash, map s | s in stocks :: 0, [], [])
  }

  /** `prices.get(stock, 0)`: an instrument without a price is worth nothing. */
  function PriceOf(prices: map<Ticker, real>, s: Ticker): real {
    if s in prices then prices[s] else 0.0
  }

  /** The sum, over the configured instruments in order, of shares times price. */
  function StockValue(stocks: seq<Ticker>, positions: map<Ticker, int>, prices: map<Ticker, real>): real
    requires forall s :: s in stocks ==> s in positions
  {
    if stocks == [] then 0.0
    else
      var last := stocks[|stocks| - 1];
      StockValue(stocks[..|stocks| - 1], positions, prices) + positions[last] as real * PriceOf(prices, last)
  }

  /** `get_portfolio_value`: cash plus the value of the holdings at `prices`. */
  function PortfolioValue(stocks: seq<Ticker>, st: PortfolioState, prices: map<Ticker, real>): real
    requires forall s :: s in stocks ==> s in st.positions
  {
    st.cash + StockValue(stocks, st.positions, prices)
  }

  /** Holdings of non-negative size at non-negative prices are worth a
      non-negative amount. */
  lemma {:induction false} StockValueNonnegative(stocks: seq<Ticker>, positions: map<Ticker, int>, prices: map<Ticker, real>)
    requires forall s :: s in stocks ==> s in positions
    requires forall s :: s in positions ==> positions[s] >= 0
    requires forall s :: s in prices ==> prices[s] >= 0.0
    ensures StockValue(stocks, positions, prices) >= 0.0
  {
    if stocks != [] {
      var last := stocks[|stocks| - 1];
      StockValueNonnegative(stocks[..|stocks| - 1], positions, prices);
      MulMonotone(0.0, positions[last] as real, PriceOf(prices, last));
    }
  }

  /** An instrument without a price contributes nothing, however many shares
      are held: changing its holding leaves the stock value as it was. */
  lemma {:induction false} StockValueIgnoresUnpriced(stocks: seq<Ticker>, positions: map<Ticker, int>,
                                                     prices: map<Ticker, real>, s: Ticker, qty: int)
    requires forall t :: t in stocks ==> t in positions
    requires s !in prices
    ensures StockValue(stocks, positions[s := qty], prices) == StockValue(stocks, positions, prices)
  {
    if stocks != [] {
      StockValueIgnoresUnpriced(stocks[..|stocks| - 1], positions, prices, s, qty);
    }
  }

  /** With every instrument flat there is nothing to value. */
  lemma {:induction false} StockValueOfFlat(stocks: seq<Ticker>, positions: map<Ticker, int>, prices: map<Ticker, real>)
    requires forall s :: s in stocks ==> s in positions
    requires forall s :: s in positions ==> positions[s] == 0
    ensures StockValue(stocks, positions, prices) == 0.0
  {
    if stocks != [] {
      StockValueOfFlat(stocks[..|stocks| - 1], positions, prices);
    }
  }

  /** `get_available_cash_for_stock`: the cash above the reserve, capped by the
      per-position limit, both measured against the current portfolio value. */
  function AvailableCash(config: Config, stocks: seq<Ticker>, st: PortfolioState, prices: map<Ticker, real>): real
    requires forall s :: s in stocks ==> s in st.positions
  {
    Allocation(config, st.cash, PortfolioValue(stocks, st, prices))
  }

  /** The allocation rule for a given cash balance and portfolio value. */
  function Allocation(config: Config, cash: real, pv: real): real {
    var maxAllocation := pv * config.maxPositionSize;
    var minCashNeeded := pv * config.minCashReserve;
    Min(Max(0.0, cash - minCashNeeded), maxAllocation)
  }

  /** The allocation rule's bounds: never above the per-position cap, never
      above the cash left over the reserve once anything is available, and
      never negative while the portfolio value and the cap are not. */
  lemma AllocationBounds(config: Config, cash: real, pv: real)
    ensures var a := Allocation(config, cash, pv);
      a <= pv * config.maxPositionSize &&
      a <= Max(0.0, cash - pv * config.minCashReserve) &&
      (a == pv * config.maxPositionSize || a == Max(0.0, cash - pv * config.minCashReserve)) &&
      (a > 0.0 ==> a <= cash - pv * config.minCashReserve) &&
      (pv >= 0.0 && config.maxPositionSize >= 0.0 ==> a >= 0.0)
  {
    if pv >= 0.0 && config.maxPositionSize >= 0.0 {
      MulMonotone(0.0, pv, config.maxPositionSize);
    }
  }

  /** `can_buy`: refused while long or when the available cash does not pay
      for one share; otherwise the largest whole number of shares it pays for. */
  function CanBuy(config: Config, stocks: seq<Ticker>, st: PortfolioState, stock: Ticker,
                  price: real, prices: map<Ticker, real>): (r: (bool, int))
    requires forall s :: s in stocks ==> s in st.positions
    requires stock in st.positions && price > 0.0
    ensures r.0 <==> st.positions[stock] <= 0 && AvailableCash(config, stocks, st, prices) >= price
    ensures r.0 ==> r.1 >= 1
    ensures !r.0 ==> r.1 == 0
  {
    if st.positions[stock] > 0 then (false, 0)
    else
      var a := AvailableCash(config, stocks, st, prices);
      if a < price then (false, 0)
      else
        var maxQty := FloorDiv(a, price);
        assert maxQty as real * price <= a < (maxQty + 1) as real * price;
        MaxQtyPositive(a, price, maxQty);
        (maxQty > 0, maxQty)
  }

  lemma MaxQtyPositive(a: real, price: real, q: int)
    requires price > 0.0 && a >= price && a < (q + 1) as real * price
    ensures q >= 1
  {
    if q < 1 {
      MulMonotone((q + 1) as real, 1.0, price);
    }
  }

  /** An accepted order buys as many whole shares as the available cash pays
      for, and no more. */
  lemma CanBuyQuantity(config: Config, stocks: seq<Ticker>, st: PortfolioState, stock: Ticker,
                       price: real, prices: map<Ticker, real>)
    requires forall s :: s in stocks ==> s in st.positions
    requires stock in st.positions && price > 0.0
    ensures var r := CanBuy(config, stocks, st, stock, price, prices);
      var a := AvailableCash(config, stocks, st, prices);
      r.0 ==> r.1 as real * price <= a < (r.1 + 1) as real * price
  {
    var a := AvailableCash(config, stocks, st, prices);
    if CanBuy(config, stocks, st, stock, price, prices).0 {
      assert CanBuy(config, stocks, st, stock, price, prices).1 == FloorDiv(a, price);
    }
  }

  /** `can_sell`: possible exactly when long, and then for the whole holding. */
  function CanSell(st: PortfolioState, stock: Ticker): (r: (bool, int))
    requires stock in st.positions
    ensures r.1 == st.positions[stock] && (r.0 <==> r.1 > 0)
  {
    var qty := st.positions[stock];
    (qty > 0, qty)
  }

  /** The commission on a notional: a fixed fraction of it. */
  function Fee(value: real, rate: real): real {
    value * rate
  }

  /** The effect of `execute_buy`: a refused order changes nothing; an executed
      one pays the notional plus the commission, adds the bought quantity to
      the position and logs one BUY record carrying the new cash. */
  function Bought(config: Config, stocks: seq<Ticker>, st: PortfolioState, stock: Ticker,
                  price: real, date: Date, prices: map<Ticker, real>): (r: PortfolioState)
    requires Consistent(stocks, st) && stock in stocks && price > 0.0
    ensures Consistent(stocks, r)
  {
    var order := CanBuy(config, stocks, st, stock, price, prices);
    if !order.0 then st
    else
      var tradeValue := Notional(price, order.1);
      var commission := Fee(tradeValue, config.commission);
      var totalCost := tradeValue + commission;
      var cash := st.cash - totalCost;
      PortfolioState(cash, st.positions[stock := st.positions[stock] + order.1],
                     st.tradeLog + [Trade(date, stock, Buy, price, order.1, tradeValue, commission, cash)],
                     st.dailyValues)
  }

  /** A refused buy changes nothing at all. An executed buy lowers the cash by
      exactly value * (1 + commission), takes the position from flat to the
      bought quantity, and appends exactly one BUY record whose cash is the new
      cash; the snapshots are untouched. */
  lemma BuyEffect(config: Config, stocks: seq<Ticker>, st: PortfolioState, stock: Ticker,
                  price: real, date: Date, prices: map<Ticker, real>)
    requires Consistent(stocks, st) && stock in stocks && price > 0.0
    ensures var r := Bought(config, stocks, st, stock, price, date, prices);
      var order := CanBuy(config, stocks, st, stock, price, prices);
      var value := Notional(price, order.1);
      if order.0 then
        st.positions[stock] == 0 && order.1 > 0 &&
        r.cash == st.cash - value * (1.0 + config.commission) &&
        r.positions == st.positions[stock := order.1] &&
        r.tradeLog == st.tradeLog + [Trade(date, stock, Buy, price, order.1, value, Fee(value, config.commission), r.cash)] &&
        r.dailyValues == st.dailyValues
      else
        r == st
  {
    var order := CanBuy(config, stocks, st, stock, price, prices);
    var r := Bought(config, stocks, st, stock, price, date, prices);
    if order.0 {
      var value := Notional(price, order.1);
      var fee := Fee(value, config.commission);
      var cash := st.cash - (value + fee);
      assert st.positions[stock] == 0;
      assert r == PortfolioState(cash, st.positions[stock := order.1],
                                 st.tradeLog + [Trade(date, stock, Buy, price, order.1, value, fee, cash)],
                                 st.dailyValues);
      assert cash == st.cash - value * (1.0 + config.commission) by {
        NetOfCommission(value, config.commission);
      }
    } else {
      assert r == st;
    }
  }

  /** Paying or receiving a notional together with its commission. */
  lemma NetOfCommission(value: real, rate: real)
    ensures value + Fee(value, rate) == value * (1.0 + rate)
    ensures value - Fee(value, rate) == value * (1.0 - rate)
  {
  }

  /** The effect of `execute_sell`: nothing while flat; while long the whole
      holding is sold, the notional less the commission is credited, the
      position returns to flat and one SELL record is logged. */
  function Sold(config: Config, stocks: seq<Ticker>, st: PortfolioState, stock: Ticker,
                price: real, date: Date): (r: PortfolioState)
    requires Consistent(stocks, st) && stock in stocks
    ensures Consistent(stocks, r)
  {
    var order := CanSell(st, stock);
    if !order.0 then st
    else
      var tradeValue := Notional(price, order.1);
      var commission := Fee(tradeValue, config.commission);
      var totalReceived := tradeValue - commission;
      var cash := st.cash + totalReceived;
      PortfolioState(cash, st.positions[stock := 0],
                     st.tradeLog + [Trade(date, stock, Sell, price, order.1, tradeValue, commission, cash)],
                     st.dailyValues)
  }

  /** A sell while flat changes nothing. While long it sells the whole holding:
      the cash rises by value * (1 - commission), the position becomes 0,
      exactly one SELL record is appended, and no other instrument's position
      and no snapshot changes. */
  lemma SellEffect(config: Config, stocks: seq<Ticker>, st: PortfolioState, stock: Ticker,
                   price: real, date: Date)
    requires Consistent(stocks, st) && stock in stocks
    ensures var r := Sold(config, stocks, st, stock, price, date);
      var qty := st.positions[stock];
      var value := Notional(price, qty);
      if qty > 0 then
        r.cash == st.cash + value * (1.0 - config.commission) &&
        r.positions[stock] == 0 &&
        (forall s :: s in st.positions && s != stock ==> r.positions[s] == st.positions[s]) &&
        r.positions.Keys == st.positions.Keys &&
        r.tradeLog == st.tradeLog + [Trade(date, stock, Sell, price, qty, value, Fee(value, config.commission), r.cash)] &&
        r.dailyValues == st.dailyValues
      else
        r == st
  {
    var qty := st.positions[stock];
    if qty > 0 {
      NetOfCommission(Notional(price, qty), config.commission);
    }
  }

  /** The reserve invariant: when the reserve covers the commission on a
      full-size position (max_position_size * commission <= min_cash_reserve),
      a buy from non-negative cash, at non-negative prices, never leaves the
      cash negative. */
  lemma BuyKeepsCashNonnegative(config: Config, stocks: seq<Ticker>, st: PortfolioState, stock: Ticker,
                                price: real, date: Date, prices: map<Ticker, real>)
    requires Consistent(stocks, st) && stock in stocks && price > 0.0
    requires st.cash >= 0.0 && forall s :: s in prices ==> prices[s] >= 0.0
    requires config.commission >= 0.0
    requires config.maxPositionSize * config.commission <= config.minCashReserve
    ensures Bought(config, stocks, st, stock, price, date, prices).cash >= 0.0
  {
    var order := CanBuy(config, stocks, st, stock, price, prices);
    if order.0 {
      BuyBudget(config, stocks, st, stock, price, prices);
      ReserveCoversCommission(st.cash, PortfolioValue(stocks, st, prices), AvailableCash(config, stocks, st, prices),
                              Notional(price, order.1), config.maxPositionSize,
                              config.minCashReserve, config.commission);
      BuyEffect(config, stocks, st, stock, price, date, prices);
    }
  }

  /** What an accepted order may spend: its notional is at most the available
      cash, which respects both the reserve and the position cap. */
  lemma BuyBudget(config: Config, stocks: seq<Ticker>, st: PortfolioState, stock: Ticker,
                  price: real, prices: map<Ticker, real>)
    requires Consistent(stocks, st) && stock in stocks && price > 0.0
    requires forall s :: s in prices ==> prices[s] >= 0.0
    requires CanBuy(config, stocks, st, stock, price, prices).0
    ensures var pv := PortfolioValue(stocks, st, prices);
      var a := AvailableCash(config, stocks, st, prices);
      var value := Notional(price, CanBuy(config, stocks, st, stock, price, prices).1);
      pv >= st.cash && 0.0 <= value <= a &&
      a <= st.cash - pv * config.minCashReserve && a <= pv * config.maxPositionSize
  {
    var order := CanBuy(config, stocks, st, stock, price, prices);
    var pv := PortfolioValue(stocks, st, prices);
    StockValueNonnegative(stocks, st.positions, prices);
    AllocationBounds(config, st.cash, pv);
    CanBuyQuantity(config, stocks, st, stock, price, prices);
    MulMonotone(0.0, order.1 as real, price);
  }

  /** A sell at a non-negative price with a commission of at most 100%
      never lowers the cash. */
  lemma SellKeepsCashNonnegative(config: Config, stocks: seq<Ticker>, st: PortfolioState, stock: Ticker,
                                 price: real, date: Date)
    requires Consistent(stocks, st) && stock in stocks && price >= 0.0
    requires st.cash >= 0.0 && config.commission <= 1.0
    ensures Sold(config, stocks, st, stock, price, date).cash >= st.cash
  {
    SellEffect(config, stocks, st, stock, price, date);
    var qty := st.positions[stock];
    if qty > 0 {
      var value := Notional(price, qty);
      MulMonotone(0.0, qty as real, price);
      MulMonotone(0.0, value, 1.0 - config.commission);
    }
  }

  lemma ReserveCoversCommission(cash: real, pv: real, a: real, value: real, m: real, r: real, c: real)
    requires pv >= cash >= 0.0 && c >= 0.0 && m * c <= r
    requires 0.0 <= value <= a && a <= cash - pv * r && a <= pv * m
    ensures cash - value * (1.0 + c) >= 0.0
  {
    var cap := pv * m;
    MulMonotone(value, a, c);
    MulMonotone(a, cap, c);
    assert cap * c == pv * (m * c);
    var mc := m * c;
    MulMonotone(mc, r, pv);
    assert value * (1.0 + c) == value + value * c;
  }

  /** Buying and then selling the same holding at the same price restores the
      position and costs exactly the two commissions. */
  lemma BuyThenSellCostsTwoCommissions(config: Config, stocks: seq<Ticker>, st: PortfolioState, stock: Ticker,
                                       price: real, buyDate: Date, sellDate: Date, prices: map<Ticker, real>)
    requires Consistent(stocks, st) && stock in stocks && price > 0.0
    requires CanBuy(config, stocks, st, stock, price, prices).0
    ensures var bought := Bought(config, stocks, st, stock, price, buyDate, prices);
      var sold := Sold(config, stocks, bought, stock, price, sellDate);
      var value := Notional(price, CanBuy(config, stocks, st, stock, price, prices).1);
      sold.positions == st.positions &&
      sold.cash == st.cash - 2.0 * Fee(value, config.commission) &&
      |sold.tradeLog| == |st.tradeLog| + 2 && sold.dailyValues == st.dailyValues
  {
    var order := CanBuy(config, stocks, st, stock, price, prices);
    BuyEffect(config, stocks, st, stock, price, buyDate, prices);
    var bought := Bought(config, stocks, st, stock, price, buyDate, prices);
    SellEffect(config, stocks, bought, stock, price, sellDate);
    var value := Notional(price, order.1);
    NetOfCommission(value, config.commission);
    assert st.positions[stock := order.1][stock := 0] == st.positions;
  }

  // ------------------------------------------------------- per-instrument cycle

  /** The records of one instrument, in log order. */
  function TradesOf(log: seq<Trade>, s: Ticker): (ts: seq<Trade>)
    ensures forall k :: 0 <= k < |ts| ==> ts[k].stock == s
  {
    if |log| == 0 then []
    else TradesOf(log[..|log| - 1], s) + (if log[|log| - 1].stock == s then [log[|log| - 1]] else [])
  }

  /** Appending a record extends its own instrument's records and no other's. */
  lemma TradesOfAppend(log: seq<Trade>, t: Trade, s: Ticker)
    ensures TradesOf(log + [t], s) == TradesOf(log, s) + (if t.stock == s then [t] else [])
  {
    assert (log + [t])[..|log|] == log;
  }

  /** BUY, SELL, BUY, ...: every BUY of a positive quantity, and every SELL of
      exactly the quantity the BUY before it bought. Stated record by record
      from the end, the way records are appended; `AlternatesByIndex` gives
      the same by position. */
  ghost predicate Alternates(ts: seq<Trade>)
    decreases |ts|
  {
    |ts| == 0 ||
    (Alternates(ts[..|ts| - 1]) &&
     if |ts| % 2 == 1 then ts[|ts| - 1].side == Buy && ts[|ts| - 1].quantity > 0
     else ts[|ts| - 1].side == Sell && ts[|ts| - 1].quantity == ts[|ts| - 2].quantity)
  }

  /** By position: the records at even positions are BUYs of a positive
      quantity, the ones at odd positions SELLs of the quantity just bought. */
  lemma {:induction false} AlternatesByIndex(ts: seq<Trade>)
    requires Alternates(ts)
    ensures forall k :: 0 <= k < |ts| ==> ts[k].side == (if k % 2 == 0 then Buy else Sell)
    ensures forall k :: 0 <= k < |ts| && k % 2 == 0 ==> ts[k].quantity > 0
    ensures forall k :: 1 <= k < |ts| && k % 2 == 1 ==> ts[k].quantity == ts[k - 1].quantity
  {
    if |ts| > 0 {
      var front := ts[..|ts| - 1];
      AlternatesByIndex(front);
      assert forall k :: 0 <= k < |front| ==> front[k] == ts[k];
    }
  }

  /** One instrument's records and position agree: the records alternate,
      and the position is the last BUY's quantity after an odd number of
      records, flat after an even number. */
  ghost predicate InCycle(ts: seq<Trade>, position: int) {
    Alternates(ts) && position == (if |ts| % 2 == 1 then ts[|ts| - 1].quantity else 0)
  }

  /** Each instrument is a two-state machine, flat or long, that its records
      walk through BUY, SELL, BUY, ... */
  ghost predicate Cycles(st: PortfolioState) {
    forall s {:trigger TradesOf(st.tradeLog, s)} :: s in st.positions ==> InCycle(TradesOf(st.tradeLog, s), st.positions[s])
  }

  /** A BUY from flat, or a SELL of the whole position, moves one step round
      the cycle. */
  lemma InCycleAppend(ts: seq<Trade>, t: Trade, before: int, after: int)
    requires InCycle(ts, before)
    requires t.side == Buy ==> before == 0 && t.quantity > 0 && after == t.quantity
    requires t.side == Sell ==> before > 0 && t.quantity == before && after == 0
    ensures InCycle(ts + [t], after)
  {
    AlternatesAppend(ts, t);
  }

  lemma AlternatesAppend(ts: seq<Trade>, t: Trade)
    requires Alternates(ts)
    requires t.side == (if |ts| % 2 == 0 then Buy else Sell)
    requires |ts| % 2 == 0 ==> t.quantity > 0
    requires |ts| % 2 == 1 ==> t.quantity == ts[|ts| - 1].quantity
    ensures Alternates(ts + [t])
  {
    assert (ts + [t])[..|ts|] == ts;
  }

  /** A reset portfolio is at the start of every instrument's cycle. */
  lemma InitialCycles(config: Config, stocks: seq<Ticker>)
    ensures Cycles(Initial(config, stocks))
  {
  }

  /** One appended record that opens a position from flat, or closes the
      whole of an open one, keeps every instrument's cycle. */
  lemma CyclesAfterTrade(st: PortfolioState, r: PortfolioState, t: Trade)
    requires Cycles(st) && t.stock in st.positions
    requires r.tradeLog == st.tradeLog + [t]
    requires r.positions.Keys == st.positions.Keys
    requires forall s :: s in st.positions && s != t.stock ==> r.positions[s] == st.positions[s]
    requires t.side == Buy ==> st.positions[t.stock] == 0 && t.quantity > 0 && r.positions[t.stock] == t.quantity
    requires t.side == Sell ==> st.positions[t.stock] > 0 && t.quantity == st.positions[t.stock] && r.positions[t.stock] == 0
    ensures Cycles(r)
  {
    forall s | s in r.positions
      ensures InCycle(TradesOf(r.tradeLog, s), r.positions[s])
    {
      assert InCycle(TradesOf(st.tradeLog, s), st.positions[s]);
      TickerAfterTrade(st.tradeLog, t, s, st.positions[s], r.positions[s]);
    }
  }

  /** The same, for one instrument: the traded one moves one step round its
      cycle, any other keeps its records and its position. */
  lemma TickerAfterTrade(log: seq<Trade>, t: Trade, s: Ticker, before: int, after: int)
    requires InCycle(TradesOf(log, s), before)
    requires s != t.stock ==> after == before
    requires s == t.stock && t.side == Buy ==> before == 0 && t.quantity > 0 && after == t.quantity
    requires s == t.stock && t.side == Sell ==> before > 0 && t.quantity == before && after == 0
    ensures InCycle(TradesOf(log + [t], s), after)
  {
    TradesOfAppend(log, t, s);
    if s == t.stock {
      InCycleAppend(TradesOf(log, s), t, before, after);
    } else {
      assert TradesOf(log + [t], s) == TradesOf(log, s);
    }
  }

  /** No pyramiding: a buy only ever opens a position from flat, so it keeps
      every instrument's cycle. */
  lemma BuyKeepsCycles(config: Config, stocks: seq<Ticker>, st: PortfolioState, stock: Ticker,
                       price: real, date: Date, prices: map<Ticker, real>)
    requires Consistent(stocks, st) && stock in stocks && price > 0.0 && Cycles(st)
    ensures Cycles(Bought(config, stocks, st, stock, price, date, prices))
  {
    BuyEffect(config, stocks, st, stock, price, date, prices);
    var r := Bought(config, stocks, st, stock, price, date, prices);
    if r != st {
      CyclesAfterTrade(st, r, r.tradeLog[|st.tradeLog|]);
    }
  }

  /** A sell closes the whole position, the quantity of the BUY that opened it. */
  lemma SellKeepsCycles(config: Config, stocks: seq<Ticker>, st: PortfolioState, stock: Ticker,
                        price: real, date: Date)
    requires Consistent(stocks, st) && stock in stocks && Cycles(st)
    ensures Cycles(Sold(config, stocks, st, stock, price, date))
  {
    SellEffect(config, stocks, st, stock, price, date);
    var r := Sold(config, stocks, st, stock, price, date);
    if r != st {
      CyclesAfterTrade(st, r, r.tradeLog[|st.tradeLog|]);
    }
  }

  /** The effect of `update_daily_value`: one snapshot appended, whose total is
      its cash plus the holdings marked at `prices`; nothing else changes. */
  function Snapshotted(stocks: seq<Ticker>, st: PortfolioState, date: Date, prices: map<Ticker, real>): (r: PortfolioState)
    requires forall s :: s in stocks ==> s in st.positions
    ensures r.cash == st.cash && r.positions == st.positions && r.tradeLog == st.tradeLog
    ensures |r.dailyValues| == |st.dailyValues| + 1 && r.dailyValues[..|st.dailyValues|] == st.dailyValues
    ensures var snap := r.dailyValues[|st.dailyValues|];
      snap.date == date && snap.cash == st.cash && snap.positions == st.positions &&
      snap.stockValue == StockValue(stocks, st.positions, prices) &&
      snap.totalValue == snap.cash + snap.stockValue
  {
    var portfolioValue := PortfolioValue(stocks, st, prices);
    st.(dailyValues := st.dailyValues + [Snapshot(date, st.cash, portfolioValue - st.cash, portfolioValue, st.positions)])
  }

  /** `current_positions`: how many instruments are long. */
  function LongCount(positions: map<Ticker, int>): (n: nat)
    ensures n == 0 <==> forall s :: s in positions ==> positions[s] <= 0
  {
    var long := set s | s in positions && positions[s] > 0;
    assert forall s :: s in positions && positions[s] > 0 ==> s in long;
    assert (forall s :: s in positions ==> positions[s] <= 0) ==> long == {};
    |long|
  }

  /** The `total_value` column of the snapshot log. */
  function TotalValues(snaps: seq<Snapshot>): (values: seq<real>)
    ensures |values| == |snaps| && forall i :: 0 <= i < |snaps| ==> values[i] == snaps[i].totalValue
  {
    seq(|snaps|, i requires 0 <= i < |snaps| => snaps[i].totalValue)
  }

  /** The running peak after the first `i + 1` values: the largest of them. */
  function Peak(values: seq<real>, i: nat): (p: real)
    requires i < |values|
    ensures p >= values[0] && p >= values[i]
  {
    if i == 0 then values[0] else Max(Peak(values, i - 1), values[i])
  }

  /** The running peak is the largest of the values so far: none of them is
      above it, and one of them is it. */
  lemma {:induction false} PeakIsRunningMax(values: seq<real>, i: nat)
    requires i < |values|
    ensures forall j :: 0 <= j <= i ==> values[j] <= Peak(values, i)
    ensures exists j :: 0 <= j <= i && Peak(values, i) == values[j]
  {
    if i == 0 {
      assert Peak(values, 0) == values[0];
    } else {
      PeakIsRunningMax(values, i - 1);
      var j :| 0 <= j <= i - 1 && Peak(values, i - 1) == values[j];
      var k := if Peak(values, i) == values[j] then j else i;
      assert 0 <= k <= i && Peak(values, i) == values[k];
    }
  }

  /** How far, in percent of the peak, a value lies below that peak. */
  function Decline(peak: real, value: real): real
    requires peak != 0.0
  {
    (peak - value) / peak * 100.0
  }

  /** The drawdown of value `i` from the running peak. */
  function DrawdownAt(values: seq<real>, i: nat): real
    requires i < |values| && Peak(values, i) != 0.0
  {
    Decline(Peak(values, i), values[i])
  }

  /** Some running peak among the first `n` values is zero. */
  ghost predicate ZeroPeak(values: seq<real>, n: nat)
    requires n <= |values|
  {
    exists i :: 0 <= i < n && Peak(values, i) == 0.0
  }

  /** The loop of `_calculate_max_drawdown` after its first `n` iterations:
      the largest drawdown so far, or the division by a zero peak. */
  function Scan(values: seq<real>, n: nat): (r: Result<real>)
    requires n <= |values|
    ensures r.Err? ==> r == Err(DivisionByZero)
    ensures r.Err? <==> ZeroPeak(values, n)
  {
    if n == 0 then Ok(0.0)
    else
      match Scan(values, n - 1)
      case Err(e) =>
        assert exists i :: 0 <= i < n && Peak(values, i) == 0.0 by {
          var i :| 0 <= i < n - 1 && Peak(values, i) == 0.0;
          assert 0 <= i < n && Peak(values, i) == 0.0;
        }
        Err(e)
      case Ok(m) =>
        if Peak(values, n - 1) == 0.0 then
          assert exists i :: 0 <= i < n && Peak(values, i) == 0.0 by {
            var i := n - 1;
            assert 0 <= i < n && Peak(values, i) == 0.0;
          }
          Err(DivisionByZero)
        else Ok(Max(m, DrawdownAt(values, n - 1)))
  }

  /** `_calculate_max_drawdown` over the snapshot totals: 0 with fewer than
      two values, otherwise the whole scan. */
  function MaxDrawdown(values: seq<real>): (r: Result<real>)
    ensures |values| < 2 ==> r == Ok(0.0)
    ensures r.Err? ==> r == Err(DivisionByZero)
    ensures |values| >= 2 ==> (r.Err? <==> ZeroPeak(values, |values|))
  {
    if |values| < 2 then Ok(0.0) else Scan(values, |values|)
  }

  /** A decline from a positive peak to a value between 0 and the peak lies
      between 0 and 100 percent. */
  lemma DeclineBounds(peak: real, value: real)
    requires peak > 0.0
    ensures value <= peak ==> Decline(peak, value) >= 0.0
    ensures 0.0 <= value ==> Decline(peak, value) <= 100.0
  {
    var d := (peak - value) / peak;
    assert d * peak == peak - value;
    if value <= peak && d < 0.0 {
      MulStrictMonotone(d, 0.0, peak);
    }
    if 0.0 <= value && d > 1.0 {
      MulStrictMonotone(1.0, d, peak);
    }
  }

  /** The scan only ever reports a drawdown of at least 0. */
  lemma {:induction false} ScanNonnegative(values: seq<real>, n: nat)
    requires n <= |values|
    ensures Scan(values, n).Ok? ==> Scan(values, n).value >= 0.0
  {
    if n > 0 {
      ScanNonnegative(values, n - 1);
    }
  }

  /** The maximum drawdown is never negative. */
  lemma MaxDrawdownNonnegative(values: seq<real>)
    ensures MaxDrawdown(values).Ok? ==> MaxDrawdown(values).value >= 0.0
  {
    if |values| >= 2 {
      ScanNonnegative(values, |values|);
    }
  }

  /** From a positive first value, the first `n` steps of the scan never divide
      by zero and yield the largest of the first `n` drawdowns. */
  lemma {:induction false} ScanIsLargestDrawdown(values: seq<real>, n: nat)
    requires 1 <= n <= |values| && values[0] > 0.0
    ensures Scan(values, n).Ok?
    ensures forall i :: 0 <= i < n ==> DrawdownAt(values, i) <= Scan(values, n).value
    ensures exists i :: 0 <= i < n && DrawdownAt(values, i) == Scan(values, n).value
  {
    if n == 1 {
      assert Scan(values, 0) == Ok(0.0);
      assert DrawdownAt(values, 0) == 0.0;
    } else {
      ScanIsLargestDrawdown(values, n - 1);
      var m := Scan(values, n - 1).value;
      var k :| 0 <= k < n - 1 && DrawdownAt(values, k) == m;
      assert Scan(values, n) == Ok(Max(m, DrawdownAt(values, n - 1)));
      if DrawdownAt(values, n - 1) <= m {
        assert DrawdownAt(values, k) == Scan(values, n).value;
      } else {
        assert DrawdownAt(values, n - 1) == Scan(values, n).value;
      }
    }
  }

  /** `_calculate_max_drawdown` is the largest drawdown from the running peak
      over all the values, provided the first value is positive. */
  lemma MaxDrawdownIsLargestDrawdown(values: seq<real>)
    requires |values| >= 1 && values[0] > 0.0
    ensures MaxDrawdown(values).Ok?
    ensures forall i :: 0 <= i < |values| ==> DrawdownAt(values, i) <= MaxDrawdown(values).value
    ensures exists i :: 0 <= i < |values| && DrawdownAt(values, i) == MaxDrawdown(values).value
  {
    if |values| == 1 {
      assert DrawdownAt(values, 0) == 0.0;
    } else {
      ScanIsLargestDrawdown(values, |values|);
    }
  }

  /** Over a non-decreasing sequence the running peak is the current value. */
  lemma {:induction false} PeakOfNondecreasing(values: seq<real>, i: nat)
    requires i < |values|
    requires forall j, k :: 0 <= j <= k < |values| ==> values[j] <= values[k]
    ensures Peak(values, i) == values[i]
  {
    if i > 0 {
      PeakOfNondecreasing(values, i - 1);
    }
  }

  /** A value sequence that never falls has no drawdown. */
  lemma MaxDrawdownOfNondecreasing(values: seq<real>)
    requires |values| >= 1 && values[0] > 0.0
    requires forall j, k :: 0 <= j <= k < |values| ==> values[j] <= values[k]
    ensures MaxDrawdown(values) == Ok(0.0)
  {
    MaxDrawdownIsLargestDrawdown(values);
    var i :| 0 <= i < |values| && DrawdownAt(values, i) == MaxDrawdown(values).value;
    PeakOfNondecreasing(values, i);
  }

  /** Values that never go below zero cannot draw down more than 100%. */
  lemma MaxDrawdownAtMostHundred(values: seq<real>)
    requires |values| >= 1 && values[0] > 0.0
    requires forall i :: 0 <= i < |values| ==> values[i] >= 0.0
    ensures MaxDrawdown(values).Ok? && 0.0 <= MaxDrawdown(values).value <= 100.0
  {
    MaxDrawdownIsLargestDrawdown(values);
    MaxDrawdownNonnegative(values);
    var i :| 0 <= i < |values| && DrawdownAt(values, i) == MaxDrawdown(values).value;
    DeclineBounds(Peak(values, i), values[i]);
  }

  /** The dictionary `get_summary` returns; `maxDrawdown` is None when the
      'max_drawdown' key is absent. */
  datatype Summary = Summary(initialValue: real, finalValue: real, totalReturnPct: real,
                             totalTrades: nat, currentCash: real, currentPositions: nat,
                             maxDrawdown: Option<real>)

  /** `get_summary`. Without snapshots it reports the initial cash as the final
      value, a zero return, zero trades and no drawdown; otherwise the last
      snapshot's total, the return against the initial cash, the number of
      logged trades and the drawdown. Dividing by a zero initial cash or by a
      zero peak raises. */
  function SummaryOf(config: Config, st: PortfolioState): (r: Result<Summary>)
    ensures st.dailyValues == [] ==>
      r == Ok(Summary(config.initialCash, config.initialCash, 0.0, 0, st.cash, LongCount(st.positions), None))
    ensures st.dailyValues != [] ==>
      (r.Ok? <==> config.initialCash != 0.0 && MaxDrawdown(TotalValues(st.dailyValues)).Ok?)
    ensures st.dailyValues != [] && r.Ok? ==>
      var s := r.value;
      s.initialValue == config.initialCash &&
      s.finalValue == st.dailyValues[|st.dailyValues| - 1].totalValue &&
      s.totalReturnPct == ReturnPct(config.initialCash, s.finalValue) &&
      s.totalTrades == |st.tradeLog| && s.currentCash == st.cash &&
      s.currentPositions == LongCount(st.positions) &&
      s.maxDrawdown == Some(MaxDrawdown(TotalValues(st.dailyValues)).value)
    ensures r.Err? ==> r.error == DivisionByZero
  {
    if st.dailyValues == [] then
      Ok(Summary(config.initialCash, config.initialCash, 0.0, 0, st.cash, LongCount(st.positions), None))
    else
      var initialValue := config.initialCash;
      var finalValue := st.dailyValues[|st.dailyValues| - 1].totalValue;
      if initialValue == 0.0 then Err(DivisionByZero)
      else
        var totalReturnPct := ReturnPct(initialValue, finalValue);
        match MaxDrawdown(TotalValues(st.dailyValues))
        case Err(e) => Err(e)
        case Ok(dd) =>
          Ok(Summary(initialValue, finalValue, totalReturnPct, |st.tradeLog|, st.cash,
                     LongCount(st.positions), Some(dd)))
  }

  /** A freshly reset portfolio reports its initial cash as both the initial
      and the final value, no return, no trades, no open position and no
      drawdown. */
  lemma SummaryAfterReset(config: Config, stocks: seq<Ticker>)
    ensures SummaryOf(config, Initial(config, stocks)) ==
      Ok(Summary(config.initialCash, config.initialCash, 0.0, 0, config.initialCash, 0, None))
  {
    var positions := Initial(config, stocks).positions;
    assert (set s | s in positions && positions[s] > 0) == {};
  }

  /** The portfolio object: configuration, instruments, and the state that
      `reset`, `execute_buy`, `execute_sell` and `update_daily_value` change. */
  class PortfolioManager {
    const config: Config
    const stocks: seq<Ticker>
    var cash: real
    var positions: map<Ticker, int>
    var tradeLog: seq<Trade>
    var dailyValues: seq<Snapshot>

    /** The fields as one value. */
    function State(): PortfolioState
      reads this
    {
      PortfolioState(cash, positions, tradeLog, dailyValues)
    }

    ghost predicate Valid()
      reads this
    {
      Consistent(stocks, State())
    }

    constructor (config: Config, stocks: seq<Ticker>)
      ensures this.config == config && this.stocks == stocks
      ensures Valid() && State() == Initial(config, stocks)
    {
      this.config := config;
      this.stocks := stocks;
      new;
      Reset();
    }

    method Reset()
      modifies this
      ensures Valid() && State() == Initial(config, stocks)
    {
      cash := config.initialCash;
      positions := map s | s in stocks :: 0;
      tradeLog := [];
      dailyValues := [];
    }

    method ExecuteBuy(stock: Ticker, price: real, date: Date, currentPrices: map<Ticker, real>)
      returns (executed: bool)
      requires Valid() && stock in stocks && price > 0.0
      modifies this
      ensures Valid()
      ensures executed == old(CanBuy(config, stocks, State(), stock, price, currentPrices)).0
      ensures State() == Bought(config, stocks, old(State()), stock, price, date, currentPrices)
    {
      var order := CanBuy(config, stocks, State(), stock, price, currentPrices);
      var canBuy, maxQty := order.0, order.1;
      if !canBuy {
        return false;
      }
      var tradeValue := Notional(price, maxQty);
      var commission := Fee(tradeValue, config.commission);
      var totalCost := tradeValue + commission;
      cash := cash - totalCost;
      positions := positions[stock := positions[stock] + maxQty];
      tradeLog := tradeLog + [Trade(date, stock, Buy, price, maxQty, tradeValue, commission, cash)];
      executed := true;
    }

    method ExecuteSell(stock: Ticker, price: real, date: Date) returns (executed: bool)
      requires Valid() && stock in stocks
      modifies this
      ensures Valid()
      ensures executed == old(CanSell(State(), stock)).0
      ensures State() == Sold(config, stocks, old(State()), stock, price, date)
    {
      var order := CanSell(State(), stock);
      var canSell, qty := order.0, order.1;
      if !canSell {
        return false;
      }
      var tradeValue := Notional(price, qty);
      var commission := Fee(tradeValue, config.commission);
      var totalReceived := tradeValue - commission;
      cash := cash + totalReceived;
      positions := positions[stock := 0];
      tradeLog := tradeLog + [Trade(date, stock, Sell, price, qty, tradeValue, commission, cash)];
      executed := true;
    }

    method UpdateDailyValue(date: Date, prices: map<Ticker, real>)
      requires Valid()
      modifies this
      ensures Valid()
      ensures State() == Snapshotted(stocks, old(State()), date, prices)
    {
      var portfolioValue := PortfolioValue(stocks, State(), prices);
      dailyValues := dailyValues + [Snapshot(date, cash, portfolioValue - cash, portfolioValue, positions)];
    }

    /** `_calculate_max_drawdown`, as the loop over the snapshot totals. */
    method CalculateMaxDrawdown() returns (r: Result<real>)
      ensures r == MaxDrawdown(TotalValues(dailyValues))
    {
      if |dailyValues| < 2 {
        return Ok(0.0);
      }
      var values := TotalValues(dailyValues);
      var peak := values[0];
      var maxDrawdown := 0.0;
      for i := 0 to |values|
        invariant peak == Peak(values, if i == 0 then 0 else i - 1)
        invariant Scan(values, i) == Ok(maxDrawdown)
      {
        var value := values[i];
        if value > peak {
          peak := value;
        }
        assert peak == Peak(values, i);
        if peak == 0.0 {
          assert ZeroPeak(values, |values|);
          return Err(DivisionByZero);
        }
        var drawdown := Decline(peak, value);
        assert Scan(values, i + 1) == Ok(Max(maxDrawdown, drawdown));
        maxDrawdown := Max(maxDrawdown, drawdown);
      }
      r := Ok(maxDrawdown);
    }

    /** `get_summary`, with the drawdown from the loop above. */
    method GetSummary() returns (r: Result<Summary>)
      ensures r == SummaryOf(config, State())
    {
      if |dailyValues| == 0 {
        return Ok(Summary(config.initialCash, config.initialCash, 0.0, 0, cash, LongCount(positions), None));
      }
      var initialValue := config.initialCash;
      var finalValue := dailyValues[|dailyValues| - 1].totalValue;
      if initialValue == 0.0 {
        return Err(DivisionByZero);
      }
      var totalReturnPct := ReturnPct(initialValue, finalValue);
      var maxDrawdown := CalculateMaxDrawdown();
      match maxDrawdown {
        case Err(e) => r := Err(e);
        case Ok(dd) =>
          r := Ok(Summary(initialValue, finalValue, totalReturnPct, |tradeLog|, cash, LongCount(positions), Some(dd)));
      }
    }
  }
}
