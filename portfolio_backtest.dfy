/** The multi-instrument driver `run_portfolio_backtest`: one shared
    portfolio walks the union of all instruments' dates in ascending order; on
    each date it prices the instruments that have a row that day, offers each
    of them, in the data's order, a buy (when its buy flag is set) or else a
    sell (when its sell flag is set), and then takes one snapshot.

    `Simulate` folds the day function `Day` over the dates; the method
    `RunPortfolioBacktest` drives a `PortfolioManager` through the same nested
    loops as the source and is proved to leave it in the state `Simulate`
    describes. */
module PortfolioBacktest {
  import opened Basics
  import opened Portfolio

  /** One row of an instrument's signal frame: the date, the close and the
      strategy's two flags. */
  datatype Bar = Bar(date: Date, close: real, buy: bool, sell: bool)

  /** One instrument and its rows, in the order the data dictionary holds them. */
  datatype Feed = Feed(ticker: Ticker, bars: seq<Bar>)

  /** An instrument priced on the current date, with its row for that date. */
  datatype Quote = Quote(ticker: Ticker, bar: Bar)

  /** The dictionary's keys, in insertion order: the portfolio's stock list. */
  function Tickers(data: seq<Feed>): (ts: seq<Ticker>)
    ensures |ts| == |data| && forall i :: 0 <= i < |data| ==> ts[i] == data[i].ticker
  {
    seq(|data|, i requires 0 <= i < |data| => data[i].ticker)
  }

  /** An instrument's frame: one row per date, every close positive. */
  predicate FeedOk(feed: Feed) {
    (forall j, k :: 0 <= j < k < |feed.bars| ==> feed.bars[j].date != feed.bars[k].date) &&
    (forall j :: 0 <= j < |feed.bars| ==> feed.bars[j].close > 0.0)
  }

  /** The data dictionary: distinct keys, and well-formed frames. */
  predicate WellFormed(data: seq<Feed>) {
    (forall i, j :: 0 <= i < j < |data| ==> data[i].ticker != data[j].ticker) &&
    (forall i :: 0 <= i < |data| ==> FeedOk(data[i]))
  }

  // ------------------------------------------------------------------ dates

  predicate Increasing(dates: seq<Date>) {
    forall i, j :: 0 <= i < j < |dates| ==> dates[i] < dates[j]
  }

  /** `date in df.index`. */
  ghost predicate HasDate(bars: seq<Bar>, date: Date) {
    exists k :: 0 <= k < |bars| && bars[k].date == date
  }

  /** Some instrument has a row on `date`. */
  ghost predicate Traded(data: seq<Feed>, date: Date) {
    exists i :: 0 <= i < |data| && HasDate(data[i].bars, date)
  }

  /** `date` placed into an increasing sequence of dates, unless already there. */
  function Insert(dates: seq<Date>, date: Date): (r: seq<Date>)
    requires Increasing(dates)
    ensures Increasing(r)
    ensures forall d :: d in r <==> d in dates || d == date
    ensures |r| <= |dates| + 1
  {
    if |dates| == 0 then [date]
    else if date < dates[0] then [date] + dates
    else if date == dates[0] then dates
    else
      var rest := Insert(dates[1..], date);
      assert forall k :: 0 <= k < |rest| ==> dates[0] < rest[k] by {
        forall k | 0 <= k < |rest| ensures dates[0] < rest[k] {
          assert rest[k] in rest;
        }
      }
      [dates[0]] + rest
  }

  /** The dates of some rows, merged into an increasing sequence. */
  function InsertAll(dates: seq<Date>, bars: seq<Bar>): (r: seq<Date>)
    requires Increasing(dates)
    ensures Increasing(r)
    ensures forall d :: d in r <==> d in dates || HasDate(bars, d)
    decreases |bars|
  {
    if |bars| == 0 then dates
    else
      var n := |bars|;
      var r := InsertAll(Insert(dates, bars[n - 1].date), bars[..n - 1]);
      assert forall d :: HasDate(bars, d) <==> (d == bars[n - 1].date || HasDate(bars[..n - 1], d)) by {
        forall d | HasDate(bars, d) && d != bars[n - 1].date
          ensures HasDate(bars[..n - 1], d)
        {
          var k :| 0 <= k < n && bars[k].date == d;
          assert bars[..n - 1][k] == bars[k];
        }
        forall d | HasDate(bars[..n - 1], d)
          ensures HasDate(bars, d)
        {
          var k :| 0 <= k < n - 1 && bars[..n - 1][k].date == d;
          assert bars[k] == bars[..n - 1][k];
        }
      }
      r
  }

  /** `sorted(set().union(*[df.index ...]))`: every date of every instrument,
      once each, in ascending order. */
  function DateUnion(data: seq<Feed>): (dates: seq<Date>)
    ensures Increasing(dates)
    ensures forall d :: d in dates <==> Traded(data, d)
  {
    if |data| == 0 then []
    else
      var n := |data|;
      var r := InsertAll(DateUnion(data[..n - 1]), data[n - 1].bars);
      assert forall d :: Traded(data, d) <==> (Traded(data[..n - 1], d) || HasDate(data[n - 1].bars, d)) by {
        forall d | Traded(data, d)
          ensures Traded(data[..n - 1], d) || HasDate(data[n - 1].bars, d)
        {
          var i :| 0 <= i < |data| && HasDate(data[i].bars, d);
          if i < n - 1 {
            assert data[..n - 1][i] == data[i];
          }
        }
        forall d | Traded(data[..n - 1], d)
          ensures Traded(data, d)
        {
          var i :| 0 <= i < n - 1 && HasDate(data[..n - 1][i].bars, d);
          assert data[..n - 1][i] == data[i];
        }
      }
      r
  }

  // ------------------------------------------------------------- one date

  /** `df.loc[date]` when `date in df.index`. */
  function BarOn(bars: seq<Bar>, date: Date): (r: Option<Bar>)
    ensures r.None? <==> forall k :: 0 <= k < |bars| ==> bars[k].date != date
    ensures r.Some? ==> r.value.date == date && r.value in bars
  {
    if |bars| == 0 then None
    else if bars[|bars| - 1].date == date then Some(bars[|bars| - 1])
    else BarOn(bars[..|bars| - 1], date)
  }

  /** The instruments priced on `date`, in the data's order, with their rows:
      the entries of `current_prices`, in insertion order. */
  function Quotes(data: seq<Feed>, date: Date): (qs: seq<Quote>)
    ensures |qs| <= |data|
  {
    if |data| == 0 then []
    else
      var n := |data|;
      match BarOn(data[n - 1].bars, date)
      case None => Quotes(data[..n - 1], date)
      case Some(b) => Quotes(data[..n - 1], date) + [Quote(data[n - 1].ticker, b)]
  }

  /** The positions, in the data, of the instruments with a row on `date`:
      increasing, and covering every such instrument. */
  function PricedFeeds(data: seq<Feed>, date: Date): (idx: seq<nat>)
    ensures forall k :: 0 <= k < |idx| ==> idx[k] < |data| && BarOn(data[idx[k]].bars, date).Some?
    ensures forall k, l :: 0 <= k < l < |idx| ==> idx[k] < idx[l]
    ensures forall i :: 0 <= i < |data| && BarOn(data[i].bars, date).Some? ==> i in idx
  {
    if |data| == 0 then []
    else
      var n := |data|;
      var front := data[..n - 1];
      var earlier := PricedFeeds(front, date);
      assert forall i :: 0 <= i < n - 1 ==> front[i] == data[i];
      earlier + (if BarOn(data[n - 1].bars, date).Some? then [n - 1] else [])
  }

  /** The quotes of a date are, in the data's order, exactly the instruments
      with a row that day, each with that row: `current_prices` is filled, and
      then walked, in the dictionary's insertion order. */
  lemma {:induction false} QuotesFollowData(data: seq<Feed>, date: Date)
    ensures var qs := Quotes(data, date);
      var idx := PricedFeeds(data, date);
      |qs| == |idx| &&
      forall k :: 0 <= k < |qs| ==> qs[k] == Quote(data[idx[k]].ticker, BarOn(data[idx[k]].bars, date).value)
  {
    if |data| > 0 {
      var n := |data|;
      var front := data[..n - 1];
      QuotesFollowData(front, date);
      var earlier, prev := Quotes(front, date), PricedFeeds(front, date);
      var qs, idx := Quotes(data, date), PricedFeeds(data, date);
      assert idx == prev + (if BarOn(data[n - 1].bars, date).Some? then [n - 1] else []);
      forall k | 0 <= k < |qs|
        ensures qs[k] == Quote(data[idx[k]].ticker, BarOn(data[idx[k]].bars, date).value)
      {
        if k < |prev| {
          assert qs[k] == earlier[k] && idx[k] == prev[k];
          assert front[prev[k]] == data[prev[k]];
        }
      }
    }
  }

  /** Each quote of a date is the row of that date of one of the instruments. */
  lemma {:induction false} QuoteIsRow(data: seq<Feed>, date: Date, q: Quote)
    requires q in Quotes(data, date)
    ensures q.bar.date == date
    ensures exists i :: 0 <= i < |data| && data[i].ticker == q.ticker && q.bar in data[i].bars
  {
    var n := |data|;
    var earlier := Quotes(data[..n - 1], date);
    if q in earlier {
      QuoteIsRow(data[..n - 1], date, q);
      var i :| 0 <= i < n - 1 && data[..n - 1][i].ticker == q.ticker && q.bar in data[..n - 1][i].bars;
      assert data[..n - 1][i] == data[i];
    } else {
      assert data[n - 1].ticker == q.ticker;
    }
  }

  /** `current_prices`: each priced instrument's close. */
  function PricesOf(qs: seq<Quote>): (prices: map<Ticker, real>)
  {
    if |qs| == 0 then map[]
    else PricesOf(qs[..|qs| - 1])[qs[|qs| - 1].ticker := qs[|qs| - 1].bar.close]
  }

  /** An instrument has a price exactly when it has a quote. */
  lemma {:induction false} PricesOfKeys(qs: seq<Quote>)
    ensures forall s :: s in PricesOf(qs) <==> exists q :: q in qs && q.ticker == s
  {
    if |qs| > 0 {
      var earlier := qs[..|qs| - 1];
      PricesOfKeys(earlier);
      assert forall q :: q in qs <==> q in earlier || q == qs[|qs| - 1];
    }
  }

  /** With one quote per instrument, each quoted instrument is priced at the
      close of its quote. */
  lemma {:induction false} PricesOfValues(qs: seq<Quote>)
    requires DistinctTickers(qs)
    ensures forall k :: 0 <= k < |qs| ==> qs[k].ticker in PricesOf(qs) && PricesOf(qs)[qs[k].ticker] == qs[k].bar.close
  {
    if |qs| > 0 {
      var n := |qs|;
      var earlier := qs[..n - 1];
      assert DistinctTickers(earlier) by {
        forall i, j | 0 <= i < j < |earlier| ensures earlier[i].ticker != earlier[j].ticker {
          assert earlier[i] == qs[i] && earlier[j] == qs[j];
        }
      }
      PricesOfValues(earlier);
      forall k | 0 <= k < n ensures qs[k].ticker in PricesOf(qs) && PricesOf(qs)[qs[k].ticker] == qs[k].bar.close {
        if k < n - 1 {
          assert earlier[k] == qs[k];
        }
      }
    }
  }

  /** Every priced instrument is configured and has a positive close. */
  ghost predicate Tradable(stocks: seq<Ticker>, qs: seq<Quote>) {
    forall q :: q in qs ==> q.ticker in stocks && q.bar.close > 0.0
  }

  /** One instrument on one date: a buy when the buy flag is set, otherwise a
      sell when the sell flag is set. */
  function Act(config: Config, stocks: seq<Ticker>, st: PortfolioState, q: Quote, date: Date,
               prices: map<Ticker, real>): (r: PortfolioState)
    requires Consistent(stocks, st) && q.ticker in stocks && q.bar.close > 0.0
    ensures Consistent(stocks, r)
  {
    if q.bar.buy then Bought(config, stocks, st, q.ticker, q.bar.close, date, prices)
    else if q.bar.sell then Sold(config, stocks, st, q.ticker, q.bar.close, date)
    else st
  }

  /** The instruments of one date, in order, all sized against the same prices. */
  function Trades(config: Config, stocks: seq<Ticker>, st: PortfolioState, qs: seq<Quote>, date: Date,
                  prices: map<Ticker, real>): (r: PortfolioState)
    requires Consistent(stocks, st) && Tradable(stocks, qs)
    ensures Consistent(stocks, r)
  {
    if |qs| == 0 then st
    else
      var n := |qs|;
      assert Tradable(stocks, qs[..n - 1]) by {
        forall q | q in qs[..n - 1] ensures q in qs { }
      }
      Act(config, stocks, Trades(config, stocks, st, qs[..n - 1], date, prices), qs[n - 1], date, prices)
  }

  /** With both flags set only the buy is attempted, so a long instrument
      with both flags set stays long and nothing changes. */
  lemma BuyFlagShadowsSell(config: Config, stocks: seq<Ticker>, st: PortfolioState, q: Quote, date: Date,
                           prices: map<Ticker, real>)
    requires Consistent(stocks, st) && q.ticker in stocks && q.bar.close > 0.0
    requires q.bar.buy && q.bar.sell && st.positions[q.ticker] > 0
    ensures Act(config, stocks, st, q, date, prices) == st
  {
    BuyEffect(config, stocks, st, q.ticker, q.bar.close, date, prices);
  }

  /** The trades of one more instrument are one more `Act`. */
  lemma TradesNext(config: Config, stocks: seq<Ticker>, st: PortfolioState, qs: seq<Quote>, j: nat,
                   date: Date, prices: map<Ticker, real>, before: PortfolioState, after: PortfolioState)
    requires Consistent(stocks, st) && Tradable(stocks, qs) && j < |qs|
    requires Tradable(stocks, qs[..j]) && Trades(config, stocks, st, qs[..j], date, prices) == before
    requires Consistent(stocks, before) && qs[j].ticker in stocks && qs[j].bar.close > 0.0
    requires Act(config, stocks, before, qs[j], date, prices) == after
    ensures Tradable(stocks, qs[..j + 1])
    ensures Trades(config, stocks, st, qs[..j + 1], date, prices) == after
  {
    assert qs[..j + 1][..j] == qs[..j];
    assert forall q :: q in qs[..j + 1] ==> q in qs;
  }

  /** One date: the trades, then a snapshot when anything was priced. */
  function Day(config: Config, data: seq<Feed>, st: PortfolioState, date: Date): (r: PortfolioState)
    requires WellFormed(data) && Consistent(Tickers(data), st)
    ensures Consistent(Tickers(data), r)
  {
    var stocks := Tickers(data);
    var qs := Quotes(data, date);
    QuotesTradable(data, date);
    var prices := PricesOf(qs);
    var traded := Trades(config, stocks, st, qs, date, prices);
    if prices != map[] then Snapshotted(stocks, traded, date, prices) else traded
  }

  /** The rows of a well-formed data set have positive closes. */
  lemma QuotesTradable(data: seq<Feed>, date: Date)
    requires WellFormed(data)
    ensures Tradable(Tickers(data), Quotes(data, date))
  {
    forall q | q in Quotes(data, date)
      ensures q.ticker in Tickers(data) && q.bar.close > 0.0
    {
      QuoteIsRow(data, date, q);
      var i :| 0 <= i < |data| && data[i].ticker == q.ticker && q.bar in data[i].bars;
      assert FeedOk(data[i]);
      assert Tickers(data)[i] == q.ticker;
    }
  }

  /** The first `n` dates, from a fresh portfolio. */
  function Simulate(config: Config, data: seq<Feed>, dates: seq<Date>, n: nat): (r: PortfolioState)
    requires WellFormed(data) && n <= |dates|
    ensures Consistent(Tickers(data), r)
  {
    if n == 0 then Initial(config, Tickers(data))
    else Day(config, data, Simulate(config, data, dates, n - 1), dates[n - 1])
  }

  lemma SimulateNext(config: Config, data: seq<Feed>, dates: seq<Date>, d: nat, before: PortfolioState, after: PortfolioState)
    requires WellFormed(data) && d < |dates|
    requires Simulate(config, data, dates, d) == before
    requires Consistent(Tickers(data), before) && Day(config, data, before, dates[d]) == after
    ensures Simulate(config, data, dates, d + 1) == after
  {
  }

  // ------------------------------------------------------------- properties

  /** A trade that answers quote `q` on `date`: that instrument, that date, that
      close, and the flag that calls for it; a sell only when the buy flag is
      clear. */
  ghost predicate Answers(q: Quote, date: Date, t: Trade) {
    t.stock == q.ticker && t.date == date && t.price == q.bar.close &&
    (t.side == Buy ==> q.bar.buy) && (t.side == Sell ==> !q.bar.buy && q.bar.sell)
  }

  /** One instrument on one date logs at most one trade, which answers its
      quote and carries the new cash; the snapshots are untouched. */
  lemma ActEffect(config: Config, stocks: seq<Ticker>, st: PortfolioState, q: Quote, date: Date,
                  prices: map<Ticker, real>)
    requires Consistent(stocks, st) && q.ticker in stocks && q.bar.close > 0.0
    ensures var r := Act(config, stocks, st, q, date, prices);
      r.dailyValues == st.dailyValues &&
      (r.tradeLog == st.tradeLog ||
       (|r.tradeLog| == |st.tradeLog| + 1 && r.tradeLog[..|st.tradeLog|] == st.tradeLog &&
        r.tradeLog == st.tradeLog + [r.tradeLog[|st.tradeLog|]] &&
        Answers(q, date, r.tradeLog[|st.tradeLog|]) && r.tradeLog[|st.tradeLog|].cashAfter == r.cash))
  {
    if q.bar.buy {
      BuyEffect(config, stocks, st, q.ticker, q.bar.close, date, prices);
    } else if q.bar.sell {
      SellEffect(config, stocks, st, q.ticker, q.bar.close, date);
    }
  }

  /** The trade answers one of the quotes. */
  ghost predicate AnswersSome(qs: seq<Quote>, date: Date, t: Trade) {
    exists q :: q in qs && Answers(q, date, t)
  }

  /** Every trade logged from `from` on answers one of the quotes. */
  ghost predicate AnsweredBy(log: seq<Trade>, from: nat, qs: seq<Quote>, date: Date) {
    forall k :: from <= k < |log| ==> AnswersSome(qs, date, log[k])
  }

  /** The trades of a date extend the log only with trades that answer that
      date's quotes, and leave the snapshots alone. */
  lemma {:induction false} TradesEffect(config: Config, stocks: seq<Ticker>, st: PortfolioState, qs: seq<Quote>,
                                        date: Date, prices: map<Ticker, real>)
    requires Consistent(stocks, st) && Tradable(stocks, qs)
    ensures var r := Trades(config, stocks, st, qs, date, prices);
      r.dailyValues == st.dailyValues &&
      |st.tradeLog| <= |r.tradeLog| && r.tradeLog[..|st.tradeLog|] == st.tradeLog &&
      AnsweredBy(r.tradeLog, |st.tradeLog|, qs, date)
  {
    if |qs| > 0 {
      var n := |qs|;
      var earlier := qs[..n - 1];
      assert Tradable(stocks, earlier) by {
        forall q | q in earlier ensures q in qs { }
      }
      TradesEffect(config, stocks, st, earlier, date, prices);
      var mid := Trades(config, stocks, st, earlier, date, prices);
      ActEffect(config, stocks, mid, qs[n - 1], date, prices);
      AppendAnswered(mid.tradeLog, Trades(config, stocks, st, qs, date, prices).tradeLog,
                     |st.tradeLog|, date, earlier, qs);
    }
  }

  lemma AppendAnswered(mid: seq<Trade>, after: seq<Trade>, from: nat, date: Date,
                       earlier: seq<Quote>, qs: seq<Quote>)
    requires |qs| > 0 && earlier == qs[..|qs| - 1]
    requires from <= |mid| && AnsweredBy(mid, from, earlier, date)
    requires after == mid ||
      (|after| == |mid| + 1 && after[..|mid|] == mid && Answers(qs[|qs| - 1], date, after[|mid|]))
    ensures |mid| <= |after| && after[..|mid|] == mid
    ensures AnsweredBy(after, from, qs, date)
  {
    forall k | from <= k < |after| ensures AnswersSome(qs, date, after[k]) {
      if k < |mid| {
        assert after[k] == after[..|mid|][k];
        assert AnswersSome(earlier, date, mid[k]);
        var q :| q in earlier && Answers(q, date, mid[k]);
        assert q in qs;
      } else {
        assert qs[|qs| - 1] in qs;
      }
    }
  }

  /** Every instrument with a row on `date` is quoted on it. */
  lemma {:induction false} QuoteForEveryRow(data: seq<Feed>, date: Date, i: nat)
    requires i < |data| && HasDate(data[i].bars, date)
    ensures exists q :: q in Quotes(data, date) && q.ticker == data[i].ticker
  {
    var n := |data|;
    if i == n - 1 {
      var k :| 0 <= k < |data[i].bars| && data[i].bars[k].date == date;
      var b := BarOn(data[n - 1].bars, date);
      assert b.Some?;
      assert Quotes(data, date)[|Quotes(data, date)| - 1] == Quote(data[i].ticker, b.value);
    } else {
      assert data[..n - 1][i] == data[i];
      QuoteForEveryRow(data[..n - 1], date, i);
      var q :| q in Quotes(data[..n - 1], date) && q.ticker == data[i].ticker;
      assert q in Quotes(data, date);
    }
  }

  /** Every date of the union has at least one price, so it gets its snapshot. */
  lemma PricedOnTradedDate(data: seq<Feed>, date: Date)
    requires Traded(data, date)
    ensures PricesOf(Quotes(data, date)) != map[]
  {
    var i :| 0 <= i < |data| && HasDate(data[i].bars, date);
    QuoteForEveryRow(data, date, i);
    PricesOfKeys(Quotes(data, date));
    assert data[i].ticker in PricesOf(Quotes(data, date));
  }

  /** A date of the union adds exactly one snapshot, dated with that date. */
  lemma DaySnapshot(config: Config, data: seq<Feed>, st: PortfolioState, date: Date)
    requires WellFormed(data) && Consistent(Tickers(data), st) && Traded(data, date)
    ensures var r := Day(config, data, st, date);
      |r.dailyValues| == |st.dailyValues| + 1 && r.dailyValues[|st.dailyValues|].date == date &&
      forall i :: 0 <= i < |st.dailyValues| ==> r.dailyValues[i] == st.dailyValues[i]
  {
    var qs := Quotes(data, date);
    QuotesTradable(data, date);
    TradesEffect(config, Tickers(data), st, qs, date, PricesOf(qs));
    PricedOnTradedDate(data, date);
  }

  /** The snapshots are dated, one by one, with the dates. */
  ghost predicate DatedBy(snapshots: seq<Snapshot>, dates: seq<Date>) {
    |snapshots| == |dates| && forall i :: 0 <= i < |dates| ==> snapshots[i].date == dates[i]
  }

  /** Walking dates that all have rows (as every date of the union does)
      takes exactly one snapshot per date, dated with that date, in order. */
  lemma {:induction false} OneSnapshotPerDate(config: Config, data: seq<Feed>, dates: seq<Date>, n: nat)
    requires WellFormed(data) && n <= |dates|
    requires forall i :: 0 <= i < |dates| ==> Traded(data, dates[i])
    ensures DatedBy(Simulate(config, data, dates, n).dailyValues, dates[..n])
  {
    if n > 0 {
      OneSnapshotPerDate(config, data, dates, n - 1);
      SnapshotOfDate(config, data, dates, n);
    }
  }

  lemma SnapshotOfDate(config: Config, data: seq<Feed>, dates: seq<Date>, n: nat)
    requires WellFormed(data) && 0 < n <= |dates| && Traded(data, dates[n - 1])
    requires DatedBy(Simulate(config, data, dates, n - 1).dailyValues, dates[..n - 1])
    ensures DatedBy(Simulate(config, data, dates, n).dailyValues, dates[..n])
  {
    var prev := Simulate(config, data, dates, n - 1);
    DaySnapshot(config, data, prev, dates[n - 1]);
    var r := Simulate(config, data, dates, n);
    DatedByNext(prev.dailyValues, r.dailyValues, dates, n - 1);
  }

  lemma DatedByNext(before: seq<Snapshot>, after: seq<Snapshot>, dates: seq<Date>, n: nat)
    requires n < |dates| && DatedBy(before, dates[..n])
    requires |after| == n + 1 && after[n].date == dates[n]
    requires forall i :: 0 <= i < n ==> after[i] == before[i]
    ensures DatedBy(after, dates[..n + 1])
  {
  }

  /** Each trade of the walk is justified by the data: the instrument has a
      row on the trade's date, at the trade's price, and the row's flags call
      for it; a buy needs the buy flag, and a sell needs the sell flag with
      the buy flag clear. */
  ghost predicate Justified(data: seq<Feed>, t: Trade) {
    exists i :: 0 <= i < |data| && data[i].ticker == t.stock &&
      exists b :: b in data[i].bars && Answers(Quote(t.stock, b), b.date, t)
  }

  /** The trades of one date are justified by the data. */
  lemma DayJustified(config: Config, data: seq<Feed>, st: PortfolioState, date: Date)
    requires WellFormed(data) && Consistent(Tickers(data), st)
    ensures forall t :: t in Day(config, data, st, date).tradeLog ==> t in st.tradeLog || Justified(data, t)
  {
    var qs := Quotes(data, date);
    QuotesTradable(data, date);
    TradesEffect(config, Tickers(data), st, qs, date, PricesOf(qs));
    var traded := Trades(config, Tickers(data), st, qs, date, PricesOf(qs));
    assert Day(config, data, st, date).tradeLog == traded.tradeLog;
    forall t | t in traded.tradeLog
      ensures t in st.tradeLog || Justified(data, t)
    {
      var k :| 0 <= k < |traded.tradeLog| && traded.tradeLog[k] == t;
      if k < |st.tradeLog| {
        assert t == traded.tradeLog[..|st.tradeLog|][k];
      } else {
        var q :| q in qs && Answers(q, date, t);
        QuoteIsRow(data, date, q);
        var i :| 0 <= i < |data| && data[i].ticker == q.ticker && q.bar in data[i].bars;
        assert Quote(t.stock, q.bar) == q;
      }
    }
  }

  lemma {:induction false} TradesJustified(config: Config, data: seq<Feed>, dates: seq<Date>, n: nat)
    requires WellFormed(data) && n <= |dates|
    ensures forall t :: t in Simulate(config, data, dates, n).tradeLog ==> Justified(data, t)
  {
    if n > 0 {
      TradesJustified(config, data, dates, n - 1);
      DayJustified(config, data, Simulate(config, data, dates, n - 1), dates[n - 1]);
    }
  }

  /** Each instrument is quoted at most once on a date. */
  predicate DistinctTickers(qs: seq<Quote>) {
    forall i, j :: 0 <= i < j < |qs| ==> qs[i].ticker != qs[j].ticker
  }

  lemma {:induction false} QuotesDistinct(data: seq<Feed>, date: Date)
    requires forall i, j :: 0 <= i < j < |data| ==> data[i].ticker != data[j].ticker
    ensures DistinctTickers(Quotes(data, date))
  {
    if |data| > 0 {
      var n := |data|;
      var earlier := data[..n - 1];
      QuotesDistinct(earlier, date);
      var qs := Quotes(data, date);
      var prev := Quotes(earlier, date);
      if |qs| > |prev| {
        forall k | 0 <= k < |prev| ensures prev[k].ticker != data[n - 1].ticker {
          assert prev[k] in prev;
          QuoteIsRow(earlier, date, prev[k]);
          var i :| 0 <= i < n - 1 && earlier[i].ticker == prev[k].ticker && prev[k].bar in earlier[i].bars;
          assert earlier[i] == data[i];
        }
      }
    }
  }

  /** Trades logged from `from` on are on `date` and for distinct instruments. */
  ghost predicate OnePerInstrument(log: seq<Trade>, from: nat, date: Date) {
    forall k :: from <= k < |log| ==>
      (log[k].date == date && forall m :: k < m < |log| ==> log[k].stock != log[m].stock)
  }

  /** The instruments quoted. */
  function Names(qs: seq<Quote>): (names: set<Ticker>)
  {
    if |qs| == 0 then {} else Names(qs[..|qs| - 1]) + {qs[|qs| - 1].ticker}
  }

  lemma {:induction false} NamedIsQuoted(qs: seq<Quote>, t: Ticker)
    requires t in Names(qs)
    ensures exists i :: 0 <= i < |qs| && qs[i].ticker == t
  {
    var n := |qs|;
    if t != qs[n - 1].ticker {
      NamedIsQuoted(qs[..n - 1], t);
      var i :| 0 <= i < n - 1 && qs[..n - 1][i].ticker == t;
      assert qs[i] == qs[..n - 1][i];
    }
  }

  /** So one date logs at most one trade per instrument, each for a quoted one. */
  lemma {:induction false} TradesOncePerInstrument(config: Config, stocks: seq<Ticker>, st: PortfolioState,
                                                   qs: seq<Quote>, date: Date, prices: map<Ticker, real>)
    requires Consistent(stocks, st) && Tradable(stocks, qs) && DistinctTickers(qs)
    ensures var r := Trades(config, stocks, st, qs, date, prices);
      |st.tradeLog| <= |r.tradeLog| && r.tradeLog[..|st.tradeLog|] == st.tradeLog &&
      OnePerInstrument(r.tradeLog, |st.tradeLog|, date) &&
      forall k :: |st.tradeLog| <= k < |r.tradeLog| ==> r.tradeLog[k].stock in Names(qs)
  {
    if |qs| > 0 {
      var n := |qs|;
      var earlier := qs[..n - 1];
      assert Tradable(stocks, earlier) by {
        forall q | q in earlier ensures q in qs { }
      }
      TradesOncePerInstrument(config, stocks, st, earlier, date, prices);
      var mid := Trades(config, stocks, st, earlier, date, prices);
      ActEffect(config, stocks, mid, qs[n - 1], date, prices);
      if qs[n - 1].ticker in Names(earlier) {
        NamedIsQuoted(earlier, qs[n - 1].ticker);
        assert false;
      }
      AppendOnePerInstrument(mid.tradeLog, Trades(config, stocks, st, qs, date, prices).tradeLog,
                             |st.tradeLog|, date, Names(earlier), qs[n - 1].ticker);
    }
  }

  lemma AppendOnePerInstrument(mid: seq<Trade>, after: seq<Trade>, from: nat, date: Date,
                               names: set<Ticker>, name: Ticker)
    requires from <= |mid| && OnePerInstrument(mid, from, date)
    requires forall k :: from <= k < |mid| ==> mid[k].stock in names
    requires name !in names
    requires after == mid ||
      (|after| == |mid| + 1 && after[..|mid|] == mid && after[|mid|].stock == name && after[|mid|].date == date)
    ensures |mid| <= |after| && after[..|mid|] == mid
    ensures OnePerInstrument(after, from, date)
    ensures forall k :: from <= k < |after| ==> after[k].stock in names + {name}
  {
    if after != mid {
      forall k | from <= k < |mid| ensures after[k] == mid[k] {
        assert after[k] == after[..|mid|][k];
      }
    }
  }

  /** The dates of the trades so far are among the first `n` dates, and no
      instrument trades twice on one date. */
  ghost predicate OncePerDate(log: seq<Trade>, dates: seq<Date>) {
    (forall k :: 0 <= k < |log| ==> log[k].date in dates) &&
    forall k, m :: 0 <= k < m < |log| && log[k].date == log[m].date ==> log[k].stock != log[m].stock
  }

  /** One date keeps the earlier trades and adds only trades on that date,
      at most one per instrument. */
  lemma DayOncePerInstrument(config: Config, data: seq<Feed>, st: PortfolioState, date: Date)
    requires WellFormed(data) && Consistent(Tickers(data), st)
    ensures var r := Day(config, data, st, date);
      |st.tradeLog| <= |r.tradeLog| && r.tradeLog[..|st.tradeLog|] == st.tradeLog &&
      OnePerInstrument(r.tradeLog, |st.tradeLog|, date)
  {
    var qs := Quotes(data, date);
    QuotesTradable(data, date);
    QuotesDistinct(data, date);
    TradesOncePerInstrument(config, Tickers(data), st, qs, date, PricesOf(qs));
  }

  /** Over increasing dates, each instrument trades at most once per date. */
  lemma {:induction false} AtMostOneTradePerDate(config: Config, data: seq<Feed>, dates: seq<Date>, n: nat)
    requires WellFormed(data) && Increasing(dates) && n <= |dates|
    ensures OncePerDate(Simulate(config, data, dates, n).tradeLog, dates[..n])
  {
    if n > 0 {
      AtMostOneTradePerDate(config, data, dates, n - 1);
      OncePerDateStep(config, data, dates, n);
    }
  }

  lemma OncePerDateStep(config: Config, data: seq<Feed>, dates: seq<Date>, n: nat)
    requires WellFormed(data) && Increasing(dates) && 0 < n <= |dates|
    requires OncePerDate(Simulate(config, data, dates, n - 1).tradeLog, dates[..n - 1])
    ensures OncePerDate(Simulate(config, data, dates, n).tradeLog, dates[..n])
  {
    var prev := Simulate(config, data, dates, n - 1);
    var r := Day(config, data, prev, dates[n - 1]);
    DayOncePerInstrument(config, data, prev, dates[n - 1]);
    SimulateNext(config, data, dates, n - 1, prev, r);
    OncePerDateNext(prev.tradeLog, r.tradeLog, dates, n - 1);
  }

  lemma OncePerDateNext(before: seq<Trade>, after: seq<Trade>, dates: seq<Date>, n: nat)
    requires Increasing(dates) && n < |dates| && OncePerDate(before, dates[..n])
    requires |before| <= |after| && after[..|before|] == before
    requires OnePerInstrument(after, |before|, dates[n])
    ensures OncePerDate(after, dates[..n + 1])
  {
    forall k | 0 <= k < |before| ensures after[k].date in dates[..n + 1] && after[k].date != dates[n] {
      assert after[k] == before[k];
      var m :| 0 <= m < n && dates[..n][m] == before[k].date;
      assert dates[..n + 1][m] == dates[m];
    }
    assert dates[..n + 1][n] == dates[n];
  }

  /** The closes of the quotes are the prices, all positive. */
  lemma {:induction false} PricesPositive(qs: seq<Quote>)
    requires forall q :: q in qs ==> q.bar.close > 0.0
    ensures forall s :: s in PricesOf(qs) ==> PricesOf(qs)[s] > 0.0
  {
    if |qs| > 0 {
      var earlier := qs[..|qs| - 1];
      assert forall q :: q in earlier ==> q in qs;
      PricesPositive(earlier);
    }
  }

  /** With the reserve covering the commission on a full position, one date
      keeps the cash, the cash of every logged trade and the cash of every
      snapshot non-negative. */
  lemma DayKeepsCash(config: Config, data: seq<Feed>, st: PortfolioState, date: Date)
    requires WellFormed(data) && Consistent(Tickers(data), st)
    requires 0.0 <= config.commission <= 1.0
    requires config.maxPositionSize * config.commission <= config.minCashReserve
    requires Solvent(st)
    ensures Solvent(Day(config, data, st, date))
  {
    var qs := Quotes(data, date);
    QuotesTradable(data, date);
    PricesPositive(qs);
    TradesKeepCash(config, Tickers(data), st, qs, date, PricesOf(qs));
    TradesEffect(config, Tickers(data), st, qs, date, PricesOf(qs));
  }

  /** No cash below zero: now, after any logged trade, or at any snapshot. */
  ghost predicate Solvent(st: PortfolioState) {
    st.cash >= 0.0 && (forall t :: t in st.tradeLog ==> t.cashAfter >= 0.0) &&
    forall k :: 0 <= k < |st.dailyValues| ==> st.dailyValues[k].cash >= 0.0
  }

  /** The driver's reserve (10%) covers the commission on a full 25% position
      whenever the commission is at most 40%; then, from non-negative initial
      cash, the cash never goes negative, and neither does any trade's cash. */
  lemma {:induction false} CashNeverNegative(initialCash: real, commission: real, data: seq<Feed>,
                                             dates: seq<Date>, n: nat)
    requires WellFormed(data) && n <= |dates|
    requires initialCash >= 0.0 && 0.0 <= commission <= 0.4
    ensures Solvent(Simulate(DriverConfig(initialCash, commission), data, dates, n))
  {
    if n > 0 {
      CashNeverNegative(initialCash, commission, data, dates, n - 1);
      SolventStep(initialCash, commission, data, dates, n);
    }
  }

  lemma SolventStep(initialCash: real, commission: real, data: seq<Feed>, dates: seq<Date>, n: nat)
    requires WellFormed(data) && 0 < n <= |dates| && 0.0 <= commission <= 0.4
    requires Solvent(Simulate(DriverConfig(initialCash, commission), data, dates, n - 1))
    ensures Solvent(Simulate(DriverConfig(initialCash, commission), data, dates, n))
  {
    var config := DriverConfig(initialCash, commission);
    var prev := Simulate(config, data, dates, n - 1);
    var r := Day(config, data, prev, dates[n - 1]);
    DayKeepsCash(config, data, prev, dates[n - 1]);
    SimulateNext(config, data, dates, n - 1, prev, r);
  }

  lemma {:induction false} TradesKeepCash(config: Config, stocks: seq<Ticker>, st: PortfolioState, qs: seq<Quote>,
                                          date: Date, prices: map<Ticker, real>)
    requires Consistent(stocks, st) && Tradable(stocks, qs)
    requires forall s :: s in prices ==> prices[s] >= 0.0
    requires 0.0 <= config.commission <= 1.0
    requires config.maxPositionSize * config.commission <= config.minCashReserve
    requires st.cash >= 0.0 && forall t :: t in st.tradeLog ==> t.cashAfter >= 0.0
    ensures var r := Trades(config, stocks, st, qs, date, prices);
      r.cash >= 0.0 && forall t :: t in r.tradeLog ==> t.cashAfter >= 0.0
  {
    if |qs| > 0 {
      var n := |qs|;
      assert Tradable(stocks, qs[..n - 1]) by {
        forall q | q in qs[..n - 1] ensures q in qs { }
      }
      TradesKeepCash(config, stocks, st, qs[..n - 1], date, prices);
      var mid := Trades(config, stocks, st, qs[..n - 1], date, prices);
      var q := qs[n - 1];
      assert q in qs;
      ActEffect(config, stocks, mid, q, date, prices);
      if q.bar.buy {
        BuyKeepsCashNonnegative(config, stocks, mid, q.ticker, q.bar.close, date, prices);
      } else if q.bar.sell {
        SellKeepsCashNonnegative(config, stocks, mid, q.ticker, q.bar.close, date);
      }
    }
  }

  /** Every instrument is in its cycle after the first `n` dates. */
  ghost predicate CyclesAt(config: Config, data: seq<Feed>, dates: seq<Date>, n: nat)
    requires WellFormed(data) && n <= |dates|
  {
    Cycles(Simulate(config, data, dates, n))
  }

  /** Over the whole walk each instrument stays a two-state machine: its
      records alternate BUY/SELL from a BUY, each SELL closes exactly the
      quantity the BUY before it opened, and no BUY adds to an open position. */
  lemma {:induction false} NoPyramiding(config: Config, data: seq<Feed>, dates: seq<Date>, n: nat)
    requires WellFormed(data) && n <= |dates|
    ensures CyclesAt(config, data, dates, n)
  {
    if n == 0 {
      CyclesAtStart(config, data, dates);
    } else {
      NoPyramiding(config, data, dates, n - 1);
      CyclesStep(config, data, dates, n - 1, Simulate(config, data, dates, n - 1));
    }
  }

  lemma CyclesAtStart(config: Config, data: seq<Feed>, dates: seq<Date>)
    requires WellFormed(data)
    ensures CyclesAt(config, data, dates, 0)
  {
    assert Simulate(config, data, dates, 0) == Initial(config, Tickers(data));
    InitialCycles(config, Tickers(data));
  }

  lemma CyclesStep(config: Config, data: seq<Feed>, dates: seq<Date>, d: nat, prev: PortfolioState)
    requires WellFormed(data) && d < |dates|
    requires prev == Simulate(config, data, dates, d) && Cycles(prev)
    ensures CyclesAt(config, data, dates, d + 1)
  {
    var r := Day(config, data, prev, dates[d]);
    DayKeepsCycles(config, data, prev, dates[d]);
    SimulateNext(config, data, dates, d, prev, r);
  }

  /** A date keeps every instrument's cycle; its snapshot changes neither the
      log nor the positions. */
  lemma DayKeepsCycles(config: Config, data: seq<Feed>, st: PortfolioState, date: Date)
    requires WellFormed(data) && Consistent(Tickers(data), st) && Cycles(st)
    ensures Cycles(Day(config, data, st, date))
  {
    var qs := Quotes(data, date);
    QuotesTradable(data, date);
    TradesKeepCycles(config, Tickers(data), st, qs, date, PricesOf(qs));
  }

  lemma {:induction false} TradesKeepCycles(config: Config, stocks: seq<Ticker>, st: PortfolioState,
                                            qs: seq<Quote>, date: Date, prices: map<Ticker, real>)
    requires Consistent(stocks, st) && Tradable(stocks, qs) && Cycles(st)
    ensures Cycles(Trades(config, stocks, st, qs, date, prices))
  {
    if |qs| > 0 {
      var n := |qs|;
      assert Tradable(stocks, qs[..n - 1]) by {
        forall q | q in qs[..n - 1] ensures q in qs { }
      }
      TradesKeepCycles(config, stocks, st, qs[..n - 1], date, prices);
      var mid := Trades(config, stocks, st, qs[..n - 1], date, prices);
      var q := qs[n - 1];
      assert q in qs;
      if q.bar.buy {
        BuyKeepsCycles(config, stocks, mid, q.ticker, q.bar.close, date, prices);
      } else if q.bar.sell {
        SellKeepsCycles(config, stocks, mid, q.ticker, q.bar.close, date);
      }
    }
  }

  /** No instrument ever sets its buy flag. */
  ghost predicate NoBuySignal(data: seq<Feed>) {
    forall i, b :: 0 <= i < |data| && b in data[i].bars ==> !b.buy
  }

  /** Without a buy flag a date from a flat portfolio trades nothing, and its
      snapshot, if any, is worth the cash. */
  lemma DayIdle(config: Config, data: seq<Feed>, st: PortfolioState, date: Date)
    requires WellFormed(data) && NoBuySignal(data) && Consistent(Tickers(data), st)
    requires forall s :: s in st.positions ==> st.positions[s] == 0
    ensures var r := Day(config, data, st, date);
      r.tradeLog == st.tradeLog && r.cash == st.cash && r.positions == st.positions &&
      |st.dailyValues| <= |r.dailyValues| && r.dailyValues[..|st.dailyValues|] == st.dailyValues &&
      forall k :: |st.dailyValues| <= k < |r.dailyValues| ==> r.dailyValues[k].totalValue == st.cash
  {
    var qs := Quotes(data, date);
    QuotesTradable(data, date);
    NoBuyTradesIdle(config, data, st, qs, date, PricesOf(qs));
    StockValueOfFlat(Tickers(data), st.positions, PricesOf(qs));
  }

  /** Nothing traded: the initial cash, flat positions, and every snapshot
      worth the initial cash. */
  ghost predicate Untouched(config: Config, st: PortfolioState) {
    st.tradeLog == [] && st.cash == config.initialCash &&
    (forall s :: s in st.positions ==> st.positions[s] == 0) &&
    forall k :: 0 <= k < |st.dailyValues| ==> st.dailyValues[k].totalValue == config.initialCash
  }

  /** Without a buy flag nothing is ever bought, so nothing is ever sold
      either: the log stays empty, the cash stays at the initial cash, every
      position stays flat and every snapshot is worth the initial cash. */
  lemma {:induction false} NoBuyNoTrades(config: Config, data: seq<Feed>, dates: seq<Date>, n: nat)
    requires WellFormed(data) && NoBuySignal(data) && n <= |dates|
    ensures Untouched(config, Simulate(config, data, dates, n))
  {
    if n > 0 {
      NoBuyNoTrades(config, data, dates, n - 1);
      UntouchedStep(config, data, dates, n);
    }
  }

  lemma UntouchedStep(config: Config, data: seq<Feed>, dates: seq<Date>, n: nat)
    requires WellFormed(data) && NoBuySignal(data) && 0 < n <= |dates|
    requires Untouched(config, Simulate(config, data, dates, n - 1))
    ensures Untouched(config, Simulate(config, data, dates, n))
  {
    var prev := Simulate(config, data, dates, n - 1);
    var r := Day(config, data, prev, dates[n - 1]);
    DayIdle(config, data, prev, dates[n - 1]);
    SimulateNext(config, data, dates, n - 1, prev, r);
    forall k | 0 <= k < |r.dailyValues| ensures r.dailyValues[k].totalValue == config.initialCash {
      if k < |prev.dailyValues| {
        assert r.dailyValues[k] == r.dailyValues[..|prev.dailyValues|][k];
      }
    }
  }

  lemma {:induction false} NoBuyTradesIdle(config: Config, data: seq<Feed>, st: PortfolioState, qs: seq<Quote>,
                                           date: Date, prices: map<Ticker, real>)
    requires WellFormed(data) && NoBuySignal(data)
    requires Consistent(Tickers(data), st) && Tradable(Tickers(data), qs)
    requires forall q :: q in qs ==> q in Quotes(data, date)
    requires forall s :: s in st.positions ==> st.positions[s] == 0
    ensures Trades(config, Tickers(data), st, qs, date, prices) == st
  {
    if |qs| > 0 {
      var n := |qs|;
      assert Tradable(Tickers(data), qs[..n - 1]) by {
        forall q | q in qs[..n - 1] ensures q in qs { }
      }
      NoBuyTradesIdle(config, data, st, qs[..n - 1], date, prices);
      var q := qs[n - 1];
      assert q in qs;
      QuoteIsRow(data, date, q);
      var i :| 0 <= i < |data| && data[i].ticker == q.ticker && q.bar in data[i].bars;
      SellEffect(config, Tickers(data), st, q.ticker, q.bar.close, date);
    }
  }

  /** So its summary, from a positive initial cash, reports the initial cash
      as the final value, no return, no trades, no open position, and no
      drawdown at all (or none reported, when there was no date). */
  lemma NoBuySummary(initialCash: real, commission: real, data: seq<Feed>)
    requires WellFormed(data) && NoBuySignal(data) && initialCash > 0.0
    ensures var config := DriverConfig(initialCash, commission);
      var dates := DateUnion(data);
      SummaryOf(config, Simulate(config, data, dates, |dates|)) ==
        Ok(Summary(initialCash, initialCash, 0.0, 0, initialCash, 0, if dates == [] then None else Some(0.0)))
  {
    var config := DriverConfig(initialCash, commission);
    var dates := DateUnion(data);
    NoBuyNoTrades(config, data, dates, |dates|);
    OneSnapshotPerDate(config, data, dates, |dates|);
    UntouchedSummary(config, Simulate(config, data, dates, |dates|));
  }

  /** The summary of a portfolio that never traded. */
  lemma UntouchedSummary(config: Config, st: PortfolioState)
    requires Untouched(config, st) && config.initialCash > 0.0
    ensures SummaryOf(config, st) ==
      Ok(Summary(config.initialCash, config.initialCash, 0.0, 0, config.initialCash, 0,
                 if st.dailyValues == [] then None else Some(0.0)))
  {
    assert (set s | s in st.positions && st.positions[s] > 0) == {};
    if st.dailyValues != [] {
      MaxDrawdownOfNondecreasing(TotalValues(st.dailyValues));
      ReturnPctSign(config.initialCash, config.initialCash);
    }
  }

  /** The configuration the driver builds: 25% per position, 10% reserve. */
  function DriverConfig(initialCash: real, commission: real): (config: Config)
    ensures config.maxPositionSize == 0.25 && config.minCashReserve == 0.1
  {
    Config(initialCash, commission, 0.25, 0.1)
  }

  /** `run_portfolio_backtest`, with the signal frames given: a fresh
      portfolio over the data's instruments, walked through every date. */
  method RunPortfolioBacktest(initialCash: real, commission: real, data: seq<Feed>)
    returns (portfolio: PortfolioManager)
    requires WellFormed(data)
    ensures fresh(portfolio) && portfolio.Valid()
    ensures portfolio.config == DriverConfig(initialCash, commission) && portfolio.stocks == Tickers(data)
    ensures portfolio.State() ==
      Simulate(DriverConfig(initialCash, commission), data, DateUnion(data), |DateUnion(data)|)
  {
    var config := DriverConfig(initialCash, commission);
    var stocks := Tickers(data);
    portfolio := new PortfolioManager(config, stocks);
    var allDates := DateUnion(data);
    var d := 0;
    while d < |allDates|
      invariant 0 <= d <= |allDates|
      invariant fresh(portfolio) && portfolio.Valid()
      invariant portfolio.config == config && portfolio.stocks == stocks
      invariant portfolio.State() == Simulate(config, data, allDates, d)
    {
      ghost var before := portfolio.State();
      RunDay(portfolio, data, allDates[d]);
      SimulateNext(config, data, allDates, d, before, portfolio.State());
      d := d + 1;
    }
  }

  /** One date of the walk: price the instruments, offer each a trade, and
      take a snapshot when anything was priced. */
  method RunDay(portfolio: PortfolioManager, data: seq<Feed>, date: Date)
    requires WellFormed(data) && portfolio.Valid() && portfolio.stocks == Tickers(data)
    modifies portfolio
    ensures portfolio.Valid()
    ensures portfolio.State() == Day(portfolio.config, data, old(portfolio.State()), date)
  {
    var quotes, currentPrices := CurrentPrices(data, date);
    QuotesTradable(data, date);
    TradeDay(portfolio, quotes, date, currentPrices);
    if currentPrices != map[] {
      portfolio.UpdateDailyValue(date, currentPrices);
    }
  }

  /** The prices of one date, built once before any trade of that date: the
      instruments with a row that day, in the data's order, and their closes. */
  method CurrentPrices(data: seq<Feed>, date: Date) returns (quotes: seq<Quote>, currentPrices: map<Ticker, real>)
    ensures quotes == Quotes(data, date) && currentPrices == PricesOf(quotes)
  {
    currentPrices := map[];
    quotes := [];
    var k := 0;
    while k < |data|
      invariant 0 <= k <= |data|
      invariant quotes == Quotes(data[..k], date) && currentPrices == PricesOf(quotes)
    {
      assert data[..k + 1][..k] == data[..k];
      var bar := BarOn(data[k].bars, date);
      if bar.Some? {
        currentPrices := currentPrices[data[k].ticker := bar.value.close];
        quotes := quotes + [Quote(data[k].ticker, bar.value)];
      }
      k := k + 1;
    }
    assert data[..|data|] == data;
  }

  /** One priced instrument: `execute_buy` when its buy flag is set,
      otherwise `execute_sell` when its sell flag is set. */
  method Offer(portfolio: PortfolioManager, q: Quote, date: Date, currentPrices: map<Ticker, real>)
    requires portfolio.Valid() && q.ticker in portfolio.stocks && q.bar.close > 0.0
    modifies portfolio
    ensures portfolio.Valid()
    ensures portfolio.State() ==
      Act(portfolio.config, portfolio.stocks, old(portfolio.State()), q, date, currentPrices)
  {
    if q.bar.buy {
      var _ := portfolio.ExecuteBuy(q.ticker, q.bar.close, date, currentPrices);
    } else if q.bar.sell {
      var _ := portfolio.ExecuteSell(q.ticker, q.bar.close, date);
    }
  }

  /** The trades of one date: each priced instrument in turn, a buy when its
      buy flag is set, otherwise a sell when its sell flag is set. */
  method TradeDay(portfolio: PortfolioManager, quotes: seq<Quote>, date: Date, currentPrices: map<Ticker, real>)
    requires portfolio.Valid() && Tradable(portfolio.stocks, quotes)
    modifies portfolio
    ensures portfolio.Valid()
    ensures portfolio.State() ==
      Trades(portfolio.config, portfolio.stocks, old(portfolio.State()), quotes, date, currentPrices)
  {
    var j := 0;
    while j < |quotes|
      invariant 0 <= j <= |quotes|
      invariant portfolio.Valid()
      invariant portfolio.State() ==
        Trades(portfolio.config, portfolio.stocks, old(portfolio.State()), quotes[..j], date, currentPrices)
    {
      ghost var before := portfolio.State();
      assert quotes[j] in quotes;
      Offer(portfolio, quotes[j], date, currentPrices);
      TradesNext(portfolio.config, portfolio.stocks, old(portfolio.State()), quotes, j, date, currentPrices,
                 before, portfolio.State());
      j := j + 1;
    }
    assert quotes[..|quotes|] == quotes;
  }
}
