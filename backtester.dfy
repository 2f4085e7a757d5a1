/** The single-instrument back-tester. One price frame is walked row by row;
    on each row the aligned buy/sell flags decide whether to go all in
    (`cash // close` shares), to liquidate the whole position, or to do
    nothing, and the account is then marked to market. A flat fee is charged
    on every execution.

    The row-by-row effect is the function `StepRow`, folded over the rows by
    `Replay`; the class `Backtester` keeps the live cash and position fields
    and its `Run` loop is proved to follow `Replay` exactly. */
module Backtest {
  import opened Basics

  /** One row of the price frame: its timestamp and its close. */
  datatype PriceRow = PriceRow(ts: Date, close: real)

  /** The price frame, and whether its index is datetime-typed. */
  datatype PriceFrame = PriceFrame(datetimeIndex: bool, rows: seq<PriceRow>)

  /** One row of the signal frame; `None` is a missing (NaN) flag. */
  datatype SignalRow = SignalRow(ts: Date, buy: Option<bool>, sell: Option<bool>)

  /** The flags in force on one price row, after alignment. */
  datatype Flags = Flags(buy: bool, sell: bool)

  /** The live state: cash and share count. */
  datatype Account = Account(cash: real, position: int)

  /** One executed trade as recorded: the price rounded to 4 places. */
  datatype Fill = Fill(ts: Date, side: Side, price: real, qty: int, cash: real)

  /** The fills so far, the equity curve so far and the live account. */
  datatype Ledger = Ledger(acct: Account, fills: seq<Fill>, equity: seq<real>)

  /** How far the row loop got: the ledger, and the error that stopped it. */
  datatype Outcome = Outcome(ledger: Ledger, halted: Option<Error>)

  /** The three frames `run` returns (the summary being its one row). */
  datatype Report = Report(trades: seq<Fill>, equity: seq<real>, summary: Summary)

  /** The one-row overview: initial cash, final NAV, total return, number of
      trades and the win ratio (`None` when there are no trades). */
  datatype Summary = Summary(initialCash: real, finalNav: real, totalReturnPct: real,
                             trades: nat, winRatio: Option<real>)

  // ---------------------------------------------------------------- rounding

  /** Rounding to the nearest whole number, ties to the even one. */
  function RoundHalfEven(x: real): (n: int)
    ensures x - 0.5 <= n as real <= x + 0.5
    ensures (n as real - x == 0.5 || x - n as real == 0.5) ==> n % 2 == 0
  {
    var f := x.Floor;
    var frac := x - f as real;
    if frac < 0.5 then f
    else if frac > 0.5 then f + 1
    else if f % 2 == 0 then f
    else f + 1
  }

  /** Rounding never reverses the order of two numbers. */
  lemma RoundHalfEvenMonotone(x: real, y: real)
    requires x <= y
    ensures RoundHalfEven(x) <= RoundHalfEven(y)
  {
    if x.Floor < y.Floor {
      assert RoundHalfEven(x) <= x.Floor + 1 <= y.Floor <= RoundHalfEven(y);
    }
  }

  /** `round(x, 4)`. */
  function Round4(x: real): real {
    RoundHalfEven(x * 10000.0) as real / 10000.0
  }

  /** So a rise in rounded prices is a rise in the prices themselves. */
  lemma Round4Monotone(x: real, y: real)
    requires x <= y
    ensures Round4(x) <= Round4(y)
  {
    RoundHalfEvenMonotone(x * 10000.0, y * 10000.0);
  }

  // --------------------------------------------------------------- alignment

  /** Signal timestamps strictly increasing: the index `reindex` can fill from. */
  predicate Increasing(signals: seq<SignalRow>) {
    forall i, j :: 0 <= i < j < |signals| ==> signals[i].ts < signals[j].ts
  }

  /** The signal row a forward-filling reindex picks for timestamp `ts`: the
      last row at or before `ts`, or none when every row is later. */
  function LastAtOrBefore(signals: seq<SignalRow>, ts: Date): (r: Option<nat>)
    ensures r.None? <==> forall i :: 0 <= i < |signals| ==> signals[i].ts > ts
    ensures r.Some? ==> r.value < |signals| && signals[r.value].ts <= ts &&
                        forall j :: r.value < j < |signals| ==> signals[j].ts > ts
  {
    if |signals| == 0 then None
    else if signals[|signals| - 1].ts <= ts then Some(|signals| - 1)
    else LastAtOrBefore(signals[..|signals| - 1], ts)
  }

  /** `fillna(False)`: a missing flag counts as false. */
  function Flag(v: Option<bool>): bool {
    v == Some(true)
  }

  /** The flags on the price row with timestamp `ts`. */
  function FlagsAt(signals: seq<SignalRow>, ts: Date): (f: Flags)
    ensures LastAtOrBefore(signals, ts).None? ==> f == Flags(false, false)
  {
    match LastAtOrBefore(signals, ts)
    case None => Flags(false, false)
    case Some(i) => Flags(Flag(signals[i].buy), Flag(signals[i].sell))
  }

  /** A price row with a signal row at or before it gets exactly the flags of
      the latest such row, a missing flag reading false; a price row before
      every signal row gets neither flag. */
  lemma FlagsFromLatestSignal(signals: seq<SignalRow>, ts: Date)
    requires Increasing(signals)
    ensures (exists j :: 0 <= j < |signals| && signals[j].ts <= ts) ==>
      exists i :: 0 <= i < |signals| && signals[i].ts <= ts &&
        (forall j :: 0 <= j < |signals| && signals[j].ts <= ts ==> j <= i) &&
        FlagsAt(signals, ts) == Flags(signals[i].buy == Some(true), signals[i].sell == Some(true))
    ensures (forall j :: 0 <= j < |signals| ==> signals[j].ts > ts) ==> FlagsAt(signals, ts) == Flags(false, false)
  {
    var r := LastAtOrBefore(signals, ts);
    if r.Some? {
      var i := r.value;
      forall j | 0 <= j < |signals| && signals[j].ts <= ts
        ensures j <= i
      {
      }
    }
  }

  /** `signals.reindex(index, method="ffill").fillna(False)`, row by row. */
  function AlignedFlags(signals: seq<SignalRow>, rows: seq<PriceRow>): (flags: seq<Flags>)
    ensures |flags| == |rows|
    ensures forall i :: 0 <= i < |rows| ==> flags[i] == FlagsAt(signals, rows[i].ts)
  {
    seq(|rows|, i requires 0 <= i < |rows| => FlagsAt(signals, rows[i].ts))
  }

  // ----------------------------------------------------------------- one row

  /** The effect of `_execute` on the account: cash moves by the signed
      notional and the flat fee, the position by the signed quantity. */
  function Executed(commission: real, acct: Account, side: Side, price: real, qty: int): Account {
    var pv := Notional(price, qty);
    if side == Buy then Account(acct.cash - (pv + commission), acct.position + qty)
    else Account(acct.cash - (-pv + commission), acct.position - qty)
  }

  /** A BUY pays the notional plus the fee and adds the shares; a SELL
      receives the notional less the fee and removes them. */
  lemma ExecutedEffect(commission: real, acct: Account, side: Side, price: real, qty: int)
    ensures var a := Executed(commission, acct, side, price, qty);
      if side == Buy then
        a.cash == acct.cash - Notional(price, qty) - commission && a.position == acct.position + qty
      else
        a.cash == acct.cash + Notional(price, qty) - commission && a.position == acct.position - qty
  {
  }

  /** Buying and then selling the same shares at the same price gives back
      the position and costs exactly two fees. */
  lemma ExecutedRoundTrip(commission: real, acct: Account, price: real, qty: int)
    ensures Executed(commission, Executed(commission, acct, Buy, price, qty), Sell, price, qty) ==
      Account(acct.cash - 2.0 * commission, acct.position)
  {
    ExecutedEffect(commission, acct, Buy, price, qty);
    ExecutedEffect(commission, Executed(commission, acct, Buy, price, qty), Sell, price, qty);
  }

  /** An executed trade: the account changes and one fill is recorded. */
  function Traded(commission: real, led: Ledger, ts: Date, side: Side, price: real, qty: int): Ledger {
    var acct := Executed(commission, led.acct, side, price, qty);
    Ledger(acct, led.fills + [Fill(ts, side, Round4(price), qty, acct.cash)], led.equity)
  }

  /** Marking to market: the equity of the row is cash plus position at the close. */
  function Marked(led: Ledger, close: real): Ledger {
    led.(equity := led.equity + [Equity(led.acct, close)])
  }

  /** `cash + position * close`. */
  function Equity(acct: Account, close: real): real {
    acct.cash + acct.position as real * close
  }

  /** `int(cash // close)`: Python's floor division on floats. */
  function BuyQty(cash: real, close: real): (q: int)
    requires close != 0.0
    ensures q as real <= cash / close < q as real + 1.0
  {
    (cash / close).Floor
  }

  /** Which quantities `run` lets through to a BUY. As written the guard is
      `if qty:`, which admits any non-zero quantity, negative ones included;
      the corrected guard admits positive quantities only. */
  datatype Guard = AsWritten | Corrected

  function Admits(g: Guard, qty: int): bool {
    match g
    case AsWritten => qty != 0
    case Corrected => qty > 0
  }

  /** One iteration of the row loop: buy when flat and the buy flag is set,
      otherwise sell when long and the sell flag is set, then mark to market.
      A zero close on a buy divides by zero and stops the loop. */
  function StepRow(g: Guard, commission: real, out: Outcome, row: PriceRow, f: Flags): Outcome {
    if out.halted.Some? then out
    else
      var led := out.ledger;
      if f.buy && led.acct.position == 0 then
        if row.close == 0.0 then Outcome(led, Some(DivisionByZero))
        else
          var qty := BuyQty(led.acct.cash, row.close);
          if Admits(g, qty) then Outcome(Marked(Traded(commission, led, row.ts, Buy, row.close, qty), row.close), None)
          else Outcome(Marked(led, row.close), None)
      else if f.sell && led.acct.position > 0 then
        Outcome(Marked(Traded(commission, led, row.ts, Sell, row.close, led.acct.position), row.close), None)
      else
        Outcome(Marked(led, row.close), None)
  }

  /** What one row of the corrected loop does. A BUY happens only when flat
      with the buy flag set, for `cash // close` shares, and only when that is
      positive; a SELL only when the buy branch was not taken, the sell flag is
      set and the account is long, and it sells the whole position. Without a
      trade the account is unchanged, and every completed row adds one equity
      value. */
  lemma StepRowEffect(commission: real, led: Ledger, row: PriceRow, f: Flags)
    ensures var r := StepRow(Corrected, commission, Outcome(led, None), row, f);
      var a := led.acct;
      (r.halted.Some? <==> f.buy && a.position == 0 && row.close == 0.0) &&
      (r.halted.Some? ==> r.ledger == led) &&
      (r.halted.None? ==>
        r.ledger.equity == led.equity + [Equity(r.ledger.acct, row.close)] &&
        (r.ledger.fills == led.fills ==> r.ledger.acct == a) &&
        (r.ledger.fills == led.fills ||
         (|r.ledger.fills| == |led.fills| + 1 && r.ledger.fills[..|led.fills|] == led.fills &&
          var fill := r.ledger.fills[|led.fills|];
          fill.ts == row.ts && fill.price == Round4(row.close) && fill.cash == r.ledger.acct.cash &&
          (fill.side == Buy ==> f.buy && a.position == 0 && fill.qty == BuyQty(a.cash, row.close) > 0 &&
                                r.ledger.acct.position == fill.qty) &&
          (fill.side == Sell ==> !(f.buy && a.position == 0) && f.sell && a.position > 0 &&
                                 fill.qty == a.position && r.ledger.acct.position == 0))))
  {
    var a := led.acct;
    if f.buy && a.position == 0 {
      if row.close != 0.0 {
        var qty := BuyQty(a.cash, row.close);
        if qty > 0 {
          ExecutedEffect(commission, a, Buy, row.close, qty);
        }
      }
    } else if f.sell && a.position > 0 {
      ExecutedEffect(commission, a, Sell, row.close, a.position);
    }
  }

  /** The row loop over the first `n` rows, from `initial_cash` and no shares. */
  function Replay(g: Guard, commission: real, initialCash: real, rows: seq<PriceRow>, flags: seq<Flags>, n: nat): Outcome
    requires |flags| == |rows| && n <= |rows|
  {
    if n == 0 then Outcome(Ledger(Account(initialCash, 0), [], []), None)
    else StepRow(g, commission, Replay(g, commission, initialCash, rows, flags, n - 1), rows[n - 1], flags[n - 1])
  }

  /** The loop after `i + 1` rows is one more step from where it was after `i`. */
  lemma ReplayNext(g: Guard, commission: real, initialCash: real, rows: seq<PriceRow>, flags: seq<Flags>,
                   i: nat, before: Outcome, after: Outcome)
    requires |flags| == |rows| && i < |rows|
    requires Replay(g, commission, initialCash, rows, flags, i) == before
    requires StepRow(g, commission, before, rows[i], flags[i]) == after
    ensures Replay(g, commission, initialCash, rows, flags, i + 1) == after
  {
  }

  /** Once the loop has stopped on an error it stays stopped on that error. */
  lemma {:induction false} HaltPersists(g: Guard, commission: real, initialCash: real, rows: seq<PriceRow>,
                                        flags: seq<Flags>, n: nat, m: nat)
    requires |flags| == |rows| && n <= m <= |rows|
    requires Replay(g, commission, initialCash, rows, flags, n).halted.Some?
    ensures Replay(g, commission, initialCash, rows, flags, m) == Replay(g, commission, initialCash, rows, flags, n)
    decreases m - n
  {
    if n < m {
      HaltPersists(g, commission, initialCash, rows, flags, n + 1, m);
    }
  }

  /** Every completed row adds exactly one equity value. */
  lemma {:induction false} EquityLength(g: Guard, commission: real, initialCash: real, rows: seq<PriceRow>,
                                        flags: seq<Flags>, n: nat)
    requires |flags| == |rows| && n <= |rows|
    requires Replay(g, commission, initialCash, rows, flags, n).halted.None?
    ensures |Replay(g, commission, initialCash, rows, flags, n).ledger.equity| == n
  {
    if n > 0 {
      EquityLength(g, commission, initialCash, rows, flags, n - 1);
    }
  }

  /** The equity of row `i` is the cash plus the position times that row's
      close, both as they stand after that row's trade. */
  lemma {:induction false} EquityMarksToMarket(g: Guard, commission: real, initialCash: real, rows: seq<PriceRow>,
                                               flags: seq<Flags>, n: nat, i: nat)
    requires |flags| == |rows| && i < n <= |rows|
    requires Replay(g, commission, initialCash, rows, flags, n).halted.None?
    ensures |Replay(g, commission, initialCash, rows, flags, n).ledger.equity| == n
    ensures var acct := Replay(g, commission, initialCash, rows, flags, i + 1).ledger.acct;
      Replay(g, commission, initialCash, rows, flags, n).ledger.equity[i] ==
        Equity(acct, rows[i].close)
  {
    EquityLength(g, commission, initialCash, rows, flags, n);
    if i < n - 1 {
      EquityMarksToMarket(g, commission, initialCash, rows, flags, n - 1, i);
    } else {
      EquityLength(g, commission, initialCash, rows, flags, n - 1);
    }
  }

  // -------------------------------------------------------- the trade cycle

  /** Fills alternate BUY, SELL, BUY, ... starting with a BUY. */
  ghost predicate Alternating(fills: seq<Fill>) {
    forall i :: 0 <= i < |fills| ==> fills[i].side == (if i % 2 == 0 then Buy else Sell)
  }

  /** The cycle the corrected loop keeps: fills alternate, every SELL sells
      the quantity of the BUY before it, the account is flat after an even
      number of fills and long by the last BUY's quantity after an odd one. */
  ghost predicate Cycle(led: Ledger) {
    var fills := led.fills;
    Alternating(fills) &&
    (forall i :: 1 <= i < |fills| && i % 2 == 1 ==> fills[i].qty == fills[i - 1].qty) &&
    (|fills| % 2 == 0 ==> led.acct.position == 0) &&
    (|fills| % 2 == 1 ==> led.acct.position > 0 && led.acct.position == fills[|fills| - 1].qty)
  }

  /** With the corrected guard the account is only ever flat or long, BUY and
      SELL alternate, and each SELL liquidates the whole position. */
  lemma {:induction false} ReplayKeepsCycle(commission: real, initialCash: real, rows: seq<PriceRow>,
                                            flags: seq<Flags>, n: nat)
    requires |flags| == |rows| && n <= |rows|
    ensures Cycle(Replay(Corrected, commission, initialCash, rows, flags, n).ledger)
    ensures Replay(Corrected, commission, initialCash, rows, flags, n).ledger.acct.position >= 0
  {
    if n > 0 {
      ReplayKeepsCycle(commission, initialCash, rows, flags, n - 1);
      StepKeepsCycle(commission, Replay(Corrected, commission, initialCash, rows, flags, n - 1),
                     rows[n - 1], flags[n - 1]);
    }
  }

  /** One row of the corrected loop keeps the cycle. */
  lemma StepKeepsCycle(commission: real, out: Outcome, row: PriceRow, f: Flags)
    requires Cycle(out.ledger)
    ensures Cycle(StepRow(Corrected, commission, out, row, f).ledger)
  {
    var led := out.ledger;
    if out.halted.None? {
      if f.buy && led.acct.position == 0 {
        if row.close != 0.0 {
          var qty := BuyQty(led.acct.cash, row.close);
          if qty > 0 {
            BuyKeepsCycle(commission, led, row.ts, row.close, qty);
          }
        }
      } else if f.sell && led.acct.position > 0 {
        SellKeepsCycle(commission, led, row.ts, row.close);
      }
    }
  }

  lemma BuyKeepsCycle(commission: real, led: Ledger, ts: Date, price: real, qty: int)
    requires Cycle(led) && led.acct.position == 0 && qty > 0
    ensures Cycle(Traded(commission, led, ts, Buy, price, qty))
  {
    var t := Traded(commission, led, ts, Buy, price, qty);
    assert |led.fills| % 2 == 0;
    assert t.fills == led.fills + [Fill(ts, Buy, Round4(price), qty, t.acct.cash)];
    assert t.acct.position == qty;
  }

  lemma SellKeepsCycle(commission: real, led: Ledger, ts: Date, price: real)
    requires Cycle(led) && led.acct.position > 0
    ensures Cycle(Traded(commission, led, ts, Sell, price, led.acct.position))
  {
    var q := led.acct.position;
    var t := Traded(commission, led, ts, Sell, price, q);
    assert |led.fills| % 2 == 1;
    assert t.fills == led.fills + [Fill(ts, Sell, Round4(price), q, t.acct.cash)];
    assert t.acct.position == 0;
  }

  /** Right after a BUY from a positive close, cash lies in
      [-commission, close - commission): the BUY spends all it can. */
  lemma BuyLeavesLessThanOneShare(commission: real, acct: Account, close: real)
    requires close > 0.0
    ensures var qty := BuyQty(acct.cash, close);
      var a := Executed(commission, acct, Buy, close, qty);
      -commission <= a.cash < close - commission
  {
    var qty := BuyQty(acct.cash, close);
    FloorDivBounds(acct.cash, close, qty);
    ExecutedEffect(commission, acct, Buy, close, qty);
  }

  /** With the guard as written, a negative cash balance (reachable because
      the fee is charged on both sides) makes `cash // close` negative, and
      the loop then BUYS a negative number of shares: the account goes short
      and never trades again. Ten in cash, a fee of six: buy at 10, sell at 1,
      buy at 10. */
  lemma AsWrittenGoesShort()
    ensures var rows := [PriceRow(1, 10.0), PriceRow(2, 1.0), PriceRow(3, 10.0)];
      var flags := [Flags(true, false), Flags(false, true), Flags(true, false)];
      Replay(AsWritten, 6.0, 10.0, rows, flags, 3).ledger.acct == Account(3.0, -2) &&
      Replay(Corrected, 6.0, 10.0, rows, flags, 3).ledger.acct == Account(-11.0, 0)
  {
    var rows := [PriceRow(1, 10.0), PriceRow(2, 1.0), PriceRow(3, 10.0)];
    var flags := [Flags(true, false), Flags(false, true), Flags(true, false)];
    assert (10.0 / 10.0).Floor == 1;
    assert Replay(AsWritten, 6.0, 10.0, rows, flags, 2).ledger.acct == Account(-11.0, 0);
    assert Replay(Corrected, 6.0, 10.0, rows, flags, 2).ledger.acct == Account(-11.0, 0);
    assert (-11.0 / 10.0).Floor == -2;
  }

  // ----------------------------------------------------------------- summary

  /** Trades that count as wins: a SELL whose recorded price is above the
      recorded price of the trade before it. */
  function Wins(fills: seq<Fill>): nat {
    if |fills| == 0 then 0
    else
      var n := |fills|;
      Wins(fills[..n - 1]) +
        (if n >= 2 && fills[n - 1].side == Sell && fills[n - 1].price > fills[n - 2].price then 1 else 0)
  }

  /** Wins are at most half the trades when trades alternate BUY/SELL. */
  lemma {:induction false} WinsAtMostHalf(fills: seq<Fill>)
    requires Alternating(fills)
    ensures 2 * Wins(fills) <= |fills|
  {
    if |fills| > 0 {
      var n := |fills|;
      assert Alternating(fills[..n - 1]) by {
        forall i | 0 <= i < n - 1
          ensures fills[..n - 1][i].side == (if i % 2 == 0 then Buy else Sell)
        {
          assert fills[..n - 1][i] == fills[i];
        }
      }
      WinsAtMostHalf(fills[..n - 1]);
      if n % 2 == 1 {
        assert fills[n - 1].side == Buy;
      }
    }
  }

  /** Every win is a SELL at a higher close than the trade before it. */
  lemma WinIsRise(p: real, q: real)
    requires Round4(q) > Round4(p)
    ensures q > p
  {
    if q <= p {
      Round4Monotone(q, p);
    }
  }

  /** The win ratio: wins over all trades, blank when there are none. */
  function WinRatio(fills: seq<Fill>): (r: Option<real>)
    ensures r.None? <==> |fills| == 0
  {
    if |fills| == 0 then None else Some(Wins(fills) as real / |fills| as real)
  }

  /** So with alternating trades the win ratio is at most one half. */
  lemma WinRatioAtMostHalf(fills: seq<Fill>)
    requires Alternating(fills) && |fills| > 0
    ensures 0.0 <= WinRatio(fills).value <= 0.5
  {
    WinsAtMostHalf(fills);
    RatioAtMostHalf(Wins(fills) as real, |fills| as real);
  }

  lemma RatioAtMostHalf(w: real, n: real)
    requires n > 0.0 && 0.0 <= w && 2.0 * w <= n
    ensures 0.0 <= w / n <= 0.5
  {
    var q := w / n;
    assert q * n == w;
    if q > 0.5 {
      MulStrictMonotone(0.5, q, n);
    }
    if q < 0.0 {
      MulStrictMonotone(q, 0.0, n);
    }
  }

  /** The final NAV: the last equity value, or the initial cash without one. */
  function FinalNav(initialCash: real, equity: seq<real>): real {
    if |equity| == 0 then initialCash else equity[|equity| - 1]
  }

  /** `_build_summary`. The return divides by the initial cash. */
  function BuildSummary(initialCash: real, fills: seq<Fill>, equity: seq<real>): (r: Result<Summary>)
    ensures r.Err? <==> initialCash == 0.0
    ensures r.Err? ==> r.error == DivisionByZero
    ensures r.Ok? ==> r.value.initialCash == initialCash && r.value.trades == |fills|
    ensures r.Ok? ==> r.value.finalNav == FinalNav(initialCash, equity)
    ensures r.Ok? ==> r.value.totalReturnPct == ReturnPct(initialCash, r.value.finalNav)
    ensures r.Ok? ==> r.value.winRatio == WinRatio(fills)
  {
    var finalNav := FinalNav(initialCash, equity);
    if initialCash == 0.0 then Err(DivisionByZero)
    else Ok(Summary(initialCash, finalNav, ReturnPct(initialCash, finalNav), |fills|, WinRatio(fills)))
  }

  /** What `run` returns once the row loop is over: the error that stopped
      it, or the trades, the equity curve and their summary. */
  function Finish(initialCash: real, out: Outcome): (r: Result<Report>)
    ensures r.Ok? ==> out.halted.None? && r.value.trades == out.ledger.fills && r.value.equity == out.ledger.equity
  {
    if out.halted.Some? then Err(out.halted.value)
    else
      match BuildSummary(initialCash, out.ledger.fills, out.ledger.equity)
      case Err(e) => Err(e)
      case Ok(s) => Ok(Report(out.ledger.fills, out.ledger.equity, s))
  }

  /** A run without trades never leaves its initial cash: every equity value
      is the initial cash. */
  lemma {:induction false} NoTradesFlatEquity(commission: real, initialCash: real, rows: seq<PriceRow>,
                                              flags: seq<Flags>, n: nat)
    requires |flags| == |rows| && n <= |rows|
    requires Replay(Corrected, commission, initialCash, rows, flags, n).ledger.fills == []
    ensures var led := Replay(Corrected, commission, initialCash, rows, flags, n).ledger;
      led.acct == Account(initialCash, 0) &&
      forall i :: 0 <= i < |led.equity| ==> led.equity[i] == initialCash
  {
    if n > 0 {
      NoTradesFlatEquity(commission, initialCash, rows, flags, n - 1);
    }
  }

  /** And so it reports a final NAV equal to its initial cash and no return. */
  lemma NoTradesNoReturn(commission: real, initialCash: real, rows: seq<PriceRow>, flags: seq<Flags>)
    requires |flags| == |rows| && initialCash != 0.0
    requires Replay(Corrected, commission, initialCash, rows, flags, |rows|).ledger.fills == []
    ensures var led := Replay(Corrected, commission, initialCash, rows, flags, |rows|).ledger;
      var s := BuildSummary(initialCash, led.fills, led.equity).value;
      s.finalNav == initialCash && s.totalReturnPct == 0.0 && s.trades == 0 && s.winRatio == None
  {
    NoTradesFlatEquity(commission, initialCash, rows, flags, |rows|);
  }

  /** The summary of a corrected run that completes: its win ratio, if any,
      is at most one half, and its return is positive exactly when the final
      NAV is above a positive initial cash. */
  lemma SummaryOfRun(commission: real, initialCash: real, rows: seq<PriceRow>, flags: seq<Flags>)
    requires |flags| == |rows| && initialCash > 0.0
    ensures var led := Replay(Corrected, commission, initialCash, rows, flags, |rows|).ledger;
      var s := BuildSummary(initialCash, led.fills, led.equity).value;
      (s.winRatio.Some? ==> 0.0 <= s.winRatio.value <= 0.5) &&
      (s.totalReturnPct > 0.0 <==> s.finalNav > initialCash)
  {
    var led := Replay(Corrected, commission, initialCash, rows, flags, |rows|).ledger;
    ReplayKeepsCycle(commission, initialCash, rows, flags, |rows|);
    if |led.fills| > 0 {
      WinRatioAtMostHalf(led.fills);
    }
    ReturnPctSign(initialCash, FinalNav(initialCash, led.equity));
  }

  // ----------------------------------------------------------------- the object

  /** Price timestamps are distinct, so each row's equity has its own cell. */
  predicate DistinctTimes(rows: seq<PriceRow>) {
    forall i, j :: 0 <= i < j < |rows| ==> rows[i].ts != rows[j].ts
  }

  class Backtester {
    const initialCash: real
    const commission: real
    var cash: real
    var position: int

    /** The dataclass: the two settings, and zeroed live state. */
    constructor(initialCash: real, commission: real)
      ensures this.initialCash == initialCash && this.commission == commission
      ensures cash == 0.0 && position == 0
    {
      this.initialCash := initialCash;
      this.commission := commission;
      cash := 0.0;
      position := 0;
    }

    /** `_execute`: updates the live fields and returns the trade list with
        one more record carrying the new cash. */
    method Execute(book: seq<Fill>, ts: Date, side: Side, price: real, qty: int) returns (book': seq<Fill>)
      modifies this
      ensures Account(cash, position) == Executed(commission, old(Account(cash, position)), side, price, qty)
      ensures book' == book + [Fill(ts, side, Round4(price), qty, cash)]
    {
      var pv := Notional(price, qty);
      var sign := if side == Buy then 1 else -1;
      cash := cash - (sign as real * pv + commission);
      position := position + sign * qty;
      book' := book + [Fill(ts, side, Round4(price), qty, cash)];
    }

    /** One iteration of the row loop in `run`: the entry or exit the flags
        call for, then the row's mark to market; a zero close on an entry
        raises the division by zero instead, with nothing changed. */
    method ProcessRow(row: PriceRow, f: Flags, book: seq<Fill>, equity: seq<real>)
      returns (book': seq<Fill>, equity': seq<real>, halted: bool)
      modifies this
      ensures var before := Outcome(Ledger(old(Account(cash, position)), book, equity), None);
        StepRow(Corrected, commission, before, row, f) ==
          Outcome(Ledger(Account(cash, position), book', equity'), if halted then Some(DivisionByZero) else None)
    {
      ghost var led := Ledger(Account(cash, position), book, equity);
      ghost var traded := led;
      book' := book;
      halted := false;
      var px := row.close;
      if f.buy && position == 0 {
        if px == 0.0 {
          return book, equity, true;
        }
        var qty := (cash / px).Floor;
        if qty > 0 {
          book' := Execute(book, row.ts, Buy, px, qty);
          traded := Traded(commission, led, row.ts, Buy, px, qty);
        }
      } else if f.sell && position > 0 {
        book' := Execute(book, row.ts, Sell, px, position);
        traded := Traded(commission, led, row.ts, Sell, px, led.acct.position);
      }
      assert traded == Ledger(Account(cash, position), book', equity);
      assert Equity(Account(cash, position), px) == cash + position as real * px;
      equity' := equity + [cash + position as real * px];
    }

    /** The row loop of `run`, from the freshly reset fields: it stops at
        the first row that raises, and otherwise runs to the end. */
    method RowLoop(rows: seq<PriceRow>, flags: seq<Flags>) returns (book: seq<Fill>, equity: seq<real>, halted: bool)
      requires |flags| == |rows| && cash == initialCash && position == 0
      modifies this
      ensures Replay(Corrected, commission, initialCash, rows, flags, |rows|) ==
        Outcome(Ledger(Account(cash, position), book, equity), if halted then Some(DivisionByZero) else None)
    {
      book := [];
      equity := [];
      halted := false;
      var i := 0;
      while i < |rows|
        invariant 0 <= i <= |rows|
        invariant Replay(Corrected, commission, initialCash, rows, flags, i) ==
          Outcome(Ledger(Account(cash, position), book, equity), None)
      {
        ghost var before := Outcome(Ledger(Account(cash, position), book, equity), None);
        book, equity, halted := ProcessRow(rows[i], flags[i], book, equity);
        ReplayNext(Corrected, commission, initialCash, rows, flags, i, before,
                   Outcome(Ledger(Account(cash, position), book, equity), if halted then Some(DivisionByZero) else None));
        if halted {
          HaltPersists(Corrected, commission, initialCash, rows, flags, i + 1, |rows|);
          return;
        }
        i := i + 1;
      }
    }

    /** `run`: refuses a frame whose index is not datetime-typed (the fields
        are then untouched); otherwise follows the row loop `Replay` with the
        corrected guard, leaves the fields as the loop left them, and returns
        the trades, the equity curve and the summary, or the error that
        stopped it. */
    method Run(prices: PriceFrame, signals: seq<SignalRow>) returns (r: Result<Report>)
      requires Increasing(signals) && DistinctTimes(prices.rows)
      modifies this
      ensures !prices.datetimeIndex ==>
        r == Err(IndexNotDatetime) && cash == old(cash) && position == old(position)
      ensures prices.datetimeIndex ==>
        var out := Replay(Corrected, commission, initialCash, prices.rows,
                          AlignedFlags(signals, prices.rows), |prices.rows|);
        Account(cash, position) == out.ledger.acct && r == Finish(initialCash, out)
    {
      if !prices.datetimeIndex {
        return Err(IndexNotDatetime);
      }
      var rows := prices.rows;
      var flags := AlignedFlags(signals, rows);
      cash := initialCash;
      position := 0;
      var book, equity, halted := RowLoop(rows, flags);
      if halted {
        return Err(DivisionByZero);
      }
      var summary := BuildSummary(initialCash, book, equity);
      match summary {
        case Err(e) => r := Err(e);
        case Ok(s) => r := Ok(Report(book, equity, s));
      }
    }
  }
}
