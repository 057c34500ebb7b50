/** The backtest and the RSI signal rule of TradingStrategy
    (StockApp/trading_strategy.py).

    A strategy frame is a sequence of rows. A row has a date, a close
    price, a signal column and, when present, a position column. The
    signal columns hold floats. A NaN (the first row of a diff, an RSI that
    is not yet defined) equals neither 1 nor -1, so it is modelled as any
    other non-trading value. Prices and cash are reals: float rounding is
    not modelled. */
module Backtest {
  import opened Text

  datatype Row = Row(date: int, close: real, signal: real, position: Option<real>)

  datatype Side = Buy | Sell

  /** An entry of `trades`. */
  datatype Trade = Trade(date: int, side: Side, price: real, shares: int, value: real)

  /** An entry of `portfolio_value`. */
  datatype Valuation = Valuation(date: int, value: real)

  /** The loop's variables between two rows. */
  datatype Book = Book(cash: real, position: int, trades: seq<Trade>, values: seq<Valuation>)

  datatype BacktestError =
    | ZeroPriceBuy(row: nat)  // int(cash / 0.0) raises
    | NoRows                  // the empty valuation frame has no 'date' column

  /** The part of the returned statistics that does not involve float
      statistics. */
  datatype Report = Report(initialCapital: real, finalCapital: real, tradeCount: nat,
                           trades: seq<Trade>, portfolioValue: seq<Valuation>)

  /** The signal of a row: the 'position' column when the row has one,
      else the 'signal' column. */
  function SignalOf(row: Row): (s: real)
    ensures row.position.Some? ==> s == row.position.value
    ensures row.position.None? ==> s == row.signal
  {
    match row.position
    case Some(p) => p
    case None => row.signal
  }

  /** Python's int() on a float: truncation toward zero. */
  function Truncate(x: real): (n: int)
    ensures x >= 0.0 ==> n as real <= x < n as real + 1.0
    ensures x < 0.0 ==> n as real - 1.0 < x <= n as real
  {
    if x >= 0.0 then x.Floor else -((-x).Floor)
  }

  predicate BuyFires(book: Book, row: Row)
  {
    SignalOf(row) == 1.0 && book.cash > 0.0
  }

  predicate SellFires(book: Book, row: Row)
  {
    SignalOf(row) == -1.0 && book.position > 0
  }

  /** The trading part of one row: an all-in buy on signal 1 with cash, a
      full sale on signal -1 with shares, nothing otherwise; None when the
      buy divides by a zero close. */
  function TradeOn(book: Book, row: Row): Option<Book>
  {
    if BuyFires(book, row) then
      if row.close == 0.0 then None
      else
        var shares := Truncate(book.cash / row.close);
        var cost := shares as real * row.close;
        Some(Book(book.cash - cost, book.position + shares,
                  book.trades + [Trade(row.date, Buy, row.close, shares, cost)], book.values))
    else if SignalOf(row) == -1.0 && book.position > 0 then
      var value := book.position as real * row.close;
      Some(Book(book.cash + value, 0,
                book.trades + [Trade(row.date, Sell, row.close, book.position, value)], book.values))
    else Some(book)
  }

  /** The valuation of a book at a row's close. */
  function Mark(book: Book, row: Row): Valuation
  {
    Valuation(row.date, book.cash + book.position as real * row.close)
  }

  /** One row of the loop: the trade, then the row's valuation. */
  function Step(book: Book, row: Row): Result<Book, BacktestError>
  {
    match TradeOn(book, row)
    case None => Failure(ZeroPriceBuy(0))
    case Some(b) => Success(Book(b.cash, b.position, b.trades, b.values + [Mark(b, row)]))
  }

  /** The loop over the first rows, from initial_cash and no shares; the
      error names the row where it happened. */
  function Run(initialCash: real, rows: seq<Row>): Result<Book, BacktestError>
  {
    if rows == [] then Success(Book(initialCash, 0, [], []))
    else
      match Run(initialCash, rows[..|rows| - 1])
      case Failure(e) => Failure(e)
      case Success(book) =>
        match Step(book, rows[|rows| - 1])
        case Failure(_) => Failure(ZeroPriceBuy(|rows| - 1))
        case Success(next) => Success(next)
  }

  /** backtest: the trade loop, then the statistics it reports. */
  method RunBacktest(rows: seq<Row>, initialCash: real) returns (r: Result<Report, BacktestError>)
    ensures Run(initialCash, rows).Failure? ==> r == Failure(Run(initialCash, rows).error)
    ensures Run(initialCash, rows).Success? && rows == [] ==> r == Failure(NoRows)
    ensures Run(initialCash, rows).Success? && rows != [] ==>
      var book := Run(initialCash, rows).value;
      && r.Success?
      && r.value.initialCapital == initialCash
      && r.value.finalCapital == book.cash + book.position as real * rows[|rows| - 1].close
      && r.value.tradeCount == |book.trades| == |r.value.trades|
      && r.value.trades == book.trades
      && r.value.portfolioValue == book.values
  {
    var cash := initialCash;
    var position := 0;
    var trades: seq<Trade> := [];
    var values: seq<Valuation> := [];
    for i := 0 to |rows|
      invariant Run(initialCash, rows[..i]) == Success(Book(cash, position, trades, values))
    {
      assert rows[..i + 1][..i] == rows[..i];
      ghost var before := Book(cash, position, trades, values);
      var row := rows[i];
      var failed;
      failed, cash, position, trades := ActOnSignal(cash, position, trades, values, row);
      if failed {
        FailureSticks(initialCash, rows, i + 1);
        return Failure(ZeroPriceBuy(i));
      }
      ghost var traded := Book(cash, position, trades, values);
      assert TradeOn(before, row) == Some(traded);
      assert Step(before, row) == Success(Book(cash, position, trades, values + [Mark(traded, row)]));
      assert Mark(traded, row) == Valuation(row.date, cash + position as real * row.close);
      values := values + [Valuation(row.date, cash + position as real * row.close)];
      assert rows[..i + 1][i] == row;
      assert Run(initialCash, rows[..i + 1]) == Step(before, row);
    }
    assert rows[..|rows|] == rows;
    if rows == [] {
      return Failure(NoRows);
    }
    ValueIsLastValuation(initialCash, rows);
    r := Success(Report(initialCash, values[|values| - 1].value, |trades|, trades, values));
  }

  /** The trading part of the loop body for one row. */
  method ActOnSignal(cash0: real, position0: int, trades0: seq<Trade>, values: seq<Valuation>, row: Row)
    returns (failed: bool, cash: real, position: int, trades: seq<Trade>)
    ensures failed <==> TradeOn(Book(cash0, position0, trades0, values), row).None?
    ensures !failed ==> TradeOn(Book(cash0, position0, trades0, values), row) == Some(Book(cash, position, trades, values))
  {
    failed, cash, position, trades := false, cash0, position0, trades0;
    ghost var book := Book(cash0, position0, trades0, values);
    var signal := SignalOf(row);
    if signal == 1.0 {
      if cash > 0.0 {
        if row.close == 0.0 {
          failed := true;
          return;
        }
        var shares := Truncate(cash / row.close);
        var cost := shares as real * row.close;
        cash := cash - cost;
        position := position + shares;
        trades := trades + [Trade(row.date, Buy, row.close, shares, cost)];
        assert TradeOn(book, row).Some?;
        assert TradeOn(book, row).value.cash == cash;
        assert TradeOn(book, row).value.position == position;
        assert TradeOn(book, row).value.trades == trades;
      } else {
        assert TradeOn(book, row) == Some(book);
      }
    } else if signal == -1.0 {
      if position > 0 {
        var value := position as real * row.close;
        cash := cash + value;
        trades := trades + [Trade(row.date, Sell, row.close, position, value)];
        position := 0;
        assert !BuyFires(book, row);
        assert TradeOn(book, row).Some?;
        assert TradeOn(book, row).value.cash == cash;
        assert TradeOn(book, row).value.trades == trades;
      } else {
        assert TradeOn(book, row) == Some(book);
      }
    } else {
      assert TradeOn(book, row) == Some(book);
    }
  }

  /** Once the run fails on the first n rows, it fails the same way on all
      of them. */
  lemma {:induction false} FailureSticks(initialCash: real, rows: seq<Row>, n: nat)
    requires n <= |rows| && Run(initialCash, rows[..n]).Failure?
    ensures Run(initialCash, rows) == Run(initialCash, rows[..n])
  {
    if n < |rows| {
      var init := rows[..|rows| - 1];
      assert init[..n] == rows[..n];
      FailureSticks(initialCash, init, n);
    } else {
      assert rows[..n] == rows;
    }
  }

  /** Each valuation is the last row's: cash plus shares at that close. */
  lemma ValueIsLastValuation(initialCash: real, rows: seq<Row>)
    requires rows != [] && Run(initialCash, rows).Success?
    ensures var book := Run(initialCash, rows).value;
      book.values != [] && book.values[|book.values| - 1].value == book.cash + book.position as real * rows[|rows| - 1].close
  {
  }

  // ---------------------------------------------------------------------------
  // What one row does

  /** A trade is recorded exactly when a buy or a sale executes; otherwise
      cash and position are untouched. */
  lemma StepTrades(book: Book, row: Row)
    requires Step(book, row).Success?
    ensures var next := Step(book, row).value;
      && (BuyFires(book, row) || SellFires(book, row) <==> |next.trades| == |book.trades| + 1)
      && (!BuyFires(book, row) && !SellFires(book, row) <==> next.trades == book.trades)
      && (!BuyFires(book, row) && !SellFires(book, row) ==> next.cash == book.cash && next.position == book.position)
      && |next.values| == |book.values| + 1 && next.values[..|book.values|] == book.values
      && next.trades[..|book.trades|] == book.trades
  {
    var next := Step(book, row).value;
    assert next.values[..|book.values|] == book.values;
  }

  /** A buy spends the whole-share part of the cash: cash drops by the cost
      of floor(cash / close) shares and the trade records them, zero shares
      included. */
  lemma BuyEffect(book: Book, row: Row)
    requires BuyFires(book, row) && row.close > 0.0
    ensures Step(book, row).Success?
    ensures var next := Step(book, row).value;
      var shares := (book.cash / row.close).Floor;
      && next.position == book.position + shares
      && next.cash == book.cash - shares as real * row.close
      && 0.0 <= next.cash < row.close
      && next.trades == book.trades + [Trade(row.date, Buy, row.close, shares, shares as real * row.close)]
  {
    BuyRemainder(book.cash, row.close);
  }

  /** Buying floor(cash / c) shares at c leaves less than one share's price. */
  lemma BuyRemainder(cash: real, c: real)
    requires cash > 0.0 && c > 0.0
    ensures var shares := (cash / c).Floor;
      shares >= 0 && 0.0 <= cash - shares as real * c < c
  {
    var x := cash / c;
    assert x * c == cash;
    var f := x.Floor as real;
    assert 0.0 <= x - f < 1.0;
    var d := x - f;
    MulBounds(d, c);
    assert d * c < c;
    assert d * c == cash - f * c;
    assert cash - f * c < c;
    assert f == (cash / c).Floor as real;
  }

  /** 0 <= d < 1 scales to 0 <= d * c < c. */
  lemma MulBounds(d: real, c: real)
    requires 0.0 <= d < 1.0 && c > 0.0
    ensures 0.0 <= d * c < c
  {
    assert (1.0 - d) * c > 0.0;
  }

  /** A sale turns every share into cash at the close. */
  lemma SellEffect(book: Book, row: Row)
    requires SellFires(book, row)
    ensures Step(book, row).Success?
    ensures var next := Step(book, row).value;
      && next.position == 0
      && next.cash == book.cash + book.position as real * row.close
      && next.trades == book.trades + [Trade(row.date, Sell, row.close, book.position, book.position as real * row.close)]
  {
  }

  /** Trading at the close does not change the value of the book at that
      close: what a trade moves between cash and shares balances. */
  lemma TradeKeepsValue(book: Book, row: Row)
    requires Step(book, row).Success?
    ensures var next := Step(book, row).value;
      next.cash + next.position as real * row.close == book.cash + book.position as real * row.close
  {
    if BuyFires(book, row) {
      var shares := Truncate(book.cash / row.close);
      assert (book.position + shares) as real * row.close == book.position as real * row.close + shares as real * row.close;
    }
  }

  /** A buy with less cash than one share still records a trade, of zero
      shares and zero cost. */
  lemma ZeroShareBuyRecorded()
    ensures var next := Step(Book(50.0, 0, [], []), Row(1, 100.0, 1.0, None));
      next == Success(Book(50.0, 0, [Trade(1, Buy, 100.0, 0, 0.0)], [Valuation(1, 50.0)]))
  {
    var row := Row(1, 100.0, 1.0, None);
    var start := Book(50.0, 0, [], []);
    assert 50.0 / 100.0 == 0.5;
    assert 0.5.Floor == 0;
    assert Truncate(start.cash / row.close) == 0;
    assert BuyFires(start, row);
    var trade := Trade(1, Buy, 100.0, 0, 0.0);
    assert start.trades + [trade] == [trade];
    var bought := Book(50.0, 0, [trade], []);
    assert TradeOn(start, row) == Some(bought);
    assert bought.values + [Valuation(1, 50.0)] == [Valuation(1, 50.0)];
  }

  // ---------------------------------------------------------------------------
  // The whole run

  predicate PositiveCloses(rows: seq<Row>)
  {
    forall i :: 0 <= i < |rows| ==> rows[i].close > 0.0
  }

  /** One valuation per row, dated as the row, and no more trades than rows. */
  lemma {:induction false} RunShape(initialCash: real, rows: seq<Row>)
    requires Run(initialCash, rows).Success?
    ensures var book := Run(initialCash, rows).value;
      && |book.values| == |rows|
      && (forall i :: 0 <= i < |rows| ==> book.values[i].date == rows[i].date)
      && |book.trades| <= |rows|
  {
    if rows != [] {
      var init := rows[..|rows| - 1];
      RunShape(initialCash, init);
      var book := Run(initialCash, init).value;
      StepTrades(book, rows[|rows| - 1]);
      var next := Run(initialCash, rows).value;
      forall i | 0 <= i < |rows|
        ensures next.values[i].date == rows[i].date
      {
        if i < |init| {
          assert next.values[i] == next.values[..|book.values|][i];
        }
      }
    }
  }

  /** Every portfolio value, not only the last: the valuation of row i is
      the book after the run on rows 0..i (the cash and shares held after
      row i's trade) valued at row i's close and dated as row i. */
  lemma {:induction false} ValuationIsMark(initialCash: real, rows: seq<Row>, i: nat)
    requires Run(initialCash, rows).Success? && i < |rows|
    ensures Run(initialCash, rows[..i + 1]).Success?
    ensures var values := Run(initialCash, rows).value.values;
      i < |values| && values[i] == Mark(Run(initialCash, rows[..i + 1]).value, rows[i])
    decreases |rows|
  {
    if i == |rows| - 1 {
      LastValuationIsMark(initialCash, rows);
      assert rows[..i + 1] == rows;
    } else {
      var init := rows[..|rows| - 1];
      RunExtends(initialCash, rows);
      ValuationIsMark(initialCash, init, i);
      assert init[..i + 1] == rows[..i + 1];
      var values := Run(initialCash, rows).value.values;
      assert values[i] == values[..|init|][i];
    }
  }

  /** The last valuation is the Mark of the final book at the last row. */
  lemma LastValuationIsMark(initialCash: real, rows: seq<Row>)
    requires rows != [] && Run(initialCash, rows).Success?
    ensures var book := Run(initialCash, rows).value;
      |book.values| == |rows| && book.values[|rows| - 1] == Mark(book, rows[|rows| - 1])
  {
    RunShape(initialCash, rows);
  }

  /** The same valuation written out: row i's portfolio value is the cash
      after the run on rows 0..i plus its shares at row i's close. */
  lemma ValuationIsHoldingsAtClose(initialCash: real, rows: seq<Row>, i: nat)
    requires Run(initialCash, rows).Success? && i < |rows|
    ensures Run(initialCash, rows[..i + 1]).Success?
    ensures var prefix := Run(initialCash, rows[..i + 1]).value;
      var values := Run(initialCash, rows).value.values;
      i < |values| && values[i].value == prefix.cash + prefix.position as real * rows[i].close
  {
    ValuationIsMark(initialCash, rows, i);
  }

  /** A successful run extends the run on all rows but the last: that run
      succeeds too and its valuations are kept. */
  lemma RunExtends(initialCash: real, rows: seq<Row>)
    requires rows != [] && Run(initialCash, rows).Success?
    ensures Run(initialCash, rows[..|rows| - 1]).Success?
    ensures var values := Run(initialCash, rows).value.values;
      |Run(initialCash, rows[..|rows| - 1]).value.values| == |rows| - 1
      && |values| == |rows|
      && values[..|rows| - 1] == Run(initialCash, rows[..|rows| - 1]).value.values
  {
    RunShape(initialCash, rows);
    RunShape(initialCash, rows[..|rows| - 1]);
    StepTrades(Run(initialCash, rows[..|rows| - 1]).value, rows[|rows| - 1]);
  }

  /** With positive closes and non-negative starting cash, the run never
      fails, cash never goes negative and the position never goes short. */
  lemma {:induction false} RunStaysSolvent(initialCash: real, rows: seq<Row>)
    requires initialCash >= 0.0 && PositiveCloses(rows)
    ensures Run(initialCash, rows).Success?
    ensures Run(initialCash, rows).value.cash >= 0.0
    ensures Run(initialCash, rows).value.position >= 0
  {
    if rows != [] {
      var init := rows[..|rows| - 1];
      assert PositiveCloses(init) by {
        forall i | 0 <= i < |init| ensures init[i].close > 0.0 {
          assert init[i] == rows[i];
        }
      }
      RunStaysSolvent(initialCash, init);
      var book := Run(initialCash, init).value;
      var row := rows[|rows| - 1];
      if BuyFires(book, row) {
        BuyEffect(book, row);
        assert (book.cash / row.close).Floor >= 0;
      } else if SellFires(book, row) {
        SellEffect(book, row);
      }
    }
  }

  /** The reported value sequence starts from the starting cash: with no
      trade on the first row it is exactly initial_cash. */
  lemma FirstValuationIsCash(initialCash: real, row: Row)
    requires !BuyFires(Book(initialCash, 0, [], []), row)
    ensures Run(initialCash, [row]) == Success(Book(initialCash, 0, [], [Valuation(row.date, initialCash)]))
  {
    var start := Book(initialCash, 0, [], []);
    assert [row][..0] == [];
    assert Run(initialCash, [row][..0]) == Success(start);
    assert !SellFires(start, row);
    assert TradeOn(start, row) == Some(start);
    assert start.values + [Mark(start, row)] == [Valuation(row.date, initialCash)];
  }

  // ---------------------------------------------------------------------------
  // RSI signal

  /** rsi_strategy's rule for one RSI value (None for NaN): 1 below the
      oversold line, then -1 above the overbought line, overwriting the 1
      when both hold; 0 otherwise. */
  function RsiSignal(rsi: Option<real>, overbought: real, oversold: real): (s: int)
    ensures s == -1 <==> rsi.Some? && rsi.value > overbought
    ensures s == 1 <==> rsi.Some? && rsi.value < oversold && !(rsi.value > overbought)
    ensures s == 0 <==> rsi.None? || (oversold <= rsi.value <= overbought)
  {
    var s := 0;
    var s := if rsi.Some? && rsi.value < oversold then 1 else s;
    if rsi.Some? && rsi.value > overbought then -1 else s
  }

  /** The signal column of an RSI frame. */
  function RsiSignals(rsi: seq<Option<real>>, overbought: real, oversold: real): (signals: seq<int>)
    ensures |signals| == |rsi|
  {
    seq(|rsi|, i requires 0 <= i < |rsi| => RsiSignal(rsi[i], overbought, oversold))
  }

  /** With the oversold line at or below the overbought line no value is on
      both sides, so the rule is the plain three-way split. */
  lemma OrderedThresholds(rsi: real, overbought: real, oversold: real)
    requires oversold <= overbought
    ensures RsiSignal(Some(rsi), overbought, oversold) == (if rsi < oversold then 1 else if rsi > overbought then -1 else 0)
  {
  }

  /** Crossed thresholds: a value that is both oversold and overbought
      sells. */
  lemma CrossedThresholdsSell()
    ensures RsiSignal(Some(50.0), 40.0, 60.0) == -1
  {
  }

  /** A frame built from the RSI signals, with no position column, buys on
      an oversold row whenever there is cash to spend and the close is
      positive. */
  lemma OversoldRowBuys(book: Book, date: int, close: real, rsi: real, overbought: real, oversold: real)
    requires rsi < oversold <= overbought && book.cash > 0.0 && close > 0.0
    ensures var row := Row(date, close, RsiSignal(Some(rsi), overbought, oversold) as real, None);
      BuyFires(book, row) && |Step(book, row).value.trades| == |book.trades| + 1
  {
  }
}
