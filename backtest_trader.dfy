/** The signal-driven multi-asset trade simulator (`BacktestTrader`).

    Each bar walks the tickers in column order and turns a signal (1 long,
    -1 short, 0 exit, 2 hold, anything else ignored) and a weight into changes
    to the shared cash and the per-ticker share counts; it charges a flat fee
    per trade and a daily borrow charge on short positions, then records one
    portfolio value. Prices and cash are exact reals, share counts integers. */
module BacktestTraderModel {
  import opened Common
  import Performance

  /** Trading days per year: the borrow rate is charged as rate/252 per bar. */
  const TradingDays: real := 252.0

  /** Market value of a share count at a price (negative for a short),
      counted one share at a time; NotionalIsProduct shows it is shares*price. */
  function Notional(shares: int, price: real): real
    decreases if shares < 0 then -shares else shares
  {
    if shares == 0 then 0.0
    else if shares > 0 then Notional(shares - 1, price) + price
    else Notional(shares + 1, price) - price
  }

  lemma {:induction false} NotionalIsProduct(shares: int, price: real)
    ensures Notional(shares, price) == shares as real * price
    decreases if shares < 0 then -shares else shares
  {
    if shares > 0 {
      NotionalIsProduct(shares - 1, price);
    } else if shares < 0 {
      NotionalIsProduct(shares + 1, price);
    }
  }

  /** Buying a shares and then b shares is worth the same as buying a + b. */
  lemma NotionalAdd(a: int, b: int, price: real)
    ensures Notional(a + b, price) == Notional(a, price) + Notional(b, price)
  {
    NotionalIsProduct(a + b, price);
    NotionalIsProduct(a, price);
    NotionalIsProduct(b, price);
    assert (a + b) as real * price == a as real * price + b as real * price;
  }

  /** The largest share count whose cost plus the fee fits the budget
      total_cash*weight: the value of `np.floor((total_cash*weight - fee)/price)`. */
  ghost function Affordable(totalCash: real, weight: real, fee: real, price: real): (m: int)
    requires price > 0.0
    ensures Notional(m, price) + fee <= totalCash * weight < Notional(m + 1, price) + fee
  {
    var budget := totalCash * weight - fee;
    FloorScaled(budget / price, price);
    assert Brackets((budget / price).Floor, budget, price);
    var m :| Brackets(m, budget, price);
    m
  }

  /** m shares cost at most the budget and m + 1 shares more than it. */
  ghost predicate Brackets(m: int, budget: real, price: real) {
    Notional(m, price) <= budget < Notional(m + 1, price)
  }

  lemma FloorScaled(x: real, price: real)
    requires price > 0.0
    ensures Notional(x.Floor, price) <= x * price < Notional(x.Floor + 1, price)
  {
    Between(x.Floor, x, price);
  }

  /** A real lying between m and m + 1, scaled by a positive price, lies
      between the values of m and m + 1 shares. */
  lemma MulSign(a: real, b: real)
    requires a >= 0.0 && b > 0.0
    ensures a * b >= 0.0
    ensures a > 0.0 ==> a * b > 0.0
  {
  }

  lemma Between(m: int, x: real, price: real)
    requires price > 0.0 && m as real <= x < (m + 1) as real
    ensures Notional(m, price) <= x * price < Notional(m + 1, price)
  {
    NotionalIsProduct(m, price);
    NotionalIsProduct(m + 1, price);
    MulSign(x - m as real, price);
    MulSign((m + 1) as real - x, price);
    assert (x - m as real) * price == x * price - m as real * price;
    assert ((m + 1) as real - x) * price == (m + 1) as real * price - x * price;
  }

  /** At a positive price more shares cost more. */
  lemma NotionalMonotone(m: int, n: int, price: real)
    requires price > 0.0 && m <= n
    ensures Notional(m, price) <= Notional(n, price)
  {
    NotionalAdd(m, n - m, price);
    NotionalIsProduct(n - m, price);
    MulSign((n - m) as real, price);
  }

  /** At a positive price only one share count brackets a budget. */
  lemma BracketsUnique(m: int, n: int, budget: real, price: real)
    requires price > 0.0 && Brackets(m, budget, price) && Brackets(n, budget, price)
    ensures m == n
  {
    if m < n {
      NotionalMonotone(m + 1, n, price);
    } else if n < m {
      NotionalMonotone(n + 1, m, price);
    }
  }

  /** The share-count computation the trade branches perform. */
  method MaxShares(totalCash: real, weight: real, fee: real, price: real) returns (m: int)
    requires price > 0.0
    ensures m == Affordable(totalCash, weight, fee, price)
  {
    var budget := totalCash * weight - fee;
    m := (budget / price).Floor;
    FloorScaled(budget / price, price);
    assert (budget / price) * price == budget;
    BracketsUnique(m, Affordable(totalCash, weight, fee, price), budget, price);
  }

  /** What handling one ticker's signal reads and writes: the shared cash, the
      bar's budget `total_cash`, and that ticker's share count. */
  datatype Fill = Fill(cash: real, totalCash: real, shares: int)

  /** Cash plus the position marked at the bar's price. */
  function Equity(f: Fill, price: real): real {
    f.cash + Notional(f.shares, price)
  }

  /** The signal handling of one ticker (long, short, exit, hold), as written:
      a long adds to the holding only when at least one share is affordable;
      a short first sells a long position (refreshing the budget) and then,
      from flat, shorts the affordable count with no zero-share guard; an exit
      closes any position; every other signal changes nothing. */
  ghost function Trade(f: Fill, price: real, signal: int, weight: real, fee: real): Fill
    requires price > 0.0
  {
    if signal == 1 then
      var m := Affordable(f.totalCash, weight, fee, price);
      if m > 0 then Fill(f.cash - (Notional(m, price) + fee), f.totalCash, f.shares + m)
      else f
    else if signal == -1 then
      var g :=
        if f.shares > 0 then
          var c := f.cash + (Notional(f.shares, price) - fee);
          Fill(c, c, 0)
        else f;
      if g.shares == 0 then
        var m := -Affordable(g.totalCash, weight, fee, price);
        Fill(g.cash - (Notional(m, price) + fee), g.totalCash, g.shares + m)
      else g
    else if signal == 0 then
      if f.shares != 0 then Fill(f.cash + (Notional(f.shares, price) - fee), f.totalCash, 0)
      else f
    else f
  }

  /** A long adds the affordable count to the holding and pays for it plus
      the fee when that count is positive, and otherwise changes nothing; the
      budget stays, and the spend never exceeds total_cash*weight. */
  lemma TradeLong(f: Fill, price: real, weight: real, fee: real)
    requires price > 0.0
    ensures var r := Trade(f, price, 1, weight, fee);
      var m := Affordable(f.totalCash, weight, fee, price);
      && (if m > 0 then r == Fill(f.cash - (Notional(m, price) + fee), f.totalCash, f.shares + m) else r == f)
      && r.totalCash == f.totalCash && r.shares >= f.shares
      && (r.shares > f.shares ==> f.cash - r.cash <= f.totalCash * weight)
  {
  }

  /** A short leaves a short position alone; otherwise it first sells a long
      position, which refreshes the budget to the cash after the sale, and
      then shorts the count affordable on that budget, paying the fee. */
  lemma TradeShort(f: Fill, price: real, weight: real, fee: real)
    requires price > 0.0
    ensures var r := Trade(f, price, -1, weight, fee);
      && (f.shares < 0 ==> r == f)
      && (f.shares > 0 ==> r.totalCash == f.cash + Notional(f.shares, price) - fee)
      && (f.shares == 0 ==> r.totalCash == f.totalCash)
      && (f.shares >= 0 ==>
            && r.shares == -Affordable(r.totalCash, weight, fee, price)
            && r.cash == (if f.shares > 0 then r.totalCash else f.cash) - (Notional(r.shares, price) + fee))
  {
  }

  /** An exit sells or buys back any position at the price, paying the fee,
      and leaves the ticker flat; the budget stays. */
  lemma TradeExit(f: Fill, price: real, weight: real, fee: real)
    requires price > 0.0
    ensures var r := Trade(f, price, 0, weight, fee);
      && r.shares == 0 && r.totalCash == f.totalCash
      && (f.shares != 0 ==> r.cash == f.cash + Notional(f.shares, price) - fee)
      && (f.shares == 0 ==> r == f)
  {
  }

  /** Hold (2) and every other signal change nothing. */
  lemma TradeIgnored(f: Fill, price: real, signal: int, weight: real, fee: real)
    requires price > 0.0 && signal != 1 && signal != -1 && signal != 0
    ensures Trade(f, price, signal, weight, fee) == f
  {
  }

  /** Fees a signal incurs: one per buy or sell, two when a short signal
      sells a long position and then shorts. */
  ghost function FillCount(f: Fill, price: real, signal: int, weight: real, fee: real): nat
    requires price > 0.0
  {
    if signal == 1 then (if Affordable(f.totalCash, weight, fee, price) > 0 then 1 else 0)
    else if signal == -1 then (if f.shares > 0 then 2 else if f.shares == 0 then 1 else 0)
    else if signal == 0 then (if f.shares != 0 then 1 else 0)
    else 0
  }

  /** Trades happen at the bar's price: marked at that price, a trade changes
      the ticker's equity by exactly minus one fee per fill. */
  lemma TradeConservesEquity(f: Fill, price: real, signal: int, weight: real, fee: real)
    requires price > 0.0
    ensures Equity(Trade(f, price, signal, weight, fee), price)
         == Equity(f, price) - FillCount(f, price, signal, weight, fee) as real * fee
  {
    var r := Trade(f, price, signal, weight, fee);
    if signal == 1 {
      var m := Affordable(f.totalCash, weight, fee, price);
      if m > 0 {
        TradeLong(f, price, weight, fee);
        assert r == Fill(f.cash - (Notional(m, price) + fee), f.totalCash, f.shares + m);
        assert FillCount(f, price, signal, weight, fee) == 1;
        NotionalAdd(f.shares, m, price);
      }
    } else if signal == -1 {
      if f.shares > 0 {
        var c := f.cash + (Notional(f.shares, price) - fee);
        var m := -Affordable(c, weight, fee, price);
        assert r == Fill(c - (Notional(m, price) + fee), c, m);
      } else if f.shares == 0 {
        var m := -Affordable(f.totalCash, weight, fee, price);
        assert r == Fill(f.cash - (Notional(m, price) + fee), f.totalCash, m);
      }
    }
  }

  /** The short branch has no zero-share guard: from flat with a budget below
      the fee, floor gives a negative count and its negation a POSITIVE one,
      so the "short" buys shares and pays for them plus the fee. */
  lemma ShortBelowFeeGoesLong(f: Fill, price: real, weight: real, fee: real)
    requires price > 0.0 && f.shares == 0
    requires f.totalCash * weight < fee
    ensures Trade(f, price, -1, weight, fee).shares > 0
    ensures Trade(f, price, -1, weight, fee).cash < f.cash - fee
  {
    var m := Affordable(f.totalCash, weight, fee, price);
    NotionalIsProduct(m, price);
    NotionalIsProduct(-m, price);
    if m >= 0 {
      MulSign(m as real, price);
    }
    MulSign((-m) as real, price);
  }

  /** A short from flat always pays the fee, even when it shorts no shares. */
  lemma ShortFromFlatAlwaysPaysFee(f: Fill, price: real, weight: real, fee: real)
    requires price > 0.0 && f.shares == 0
    requires Affordable(f.totalCash, weight, fee, price) == 0
    ensures Trade(f, price, -1, weight, fee) == f.(cash := f.cash - fee)
  {
  }

  /** After signal handling a short position pays |shares*price*rate| for the
      bar; flat and long positions pay nothing. */
  function Borrow(f: Fill, price: real, dailyRate: real): (r: Fill)
    ensures r.shares == f.shares && r.totalCash == f.totalCash
    ensures r.cash <= f.cash
    ensures f.shares >= 0 ==> r.cash == f.cash
  {
    if f.shares < 0 then f.(cash := f.cash - Abs(Notional(f.shares, price) * dailyRate)) else f
  }

  /** The state carried through one bar: shared cash, the bar's budget, and the
      share count of every ticker. */
  datatype Book = Book(cash: real, totalCash: real, shares: seq<int>)

  predicate PositivePrices(prices: seq<real>) {
    forall t :: 0 <= t < |prices| ==> prices[t] > 0.0
  }

  /** Ticker t's signal handling followed by its borrow charge. */
  ghost function TickerStep(b: Book, t: nat, prices: seq<real>, signals: seq<int>, weights: seq<real>,
                      fee: real, dailyRate: real): (r: Book)
    requires t < |b.shares| == |prices| == |signals| == |weights|
    requires PositivePrices(prices)
    ensures |r.shares| == |b.shares|
    ensures forall u :: 0 <= u < |b.shares| && u != t ==> r.shares[u] == b.shares[u]
  {
    var f := Borrow(Trade(Fill(b.cash, b.totalCash, b.shares[t]), prices[t], signals[t], weights[t], fee),
                    prices[t], dailyRate);
    Book(f.cash, f.totalCash, b.shares[t := f.shares])
  }

  /** The first k tickers of one bar, processed in column order. */
  ghost function BarPrefix(open: Book, prices: seq<real>, signals: seq<int>, weights: seq<real>,
                     fee: real, dailyRate: real, k: nat): (b: Book)
    requires k <= |open.shares| == |prices| == |signals| == |weights|
    requires PositivePrices(prices)
    ensures |b.shares| == |open.shares|
    ensures forall u :: k <= u < |open.shares| ==> b.shares[u] == open.shares[u]
    decreases k
  {
    if k == 0 then open
    else TickerStep(BarPrefix(open, prices, signals, weights, fee, dailyRate, k - 1),
                    k - 1, prices, signals, weights, fee, dailyRate)
  }

  /** Sum over the tickers of shares times one price. */
  function Marked(shares: seq<int>, price: real): real {
    if |shares| == 0 then 0.0 else Notional(shares[0], price) + Marked(shares[1..], price)
  }

  /** The price the value line multiplies by: the loop variable `price` leaks
      out of the ticker loop, so it is the last column's price. */
  function LastPrice(prices: seq<real>): real {
    if |prices| == 0 then 0.0 else prices[|prices| - 1]
  }

  /** The recorded portfolio value of a bar: cash plus every holding times the
      last column's price; for one ticker, cash plus shares times its price. */
  function BarValue(cash: real, shares: seq<int>, prices: seq<real>): (v: real)
    requires |shares| == |prices|
    ensures |prices| == 1 ==> v == cash + Notional(shares[0], prices[0])
  {
    assert |shares| == 1 ==> Marked(shares[1..], LastPrice(prices)) == 0.0;
    cash + Marked(shares, LastPrice(prices))
  }

  /** Tables aligned with the price data: one row per date, one entry per ticker. */
  predicate Shaped(data: seq<seq<real>>, signals: seq<seq<int>>, weights: seq<seq<real>>, n: nat) {
    && |signals| == |data| && |weights| == |data|
    && (forall d :: 0 <= d < |data| ==> |data[d]| == n && |signals[d]| == n && |weights[d]| == n)
    && (forall d :: 0 <= d < |data| ==> PositivePrices(data[d]))
  }

  /** Cash, holdings and the recorded values after some bars. */
  datatype Run = Run(cash: real, shares: seq<int>, values: seq<real>)

  /** The first d bars: each bar opens with total_cash equal to cash, processes
      every ticker and records exactly one value. */
  ghost function RunPrefix(cash0: real, shares0: seq<int>, data: seq<seq<real>>, signals: seq<seq<int>>,
                     weights: seq<seq<real>>, fee: real, dailyRate: real, d: nat): (r: Run)
    requires Shaped(data, signals, weights, |shares0|) && d <= |data|
    ensures |r.shares| == |shares0| && |r.values| == d
    decreases d
  {
    if d == 0 then Run(cash0, shares0, [])
    else
      var prev := RunPrefix(cash0, shares0, data, signals, weights, fee, dailyRate, d - 1);
      var b := BarPrefix(Book(prev.cash, prev.cash, prev.shares), data[d - 1], signals[d - 1],
                         weights[d - 1], fee, dailyRate, |shares0|);
      Run(b.cash, b.shares, prev.values + [BarValue(b.cash, b.shares, data[d - 1])])
  }

  /** One more date runs one bar from the previous cash, which is also the
      bar's budget, and appends that bar's value. */
  lemma RunPrefixStep(cash0: real, shares0: seq<int>, data: seq<seq<real>>, signals: seq<seq<int>>,
                      weights: seq<seq<real>>, fee: real, dailyRate: real, d: nat)
    requires Shaped(data, signals, weights, |shares0|) && d < |data|
    ensures var prev := RunPrefix(cash0, shares0, data, signals, weights, fee, dailyRate, d);
      var b := BarPrefix(Book(prev.cash, prev.cash, prev.shares), data[d], signals[d], weights[d],
                         fee, dailyRate, |shares0|);
      RunPrefix(cash0, shares0, data, signals, weights, fee, dailyRate, d + 1)
        == Run(b.cash, b.shares, prev.values + [BarValue(b.cash, b.shares, data[d])])
  {
  }

  /** Later dates never rewrite the values recorded for earlier ones. */
  lemma {:induction false} RunPrefixStable(cash0: real, shares0: seq<int>, data: seq<seq<real>>,
      signals: seq<seq<int>>, weights: seq<seq<real>>, fee: real, dailyRate: real, e: nat, d: nat)
    requires Shaped(data, signals, weights, |shares0|) && e <= d <= |data|
    ensures RunPrefix(cash0, shares0, data, signals, weights, fee, dailyRate, e).values
         == RunPrefix(cash0, shares0, data, signals, weights, fee, dailyRate, d).values[..e]
    decreases d
  {
    if e < d {
      RunPrefixStable(cash0, shares0, data, signals, weights, fee, dailyRate, e, d - 1);
      RunValuesGrow(cash0, shares0, data, signals, weights, fee, dailyRate, d);
      SliceOfSlice(RunPrefix(cash0, shares0, data, signals, weights, fee, dailyRate, e).values,
                   RunPrefix(cash0, shares0, data, signals, weights, fee, dailyRate, d - 1).values,
                   RunPrefix(cash0, shares0, data, signals, weights, fee, dailyRate, d).values, e);
    }
  }

  /** A prefix of a prefix is a prefix. */
  lemma SliceOfSlice(x: seq<real>, before: seq<real>, after: seq<real>, e: nat)
    requires e <= |before| <= |after| && x == before[..e] && before == after[..|before|]
    ensures x == after[..e]
  {
    assert after[..e] == after[..|before|][..e];
  }

  /** A date only appends to the values recorded so far. */
  lemma RunValuesGrow(cash0: real, shares0: seq<int>, data: seq<seq<real>>, signals: seq<seq<int>>,
                      weights: seq<seq<real>>, fee: real, dailyRate: real, d: nat)
    requires Shaped(data, signals, weights, |shares0|) && 0 < d <= |data|
    ensures RunPrefix(cash0, shares0, data, signals, weights, fee, dailyRate, d - 1).values
         == RunPrefix(cash0, shares0, data, signals, weights, fee, dailyRate, d).values[..d - 1]
  {
    RunPrefixStep(cash0, shares0, data, signals, weights, fee, dailyRate, d - 1);
  }

  /** The value recorded for date e is that date's closing cash plus its
      closing holdings, all marked at the last column's price of date e. */
  lemma RunPrefixValues(cash0: real, shares0: seq<int>, data: seq<seq<real>>, signals: seq<seq<int>>,
                        weights: seq<seq<real>>, fee: real, dailyRate: real, d: nat)
    requires Shaped(data, signals, weights, |shares0|) && d <= |data|
    ensures forall e :: 0 <= e < d ==>
      var close := RunPrefix(cash0, shares0, data, signals, weights, fee, dailyRate, e + 1);
      RunPrefix(cash0, shares0, data, signals, weights, fee, dailyRate, d).values[e]
        == close.cash + Marked(close.shares, LastPrice(data[e]))
  {
    forall e | 0 <= e < d
      ensures var close := RunPrefix(cash0, shares0, data, signals, weights, fee, dailyRate, e + 1);
        RunPrefix(cash0, shares0, data, signals, weights, fee, dailyRate, d).values[e]
          == close.cash + Marked(close.shares, LastPrice(data[e]))
    {
      RunPrefixStable(cash0, shares0, data, signals, weights, fee, dailyRate, e + 1, d);
      RunPrefixStep(cash0, shares0, data, signals, weights, fee, dailyRate, e);
    }
  }

  predicate AllHold(signals: seq<seq<int>>) {
    forall d, t :: 0 <= d < |signals| && 0 <= t < |signals[d]| ==> signals[d][t] == 2
  }

  /** With nothing short, an all-hold signal table leaves cash and holdings
      untouched, so every recorded value is the starting cash plus the
      holdings at that bar's last price. */
  lemma {:induction false} AllHoldKeepsCash(cash0: real, shares0: seq<int>, data: seq<seq<real>>,
      signals: seq<seq<int>>, weights: seq<seq<real>>, fee: real, dailyRate: real, d: nat)
    requires Shaped(data, signals, weights, |shares0|) && d <= |data|
    requires AllHold(signals)
    requires forall t :: 0 <= t < |shares0| ==> shares0[t] >= 0
    ensures RunPrefix(cash0, shares0, data, signals, weights, fee, dailyRate, d).cash == cash0
    ensures RunPrefix(cash0, shares0, data, signals, weights, fee, dailyRate, d).shares == shares0
    ensures forall e :: 0 <= e < d ==>
      RunPrefix(cash0, shares0, data, signals, weights, fee, dailyRate, d).values[e]
        == cash0 + Marked(shares0, LastPrice(data[e]))
  {
    if d > 0 {
      var prev := RunPrefix(cash0, shares0, data, signals, weights, fee, dailyRate, d - 1);
      AllHoldKeepsCash(cash0, shares0, data, signals, weights, fee, dailyRate, d - 1);
      var open := Book(cash0, cash0, shares0);
      var bar := signals[d - 1];
      assert forall t :: 0 <= t < |bar| ==> bar[t] == 2;
      HoldBarChangesNothing(open, data[d - 1], bar, weights[d - 1], fee, dailyRate, |shares0|);
      var value := BarValue(cash0, shares0, data[d - 1]);
      assert value == cash0 + Marked(shares0, LastPrice(data[d - 1]));
      var values := prev.values + [value];
      assert RunPrefix(cash0, shares0, data, signals, weights, fee, dailyRate, d) == Run(cash0, shares0, values);
      forall e | 0 <= e < d
        ensures values[e] == cash0 + Marked(shares0, LastPrice(data[e]))
      {
        if e < d - 1 {
          assert values[e] == prev.values[e];
        }
      }
    }
  }

  lemma {:induction false} HoldBarChangesNothing(open: Book, prices: seq<real>, signals: seq<int>,
      weights: seq<real>, fee: real, dailyRate: real, k: nat)
    requires k <= |open.shares| == |prices| == |signals| == |weights|
    requires PositivePrices(prices)
    requires forall t :: 0 <= t < |signals| ==> signals[t] == 2
    requires forall t :: 0 <= t < |open.shares| ==> open.shares[t] >= 0
    ensures BarPrefix(open, prices, signals, weights, fee, dailyRate, k) == open
  {
    if k > 0 {
      HoldBarChangesNothing(open, prices, signals, weights, fee, dailyRate, k - 1);
      assert open.shares[k - 1 := open.shares[k - 1]] == open.shares;
    }
  }

  /** `total_cash` is the bar-opening cash: long and hold signals never
      change it, so every buy in a bar is sized against the same budget, and
      they never reduce a holding. */
  lemma {:induction false} LongBarKeepsBudget(open: Book, prices: seq<real>, signals: seq<int>,
      weights: seq<real>, fee: real, dailyRate: real, k: nat)
    requires k <= |open.shares| == |prices| == |signals| == |weights|
    requires PositivePrices(prices)
    requires forall t :: 0 <= t < |signals| ==> signals[t] == 1 || signals[t] == 2
    ensures BarPrefix(open, prices, signals, weights, fee, dailyRate, k).totalCash == open.totalCash
    ensures forall t :: 0 <= t < |open.shares| ==>
      BarPrefix(open, prices, signals, weights, fee, dailyRate, k).shares[t] >= open.shares[t]
  {
    if k > 0 {
      LongBarKeepsBudget(open, prices, signals, weights, fee, dailyRate, k - 1);
      var b := BarPrefix(open, prices, signals, weights, fee, dailyRate, k - 1);
      var f := Fill(b.cash, b.totalCash, b.shares[k - 1]);
      if signals[k - 1] == 1 {
        TradeLong(f, prices[k - 1], weights[k - 1], fee);
      } else {
        TradeIgnored(f, prices[k - 1], signals[k - 1], weights[k - 1], fee);
      }
    }
  }

  /** With 1000 cash, weight 1 and no fee, a long at price 100 buys all ten
      affordable shares and spends the whole budget. */
  lemma LongBuysWholeBudget(dailyRate: real)
    ensures BarPrefix(Book(1000.0, 1000.0, [0]), [100.0], [1], [1.0], 0.0, dailyRate, 1)
         == Book(0.0, 1000.0, [10])
  {
    NotionalIsProduct(10, 100.0);
    BracketsUnique(10, Affordable(1000.0, 1.0, 0.0, 100.0), 1000.0, 100.0);
    assert Trade(Fill(1000.0, 1000.0, 0), 100.0, 1, 1.0, 0.0) == Fill(0.0, 1000.0, 10);
  }

  /** An exit sells the whole holding at the bar's price: ten shares at 90
      bring 900 cash and leave the ticker flat. */
  lemma ExitSellsHolding(dailyRate: real)
    ensures BarPrefix(Book(0.0, 0.0, [10]), [90.0], [0], [1.0], 0.0, dailyRate, 1)
         == Book(900.0, 0.0, [0])
  {
    NotionalIsProduct(10, 90.0);
    assert Trade(Fill(0.0, 0.0, 10), 90.0, 0, 1.0, 0.0) == Fill(900.0, 0.0, 0);
  }

  /** The simulator object: the price table, fee and rates are fixed at
      construction; `portfolio` (share counts by column), `portfolioValue` and
      `portfolioReturns` are updated in place. */
  class BacktestTrader {
    const data: seq<seq<real>>
    const numTickers: nat
    const startingCash: real
    const transactionFee: real
    const borrowRate: real
    var portfolio: seq<int>
    var portfolioValue: seq<real>
    var portfolioReturns: seq<real>

    ghost predicate Valid()
      reads this
    {
      && |portfolio| == numTickers
      && (forall d :: 0 <= d < |data| ==> |data[d]| == numTickers && PositivePrices(data[d]))
    }

    /** A fresh simulator holds no shares and has recorded nothing. */
    constructor (data: seq<seq<real>>, numTickers: nat, startingCash: real := 10000.0,
                 transactionFee: real := 10.0, borrowRate: real := 0.02)
      requires forall d :: 0 <= d < |data| ==> |data[d]| == numTickers && PositivePrices(data[d])
      ensures Valid()
      ensures this.data == data && this.numTickers == numTickers && this.startingCash == startingCash
      ensures this.transactionFee == transactionFee && this.borrowRate == borrowRate
      ensures portfolio == seq(numTickers, _ => 0)
      ensures portfolioValue == [] && portfolioReturns == []
    {
      this.data := data;
      this.numTickers := numTickers;
      this.startingCash := startingCash;
      this.transactionFee := transactionFee;
      this.borrowRate := borrowRate;
      portfolio := seq(numTickers, _ => 0);
      portfolioValue := [];
      portfolioReturns := [];
    }

    /** Walks the dates in order with cash reset to the starting cash and the
        holdings carried over, appends one value per date to the value history,
        and recomputes the returns history from the whole value history. */
    method RunBacktest(signals: seq<seq<int>>, weights: seq<seq<real>>)
      requires Valid()
      requires Shaped(data, signals, weights, numTickers)
      modifies this
      ensures Valid()
      ensures var run := RunPrefix(startingCash, old(portfolio), data, signals, weights,
                                   transactionFee, borrowRate / TradingDays, |data|);
        && portfolio == run.shares
        && portfolioValue == old(portfolioValue) + run.values
      ensures portfolioReturns == Performance.PctChange(portfolioValue)
    {
      var cash := startingCash;
      var dailyBorrowRate := borrowRate / TradingDays;
      ghost var shares0, values0 := portfolio, portfolioValue;
      var d := 0;
      while d < |data|
        invariant 0 <= d <= |data|
        invariant Valid()
        invariant var run := RunPrefix(startingCash, shares0, data, signals, weights,
                                       transactionFee, dailyBorrowRate, d);
          cash == run.cash && portfolio == run.shares && portfolioValue == values0 + run.values
      {
        ghost var prev := RunPrefix(startingCash, shares0, data, signals, weights,
                                    transactionFee, dailyBorrowRate, d);
        var value;
        cash, value := RunBar(cash, data[d], signals[d], weights[d], dailyBorrowRate);
        portfolioValue := portfolioValue + [value];
        RunPrefixStep(startingCash, shares0, data, signals, weights, transactionFee, dailyBorrowRate, d);
        d := d + 1;
      }
      portfolioReturns := Performance.PctChange(portfolioValue);
    }

    /** One date: every ticker in column order against the bar-opening budget,
        then the bar's value from the cash and the holdings. */
    method RunBar(cash0: real, dailyPrices: seq<real>, dailySignals: seq<int>, dailyWeights: seq<real>,
                  dailyBorrowRate: real) returns (cash: real, value: real)
      requires Valid()
      requires |dailyPrices| == |dailySignals| == |dailyWeights| == numTickers
      requires PositivePrices(dailyPrices)
      modifies this`portfolio
      ensures Valid()
      ensures var b := BarPrefix(Book(cash0, cash0, old(portfolio)), dailyPrices, dailySignals, dailyWeights,
                                 transactionFee, dailyBorrowRate, numTickers);
        cash == b.cash && portfolio == b.shares && value == BarValue(b.cash, b.shares, dailyPrices)
    {
      cash := cash0;
      var totalCash := cash;
      ghost var open := Book(cash, cash, portfolio);
      var price := 0.0;
      var t := 0;
      while t < numTickers
        invariant 0 <= t <= numTickers
        invariant |portfolio| == numTickers
        invariant Book(cash, totalCash, portfolio)
               == BarPrefix(open, dailyPrices, dailySignals, dailyWeights, transactionFee, dailyBorrowRate, t)
        invariant t > 0 ==> price == dailyPrices[t - 1]
      {
        price := dailyPrices[t];
        var f := HandleTicker(cash, totalCash, portfolio[t], price, dailySignals[t], dailyWeights[t],
                              dailyBorrowRate);
        cash, totalCash := f.cash, f.totalCash;
        portfolio := portfolio[t := f.shares];
        t := t + 1;
      }
      assert numTickers > 0 ==> price == LastPrice(dailyPrices);
      assert numTickers == 0 ==> Marked(portfolio, price) == Marked(portfolio, LastPrice(dailyPrices));
      value := cash + Marked(portfolio, price);
    }

    /** One ticker's signal handling followed by its borrow charge, on the
        bar's running cash, the bar's budget and the ticker's share count. */
    method HandleTicker(cash: real, totalCash: real, shares: int, price: real, signal: int,
                        weight: real, dailyBorrowRate: real) returns (f: Fill)
      requires price > 0.0
      ensures f == Borrow(Trade(Fill(cash, totalCash, shares), price, signal, weight, transactionFee),
                          price, dailyBorrowRate)
    {
      ghost var traded := Trade(Fill(cash, totalCash, shares), price, signal, weight, transactionFee);
      var cash, totalCash, currShares := cash, totalCash, shares;
      if signal == 1 {
        var maxShares := MaxShares(totalCash, weight, transactionFee, price);
        if maxShares > 0 {
          currShares := currShares + maxShares;
          cash := cash - (Notional(maxShares, price) + transactionFee);
        }
        assert Fill(cash, totalCash, currShares) == traded;
      } else if signal == -1 {
        if currShares > 0 {
          cash := cash + (Notional(currShares, price) - transactionFee);
          totalCash := cash;
          currShares := 0;
        }
        if currShares == 0 {
          var affordable := MaxShares(totalCash, weight, transactionFee, price);
          currShares := -affordable;
          cash := cash - (Notional(-affordable, price) + transactionFee);
        }
        assert Fill(cash, totalCash, currShares) == traded;
      } else if signal == 0 {
        if currShares != 0 {
          cash := cash + (Notional(currShares, price) - transactionFee);
          currShares := 0;
        }
        assert Fill(cash, totalCash, currShares) == traded;
      } else {
        assert Fill(cash, totalCash, currShares) == traded;
      }
      if currShares < 0 {
        cash := cash - Abs(Notional(currShares, price) * dailyBorrowRate);
      }
      f := Fill(cash, totalCash, currShares);
    }

    /** The performance summary of the recorded history; asking before any
        value was recorded is an error. */
    function GetResults(gmean: seq<real> -> real, dataFreq: string): (r: Result<Performance.Summary>)
      reads this
      ensures |portfolioValue| == 0 ==> r == Err(NotRun)
      ensures |portfolioValue| > 0 && portfolioValue[0] == 0.0 ==> r == Err(ZeroDivision)
      ensures r.Ok? ==> r.value.finalValue == portfolioValue[|portfolioValue| - 1]
      ensures r.Ok? ==>
        portfolioValue[0] * (1.0 + r.value.totalReturns) == portfolioValue[|portfolioValue| - 1]
      ensures r.Ok? ==> r.value.averageReturns == gmean(Performance.OnePlus(portfolioReturns)) - 1.0
      ensures r.Ok? && dataFreq == "D" ==>
        r.value.annualReturns == Pow(1.0 + r.value.averageReturns, 252) - 1.0
      ensures r.Ok? && dataFreq == "W" ==>
        r.value.annualReturns == Pow(1.0 + r.value.averageReturns, 52) - 1.0
      ensures r.Ok? && dataFreq == "MS" ==>
        r.value.annualReturns == Pow(1.0 + r.value.averageReturns, 12) - 1.0
      ensures r.Ok? && Performance.PeriodsPerYear(dataFreq).None? ==>
        r.value.annualReturns == r.value.averageReturns
    {
      if |portfolioValue| == 0 then Err(NotRun)
      else Performance.Summarise(portfolioValue, portfolioReturns, gmean, dataFreq)
    }
  }
}
