/** The walk-forward backtest of a portfolio-generating strategy: on each date
    of a trading grid the strategy is fitted on the trailing window of prices
    and its allocation is held until the next grid date; the value history
    compounds the weighted price changes of those holding periods. */
module WalkForward {
  import opened Common
  import opened Frames
  import Performance

  /** One `portfolios` entry: bought on one grid date, held to the next. */
  datatype Rebalance = Rebalance(purchaseDate: int, predictionDate: int, allocation: Allocation)

  /** A holding period between two consecutive grid dates. */
  datatype Period = Period(purchaseDate: int, predictionDate: int)

  /** A fold that stops at the first exception: the entries produced before
      it, and the exception if one was raised. */
  datatype Progress<T> = Progress(done: seq<T>, failure: Option<Error>)

  /** The first n steps of a fold that stops at the first exception. */
  function Collect<A, B>(xs: seq<A>, step: A -> Result<B>, n: nat): (p: Progress<B>)
    requires n <= |xs|
    ensures |p.done| <= n
    ensures p.failure.None? <==> |p.done| == n
    decreases n
  {
    if n == 0 then Progress([], None)
    else
      var p := Collect(xs, step, n - 1);
      if p.failure.Some? then p
      else match step(xs[n - 1])
        case Ok(y) => Progress(p.done + [y], None)
        case Err(e) => Progress(p.done, Some(e))
  }

  /** Entry i is what step i produced; a failure is the exception of the
      first step that raised one. */
  lemma {:induction false} CollectEntries<A, B>(xs: seq<A>, step: A -> Result<B>, n: nat)
    requires n <= |xs|
    ensures var p := Collect(xs, step, n);
      forall i :: 0 <= i < |p.done| ==> step(xs[i]) == Ok(p.done[i])
    ensures var p := Collect(xs, step, n);
      p.failure.Some? ==> step(xs[|p.done|]) == Err(p.failure.value)
    decreases n
  {
    if n > 0 {
      CollectEntries(xs, step, n - 1);
    }
  }

  /** Once a step has raised, a longer fold raises the same exception after
      the same entries. */
  lemma {:induction false} CollectStops<A, B>(xs: seq<A>, step: A -> Result<B>, m: nat, n: nat)
    requires m <= n <= |xs|
    requires Collect(xs, step, m).failure.Some?
    ensures Collect(xs, step, n) == Collect(xs, step, m)
    decreases n
  {
    if n > m {
      CollectStops(xs, step, m, n - 1);
    }
  }

  /** `test_dates[:-1]` paired with `test_dates[i + 1]`: every grid date but
      the last opens a holding period that ends on the next grid date. */
  function Periods(grid: seq<int>): (ps: seq<Period>)
    ensures |ps| == if |grid| == 0 then 0 else |grid| - 1
  {
    if |grid| == 0 then []
    else seq(|grid| - 1, i requires 0 <= i < |grid| - 1 => Period(grid[i], grid[i + 1]))
  }

  /** `data.loc[date - window : date]`: the prices the strategy is fitted on.
      `lookBack` subtracts the fitting window in its calendar units. */
  function FitData(data: Frame, lookBack: int -> int, date: int): (f: Frame)
    requires |data.dates| == |data.rows|
    ensures |f.dates| == |f.rows|
  {
    Slice(data, lookBack(date), date)
  }

  /** The strategy's allocation (or exception) for each purchase date. */
  function Fitting(data: Frame, lookBack: int -> int, strategy: Frame -> Result<Allocation>)
    : int -> Result<Allocation>
    requires |data.dates| == |data.rows|
  {
    (date: int) => strategy(FitData(data, lookBack, date))
  }

  /** The strategy never sees a price after the purchase date, and it sees
      every price of the fitting window. */
  lemma NoLookAhead(data: Frame, lookBack: int -> int, date: int)
    requires |data.dates| == |data.rows| && Increasing(data.dates)
    ensures forall d :: d in FitData(data, lookBack, date).dates ==> d <= date
    ensures forall d :: d in data.dates && lookBack(date) <= d <= date ==>
      d in FitData(data, lookBack, date).dates
  {
    SliceSelectsSpan(data, lookBack(date), date);
  }

  /** One plan entry: the allocation decided on the purchase date, or the
      exception raised deciding it. */
  function Rebalancing(decide: int -> Result<Allocation>): Period -> Result<Rebalance> {
    (period: Period) => match decide(period.purchaseDate)
      case Ok(a) => Ok(Rebalance(period.purchaseDate, period.predictionDate, a))
      case Err(e) => Err(e)
  }

  /** The rebalancing plan of the first n periods, or the first exception. */
  function Planned(grid: seq<int>, decide: int -> Result<Allocation>, n: nat): (p: Progress<Rebalance>)
    requires n <= |Periods(grid)|
  {
    Collect(Periods(grid), Rebalancing(decide), n)
  }

  /** Entry i is bought on grid date i, held to grid date i + 1, and holds
      what was decided on grid date i; a failure is the exception raised on
      the first date whose decision failed. */
  lemma PlanEntries(grid: seq<int>, decide: int -> Result<Allocation>)
    ensures var p := Planned(grid, decide, |Periods(grid)|);
      forall i :: 0 <= i < |p.done| ==>
        && p.done[i].purchaseDate == grid[i]
        && p.done[i].predictionDate == grid[i + 1]
        && decide(grid[i]) == Ok(p.done[i].allocation)
    ensures var p := Planned(grid, decide, |Periods(grid)|);
      p.failure.Some? ==> decide(grid[|p.done|]) == Err(p.failure.value)
  {
    CollectEntries(Periods(grid), Rebalancing(decide), |Periods(grid)|);
  }

  /** A decided allocation extends the plan by one entry for the next period. */
  lemma PlannedStep(grid: seq<int>, decide: int -> Result<Allocation>, n: nat)
    requires n < |Periods(grid)|
    requires Planned(grid, decide, n).failure.None?
    requires decide(grid[n]).Ok?
    ensures Planned(grid, decide, n + 1)
      == Progress(Planned(grid, decide, n).done + [Rebalance(grid[n], grid[n + 1], decide(grid[n]).value)], None)
  {
    assert Periods(grid)[n] == Period(grid[n], grid[n + 1]);
  }

  /** Consecutive holding periods meet: each is sold on the date the next is bought. */
  lemma HoldingPeriodsTile(grid: seq<int>, decide: int -> Result<Allocation>)
    ensures var p := Planned(grid, decide, |Periods(grid)|);
      forall i :: 0 <= i < |p.done| - 1 ==> p.done[i].predictionDate == p.done[i + 1].purchaseDate
  {
    PlanEntries(grid, decide);
  }

  /** Every held ticker is a column of both price rows, priced above zero at the start. */
  predicate Priced(a: Allocation, first: seq<real>, last: seq<real>) {
    forall j :: 0 <= j < |a| ==>
      a[j].ticker < |first| && a[j].ticker < |last| && first[a[j].ticker] > 0.0
  }

  /** `(end_price - start_price) / start_price` for one ticker. */
  function Change(start: real, end: real): real
    requires start != 0.0
  {
    (end - start) / start
  }

  /** One holding's weighted price change. */
  function Weighted(h: Holding, first: seq<real>, last: seq<real>): real
    requires h.ticker < |first| && h.ticker < |last| && first[h.ticker] > 0.0
  {
    h.weight * Change(first[h.ticker], last[h.ticker])
  }

  /** `np.dot(weights, actual_returns)` over the allocation in order. */
  function Dot(a: Allocation, first: seq<real>, last: seq<real>): real
    requires Priced(a, first, last)
    decreases |a|
  {
    if |a| == 0 then 0.0
    else Dot(a[..|a| - 1], first, last) + Weighted(a[|a| - 1], first, last)
  }

  /** Whether every ticker of the allocation is a column of a `width`-column table. */
  predicate Columns(a: Allocation, width: nat) {
    forall j :: 0 <= j < |a| ==> a[j].ticker < width
  }

  /** Every row of a slice of a well-formed table has all columns, all priced above zero. */
  lemma SliceRowsPriced(data: Frame, width: nat, lo: int, hi: int)
    requires WellFormed(data, width)
    ensures forall k, c :: 0 <= k < |Slice(data, lo, hi).rows| && 0 <= c < width ==>
      |Slice(data, lo, hi).rows[k]| == width && Slice(data, lo, hi).rows[k][c] > 0.0
  {
    var g := Slice(data, lo, hi);
    SliceSelectsSpan(data, lo, hi);
    forall k, c | 0 <= k < |g.rows| && 0 <= c < width
      ensures |g.rows[k]| == width && g.rows[k][c] > 0.0
    {
      var i :| 0 <= i < |data.dates| && g.dates[k] == data.dates[i] && g.rows[k] == data.rows[i];
    }
  }

  /** The return of one holding period: nothing for an empty allocation (the
      value is carried over), a KeyError for a ticker that is not a column, an
      IndexError when no trading date lies in the period, and otherwise the
      weighted price changes from the period's first to its last row. */
  function PeriodReturn(data: Frame, width: nat, p: Rebalance): (r: Result<real>)
    requires WellFormed(data, width)
    ensures p.allocation == [] ==> r == Ok(0.0)
    ensures p.allocation != [] && !Columns(p.allocation, width) ==> r == Err(KeyError)
    ensures r.Err? ==> r.error == KeyError || r.error == IndexError
    ensures p.allocation != [] && Columns(p.allocation, width) && Increasing(data.dates) ==>
      (r.Err? <==> forall d :: d in data.dates ==> !(p.purchaseDate <= d <= p.predictionDate))
  {
    if p.allocation == [] then Ok(0.0)
    else if !Columns(p.allocation, width) then Err(KeyError)
    else
      var held := Slice(data, p.purchaseDate, p.predictionDate);
      SliceSelectsSpan(data, p.purchaseDate, p.predictionDate);
      if |held.rows| == 0 then
        Err(IndexError)
      else
        SliceRowsPriced(data, width, p.purchaseDate, p.predictionDate);
        assert held.dates[0] in held.dates;
        Ok(Dot(p.allocation, held.rows[0], held.rows[|held.rows| - 1]))
  }

  /** A period in which no held price moved earns nothing. */
  lemma {:induction false} FlatPricesEarnNothing(a: Allocation, first: seq<real>, last: seq<real>)
    requires Priced(a, first, last)
    requires forall j :: 0 <= j < |a| ==> last[a[j].ticker] == first[a[j].ticker]
    ensures Dot(a, first, last) == 0.0
    decreases |a|
  {
    if |a| > 0 {
      FlatPricesEarnNothing(a[..|a| - 1], first, last);
    }
  }

  /** A long-only allocation does not lose in a period in which no held price fell. */
  lemma {:induction false} RisingPricesGainLongOnly(a: Allocation, first: seq<real>, last: seq<real>)
    requires Priced(a, first, last)
    requires forall j :: 0 <= j < |a| ==> a[j].weight >= 0.0
    requires forall j :: 0 <= j < |a| ==> last[a[j].ticker] >= first[a[j].ticker]
    ensures Dot(a, first, last) >= 0.0
    decreases |a|
  {
    if |a| > 0 {
      var h := a[|a| - 1];
      RisingPricesGainLongOnly(a[..|a| - 1], first, last);
      var f, l := first[h.ticker], last[h.ticker];
      DivBounds(l - f, f, 0.0, (l - f) / f);
      MulMonotone(h.weight, Change(f, l), 0.0);
    }
  }

  /** The sum of the allocation's weights. */
  function Weights(a: Allocation): real
    decreases |a|
  {
    if |a| == 0 then 0.0 else Weights(a[..|a| - 1]) + a[|a| - 1].weight
  }

  /** The value of the positions bought with `value * weight` at the first row,
      marked at the last row. */
  function HeldValue(value: real, a: Allocation, first: seq<real>, last: seq<real>): real
    requires Priced(a, first, last)
    decreases |a|
  {
    if |a| == 0 then 0.0
    else
      var h := a[|a| - 1];
      HeldValue(value, a[..|a| - 1], first, last) + value * h.weight / first[h.ticker] * last[h.ticker]
  }

  lemma StepAlgebra(v: real, w: real, f: real, l: real)
    requires f > 0.0
    ensures v * (w * ((l - f) / f)) == v * w / f * l - v * w
  {
    var c := (l - f) / f;
    var b := v * w / f;
    assert c * f == l - f;
    assert b * f == v * w;
    assert (v * (w * c) - b * l + v * w) * f == 0.0;
  }

  /** Compounding a period's return is buying each holding with its weight's
      share of the value at the first price, keeping the rest in cash, and
      marking the positions at the last price. */
  lemma {:induction false} PeriodIsBuyAndHold(value: real, a: Allocation, first: seq<real>, last: seq<real>)
    requires Priced(a, first, last)
    ensures Performance.Grow(value, Dot(a, first, last))
      == value * (1.0 - Weights(a)) + HeldValue(value, a, first, last)
    decreases |a|
  {
    if |a| > 0 {
      var init, h := a[..|a| - 1], a[|a| - 1];
      PeriodIsBuyAndHold(value, init, first, last);
      var f, l := first[h.ticker], last[h.ticker];
      StepAlgebra(value, h.weight, f, l);
      var d, x := Dot(init, first, last), Weighted(h, first, last);
      assert value * (1.0 + (d + x)) == value * (1.0 + d) + value * x;
      assert value * (1.0 - (Weights(init) + h.weight)) == value * (1.0 - Weights(init)) - value * h.weight;
    }
  }

  /** The return of each plan entry over the given table. */
  function Realised(data: Frame, width: nat): Rebalance -> Result<real>
    requires WellFormed(data, width)
  {
    (entry: Rebalance) => PeriodReturn(data, width, entry)
  }

  /** The returns of the first n plan entries, or the exception of the first
      entry whose return could not be computed. */
  function Tracked(data: Frame, width: nat, plan: seq<Rebalance>, n: nat): (p: Progress<real>)
    requires WellFormed(data, width)
    requires n <= |plan|
  {
    Collect(plan, Realised(data, width), n)
  }

  /** A computed period return extends the returns by one. */
  lemma TrackedStep(data: Frame, width: nat, plan: seq<Rebalance>, n: nat)
    requires WellFormed(data, width)
    requires n < |plan|
    requires Tracked(data, width, plan, n).failure.None?
    requires PeriodReturn(data, width, plan[n]).Ok?
    ensures Tracked(data, width, plan, n + 1)
      == Progress(Tracked(data, width, plan, n).done + [PeriodReturn(data, width, plan[n]).value], None)
  {
    assert Realised(data, width)(plan[n]) == PeriodReturn(data, width, plan[n]);
  }

  /** On a fresh history `[v0] + Compound(v0, rets)` the final value is v0 times
      the growth of the returns and the total return is that growth less one. */
  lemma TotalReturnsCompound(v0: real, rets: seq<real>, gmean: seq<real> -> real, freq: string)
    ensures var r := Performance.Summarise([v0] + Performance.Compound(v0, rets), rets, gmean, freq);
      && (r.Err? <==> v0 == 0.0)
      && (r.Ok? ==> r.value.finalValue == v0 * Performance.Growth(rets))
      && (r.Ok? ==> r.value.totalReturns == Performance.Growth(rets) - 1.0)
  {
    var values := [v0] + Performance.Compound(v0, rets);
    var g := Performance.Growth(rets);
    if |rets| > 0 {
      Performance.CompoundIsGrowth(v0, rets);
      assert rets[..|rets|] == rets;
    }
    assert values[|values| - 1] == v0 * g;
    var r := Performance.Summarise(values, rets, gmean, freq);
    if r.Ok? {
      var t := r.value.totalReturns;
      assert values[0] * (1.0 + t) == values[|values| - 1];
      assert values[0] == v0;
      calc {
        v0 * (1.0 + t);
        values[|values| - 1];
        v0 * g;
      }
      assert v0 * ((1.0 + t) - g) == 0.0;
    }
  }

  /** Compounding one more return appends the last value grown by it. */
  lemma CompoundSnoc(v0: real, rets: seq<real>, x: real)
    ensures Performance.Compound(v0, rets + [x]) == Performance.Compound(v0, rets)
      + [Performance.Grow(if |rets| == 0 then v0 else Performance.Compound(v0, rets)[|rets| - 1], x)]
  {
    assert (rets + [x])[..|rets|] == rets;
  }

  /** Growing the last value of a history by one more return appends the next
      compounded value. */
  lemma HistoryStep(values0: seq<real>, v0: real, done: seq<real>, ret: real)
    requires |values0| > 0 && v0 == values0[|values0| - 1]
    ensures var values := values0 + Performance.Compound(v0, done);
      values0 + Performance.Compound(v0, done + [ret])
        == values + [Performance.Grow(values[|values| - 1], ret)]
  {
    CompoundSnoc(v0, done, ret);
  }

  class Backtest {
    const data: Frame
    const width: nat
    const strategy: Frame -> Result<Allocation>
    const tradingFreq: string
    const lookBack: int -> int
    const startingCash: real
    var portfolios: seq<Rebalance>
    var portfolioValues: seq<real>
    var portfolioReturns: seq<real>

    ghost predicate Valid()
      reads this
    {
      WellFormed(data, width) && |portfolioValues| > 0
    }

    /** A fresh backtest has no plan and a value history holding only the starting cash. */
    constructor (strategy: Frame -> Result<Allocation>, data: Frame, width: nat, tradingFreq: string,
                 lookBack: int -> int, startingCash: real := 10000.0)
      requires WellFormed(data, width)
      ensures Valid()
      ensures this.strategy == strategy && this.data == data && this.width == width
      ensures this.tradingFreq == tradingFreq && this.lookBack == lookBack
      ensures this.startingCash == startingCash
      ensures portfolios == [] && portfolioValues == [startingCash] && portfolioReturns == []
    {
      this.strategy := strategy;
      this.data := data;
      this.width := width;
      this.tradingFreq := tradingFreq;
      this.lookBack := lookBack;
      this.startingCash := startingCash;
      portfolios := [];
      portfolioValues := [startingCash];
      portfolioReturns := [];
    }

    /** Fits the strategy on every grid date but the last and appends one plan
        entry per date; an exception of the strategy stops the run and keeps
        the entries appended before it. */
    method RunBacktest(grid: seq<int>) returns (o: Outcome)
      requires Valid()
      modifies this`portfolios
      ensures Valid()
      ensures var p := Planned(grid, Fitting(data, lookBack, strategy), |Periods(grid)|);
        && portfolios == old(portfolios) + p.done
        && (o.Pass? <==> p.failure.None?)
        && (o.Fail? ==> p.failure == Some(o.error))
    {
      ghost var before := portfolios;
      ghost var decide := Fitting(data, lookBack, strategy);
      ghost var done: seq<Rebalance> := [];
      var periods := |grid| - 1;
      var i := 0;
      while i < periods
        invariant 0 <= i <= |Periods(grid)|
        invariant Planned(grid, decide, i) == Progress(done, None)
        invariant portfolios == before + done
      {
        var fitEnd := grid[i];
        var fitData := FitData(data, lookBack, fitEnd);
        var allocation := strategy(fitData);
        assert decide(fitEnd) == allocation;
        if allocation.Err? {
          assert Periods(grid)[i] == Period(fitEnd, grid[i + 1]);
          assert Planned(grid, decide, i + 1).failure.Some?;
          CollectStops(Periods(grid), Rebalancing(decide), i + 1, |Periods(grid)|);
          return Fail(allocation.error);
        }
        var entry := Rebalance(fitEnd, grid[i + 1], allocation.value);
        PlannedStep(grid, decide, i);
        portfolios := portfolios + [entry];
        done := done + [entry];
        i := i + 1;
      }
      return Pass;
    }

    /** Appends one value and one return per plan entry (an empty allocation
        carries the last value over with a zero return) and summarises the
        history; a period whose return cannot be computed stops with its
        exception and keeps what was appended before it. */
    method CalculatePerformance(gmean: seq<real> -> real) returns (r: Result<Performance.Summary>)
      requires Valid()
      modifies this`portfolioValues, this`portfolioReturns
      ensures Valid()
      ensures var t := Tracked(data, width, portfolios, |portfolios|);
        && portfolioReturns == old(portfolioReturns) + t.done
        && portfolioValues == old(portfolioValues)
             + Performance.Compound(old(portfolioValues)[|old(portfolioValues)| - 1], t.done)
        && (t.failure.Some? ==> r == Err(t.failure.value))
        && (t.failure.None? ==>
              r == Performance.Summarise(portfolioValues, portfolioReturns, gmean, tradingFreq))
    {
      var failure := TrackHoldings();
      if failure.Some? {
        return Err(failure.value);
      }
      r := Performance.Summarise(portfolioValues, portfolioReturns, gmean, tradingFreq);
    }

    /** The loop over the plan: one value and one return per entry, stopping
        at the first entry whose return cannot be computed. */
    method TrackHoldings() returns (failure: Option<Error>)
      requires Valid()
      modifies this`portfolioValues, this`portfolioReturns
      ensures Valid()
      ensures var t := Tracked(data, width, portfolios, |portfolios|);
        && portfolioReturns == old(portfolioReturns) + t.done
        && portfolioValues == old(portfolioValues)
             + Performance.Compound(old(portfolioValues)[|old(portfolioValues)| - 1], t.done)
        && failure == t.failure
    {
      ghost var values0, returns0 := portfolioValues, portfolioReturns;
      ghost var v0 := portfolioValues[|portfolioValues| - 1];
      ghost var done: seq<real> := [];
      var plan := portfolios;
      var i := 0;
      while i < |plan|
        invariant 0 <= i <= |plan|
        invariant |portfolioValues| > 0
        invariant Tracked(data, width, plan, i) == Progress(done, None)
        invariant portfolioReturns == returns0 + done
        invariant portfolioValues == values0 + Performance.Compound(v0, done)
      {
        var last := portfolioValues[|portfolioValues| - 1];
        var entry := plan[i];
        var ret: real;
        if entry.allocation == [] {
          ret := 0.0;
        } else {
          var period := PeriodReturn(data, width, entry);
          if period.Err? {
            assert Realised(data, width)(entry) == period;
            CollectStops(plan, Realised(data, width), i + 1, |plan|);
            return Some(period.error);
          }
          ret := period.value;
        }
        var value := if entry.allocation == [] then last else Performance.Grow(last, ret);
        assert value == Performance.Grow(last, ret);
        assert PeriodReturn(data, width, entry) == Ok(ret);
        TrackedStep(data, width, plan, i);
        HistoryStep(values0, v0, done, ret);
        portfolioValues := portfolioValues + [value];
        portfolioReturns := portfolioReturns + [ret];
        done := done + [ret];
        i := i + 1;
      }
      return None;
    }
  }
}
