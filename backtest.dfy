/** `computeIndicators` and `runBacktest` (lib/sim.ts:189-211, 582-631): the candles of every
    symbol, the indicator series computed over them, and the two simulations over the train and
    validate parts of the sessions, with their per-asset results merged. */
module Backtest {
  import opened Numeric
  import opened Types
  import opened Trading
  import opened Session
  import Simulator
  import Indicators
  import Candles
  import Metrics
  import Host

  // -----------------------------------------------------------------------------------------------
  // computeIndicators (lib/sim.ts:189-211)

  /** The message thrown for a definition that asks for more history than the symbol has. */
  function WarmupError(fn: IndicatorFn, symbol: string): string {
    "Insufficient warmup for " + FnName(fn) + " on " + symbol
  }

  /** The candles cover the definition's warmup and five sessions more. */
  predicate Enough(candles: seq<Candle>, d: IndicatorDef) {
    |candles| >= Indicators.Warmup(d.fn, d.period) + 5
  }

  /** The series a definition yields: ATR over the candles, the others over the closes, an omitted
      period read as 14. */
  function Values(candles: seq<Candle>, d: IndicatorDef): seq<Num> {
    Indicators.Apply(d.fn, candles, d.period.GetOr(14))
  }

  /** The indicator record of one symbol after the definitions `defs`, taken in order: a later
      definition with the same id replaces an earlier one, and the first definition the candles do
      not cover throws. */
  function IndicatorSeries(symbol: string, candles: seq<Candle>, defs: seq<IndicatorDef>)
    : (r: Result<map<string, seq<Num>>>)
    ensures r.Ok? ==> r.value.Keys == Ids(defs)
    ensures r.Ok? ==> forall id | id in r.value :: |r.value[id]| == |candles|
  {
    if defs == [] then Ok(map[])
    else
      match IndicatorSeries(symbol, candles, defs[..|defs| - 1])
      case Err(e) => Err(e)
      case Ok(m) =>
        var d := defs[|defs| - 1];
        if !Enough(candles, d) then Err(WarmupError(d.fn, symbol))
        else Ok(m[d.id := Values(candles, d)])
  }

  /** The record is computed exactly when the candles cover every definition. */
  lemma {:induction false} IndicatorSeriesOk(symbol: string, candles: seq<Candle>, defs: seq<IndicatorDef>)
    ensures IndicatorSeries(symbol, candles, defs).Ok? <==> forall i | 0 <= i < |defs| :: Enough(candles, defs[i])
  {
    if defs != [] {
      var init := defs[..|defs| - 1];
      IndicatorSeriesOk(symbol, candles, init);
      assert forall i | 0 <= i < |init| :: init[i] == defs[i];
    }
  }

  /** Otherwise the error names the first definition the candles do not cover, and the symbol. */
  lemma {:induction false} IndicatorSeriesFirstErr(symbol: string, candles: seq<Candle>, defs: seq<IndicatorDef>, i: nat)
    requires i < |defs| && !Enough(candles, defs[i])
    requires forall j | 0 <= j < i :: Enough(candles, defs[j])
    ensures IndicatorSeries(symbol, candles, defs) == Err(WarmupError(defs[i].fn, symbol))
    decreases |defs|
  {
    var init := defs[..|defs| - 1];
    if i == |defs| - 1 {
      IndicatorSeriesOk(symbol, candles, init);
      assert forall j | 0 <= j < |init| :: init[j] == defs[j];
    } else {
      IndicatorSeriesFirstErr(symbol, candles, init, i);
    }
  }

  /** The entry of an id is the series of the last definition with that id. */
  lemma {:induction false} IndicatorSeriesLastWins(symbol: string, candles: seq<Candle>, defs: seq<IndicatorDef>, i: nat)
    requires IndicatorSeries(symbol, candles, defs).Ok?
    requires i < |defs| && forall j | i < j < |defs| :: defs[j].id != defs[i].id
    ensures defs[i].id in IndicatorSeries(symbol, candles, defs).value
    ensures IndicatorSeries(symbol, candles, defs).value[defs[i].id] == Values(candles, defs[i])
  {
    var init := defs[..|defs| - 1];
    if i < |defs| - 1 {
      assert init[i] == defs[i];
      IndicatorSeriesLastWins(symbol, candles, init, i);
    }
  }

  /** The series `computeIndicators` records for one symbol. */
  predicate ComputedFor(symbol: string, candles: seq<Candle>, defs: seq<IndicatorDef>, se: Series) {
    && se.candles == candles
    && se.closes == Indicators.Closes(candles)
    && IndicatorSeries(symbol, candles, defs) == Ok(se.indicators)
  }

  /** The series of the symbols of `universe`, computed in order; the first symbol whose candles do
      not cover a definition throws. */
  function SeriesMap(universe: seq<string>, data: map<string, seq<Candle>>, defs: seq<IndicatorDef>)
    : (r: Result<map<string, Series>>)
    requires forall sym | sym in universe :: sym in data
    ensures r.Ok? ==> forall sym :: sym in r.value <==> sym in universe
    ensures r.Ok? ==> forall sym | sym in r.value :: sym in data && ComputedFor(sym, data[sym], defs, r.value[sym])
  {
    if universe == [] then Ok(map[])
    else
      var symbol := universe[|universe| - 1];
      var init := universe[..|universe| - 1];
      assert forall sym :: sym in universe <==> sym in init || sym == symbol by {
        assert universe == init + [symbol];
      }
      match SeriesMap(init, data, defs)
      case Err(e) => Err(e)
      case Ok(m) =>
        match IndicatorSeries(symbol, data[symbol], defs)
        case Err(e) => Err(e)
        case Ok(ind) => Ok(m[symbol := Series(data[symbol], Indicators.Closes(data[symbol]), ind)])
  }

  /** The series are computed exactly when every symbol's record is. */
  lemma {:induction false} SeriesMapOk(universe: seq<string>, data: map<string, seq<Candle>>, defs: seq<IndicatorDef>)
    requires forall sym | sym in universe :: sym in data
    ensures SeriesMap(universe, data, defs).Ok? <==>
            forall i | 0 <= i < |universe| :: IndicatorSeries(universe[i], data[universe[i]], defs).Ok?
  {
    if universe != [] {
      var init := universe[..|universe| - 1];
      SeriesMapOk(init, data, defs);
      assert forall i | 0 <= i < |init| :: init[i] == universe[i];
    }
  }

  /** Otherwise the error is that of the first symbol whose record fails. */
  lemma {:induction false} SeriesMapFirstErr(universe: seq<string>, data: map<string, seq<Candle>>, defs: seq<IndicatorDef>,
                                             i: nat)
    requires forall sym | sym in universe :: sym in data
    requires i < |universe| && IndicatorSeries(universe[i], data[universe[i]], defs).Err?
    requires forall j | 0 <= j < i :: IndicatorSeries(universe[j], data[universe[j]], defs).Ok?
    ensures SeriesMap(universe, data, defs) == Err(IndicatorSeries(universe[i], data[universe[i]], defs).error)
    decreases |universe|
  {
    var init := universe[..|universe| - 1];
    if i == |universe| - 1 {
      SeriesMapOk(init, data, defs);
      assert forall j | 0 <= j < |init| :: init[j] == universe[j];
    } else {
      assert init[i] == universe[i];
      assert forall j | 0 <= j < i :: init[j] == universe[j];
      SeriesMapFirstErr(init, data, defs, i);
    }
  }

  /** The throw in the inner loop of `computeIndicators` at definition `j` is the error of the
      symbol's record. */
  lemma ThrowsAt(symbol: string, candles: seq<Candle>, defs: seq<IndicatorDef>, j: nat)
    requires j < |defs| && IndicatorSeries(symbol, candles, defs[..j]).Ok? && !Enough(candles, defs[j])
    ensures IndicatorSeries(symbol, candles, defs) == Err(WarmupError(defs[j].fn, symbol))
  {
    IndicatorSeriesOk(symbol, candles, defs[..j]);
    assert forall k | 0 <= k < j :: defs[..j][k] == defs[k];
    IndicatorSeriesFirstErr(symbol, candles, defs, j);
  }

  /** A symbol whose record fails after the symbols before it succeeded makes the whole computation
      fail with its error. */
  lemma FailsAt(universe: seq<string>, data: map<string, seq<Candle>>, defs: seq<IndicatorDef>, i: nat)
    requires forall sym | sym in universe :: sym in data
    requires i < |universe| && SeriesMap(universe[..i], data, defs).Ok?
    requires IndicatorSeries(universe[i], data[universe[i]], defs).Err?
    ensures SeriesMap(universe, data, defs) == Err(IndicatorSeries(universe[i], data[universe[i]], defs).error)
  {
    SeriesMapOk(universe[..i], data, defs);
    assert forall k | 0 <= k < i :: universe[..i][k] == universe[k];
    SeriesMapFirstErr(universe, data, defs, i);
  }

  /** `computeIndicators(strategy, data)`: for each symbol of the universe, in order, its indicator
      record. */
  method ComputeIndicators(s: Strategy, data: map<string, seq<Candle>>) returns (r: Result<map<string, Series>>)
    requires forall sym | sym in s.universe :: sym in data
    ensures r == SeriesMap(s.universe, data, s.indicators)
  {
    var result := map[];
    for i := 0 to |s.universe|
      invariant SeriesMap(s.universe[..i], data, s.indicators) == Ok(result)
    {
      var symbol := s.universe[i];
      var candles := data[symbol];
      var closes := Indicators.Closes(candles);
      var indicators := ComputeSymbol(symbol, candles, s.indicators);
      if indicators.Err? {
        FailsAt(s.universe, data, s.indicators, i);
        return Err(indicators.error);
      }
      assert s.universe[..i + 1][..i] == s.universe[..i];
      result := result[symbol := Series(candles, closes, indicators.value)];
    }
    assert s.universe[..|s.universe|] == s.universe;
    r := Ok(result);
  }

  /** The inner loop of `computeIndicators`: for each definition, in order, the warmup check and
      then the indicator series. */
  method ComputeSymbol(symbol: string, candles: seq<Candle>, defs: seq<IndicatorDef>)
    returns (r: Result<map<string, seq<Num>>>)
    ensures r == IndicatorSeries(symbol, candles, defs)
  {
    var indicators := map[];
    for j := 0 to |defs|
      invariant IndicatorSeries(symbol, candles, defs[..j]) == Ok(indicators)
    {
      var d := defs[j];
      var warmup := Indicators.Warmup(d.fn, d.period);
      if |candles| < warmup + 5 {
        ThrowsAt(symbol, candles, defs, j);
        return Err(WarmupError(d.fn, symbol));
      }
      var values := Indicators.Compute(d.fn, candles, d.period.GetOr(14));
      assert defs[..j + 1][..j] == defs[..j];
      indicators := indicators[d.id := values];
    }
    assert defs[..|defs|] == defs;
    r := Ok(indicators);
  }

  // -----------------------------------------------------------------------------------------------
  // runBacktest (lib/sim.ts:589-632)

  /** The candles generated for the symbols of `universe` over the window `w`. */
  function Generated(universe: seq<string>, w: Window, rt: Host.Runtime): map<string, seq<Candle>> {
    map sym | sym in universe :: Candles.CandlesFor(sym, w.start, w.end, rt)
  }

  lemma GeneratedNext(universe: seq<string>, w: Window, rt: Host.Runtime, i: nat)
    requires i < |universe|
    ensures Generated(universe[..i + 1], w, rt)
         == Generated(universe[..i], w, rt)[universe[i] := Candles.CandlesFor(universe[i], w.start, w.end, rt)]
  {
    assert universe[..i + 1] == universe[..i] + [universe[i]];
  }

  /** The first loop of `runBacktest`: `candles[symbol] = generateCandles(...)` for each symbol. */
  method GenerateAll(universe: seq<string>, w: Window, rt: Host.Runtime) returns (data: map<string, seq<Candle>>)
    ensures data == Generated(universe, w, rt)
  {
    data := map[];
    for i := 0 to |universe|
      invariant data == Generated(universe[..i], w, rt)
    {
      var candles := Candles.GenerateCandles(universe[i], w.start, w.end, rt);
      GeneratedNext(universe, w, rt, i);
      data := data[universe[i] := candles];
    }
    assert universe[..|universe|] == universe;
  }

  /** The business days of the strategy's window: the dates of every generated series. */
  function Days(s: Strategy, rt: Host.Runtime): seq<string> {
    rt.businessDays(s.window.start, s.window.end)
  }

  /** One candle per day of `days`, dated by it, and a positive close for each. */
  predicate Covers(se: Series, days: seq<string>) {
    && |se.candles| == |se.closes| == |days|
    && (forall k | 0 <= k < |days| :: se.candles[k].date == days[k])
    && (forall k | 0 <= k < |days| :: se.closes[k] >= 1.0)
  }

  /** The series of generated candles covers the business days of the window. */
  lemma GeneratedCovers(symbol: string, w: Window, rt: Host.Runtime, se: Series)
    requires se.candles == Candles.CandlesFor(symbol, w.start, w.end, rt)
    requires se.closes == Indicators.Closes(se.candles)
    ensures Covers(se, rt.businessDays(w.start, w.end))
  {
    var days := rt.businessDays(w.start, w.end);
    Candles.GeneratedShape(symbol, w.start, w.end, rt);
    var p :| 50.0 <= p < 100.0 && Candles.Series(se.candles, days, p);
    assert forall k | 0 <= k < |days| :: se.closes[k] == se.candles[k].close;
  }

  /** Every computed series covers the business days of the window; so a non-empty universe over a
      non-empty calendar is what the simulator needs. */
  lemma GeneratedReady(s: Strategy, rt: Host.Runtime, seriesMap: map<string, Series>)
    requires SeriesMap(s.universe, Generated(s.universe, s.window, rt), s.indicators) == Ok(seriesMap)
    ensures forall sym | sym in s.universe :: sym in seriesMap && Covers(seriesMap[sym], Days(s, rt))
    ensures |s.universe| > 0 && |Days(s, rt)| > 0 && s.capital.slippagePct > -1.0 ==>
            Ready(s, seriesMap, |Days(s, rt)| - 1)
  {
    forall sym | sym in s.universe
      ensures sym in seriesMap && Covers(seriesMap[sym], Days(s, rt))
    {
      GeneratedCovers(sym, s.window, rt, seriesMap[sym]);
    }
  }

  /** `Math.floor(length * 0.7)`, taken as seven sessions in every ten: seven for each whole ten,
      and the floor of 0.7 times the rest (see `SplitIsSevenTenths`). Written without a division so
      that the solver meets no nonlinear term where the split is used. */
  function Split(length: nat): (split: nat)
    ensures split <= length && (length > 0 ==> split < length) && (length >= 2 ==> split >= 1)
    decreases length
  {
    if length >= 10 then Split(length - 10) + 7
    else if length < 2 then 0
    else if length < 3 then 1
    else if length < 5 then 2
    else if length < 6 then 3
    else if length < 8 then 4
    else if length < 9 then 5
    else 6
  }

  /** The split is 70% of the sessions, rounded down. */
  lemma {:induction false} SplitIsSevenTenths(length: nat)
    ensures Split(length) == (7 * length) / 10
    decreases length
  {
    if length >= 10 {
      SplitIsSevenTenths(length - 10);
      assert 7 * length == 7 * (length - 10) + 70;
    }
  }

  /** `Math.max(splitIndex - 1, 0)` */
  function TrainEnd(split: nat): nat {
    if split >= 1 then split - 1 else 0
  }

  /** The counters of `key`, zero when it has none (`{ pnl: 0, trades: 0, exposureDays: 0 }`). */
  function StatsOf(m: map<string, Stats>, key: string): Stats {
    if key in m then m[key] else NoStats
  }

  /** The two per-asset loops of `runBacktest`: every train entry is copied, and every validate
      entry is added to it, starting from zero for a symbol the train run did not trade. */
  function Merged(train: map<string, Stats>, validate: map<string, Stats>): map<string, Stats> {
    map key | key in train.Keys + validate.Keys ::
      if key in validate then
        var t := StatsOf(train, key);
        Stats(t.pnl + validate[key].pnl, t.trades + validate[key].trades, t.exposureDays + validate[key].exposureDays)
      else train[key]
  }

  /** Each symbol traded in either run has the totals of both runs, an absent side counting zero. */
  lemma MergedTotals(train: map<string, Stats>, validate: map<string, Stats>)
    ensures Merged(train, validate).Keys == train.Keys + validate.Keys
    ensures forall key | key in Merged(train, validate) ::
      && Merged(train, validate)[key].pnl == StatsOf(train, key).pnl + StatsOf(validate, key).pnl
      && Merged(train, validate)[key].trades == StatsOf(train, key).trades + StatsOf(validate, key).trades
      && Merged(train, validate)[key].exposureDays
         == StatsOf(train, key).exposureDays + StatsOf(validate, key).exposureDays
  {
  }

  /** A symbol held for at most `n` train sessions and at most `m` validate sessions is held for
      at most `n + m` sessions in all. */
  lemma MergedExposure(train: map<string, Stats>, validate: map<string, Stats>, n: int, m: int)
    requires ExposureWithin(train, n) && ExposureWithin(validate, m) && n >= 0 && m >= 0
    ensures ExposureWithin(Merged(train, validate), n + m)
  {
    MergedTotals(train, validate);
  }

  /** The merging loops: the train map is copied, then each validate entry is folded in. */
  method MergeStats(train: map<string, Stats>, validate: map<string, Stats>) returns (merged: map<string, Stats>)
    ensures merged == Merged(train, validate)
  {
    merged := train;
    var rest := validate.Keys;
    while rest != {}
      invariant rest <= validate.Keys
      invariant merged.Keys == train.Keys + (validate.Keys - rest)
      invariant forall key | key in merged :: merged[key] == if key in rest then train[key] else Merged(train, validate)[key]
      decreases rest
    {
      var key :| key in rest;
      var per := if key in merged then merged[key] else NoStats;
      assert per == StatsOf(train, key);
      merged := merged[key := Stats(per.pnl + validate[key].pnl, per.trades + validate[key].trades,
                                    per.exposureDays + validate[key].exposureDays)];
      rest := rest - {key};
    }
  }

  /** `Object.entries(merged).map(...)`: trades and pnl as merged, exposure as the merged exposure
      days over the number of validate sessions. */
  function PerAsset(merged: map<string, Stats>, validateDays: int): map<string, PerAssetStats> {
    map key | key in merged ::
      PerAssetStats(key, merged[key].trades, merged[key].pnl, Metrics.Exposure(merged[key].exposureDays, validateDays))
  }

  /** The result of `runBacktest` from its two simulations. */
  function Combine(train: Simulator.Output, validate: Simulator.Output): BacktestResult {
    BacktestResult(train.metrics, validate.metrics, train.equity, validate.equity,
                   PerAsset(Merged(train.perAsset, validate.perAsset), |validate.equity.values|),
                   train.warnings + validate.warnings)
  }

  /** The two simulations of `runBacktest` over series of `length` sessions: the train run over
      sessions 0 to `max(split - 1, 0)`, the validate run over `split` to `length - 1`. */
  function TrainAndValidate(s: Strategy, seriesMap: map<string, Series>, length: nat, rt: Host.Runtime)
    : BacktestResult
    requires length > 0 && Ready(s, seriesMap, length - 1)
  {
    Combine(TrainRun(s, seriesMap, Split(length), length, rt), ValidateRun(s, seriesMap, Split(length), length, rt))
  }

  /** The train simulation: sessions 0 to `split - 1` (session 0 alone when the split is 0). */
  function TrainRun(s: Strategy, seriesMap: map<string, Series>, split: nat, length: nat, rt: Host.Runtime)
    : Simulator.Output
    requires split < length && Ready(s, seriesMap, length - 1)
  {
    Simulator.ReadyBefore(s, seriesMap, length - 1, TrainEnd(split));
    Simulator.Simulation(s, seriesMap, 0, TrainEnd(split), rt)
  }

  /** The validate simulation: sessions `split` to `length - 1`. */
  function ValidateRun(s: Strategy, seriesMap: map<string, Series>, split: nat, length: nat, rt: Host.Runtime)
    : Simulator.Output
    requires split < length && Ready(s, seriesMap, length - 1)
  {
    Simulator.ReadyBefore(s, seriesMap, length - 1, split);
    Simulator.Simulation(s, seriesMap, split, length - 1, rt)
  }

  /** What a simulation over `n` sessions from `start` promises: a curve of `n` values dated by
      the candles `c` from `start` on, and no symbol held for more than `n` sessions. */
  predicate Curve(o: Simulator.Output, c: seq<Candle>, start: nat, n: nat) {
    && |o.equity.values| == |o.equity.dates| == n
    && start + n <= |c|
    && (forall k | 0 <= k < n :: o.equity.dates[k] == c[start + k].date)
    && ExposureWithin(o.perAsset, n)
  }

  /** The outcome of a backtest over the calendar `dates`: with two sessions or more, the train
      curve covers the first 70% of them (rounded down) and the validate curve the rest, so that
      together they are dated by `dates` in order and without overlap; with a single session both
      curves cover it. A symbol's exposure counts the sessions it was held in both runs against the
      validate sessions alone, so it lies between 0 and (train + validate) / validate rather than
      within [0, 1]. */
  predicate Splits(r: BacktestResult, dates: seq<string>) {
    && (|dates| >= 2 ==>
          && |r.trainEquity.values| == Split(|dates|)
          && |r.validateEquity.values| == |dates| - Split(|dates|)
          && r.trainEquity.dates + r.validateEquity.dates == dates)
    && (|dates| == 1 ==> r.trainEquity.dates == r.validateEquity.dates == dates)
    && |r.validateEquity.values| > 0
    && Shares(r)
  }

  /** Every reported symbol carries its own name, and its exposure lies between 0 and the sessions
      of both runs over those of the validate run. */
  predicate Shares(r: BacktestResult)
    requires |r.validateEquity.values| > 0
  {
    forall key | key in r.perAsset ::
      && r.perAsset[key].symbol == key
      && 0.0 <= r.perAsset[key].exposure
         <= (|r.trainEquity.values| + |r.validateEquity.values|) as real / |r.validateEquity.values| as real
  }

  /** Every reported symbol carries its own name, and an exposure count within `total` gives an
      exposure within 0 and `total / m`. */
  lemma PerAssetShares(merged: map<string, Stats>, total: nat, m: nat)
    requires ExposureWithin(merged, total) && m > 0
    ensures forall key | key in PerAsset(merged, m) ::
      && PerAsset(merged, m)[key].symbol == key
      && 0.0 <= PerAsset(merged, m)[key].exposure <= total as real / m as real
  {
    forall key | key in PerAsset(merged, m)
      ensures 0.0 <= PerAsset(merged, m)[key].exposure <= total as real / m as real
    {
      var e := merged[key].exposureDays;
      assert PerAsset(merged, m)[key].exposure == Metrics.Exposure(e, m);
      ShareWithin(e, total, m);
    }
  }

  lemma ShareWithin(e: int, total: nat, m: nat)
    requires 0 <= e <= total && m > 0
    ensures 0.0 <= Metrics.Exposure(e, m) <= total as real / m as real
  {
  }

  /** The dates of sessions 0 to `split - 1` followed by those of `split` on are all the dates. */
  lemma JoinedDates(a: seq<string>, b: seq<string>, c: seq<Candle>, dates: seq<string>, split: nat)
    requires |a| == split && split + |b| == |dates| <= |c|
    requires forall k | 0 <= k < |dates| :: k < |c| && c[k].date == dates[k]
    requires forall k | 0 <= k < |a| :: a[k] == c[0 + k].date
    requires forall k | 0 <= k < |b| :: b[k] == c[split + k].date
    ensures a + b == dates
  {
    forall k | 0 <= k < |dates|
      ensures (a + b)[k] == dates[k]
    {
      if k >= split {
        assert (a + b)[k] == b[k - split];
        assert split + (k - split) == k;
      }
    }
  }

  /** Every symbol the two runs report carries its name and an exposure between 0 and the sessions
      of both runs over those of the validate run. */
  lemma CombinedShares(train: Simulator.Output, validate: Simulator.Output)
    requires ExposureWithin(train.perAsset, |train.equity.values|)
    requires ExposureWithin(validate.perAsset, |validate.equity.values|) && |validate.equity.values| > 0
    ensures Shares(Combine(train, validate))
  {
    var n, m := |train.equity.values|, |validate.equity.values|;
    MergedExposure(train.perAsset, validate.perAsset, n, m);
    PerAssetShares(Merged(train.perAsset, validate.perAsset), n + m, m);
  }

  /** Two runs over the train and validate sessions of `dates` combine into a result that splits
      them. */
  lemma CombineSplits(train: Simulator.Output, validate: Simulator.Output, c: seq<Candle>, dates: seq<string>)
    requires |dates| > 0 && forall k | 0 <= k < |dates| :: k < |c| && c[k].date == dates[k]
    requires Curve(train, c, 0, Simulator.Sessions(0, TrainEnd(Split(|dates|))))
    requires Curve(validate, c, Split(|dates|), |dates| - Split(|dates|))
    ensures Splits(Combine(train, validate), dates)
  {
    CombinedShares(train, validate);
    if |dates| >= 2 {
      SplitDates(train, validate, c, dates, Split(|dates|));
    } else {
      OneDate(train, validate, c, dates);
    }
  }

  /** With two sessions or more, the train curve holds the dates before the split and the validate
      curve the rest. */
  lemma SplitDates(train: Simulator.Output, validate: Simulator.Output, c: seq<Candle>, dates: seq<string>,
                   split: nat)
    requires 1 <= split < |dates| && forall k | 0 <= k < |dates| :: k < |c| && c[k].date == dates[k]
    requires Curve(train, c, 0, Simulator.Sessions(0, TrainEnd(split)))
    requires Curve(validate, c, split, |dates| - split)
    ensures |train.equity.values| == split && |validate.equity.values| == |dates| - split
    ensures train.equity.dates + validate.equity.dates == dates
  {
    JoinedDates(train.equity.dates, validate.equity.dates, c, dates, split);
  }

  /** With a single session, both curves hold its date. */
  lemma OneDate(train: Simulator.Output, validate: Simulator.Output, c: seq<Candle>, dates: seq<string>)
    requires |dates| == 1 && 1 <= |c| && c[0].date == dates[0]
    requires Curve(train, c, 0, Simulator.Sessions(0, TrainEnd(Split(|dates|))))
    requires Curve(validate, c, Split(|dates|), |dates| - Split(|dates|))
    ensures train.equity.dates == validate.equity.dates == dates
    ensures |validate.equity.values| == 1
  {
    assert Split(1) == 0;
    assert train.equity.dates == [c[0].date] == dates;
    assert validate.equity.dates == [c[0].date];
  }

  /** Over series whose first symbol's candles are dated by `dates`, the two simulations split the
      calendar as `Splits` says. */
  lemma TrainAndValidateSplits(s: Strategy, seriesMap: map<string, Series>, dates: seq<string>, rt: Host.Runtime)
    requires |dates| > 0 && Ready(s, seriesMap, |dates| - 1)
    requires forall k | 0 <= k < |dates| :: seriesMap[s.universe[0]].candles[k].date == dates[k]
    ensures Splits(TrainAndValidate(s, seriesMap, |dates|, rt), dates)
  {
    var length := |dates|;
    var split := Split(length);
    var c := seriesMap[s.universe[0]].candles;
    Simulator.ReadyBefore(s, seriesMap, length - 1, TrainEnd(split));
    Simulator.ReadyBefore(s, seriesMap, length - 1, split);
    SimulationCurve(s, seriesMap, 0, TrainEnd(split), rt);
    SimulationCurve(s, seriesMap, split, length - 1, rt);
    assert Simulator.Sessions(split, length - 1) == length - split;
    CombineSplits(TrainRun(s, seriesMap, split, length, rt), ValidateRun(s, seriesMap, split, length, rt), c, dates);
  }

  /** A simulation's curve is dated by the first symbol's candles over its sessions. */
  lemma SimulationCurve(s: Strategy, series: map<string, Series>, startIndex: nat, endIndex: nat, rt: Host.Runtime)
    requires Ready(s, series, endIndex) && startIndex <= endIndex
    ensures Curve(Simulator.Simulation(s, series, startIndex, endIndex, rt), series[s.universe[0]].candles,
                  startIndex, Simulator.Sessions(startIndex, endIndex))
  {
  }

  /** What reading `seriesMap[strategy.universe[0]].candles` throws when the universe is empty. */
  const NoFirstSymbol := "Cannot read properties of undefined (reading 'candles')"

  /** What reading `candles[0].date` throws when the window has no business day. */
  const NoFirstSession := "Cannot read properties of undefined (reading 'date')"

  /** `runBacktest(strategy)`. The API calls it only on a strategy the schema accepts, whose
      slippage lies in [0, 0.05]; the simulator needs it above -1. */
  function Backtest(s: Strategy, rt: Host.Runtime): Result<BacktestResult>
    requires s.capital.slippagePct > -1.0
  {
    match SeriesMap(s.universe, Generated(s.universe, s.window, rt), s.indicators)
    case Err(e) => Err(e)
    case Ok(seriesMap) =>
      if |s.universe| == 0 then Err(NoFirstSymbol)
      else
        GeneratedReady(s, rt, seriesMap);
        var length := |seriesMap[s.universe[0]].candles|;
        if length == 0 then Err(NoFirstSession)
        else Ok(TrainAndValidate(s, seriesMap, length, rt))
  }

  /** `n` sessions cover the warmup of every definition and five sessions more. */
  predicate CoversWarmups(n: int, defs: seq<IndicatorDef>) {
    forall i | 0 <= i < |defs| :: n >= Indicators.Warmup(defs[i].fn, defs[i].period) + 5
  }

  /** The series of symbols that all have `n` sessions are computed exactly when the universe is
      empty or `n` sessions cover every definition. */
  lemma SeriesMapIffCovered(universe: seq<string>, data: map<string, seq<Candle>>, defs: seq<IndicatorDef>, n: nat)
    requires forall sym | sym in universe :: sym in data && |data[sym]| == n
    ensures SeriesMap(universe, data, defs).Ok? <==> |universe| == 0 || CoversWarmups(n, defs)
  {
    SeriesMapOk(universe, data, defs);
    forall i | 0 <= i < |universe|
      ensures IndicatorSeries(universe[i], data[universe[i]], defs).Ok? <==> CoversWarmups(n, defs)
    {
      RecordIffCovered(universe[i], data[universe[i]], defs);
    }
  }

  /** The indicators of the generated candles are computed exactly when the universe is empty or
      the calendar covers every definition. */
  lemma GeneratedSeriesOk(s: Strategy, rt: Host.Runtime)
    ensures SeriesMap(s.universe, Generated(s.universe, s.window, rt), s.indicators).Ok? <==>
            |s.universe| == 0 || CoversWarmups(|Days(s, rt)|, s.indicators)
  {
    var data := Generated(s.universe, s.window, rt);
    assert forall sym | sym in s.universe :: sym in data && |data[sym]| == |Days(s, rt)|;
    SeriesMapIffCovered(s.universe, data, s.indicators, |Days(s, rt)|);
  }

  /** `IndicatorSeriesOk` in terms of the number of sessions. */
  lemma RecordIffCovered(symbol: string, candles: seq<Candle>, defs: seq<IndicatorDef>)
    ensures IndicatorSeries(symbol, candles, defs).Ok? <==> CoversWarmups(|candles|, defs)
  {
    IndicatorSeriesOk(symbol, candles, defs);
  }

  /** The backtest runs exactly when the universe and the calendar are non-empty and the calendar
      covers every definition's warmup and five more sessions. */
  lemma BacktestOk(s: Strategy, rt: Host.Runtime)
    requires s.capital.slippagePct > -1.0
    ensures Backtest(s, rt).Ok? <==>
            |s.universe| > 0 && |Days(s, rt)| > 0 && CoversWarmups(|Days(s, rt)|, s.indicators)
  {
    var ok := SeriesMap(s.universe, Generated(s.universe, s.window, rt), s.indicators);
    GeneratedSeriesOk(s, rt);
    if ok.Ok? {
      GeneratedReady(s, rt, ok.value);
    }
  }

  /** A calendar too short for a definition fails on the first such definition, named with the
      first symbol of the universe. */
  lemma BacktestWarmupError(s: Strategy, rt: Host.Runtime, i: nat)
    requires s.capital.slippagePct > -1.0 && |s.universe| > 0
    requires i < |s.indicators| && |Days(s, rt)| < Indicators.Warmup(s.indicators[i].fn, s.indicators[i].period) + 5
    requires forall j | 0 <= j < i :: |Days(s, rt)| >= Indicators.Warmup(s.indicators[j].fn, s.indicators[j].period) + 5
    ensures Backtest(s, rt) == Err(WarmupError(s.indicators[i].fn, s.universe[0]))
  {
    var data := Generated(s.universe, s.window, rt);
    var first := s.universe[0];
    Candles.GeneratedShape(first, s.window.start, s.window.end, rt);
    IndicatorSeriesFirstErr(first, data[first], s.indicators, i);
    SeriesMapFirstErr(s.universe, data, s.indicators, 0);
  }

  /** A backtest that runs splits the business days of the window between its two curves, and
      reports every symbol's exposure within 0 and (train + validate) / validate. */
  lemma BacktestSplitsSessions(s: Strategy, rt: Host.Runtime)
    requires s.capital.slippagePct > -1.0 && Backtest(s, rt).Ok?
    ensures Splits(Backtest(s, rt).value, Days(s, rt))
  {
    var seriesMap := SeriesMap(s.universe, Generated(s.universe, s.window, rt), s.indicators).value;
    GeneratedReady(s, rt, seriesMap);
    TrainAndValidateSplits(s, seriesMap, Days(s, rt), rt);
  }

  /** `runBacktest(strategy)`: generate the candles, compute the indicators, run the train and
      validate simulations and merge their per-asset results. */
  method RunBacktest(s: Strategy, rt: Host.Runtime) returns (r: Result<BacktestResult>)
    requires s.capital.slippagePct > -1.0
    ensures r == Backtest(s, rt)
  {
    var candles := GenerateAll(s.universe, s.window, rt);
    var computed := ComputeIndicators(s, candles);
    if computed.Err? {
      return Err(computed.error);
    }
    var seriesMap := computed.value;
    if |s.universe| == 0 {
      return Err(NoFirstSymbol);
    }
    GeneratedReady(s, rt, seriesMap);
    var length := |seriesMap[s.universe[0]].candles|;
    if length == 0 {
      return Err(NoFirstSession);
    }
    var result := Simulations(s, seriesMap, length, rt);
    r := Ok(result);
  }

  /** The second half of `runBacktest`: the two simulations and the merge of their per-asset
      results. */
  method Simulations(s: Strategy, seriesMap: map<string, Series>, length: nat, rt: Host.Runtime)
    returns (r: BacktestResult)
    requires length > 0 && Ready(s, seriesMap, length - 1)
    ensures r == TrainAndValidate(s, seriesMap, length, rt)
  {
    var split := Split(length);
    var train := SimulateTrain(s, seriesMap, split, length, rt);
    var validate := SimulateValidate(s, seriesMap, split, length, rt);
    r := CombineRuns(train, validate);
  }

  /** The train simulation of `runBacktest`. */
  method SimulateTrain(s: Strategy, seriesMap: map<string, Series>, split: nat, length: nat, rt: Host.Runtime)
    returns (o: Simulator.Output)
    requires split < length && Ready(s, seriesMap, length - 1)
    ensures o == TrainRun(s, seriesMap, split, length, rt)
  {
    Simulator.ReadyBefore(s, seriesMap, length - 1, TrainEnd(split));
    o := Simulator.Simulate(s, seriesMap, 0, TrainEnd(split), rt);
  }

  /** The validate simulation of `runBacktest`. */
  method SimulateValidate(s: Strategy, seriesMap: map<string, Series>, split: nat, length: nat, rt: Host.Runtime)
    returns (o: Simulator.Output)
    requires split < length && Ready(s, seriesMap, length - 1)
    ensures o == ValidateRun(s, seriesMap, split, length, rt)
  {
    Simulator.ReadyBefore(s, seriesMap, length - 1, split);
    o := Simulator.Simulate(s, seriesMap, split, length - 1, rt);
  }

  /** The end of `runBacktest`: merge the per-asset results, rate the exposures and concatenate the
      warnings. */
  method CombineRuns(train: Simulator.Output, validate: Simulator.Output) returns (r: BacktestResult)
    ensures r == Combine(train, validate)
  {
    var merged := MergeStats(train.perAsset, validate.perAsset);
    var perAsset := PerAsset(merged, |validate.equity.values|);
    var warnings := train.warnings + validate.warnings;
    r := BacktestResult(train.metrics, validate.metrics, train.equity, validate.equity, perAsset, warnings);
  }
}
