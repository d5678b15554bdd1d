/** `simulate` (lib/sim.ts:310-580): the session loop over one index range, each session's passes
    as loops over the universe, the positions and the rules, and the metrics of the resulting
    curve. Each method is proved to compute the function of `Session` that says what it does. */
module Simulator {
  import opened Numeric
  import opened Types
  import opened Positions
  import opened Trading
  import opened Session
  import Evaluator
  import Order
  import Metrics
  import Host

  // -----------------------------------------------------------------------------------------------
  // The whole run (lib/sim.ts:313-579)

  /** The state before the first session: the starting cash and nothing else. */
  function Opening(s: Strategy): (r: Run)
    ensures Holds(r.book, s.universe) && Size(r.book.table) == 0
    ensures r.values == [] && r.dates == [] && r.exposureDays == 0 && r.book.stats == map[]
  {
    EmptyValid();
    Run(Book(s.capital.startingCash, Empty, [], map[], 0.0, []), [], [], 0)
  }

  /** The number of sessions from `startIndex` to `endIndex` inclusive. */
  function Sessions(startIndex: nat, endIndex: nat): nat {
    if endIndex >= startIndex then endIndex - startIndex + 1 else 0
  }

  /** The dates of sessions `idx` to `idx + n - 1`. */
  function SessionDates(candles: seq<Candle>, idx: nat, n: nat): (d: seq<string>)
    requires n > 0 ==> idx + n <= |candles|
    ensures |d| == n && forall k | 0 <= k < n :: d[k] == candles[idx + k].date
    decreases n
  {
    if n == 0 then [] else SessionDates(candles, idx, n - 1) + [candles[idx + n - 1].date]
  }

  /** One session as a value: `Day` at a session up to `last` from a state whose positions are
      well formed, which every state of a run is; any other state is left as it is. */
  function Step(s: Strategy, series: map<string, Series>, last: nat, rt: Host.Runtime): (Run, nat) -> Run
    requires Ready(s, series, last)
  {
    (run: Run, idx: nat) =>
      if idx <= last && Holds(run.book, s.universe) then ReadyBefore(s, series, last, idx); Day(run, s, series, idx, rt)
      else run
  }

  /** The state `step` makes from `run` at session `idx`. */
  function Next(step: (Run, nat) -> Run, run: Run, idx: nat): Run {
    step(run, idx)
  }

  lemma ReadyBefore(s: Strategy, series: map<string, Series>, last: nat, idx: nat)
    requires Ready(s, series, last) && idx <= last
    ensures Ready(s, series, idx)
  {
  }

  /** At the sessions of a run, the step is `Day`. */
  lemma StepIsDay(s: Strategy, series: map<string, Series>, last: nat, rt: Host.Runtime, run: Run, idx: nat)
    requires Ready(s, series, last) && idx <= last && Holds(run.book, s.universe)
    ensures Ready(s, series, idx)
    ensures Next(Step(s, series, last, rt), run, idx) == Day(run, s, series, idx, rt)
  {
  }

  /** `step` is `Day` at every session up to `last` from a state whose positions are well formed. */
  ghost predicate DaysOf(step: (Run, nat) -> Run, s: Strategy, series: map<string, Series>, last: nat, rt: Host.Runtime) {
    forall r: Run, idx: nat {:trigger Day(r, s, series, idx, rt)} | idx <= last && Holds(r.book, s.universe) ::
      Ready(s, series, idx) && Next(step, r, idx) == Day(r, s, series, idx, rt)
  }

  /** The simulator's step is `Day` at every session of a run. */
  lemma StepDays(s: Strategy, series: map<string, Series>, last: nat, rt: Host.Runtime)
    requires Ready(s, series, last)
    ensures DaysOf(Step(s, series, last, rt), s, series, last, rt)
  {
    forall r: Run, idx: nat | idx <= last && Holds(r.book, s.universe)
      ensures Ready(s, series, idx) && Next(Step(s, series, last, rt), r, idx) == Day(r, s, series, idx, rt)
    {
      StepIsDay(s, series, last, rt, r, idx);
    }
  }

  /** What a session guarantees of the state `r` it makes from `run` at session `idx`. */
  ghost predicate Law(r: Run, run: Run, s: Strategy, series: map<string, Series>, idx: nat)
    requires Ready(s, series, idx)
  {
    && Holds(r.book, s.universe)
    && |r.values| == |run.values| + 1
    && r.dates == run.dates + [series[s.universe[0]].candles[idx].date]
    && r.exposureDays == run.exposureDays + (if Size(r.book.table) > 0 then 1 else 0)
    && (Size(run.book.table) <= s.risk.maxPositions ==> Size(r.book.table) <= s.risk.maxPositions)
    && (ExposureWithin(run.book.stats, |run.values|) ==> ExposureWithin(r.book.stats, |run.values| + 1))
  }

  /** `step` keeps the law at every session up to `last`. */
  ghost predicate Lawful(step: (Run, nat) -> Run, s: Strategy, series: map<string, Series>, last: nat) {
    forall run: Run, idx: nat {:trigger Next(step, run, idx)} | idx <= last && Holds(run.book, s.universe) ::
      Ready(s, series, idx) && Law(Next(step, run, idx), run, s, series, idx)
  }

  /** A session of the simulator keeps the law. */
  lemma StepLawful(s: Strategy, series: map<string, Series>, last: nat, rt: Host.Runtime)
    requires Ready(s, series, last)
    ensures Lawful(Step(s, series, last, rt), s, series, last)
  {
    forall run: Run, idx: nat | idx <= last && Holds(run.book, s.universe)
      ensures Ready(s, series, idx) && Law(Next(Step(s, series, last, rt), run, idx), run, s, series, idx)
    {
      StepIsDay(s, series, last, rt, run, idx);
      DayLaw(run, s, series, idx, rt);
    }
  }

  lemma DayLaw(run: Run, s: Strategy, series: map<string, Series>, idx: nat, rt: Host.Runtime)
    requires Ready(s, series, idx) && Holds(run.book, s.universe)
    ensures Law(Day(run, s, series, idx, rt), run, s, series, idx)
  {
    var r := Day(run, s, series, idx, rt);
    assert Size(run.book.table) <= s.risk.maxPositions ==> Size(r.book.table) <= s.risk.maxPositions by {
      if Size(run.book.table) <= s.risk.maxPositions {
        DayKeepsCap(run, s, series, idx, rt);
      }
    }
    assert ExposureWithin(run.book.stats, |run.values|) ==> ExposureWithin(r.book.stats, |run.values| + 1) by {
      if ExposureWithin(run.book.stats, |run.values|) {
        DayExposureWithin(run, s, series, idx, rt, |run.values|);
      }
    }
  }

  /** The state at the close of the first `k` sessions from `startIndex`, each taken by a lawful
      `step` from the state before it: each session adds one value to the curve and its date, and
      at most one session of exposure, overall and per symbol; the positions stay well formed. */
  function Played(step: (Run, nat) -> Run, s: Strategy, series: map<string, Series>, last: nat,
                  startIndex: nat, k: nat): (r: Run)
    requires Ready(s, series, last) && Lawful(step, s, series, last)
    requires k > 0 ==> startIndex + k <= last + 1
    ensures Holds(r.book, s.universe)
    ensures |r.values| == k
    ensures r.dates == SessionDates(series[s.universe[0]].candles, startIndex, k)
    ensures 0 <= r.exposureDays <= k
    ensures ExposureWithin(r.book.stats, k)
    decreases k
  {
    if k == 0 then Opening(s)
    else
      ReadyBefore(s, series, last, startIndex + k - 1);
      assert Law(Next(step, Played(step, s, series, last, startIndex, k - 1), startIndex + k - 1),
                 Played(step, s, series, last, startIndex, k - 1), s, series, startIndex + k - 1);
      assert SessionDates(series[s.universe[0]].candles, startIndex, k)
          == Played(step, s, series, last, startIndex, k - 1).dates + [series[s.universe[0]].candles[startIndex + k - 1].date];
      Next(step, Played(step, s, series, last, startIndex, k - 1), startIndex + k - 1)
  }

  /** One more session is one more step from the state before it. */
  lemma PlayedNext(step: (Run, nat) -> Run, s: Strategy, series: map<string, Series>, last: nat,
                   startIndex: nat, k: nat, run: Run, r: Run, idx: nat)
    requires Ready(s, series, last) && Lawful(step, s, series, last)
    requires idx == startIndex + k <= last
    requires run == Played(step, s, series, last, startIndex, k) && r == Next(step, run, idx)
    ensures r == Played(step, s, series, last, startIndex, k + 1)
  {
    assert startIndex + (k + 1) - 1 == idx;
    assert Played(step, s, series, last, startIndex, k + 1) == Next(step, run, idx);
  }

  /** No run takes the number of open positions above `max_positions`. */
  lemma {:induction false} PlayedKeepsCap(step: (Run, nat) -> Run, s: Strategy, series: map<string, Series>,
                                          last: nat, startIndex: nat, k: nat)
    requires Ready(s, series, last) && Lawful(step, s, series, last) && s.risk.maxPositions >= 0
    requires k > 0 ==> startIndex + k <= last + 1
    ensures Size(Played(step, s, series, last, startIndex, k).book.table) <= s.risk.maxPositions
    decreases k
  {
    if k > 0 {
      PlayedKeepsCap(step, s, series, last, startIndex, k - 1);
      ReadyBefore(s, series, last, startIndex + k - 1);
      assert Law(Next(step, Played(step, s, series, last, startIndex, k - 1), startIndex + k - 1),
                 Played(step, s, series, last, startIndex, k - 1), s, series, startIndex + k - 1);
    }
  }

  /** What `simulate` returns: the equity curve, the metrics, the per-asset counters and the
      warnings. */
  datatype Output = Output(equity: EquityCurve, metrics: BacktestMetrics, perAsset: map<string, Stats>,
                           warnings: seq<string>)

  /** The state at the close of the first `k` of the sessions `startIndex` to `endIndex`. */
  function After(s: Strategy, series: map<string, Series>, startIndex: nat, endIndex: nat, rt: Host.Runtime, k: nat)
    : Run
    requires Ready(s, series, endIndex) && k <= Sessions(startIndex, endIndex)
  {
    StepLawful(s, series, endIndex, rt);
    Played(Step(s, series, endIndex, rt), s, series, endIndex, startIndex, k)
  }

  /** The run over sessions `startIndex` to `endIndex`, and its metrics: turnover is averaged over
      the sessions and exposure is the share of sessions that ended with a position open. */
  function Simulation(s: Strategy, series: map<string, Series>, startIndex: nat, endIndex: nat, rt: Host.Runtime)
    : (o: Output)
    requires Ready(s, series, endIndex)
    ensures |o.equity.values| == |o.equity.dates| == Sessions(startIndex, endIndex)
    ensures forall k | 0 <= k < Sessions(startIndex, endIndex) ::
      o.equity.dates[k] == series[s.universe[0]].candles[startIndex + k].date
    ensures 0.0 <= o.metrics.exposure <= 1.0 && 0.0 <= o.metrics.hitRate <= 1.0
    ensures o.metrics.maxDrawdown <= 0.0
    ensures ExposureWithin(o.perAsset, Sessions(startIndex, endIndex))
    ensures Sessions(startIndex, endIndex) == 0 ==> o == Output(EquityCurve([], []), Metrics.NoMetrics, map[], [])
  {
    StepLawful(s, series, endIndex, rt);
    Report(After(s, series, startIndex, endIndex, rt, Sessions(startIndex, endIndex)), rt)
  }

  /** The output for a run: the curve, the metrics of its values and the book's counters. */
  function Report(r: Run, rt: Host.Runtime): (o: Output)
    requires 0 <= r.exposureDays <= |r.values| && ExposureWithin(r.book.stats, |r.values|)
    ensures o.equity == EquityCurve(r.dates, r.values) && o.perAsset == r.book.stats && o.warnings == r.book.warnings
    ensures 0.0 <= o.metrics.exposure <= 1.0 && 0.0 <= o.metrics.hitRate <= 1.0
    ensures o.metrics.maxDrawdown <= 0.0
  {
    var base := Metrics.BaseMetrics(r.values, rt);
    var turnover := if |r.values| > 0 then r.book.turnover / |r.values| as real else 0.0;
    Output(EquityCurve(r.dates, r.values),
           Metrics.Finalize(base, r.book.log, r.exposureDays, |r.values|, turnover),
           r.book.stats,
           r.book.warnings)
  }

  /** The simulation never holds more than `max_positions` positions at the close of a session. */
  lemma SimulationKeepsCap(s: Strategy, series: map<string, Series>, startIndex: nat, endIndex: nat,
                           rt: Host.Runtime, k: nat)
    requires Ready(s, series, endIndex) && s.risk.maxPositions >= 0
    requires k <= Sessions(startIndex, endIndex)
    ensures Size(After(s, series, startIndex, endIndex, rt, k).book.table) <= s.risk.maxPositions
  {
    StepLawful(s, series, endIndex, rt);
    PlayedKeepsCap(Step(s, series, endIndex, rt), s, series, endIndex, startIndex, k);
  }

  // -----------------------------------------------------------------------------------------------
  // The loops

  /** The loop of `simulate` over the sessions. */
  method Simulate(s: Strategy, series: map<string, Series>, startIndex: nat, endIndex: nat, rt: Host.Runtime)
    returns (o: Output)
    requires Ready(s, series, endIndex)
    ensures o == Simulation(s, series, startIndex, endIndex, rt)
  {
    StepLawful(s, series, endIndex, rt);
    StepDays(s, series, endIndex, rt);
    var run := RunSessions(s, series, startIndex, endIndex, rt, Step(s, series, endIndex, rt));
    var baseMetrics := Metrics.ComputeMetrics(run.values, rt);
    var turnover := if |run.values| > 0 then run.book.turnover / |run.values| as real else 0.0;
    var metrics := Metrics.Finalize(baseMetrics, run.book.log, run.exposureDays, |run.values|, turnover);
    o := Output(EquityCurve(run.dates, run.values), metrics, run.book.stats, run.book.warnings);
  }

  /** The session loop proper: `for (let idx = startIndex; idx <= endIndex; idx++)`, counted here
      by `k`, the number of sessions played, with `idx == startIndex + k`. The ghost `step` names
      the session step, `Day` at each session, for the proof. */
  method RunSessions(s: Strategy, series: map<string, Series>, startIndex: nat, endIndex: nat, rt: Host.Runtime,
                     ghost step: (Run, nat) -> Run)
    returns (run: Run)
    requires Ready(s, series, endIndex) && Lawful(step, s, series, endIndex)
    requires DaysOf(step, s, series, endIndex, rt)
    ensures run == Played(step, s, series, endIndex, startIndex, Sessions(startIndex, endIndex))
  {
    run := Opening(s);
    for k := 0 to Sessions(startIndex, endIndex)
      invariant run == Played(step, s, series, endIndex, startIndex, k)
    {
      run := PlayStep(s, series, startIndex, endIndex, rt, step, run, startIndex + k, k);
    }
  }

  /** One pass of the session loop: session `idx`, the `k`-th from `startIndex`, played from the
      state before it. */
  method PlayStep(s: Strategy, series: map<string, Series>, startIndex: nat, endIndex: nat, rt: Host.Runtime,
                  ghost step: (Run, nat) -> Run, run: Run, idx: nat, ghost k: nat)
    returns (r: Run)
    requires Ready(s, series, endIndex) && Lawful(step, s, series, endIndex)
    requires DaysOf(step, s, series, endIndex, rt)
    requires idx == startIndex + k <= endIndex
    requires run == Played(step, s, series, endIndex, startIndex, k)
    ensures r == Played(step, s, series, endIndex, startIndex, k + 1)
  {
    ReadyBefore(s, series, endIndex, idx);
    r := DayStep(run, s, series, idx, rt);
    PlayedNext(step, s, series, endIndex, startIndex, k, run, r, idx);
  }

  /** The body of the session loop. */
  method DayStep(run: Run, s: Strategy, series: map<string, Series>, idx: nat, rt: Host.Runtime) returns (r: Run)
    requires Ready(s, series, idx) && Holds(run.book, s.universe)
    ensures r == Day(run, s, series, idx, rt)
  {
    var date := series[s.universe[0]].candles[idx].date;
    var b, prices := TradeStep(run.book, s, series, idx, rt);
    var equity := Holdings(b.table, prices) + b.cash;
    var exposureDays := run.exposureDays;
    if Size(b.table) > 0 {
      exposureDays := exposureDays + 1;
    }
    var stats := ExposeHeld(b.stats, b.table.order);
    var marked := Book(b.cash, b.table, b.log, stats, b.turnover, b.warnings);
    assert equity == Equity(marked, Prices(s.universe, series, idx));
    r := Run(marked, run.values + [equity], run.dates + [date], exposureDays);
  }

  /** The trading passes of one session: prices, flags, closings, entry signals, buys and the
      rebalance. */
  method TradeStep(book: Book, s: Strategy, series: map<string, Series>, idx: nat, rt: Host.Runtime)
    returns (b: Book, prices: map<string, real>)
    requires Ready(s, series, idx) && Holds(book, s.universe)
    ensures prices == Prices(s.universe, series, idx)
    ensures b == Traded(book, s, series, idx, rt)
  {
    var date := series[s.universe[0]].candles[idx].date;
    prices := DailyPrices(s.universe, series, idx);
    PricesReady(s, series, idx, book);
    var stops, takes := RiskFlags(book.table, prices, s.risk);
    var closings := AddEach([], stops);
    closings := AddEach(closings, takes);
    closings := ScanExitRules(closings, s.universe, s.exits, idx, series, stops, takes);
    assert closings == Closings(book, s, series, idx, prices);
    b := ApplyClosings(book, closings, date, s.capital, prices);
    var signals := ScanEntryRules(Signals([], false, closings), s.universe, s.entries, idx, series, stops, takes);
    var rebalanceFlag := signals.rebalance || ShouldRebalance(s.rebalance, idx, series[s.universe[0]].candles, rt);
    var buys := Order.SortBy(signals.buys, SymbolOf);
    b := ExecuteBuys(b, buys, s.universe, date, s.capital, s.risk, prices);
    b := RebalancePositions(b, rebalanceFlag, date, s.capital, s.risk, prices);
  }

  /** The loop filling `dailyPrices`. */
  method DailyPrices(syms: seq<string>, series: map<string, Series>, idx: nat) returns (prices: map<string, real>)
    requires forall sym | sym in syms :: sym in series && idx < |series[sym].closes|
    ensures prices == Prices(syms, series, idx)
  {
    prices := map[];
    for i := 0 to |syms|
      invariant prices == Prices(syms[..i], series, idx)
    {
      assert syms[..i + 1][..i] == syms[..i];
      prices := prices[syms[i] := series[syms[i]].closes[idx]];
    }
    assert syms[..|syms|] == syms;
  }

  /** The loop over the positions that collects the stop-loss and take-profit flags. */
  method RiskFlags(t: Table, prices: map<string, real>, risk: Risk) returns (stops: seq<string>, takes: seq<string>)
    ensures stops == Flagged(t.order, t.held, prices, risk, true)
    ensures takes == Flagged(t.order, t.held, prices, risk, false)
  {
    stops := [];
    takes := [];
    for i := 0 to |t.order|
      invariant stops == Flagged(t.order[..i], t.held, prices, risk, true)
      invariant takes == Flagged(t.order[..i], t.held, prices, risk, false)
    {
      FlaggedStep(t.order, i, t.held, prices, risk, true);
      FlaggedStep(t.order, i, t.held, prices, risk, false);
      stops, takes := CheckPosition(t.order[i], t.held, prices, risk, stops, takes);
    }
    assert t.order[..|t.order|] == t.order;
  }

  /** The body of that loop: the thresholds of one position. */
  method CheckPosition(symbol: string, held: map<string, Position>, prices: map<string, real>, risk: Risk,
                       stops0: seq<string>, takes0: seq<string>) returns (stops: seq<string>, takes: seq<string>)
    ensures var flag := symbol in held && symbol in prices;
      && stops == (if flag && Hit(held[symbol], prices[symbol], risk, true) then stops0 + [symbol] else stops0)
      && takes == (if flag && Hit(held[symbol], prices[symbol], risk, false) then takes0 + [symbol] else takes0)
  {
    stops, takes := stops0, takes0;
    if symbol in held && symbol in prices {
      var position := held[symbol];
      var price := prices[symbol];
      if risk.stopLossPct.Some? {
        var threshold := position.entryPrice * (1.0 - risk.stopLossPct.value);
        assert StopHit(position, price, risk) <==> price <= threshold;
        if price <= threshold {
          stops := stops + [symbol];
        }
      }
      if risk.takeProfitPct.Some? {
        var threshold := position.entryPrice * (1.0 + risk.takeProfitPct.value);
        assert TakeHit(position, price, risk) <==> price >= threshold;
        if price >= threshold {
          takes := takes + [symbol];
        }
      }
    }
  }

  /** `xs.forEach((x) => c.add(x))` */
  method AddEach(c: seq<string>, xs: seq<string>) returns (r: seq<string>)
    ensures r == AddAll(c, xs)
  {
    r := c;
    for i := 0 to |xs|
      invariant r == AddAll(c, xs[..i])
    {
      assert xs[..i + 1][..i] == xs[..i];
      r := Enlist(r, xs[i]);
    }
    assert xs[..|xs|] == xs;
  }

  /** The exit pass: for each universe symbol, each exit rule in turn. */
  method ScanExitRules(c: seq<string>, syms: seq<string>, exits: seq<ExitRule>, idx: nat, series: map<string, Series>,
                       stops: seq<string>, takes: seq<string>) returns (r: seq<string>)
    requires forall sym | sym in syms :: sym in series
    ensures r == ScanExits(c, syms, exits, idx, series, stops, takes)
  {
    r := c;
    for i := 0 to |syms|
      invariant r == ScanExits(c, syms[..i], exits, idx, series, stops, takes)
    {
      assert syms[..i + 1][..i] == syms[..i];
      var symbol := syms[i];
      var ctx := ContextFor(symbol, idx, series, stops, takes);
      r := ExitRulesFor(r, exits, symbol, ctx);
    }
    assert syms[..|syms|] == syms;
  }

  /** The exit rules, in order, for one symbol: a rule whose condition holds closes the symbol when
      it targets `*` or the symbol itself. */
  method ExitRulesFor(c: seq<string>, exits: seq<ExitRule>, symbol: string, ctx: Evaluator.Context)
    returns (r: seq<string>)
    ensures r == ExitsFor(c, exits, symbol, ctx)
  {
    r := c;
    for j := 0 to |exits|
      invariant r == ExitsFor(c, exits[..j], symbol, ctx)
    {
      assert exits[..j + 1][..j] == exits[..j];
      var exit := exits[j];
      if Evaluator.Eval(exit.when, ctx) {
        var target := if exit.act.close.Some? then exit.act.close.value.ticker else symbol;
        if target == "*" || target == symbol {
          r := Enlist(r, symbol);
        }
      }
    }
    assert exits[..|exits|] == exits;
  }

  /** The entry pass: for each universe symbol, each entry rule in turn. */
  method ScanEntryRules(acc: Signals, syms: seq<string>, entries: seq<EntryRule>, idx: nat,
                        series: map<string, Series>, stops: seq<string>, takes: seq<string>) returns (r: Signals)
    requires forall sym | sym in syms :: sym in series
    ensures r == ScanEntries(acc, syms, entries, idx, series, stops, takes)
  {
    r := acc;
    for i := 0 to |syms|
      invariant r == ScanEntries(acc, syms[..i], entries, idx, series, stops, takes)
    {
      assert syms[..i + 1][..i] == syms[..i];
      var symbol := syms[i];
      var ctx := ContextFor(symbol, idx, series, stops, takes);
      ghost var before := r;
      for j := 0 to |entries|
        invariant r == SignalsFor(before, entries[..j], symbol, ctx)
      {
        assert entries[..j + 1][..j] == entries[..j];
        var entry := entries[j];
        if Evaluator.Eval(entry.when, ctx) {
          var buys := r.buys;
          if entry.act.buy.Some? {
            buys := buys + [Pending(Target(entry.act.buy.value.ticker, symbol), entry.act.buy.value.sizing)];
          }
          var closes := r.closes;
          if entry.act.close.Some? {
            closes := Enlist(closes, Target(entry.act.close.value.ticker, symbol));
          }
          r := Signals(buys, r.rebalance || entry.act.rebalance, closes);
        }
      }
      assert entries[..|entries|] == entries;
    }
    assert syms[..|syms|] == syms;
  }

  /** The loop over the positions that counts a session of exposure for each. */
  method ExposeHeld(stats: map<string, Stats>, syms: seq<string>) returns (r: map<string, Stats>)
    ensures r == Expose(stats, syms)
  {
    r := stats;
    for i := 0 to |syms|
      invariant r == Expose(stats, syms[..i])
    {
      r := ExposeOne(stats, syms, i, r, syms[i]);
    }
    assert syms[..|syms|] == syms;
  }

  /** One pass of the exposure loop: one more session for `syms[i]`. */
  method ExposeOne(ghost stats: map<string, Stats>, ghost syms: seq<string>, i: nat, r0: map<string, Stats>, sym: string)
    returns (r: map<string, Stats>)
    requires i < |syms| && sym == syms[i] && r0 == Expose(stats, syms[..i])
    ensures r == Expose(stats, syms[..i + 1])
  {
    ExposeNext(stats, syms, i);
    var per := if sym in r0 then r0[sym] else NoStats;
    r := r0[sym := per.(exposureDays := per.exposureDays + 1)];
  }

  /** Exposing one more symbol counts one more session for it. */
  lemma ExposeNext(stats: map<string, Stats>, syms: seq<string>, i: nat)
    requires i < |syms|
    ensures Expose(stats, syms[..i + 1]) ==
      var st := Expose(stats, syms[..i]);
      var per := if syms[i] in st then st[syms[i]] else NoStats;
      st[syms[i] := per.(exposureDays := per.exposureDays + 1)]
  {
    assert syms[..i + 1][..i] == syms[..i];
  }
}
