/** One session of `simulate` (lib/sim.ts:323-579): the day's prices, the risk flags, the closing
    set, the entry signals, the schedule, and the order in which they act on the book. The trading
    steps themselves are in `Trading`. */
module Session {
  import opened Numeric
  import opened Types
  import opened Positions
  import opened Trading
  import Evaluator
  import Order
  import Host

  /** What `computeIndicators` keeps per symbol: its candles, their closing prices and the series of
      each declared indicator by id. */
  datatype Series = Series(candles: seq<Candle>, closes: seq<real>, indicators: map<string, seq<Num>>)

  // -----------------------------------------------------------------------------------------------
  // Schedule (lib/sim.ts:289-308)

  /** `shouldRebalance`: never for `none`; every fifth session index for `weekly`; for `monthly` and
      `quarterly`, at a session after the first whose calendar month, or quarter or year, differs
      from the previous session's. */
  function ShouldRebalance(cadence: Cadence, dayIndex: nat, candles: seq<Candle>, rt: Host.Runtime): (r: bool)
    requires dayIndex < |candles|
    ensures cadence == NoRebalance ==> !r
    ensures cadence == Weekly ==> (r <==> dayIndex % 5 == 0)
    ensures dayIndex == 0 ==> (r <==> cadence == Weekly)
  {
    match cadence
    case NoRebalance => false
    case Weekly => dayIndex % 5 == 0
    case Monthly =>
      dayIndex != 0 && rt.month(candles[dayIndex].date) != rt.month(candles[dayIndex - 1].date)
    case Quarterly =>
      && dayIndex != 0
      && (|| rt.month(candles[dayIndex].date) / 3 != rt.month(candles[dayIndex - 1].date) / 3
          || rt.year(candles[dayIndex].date) != rt.year(candles[dayIndex - 1].date))
  }

  /** Within one calendar year a quarterly rebalance falls on a monthly one: a new quarter is a new
      month. */
  lemma QuarterlyWithinYear(dayIndex: nat, candles: seq<Candle>, rt: Host.Runtime)
    requires dayIndex < |candles|
    requires dayIndex > 0 ==> rt.year(candles[dayIndex].date) == rt.year(candles[dayIndex - 1].date)
    ensures ShouldRebalance(Quarterly, dayIndex, candles, rt) ==> ShouldRebalance(Monthly, dayIndex, candles, rt)
  {
  }

  /** The weekly cadence fires at exactly one of any five consecutive session indices. */
  lemma WeeklyOncePerFive(k: nat, i: nat, j: nat, candles: seq<Candle>, rt: Host.Runtime)
    requires k <= i < k + 5 && k <= j < k + 5 && k + 5 <= |candles|
    requires ShouldRebalance(Weekly, i, candles, rt) && ShouldRebalance(Weekly, j, candles, rt)
    ensures i == j
    ensures ShouldRebalance(Weekly, k + (5 - k % 5) % 5, candles, rt)
  {
  }

  // -----------------------------------------------------------------------------------------------
  // Prices and risk flags (lib/sim.ts:325-351)

  /** `dailyPrices`: the close of each universe symbol at session `idx`. */
  function Prices(syms: seq<string>, series: map<string, Series>, idx: nat): (p: map<string, real>)
    requires forall sym | sym in syms :: sym in series && idx < |series[sym].closes|
    ensures forall x :: x in p <==> x in syms
    ensures forall x | x in p :: p[x] == series[x].closes[idx]
  {
    if syms == [] then map[]
    else
      var n := |syms| - 1;
      assert syms == syms[..n] + [syms[n]];
      Prices(syms[..n], series, idx)[syms[n] := series[syms[n]].closes[idx]]
  }

  /** A stop-loss is set and the price is at or below `entryPrice * (1 - stop_loss_pct)`. */
  predicate StopHit(p: Position, price: real, risk: Risk) {
    risk.stopLossPct.Some? && price <= p.entryPrice * (1.0 - risk.stopLossPct.value)
  }

  /** A take-profit is set and the price is at or above `entryPrice * (1 + take_profit_pct)`. */
  predicate TakeHit(p: Position, price: real, risk: Risk) {
    risk.takeProfitPct.Some? && price >= p.entryPrice * (1.0 + risk.takeProfitPct.value)
  }

  predicate Hit(p: Position, price: real, risk: Risk, stop: bool) {
    if stop then StopHit(p, price, risk) else TakeHit(p, price, risk)
  }

  /** The positions, in map order, whose stop (`stop`) or take-profit (`!stop`) level is reached; a
      symbol without a finite price is never flagged. */
  function Flagged(order: seq<string>, held: map<string, Position>, prices: map<string, real>, risk: Risk,
                   stop: bool): (r: seq<string>)
    ensures forall x :: x in r <==> x in order && x in held && x in prices && Hit(held[x], prices[x], risk, stop)
  {
    if order == [] then []
    else
      var n := |order| - 1;
      var x := order[n];
      assert order == order[..n] + [x];
      var init := Flagged(order[..n], held, prices, risk, stop);
      if x in held && x in prices && Hit(held[x], prices[x], risk, stop) then init + [x] else init
  }

  /** One more position considered. */
  lemma FlaggedStep(order: seq<string>, i: nat, held: map<string, Position>, prices: map<string, real>, risk: Risk,
                    stop: bool)
    requires i < |order|
    ensures var x := order[i];
      Flagged(order[..i + 1], held, prices, risk, stop)
        == if x in held && x in prices && Hit(held[x], prices[x], risk, stop)
           then Flagged(order[..i], held, prices, risk, stop) + [x]
           else Flagged(order[..i], held, prices, risk, stop)
  {
    assert order[..i + 1][..i] == order[..i];
  }

  // -----------------------------------------------------------------------------------------------
  // The closing set (lib/sim.ts:353-378)

  /** `set.add(x)` on a JavaScript `Set`, which keeps its members in insertion order. */
  function Enlist(c: seq<string>, x: string): (r: seq<string>)
    ensures forall y :: y in r <==> y in c || y == x
    ensures Distinct(c) ==> Distinct(r)
  {
    if x in c then c
    else
      assert Distinct(c) ==> Distinct(c + [x]) by {
        ElemsMembers(c);
        if Distinct(c) {
          DistinctSnoc(c, x);
        }
      }
      c + [x]
  }

  /** Adds each of `xs` in turn. */
  function AddAll(c: seq<string>, xs: seq<string>): (r: seq<string>)
    ensures forall y :: y in r <==> y in c || y in xs
    ensures Distinct(c) ==> Distinct(r)
  {
    if xs == [] then c
    else
      var n := |xs| - 1;
      assert xs == xs[..n] + [xs[n]];
      Enlist(AddAll(c, xs[..n]), xs[n])
  }

  /** The context in which the rules are evaluated for `sym`. */
  function ContextFor(sym: string, idx: nat, series: map<string, Series>, stops: seq<string>, takes: seq<string>)
    : (ctx: Evaluator.Context)
    requires sym in series
    ensures ctx.index == idx && ctx.indicators == series[sym].indicators
    ensures ctx.flags.stop == (sym in stops) && ctx.flags.take == (sym in takes)
  {
    Evaluator.Context(idx, series[sym].indicators, Evaluator.Flags(sym in stops, sym in takes))
  }

  /** An exit rule that holds for `sym` closes `sym` when its target, `sym` if it names none, is `"*"`
      or `sym` itself; a rule naming another ticker closes nothing. */
  predicate ExitCloses(x: ExitRule, sym: string, ctx: Evaluator.Context) {
    && Evaluator.Eval(x.when, ctx)
    && var target := if x.act.close.Some? then x.act.close.value.ticker else sym;
       target == "*" || target == sym
  }

  /** The exit rules, in order, for one symbol. */
  function ExitsFor(c: seq<string>, exits: seq<ExitRule>, sym: string, ctx: Evaluator.Context): (r: seq<string>)
    ensures forall y :: y in r <==> y in c || (y == sym && exists j | 0 <= j < |exits| :: ExitCloses(exits[j], sym, ctx))
    ensures Distinct(c) ==> Distinct(r)
  {
    if exits == [] then c
    else
      var n := |exits| - 1;
      var init := ExitsFor(c, exits[..n], sym, ctx);
      assert forall j | 0 <= j < n :: exits[..n][j] == exits[j];
      if ExitCloses(exits[n], sym, ctx) then Enlist(init, sym) else init
  }

  /** The exit pass over the universe. */
  function ScanExits(c: seq<string>, syms: seq<string>, exits: seq<ExitRule>, idx: nat, series: map<string, Series>,
                     stops: seq<string>, takes: seq<string>): (r: seq<string>)
    requires forall sym | sym in syms :: sym in series
    ensures forall y :: y in r <==> (y in c ||
      (y in syms && exists j | 0 <= j < |exits| :: ExitCloses(exits[j], y, ContextFor(y, idx, series, stops, takes))))
    ensures Distinct(c) ==> Distinct(r)
  {
    if syms == [] then c
    else
      var n := |syms| - 1;
      assert syms == syms[..n] + [syms[n]];
      var init := ScanExits(c, syms[..n], exits, idx, series, stops, takes);
      ExitsFor(init, exits, syms[n], ContextFor(syms[n], idx, series, stops, takes))
  }

  /** The stop-flagged positions. */
  function Stops(b: Book, prices: map<string, real>, risk: Risk): seq<string> {
    Flagged(b.table.order, b.table.held, prices, risk, true)
  }

  /** The take-profit-flagged positions. */
  function Takes(b: Book, prices: map<string, real>, risk: Risk): seq<string> {
    Flagged(b.table.order, b.table.held, prices, risk, false)
  }

  /** The closing set: the stop-flagged positions, then the take-profit-flagged ones, then the
      universe symbols an exit rule closes, each once. */
  function Closings(b: Book, s: Strategy, series: map<string, Series>, idx: nat, prices: map<string, real>)
    : (r: seq<string>)
    requires Valid(b.table) && forall sym | sym in s.universe :: sym in series
    ensures Distinct(r)
  {
    var stops := Stops(b, prices, s.risk);
    var takes := Takes(b, prices, s.risk);
    ScanExits(AddAll(AddAll([], stops), takes), s.universe, s.exits, idx, series, stops, takes)
  }

  /** A symbol is closed exactly when it is held and its stop-loss or take-profit level is reached,
      or when it is in the universe and some exit rule closes it. */
  lemma ClosingsMembers(b: Book, s: Strategy, series: map<string, Series>, idx: nat, prices: map<string, real>)
    requires Valid(b.table) && forall sym | sym in s.universe :: sym in series
    ensures forall y :: y in Closings(b, s, series, idx, prices) <==>
      || (y in b.table.held && y in prices && (StopHit(b.table.held[y], prices[y], s.risk) || TakeHit(b.table.held[y], prices[y], s.risk)))
      || (y in s.universe && exists j | 0 <= j < |s.exits| ::
            ExitCloses(s.exits[j], y, ContextFor(y, idx, series, Stops(b, prices, s.risk), Takes(b, prices, s.risk))))
  {
    ElemsMembers(b.table.order);
  }

  // -----------------------------------------------------------------------------------------------
  // Entry signals (lib/sim.ts:401-427)

  /** What the entry pass collects: the pending buys in rule order, whether a rule asked for a
      rebalance, and the closing set with the entry rules' `close` targets added. */
  datatype Signals = Signals(buys: seq<Pending>, rebalance: bool, closes: seq<string>)

  /** A ticker of `"*"` stands for the symbol the rule is evaluated for. */
  function Target(ticker: string, sym: string): (t: string)
    ensures ticker == "*" ==> t == sym
    ensures ticker != "*" ==> t == ticker
  {
    if ticker == "*" then sym else ticker
  }

  /** One entry rule for one symbol: when it holds, its buy is queued, its close target is added to
      the closing set, and its rebalance raises the flag. */
  function Signal(acc: Signals, e: EntryRule, sym: string, ctx: Evaluator.Context): Signals {
    if !Evaluator.Eval(e.when, ctx) then acc
    else
      Signals(
        acc.buys + (if e.act.buy.Some? then [Pending(Target(e.act.buy.value.ticker, sym), e.act.buy.value.sizing)] else []),
        acc.rebalance || e.act.rebalance,
        if e.act.close.Some? then Enlist(acc.closes, Target(e.act.close.value.ticker, sym)) else acc.closes)
  }

  /** The entry rules, in order, for one symbol. */
  function SignalsFor(acc: Signals, entries: seq<EntryRule>, sym: string, ctx: Evaluator.Context): (r: Signals)
    ensures r.rebalance <==> (acc.rebalance ||
      exists j | 0 <= j < |entries| :: entries[j].act.rebalance && Evaluator.Eval(entries[j].when, ctx))
  {
    if entries == [] then acc
    else
      var n := |entries| - 1;
      assert forall j | 0 <= j < n :: entries[..n][j] == entries[j];
      Signal(SignalsFor(acc, entries[..n], sym, ctx), entries[n], sym, ctx)
  }

  /** The entry pass over the universe. */
  function ScanEntries(acc: Signals, syms: seq<string>, entries: seq<EntryRule>, idx: nat,
                       series: map<string, Series>, stops: seq<string>, takes: seq<string>): (r: Signals)
    requires forall sym | sym in syms :: sym in series
    ensures r.rebalance <==> (acc.rebalance ||
      exists i, j | 0 <= i < |syms| && 0 <= j < |entries| ::
        entries[j].act.rebalance && Evaluator.Eval(entries[j].when, ContextFor(syms[i], idx, series, stops, takes)))
  {
    if syms == [] then acc
    else
      var n := |syms| - 1;
      assert syms == syms[..n] + [syms[n]];
      assert forall i | 0 <= i < n :: syms[..n][i] == syms[i];
      SignalsFor(ScanEntries(acc, syms[..n], entries, idx, series, stops, takes), entries, syms[n],
                 ContextFor(syms[n], idx, series, stops, takes))
  }

  /** The entry signals of a session, evaluated with the flags of the positions held before the
      closing pass. */
  function EntrySignals(b: Book, s: Strategy, series: map<string, Series>, idx: nat, prices: map<string, real>)
    : Signals
    requires Valid(b.table) && forall sym | sym in s.universe :: sym in series
  {
    ScanEntries(Signals([], false, Closings(b, s, series, idx, prices)), s.universe, s.entries, idx, series,
                Stops(b, prices, s.risk), Takes(b, prices, s.risk))
  }

  /** The sort key of a pending buy. */
  function SymbolOf(p: Pending): string {
    p.symbol
  }

  // -----------------------------------------------------------------------------------------------
  // One session (lib/sim.ts:323-579)

  /** Every universe symbol has its series, covering session `last`, with positive closes, and
      slippage keeps the cost of a share positive: what `runBacktest` hands to `simulate`. */
  predicate Ready(s: Strategy, series: map<string, Series>, last: nat) {
    && |s.universe| > 0
    && s.capital.slippagePct > -1.0
    && forall sym | sym in s.universe ::
         && sym in series
         && last < |series[sym].candles|
         && last < |series[sym].closes|
         && forall k | 0 <= k < |series[sym].closes| :: series[sym].closes[k] > 0.0
  }

  /** The positions form a well-formed map of universe symbols, each with a positive whole number of
      shares. */
  predicate Holds(b: Book, universe: seq<string>) {
    Valid(b.table) && forall x | x in b.table.held :: x in universe && b.table.held[x].shares > 0
  }

  /** On a ready session the prices are a market and the held positions are priced. */
  lemma PricesReady(s: Strategy, series: map<string, Series>, idx: nat, b: Book)
    requires Ready(s, series, idx)
    ensures Market(Prices(s.universe, series, idx), s.capital)
    ensures Holds(b, s.universe) <==> Sound(b, Prices(s.universe, series, idx))
  {
  }

  /** The book after the session's trading: the closing pass, the buys in symbol order, then the
      rebalance that either a rule or the schedule asked for. */
  function Traded(b: Book, s: Strategy, series: map<string, Series>, idx: nat, rt: Host.Runtime): (r: Book)
    requires Ready(s, series, idx) && Holds(b, s.universe)
    ensures Holds(r, s.universe)
  {
    var date := series[s.universe[0]].candles[idx].date;
    var prices := Prices(s.universe, series, idx);
    PricesReady(s, series, idx, b);
    var closed := Liquidate(b, Closings(b, s, series, idx, prices), date, s.capital, prices);
    var signals := EntrySignals(b, s, series, idx, prices);
    var rebalance := signals.rebalance || ShouldRebalance(s.rebalance, idx, series[s.universe[0]].candles, rt);
    var bought := BuyAll(closed, Order.SortBy(signals.buys, SymbolOf), s.universe, date, s.capital, s.risk, prices);
    var r := Rebalance(bought, rebalance, date, s.capital, s.risk, prices);
    PricesReady(s, series, idx, r);
    r
  }

  /** Adds a session of exposure to the counters of each listed symbol, creating them if absent. */
  function Expose(stats: map<string, Stats>, syms: seq<string>): (r: map<string, Stats>)
    ensures r.Keys == stats.Keys + Elems(syms)
  {
    if syms == [] then stats
    else
      var n := |syms| - 1;
      var st := Expose(stats, syms[..n]);
      var per := if syms[n] in st then st[syms[n]] else NoStats;
      st[syms[n] := per.(exposureDays := per.exposureDays + 1)]
  }

  /** Each listed symbol's exposure count goes up by one, and nothing else changes. */
  lemma {:induction false} ExposeCounts(stats: map<string, Stats>, syms: seq<string>)
    requires Distinct(syms)
    ensures forall x | x in Expose(stats, syms) ::
      var base := if x in stats then stats[x] else NoStats;
      Expose(stats, syms)[x] == base.(exposureDays := base.exposureDays + if x in Elems(syms) then 1 else 0)
  {
    if syms != [] {
      var n := |syms| - 1;
      DistinctInit(syms);
      ExposeCounts(stats, syms[..n]);
    }
  }

  /** What `simulate` accumulates: the book, the equity curve with its dates, and the number of
      sessions that ended with a position open. */
  datatype Run = Run(book: Book, values: seq<real>, dates: seq<string>, exposureDays: int)

  /** One session: trade, then mark the book to market, count the exposure and record the equity. */
  function Day(run: Run, s: Strategy, series: map<string, Series>, idx: nat, rt: Host.Runtime): (r: Run)
    requires Ready(s, series, idx) && Holds(run.book, s.universe)
    ensures Holds(r.book, s.universe)
    ensures |r.values| == |run.values| + 1
    ensures r.dates == run.dates + [series[s.universe[0]].candles[idx].date]
    ensures r.exposureDays == run.exposureDays + if Size(r.book.table) > 0 then 1 else 0
  {
    var b := Traded(run.book, s, series, idx, rt);
    var marked := Book(b.cash, b.table, b.log, Expose(b.stats, b.table.order), b.turnover, b.warnings);
    var equity := Equity(marked, Prices(s.universe, series, idx));
    Run(marked,
        run.values + [equity],
        run.dates + [series[s.universe[0]].candles[idx].date],
        run.exposureDays + if Size(b.table) > 0 then 1 else 0)
  }

  // -----------------------------------------------------------------------------------------------
  // What a session guarantees

  /** The value recorded for a session is the equity of the book it ends with, at that session's
      closing prices. */
  lemma DayValue(run: Run, s: Strategy, series: map<string, Series>, idx: nat, rt: Host.Runtime)
    requires Ready(s, series, idx) && Holds(run.book, s.universe)
    ensures var r := Day(run, s, series, idx, rt);
      r.values == run.values + [Equity(r.book, Prices(s.universe, series, idx))]
  {
  }

  /** After the closing pass a position is left exactly when its stop and take-profit levels were
      not reached and no exit rule closed its symbol; the flags are those of the positions held
      when the session began. */
  lemma ClosingPass(b: Book, s: Strategy, series: map<string, Series>, idx: nat, date: string)
    requires Ready(s, series, idx) && Holds(b, s.universe)
    ensures var prices := Prices(s.universe, series, idx);
      var closed := Liquidate(b, Closings(b, s, series, idx, prices), date, s.capital, prices);
      forall x :: x in closed.table.held <==>
        && x in b.table.held
        && !StopHit(b.table.held[x], prices[x], s.risk)
        && !TakeHit(b.table.held[x], prices[x], s.risk)
        && !exists j | 0 <= j < |s.exits| ::
             ExitCloses(s.exits[j], x, ContextFor(x, idx, series, Stops(b, prices, s.risk), Takes(b, prices, s.risk)))
  {
    var prices := Prices(s.universe, series, idx);
    PricesReady(s, series, idx, b);
    ClosingsMembers(b, s, series, idx, prices);
    LiquidateHeld(b, Closings(b, s, series, idx, prices), date, s.capital, prices);
  }

  /** An entry rule's `close` action is added to the closing set only after that set was applied,
      so it never closes anything: dropping every such action leaves each session unchanged. */
  lemma EntryCloseInert(run: Run, s: Strategy, series: map<string, Series>, idx: nat, rt: Host.Runtime)
    requires Ready(s, series, idx) && Holds(run.book, s.universe)
    ensures Day(run, s.(entries := DropCloses(s.entries)), series, idx, rt) == Day(run, s, series, idx, rt)
  {
    var prices := Prices(s.universe, series, idx);
    var b := run.book;
    var acc := Signals([], false, Closings(b, s, series, idx, prices));
    ScanEntriesDrop(acc, s.universe, s.entries, idx, series, Stops(b, prices, s.risk), Takes(b, prices, s.risk));
    var t := s.(entries := DropCloses(s.entries));
    assert Closings(b, t, series, idx, prices) == Closings(b, s, series, idx, prices);
    assert EntrySignals(b, t, series, idx, prices).buys == EntrySignals(b, s, series, idx, prices).buys;
    assert EntrySignals(b, t, series, idx, prices).rebalance == EntrySignals(b, s, series, idx, prices).rebalance;
    assert Traded(b, t, series, idx, rt) == Traded(b, s, series, idx, rt);
  }

  /** The entry rule without its `close` action. */
  function DropClose(e: EntryRule): EntryRule {
    e.(act := e.act.(close := None))
  }

  function DropCloses(es: seq<EntryRule>): (r: seq<EntryRule>)
    ensures |r| == |es| && forall j | 0 <= j < |es| :: r[j] == DropClose(es[j])
  {
    seq(|es|, j requires 0 <= j < |es| => DropClose(es[j]))
  }

  lemma {:induction false} SignalsForDrop(acc: Signals, acc': Signals, entries: seq<EntryRule>, sym: string,
                                          ctx: Evaluator.Context)
    requires acc.buys == acc'.buys && acc.rebalance == acc'.rebalance
    ensures SignalsFor(acc', DropCloses(entries), sym, ctx).buys == SignalsFor(acc, entries, sym, ctx).buys
    ensures SignalsFor(acc', DropCloses(entries), sym, ctx).rebalance == SignalsFor(acc, entries, sym, ctx).rebalance
  {
    if entries != [] {
      var n := |entries| - 1;
      assert DropCloses(entries)[..n] == DropCloses(entries[..n]);
      SignalsForDrop(acc, acc', entries[..n], sym, ctx);
    }
  }

  lemma {:induction false} ScanEntriesDrop(acc: Signals, syms: seq<string>, entries: seq<EntryRule>, idx: nat,
                                           series: map<string, Series>, stops: seq<string>, takes: seq<string>)
    requires forall sym | sym in syms :: sym in series
    ensures ScanEntries(acc, syms, DropCloses(entries), idx, series, stops, takes).buys
         == ScanEntries(acc, syms, entries, idx, series, stops, takes).buys
    ensures ScanEntries(acc, syms, DropCloses(entries), idx, series, stops, takes).rebalance
         == ScanEntries(acc, syms, entries, idx, series, stops, takes).rebalance
  {
    if syms != [] {
      var n := |syms| - 1;
      assert syms == syms[..n] + [syms[n]];
      ScanEntriesDrop(acc, syms[..n], entries, idx, series, stops, takes);
      SignalsForDrop(ScanEntries(acc, syms[..n], entries, idx, series, stops, takes),
                     ScanEntries(acc, syms[..n], DropCloses(entries), idx, series, stops, takes),
                     entries, syms[n], ContextFor(syms[n], idx, series, stops, takes));
    }
  }

  /** A session never takes the number of open positions above `max_positions`: closing and
      rebalancing only remove positions, and a buy opens one only below the cap. */
  lemma TradedKeepsCap(b: Book, s: Strategy, series: map<string, Series>, idx: nat, rt: Host.Runtime)
    requires Ready(s, series, idx) && Holds(b, s.universe)
    requires Size(b.table) <= s.risk.maxPositions
    ensures Size(Traded(b, s, series, idx, rt).table) <= s.risk.maxPositions
  {
    var date := series[s.universe[0]].candles[idx].date;
    var prices := Prices(s.universe, series, idx);
    PricesReady(s, series, idx, b);
    var closed := Liquidate(b, Closings(b, s, series, idx, prices), date, s.capital, prices);
    LiquidateHeld(b, Closings(b, s, series, idx, prices), date, s.capital, prices);
    SizeSubset(closed.table, b.table);
    var signals := EntrySignals(b, s, series, idx, prices);
    var rebalance := signals.rebalance || ShouldRebalance(s.rebalance, idx, series[s.universe[0]].candles, rt);
    var bought := BuyAll(closed, Order.SortBy(signals.buys, SymbolOf), s.universe, date, s.capital, s.risk, prices);
    var r := Rebalance(bought, rebalance, date, s.capital, s.risk, prices);
    SizeSubset(r.table, bought.table);
  }

  /** The same, session by session. */
  lemma DayKeepsCap(run: Run, s: Strategy, series: map<string, Series>, idx: nat, rt: Host.Runtime)
    requires Ready(s, series, idx) && Holds(run.book, s.universe)
    requires Size(run.book.table) <= s.risk.maxPositions
    ensures Size(Day(run, s, series, idx, rt).book.table) <= s.risk.maxPositions
  {
    TradedKeepsCap(run.book, s, series, idx, rt);
  }

  /** `after` keeps the counters of `before` with their exposure counts; a new counter starts at 0. */
  predicate SameExposure(before: map<string, Stats>, after: map<string, Stats>) {
    && before.Keys <= after.Keys
    && forall x | x in after :: after[x].exposureDays == if x in before then before[x].exposureDays else 0
  }

  /** Every exposure count lies between 0 and `n`. */
  predicate ExposureWithin(stats: map<string, Stats>, n: int) {
    forall x | x in stats :: 0 <= stats[x].exposureDays <= n
  }

  lemma {:induction false} LiquidateExposure(b: Book, closings: seq<string>, date: string, capital: Capital,
                                             prices: map<string, real>)
    requires Sound(b, prices)
    ensures SameExposure(b.stats, Liquidate(b, closings, date, capital, prices).stats)
  {
    if closings != [] {
      LiquidateExposure(b, closings[..|closings| - 1], date, capital, prices);
    }
  }

  lemma {:induction false} AdjustAllExposure(b: Book, symbols: seq<string>, target: real, date: string,
                                             capital: Capital, prices: map<string, real>)
    requires Sound(b, prices) && Market(prices, capital)
    ensures SameExposure(b.stats, AdjustAll(b, symbols, target, date, capital, prices).stats)
  {
    if symbols != [] {
      AdjustAllExposure(b, symbols[..|symbols| - 1], target, date, capital, prices);
    }
  }

  /** Trading changes no exposure count. */
  lemma TradedExposure(b: Book, s: Strategy, series: map<string, Series>, idx: nat, rt: Host.Runtime)
    requires Ready(s, series, idx) && Holds(b, s.universe)
    ensures SameExposure(b.stats, Traded(b, s, series, idx, rt).stats)
  {
    var date := series[s.universe[0]].candles[idx].date;
    var prices := Prices(s.universe, series, idx);
    PricesReady(s, series, idx, b);
    var closed := Liquidate(b, Closings(b, s, series, idx, prices), date, s.capital, prices);
    LiquidateExposure(b, Closings(b, s, series, idx, prices), date, s.capital, prices);
    var signals := EntrySignals(b, s, series, idx, prices);
    var rebalance := signals.rebalance || ShouldRebalance(s.rebalance, idx, series[s.universe[0]].candles, rt);
    var bought := BuyAll(closed, Order.SortBy(signals.buys, SymbolOf), s.universe, date, s.capital, s.risk, prices);
    if rebalance && Size(bought.table) > 0 {
      AdjustAllExposure(bought, bought.table.order, TargetValue(Equity(bought, prices), s.risk, Size(bought.table)),
                        date, s.capital, prices);
    }
  }

  /** A session adds one to the exposure count of each symbol held at its close and to no other, so
      no count exceeds the number of sessions run. */
  lemma DayExposure(run: Run, s: Strategy, series: map<string, Series>, idx: nat, rt: Host.Runtime)
    requires Ready(s, series, idx) && Holds(run.book, s.universe)
    ensures var r := Day(run, s, series, idx, rt);
      forall x | x in r.book.stats ::
        var base := if x in run.book.stats then run.book.stats[x].exposureDays else 0;
        r.book.stats[x].exposureDays == base + if x in r.book.table.held then 1 else 0
  {
    var b := Traded(run.book, s, series, idx, rt);
    TradedExposure(run.book, s, series, idx, rt);
    ExposeCounts(b.stats, b.table.order);
  }

  /** A session adds at most one to each exposure count. */
  lemma DayExposureWithin(run: Run, s: Strategy, series: map<string, Series>, idx: nat, rt: Host.Runtime, n: nat)
    requires Ready(s, series, idx) && Holds(run.book, s.universe)
    requires ExposureWithin(run.book.stats, n)
    ensures ExposureWithin(Day(run, s, series, idx, rt).book.stats, n + 1)
  {
    DayExposure(run, s, series, idx, rt);
  }
}
