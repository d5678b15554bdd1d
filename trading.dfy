/** The trading steps of one simulated session (lib/sim.ts:380-546): closing positions, executing
    pending buys and rebalancing, on the book of cash, positions, trade log, per-asset counters,
    turnover and warnings that `simulate` keeps in local variables. Amounts of shares at a price
    are written `Scale(shares, price)`, which is `shares * price`. */
module Trading {
  import opened Numeric
  import opened Types
  import opened Positions
  import Metrics

  /** The per-asset counters `{ pnl, trades, exposureDays }`. */
  datatype Stats = Stats(pnl: real, trades: int, exposureDays: int)

  const NoStats := Stats(0.0, 0, 0)

  /** A pending buy: the target symbol and the sizing of the buy action that produced it. */
  datatype Pending = Pending(symbol: string, sizing: Sizing)

  /** The mutable state of a simulation besides the equity curve. */
  datatype Book = Book(
    cash: real,
    table: Table,
    log: seq<Metrics.Trade>,
    stats: map<string, Stats>,
    turnover: real,
    warnings: seq<string>)

  /** The positions are a well-formed map, each held symbol has a price, and each holds a positive
      whole number of shares. */
  ghost predicate Sound(b: Book, prices: map<string, real>) {
    Valid(b.table) && forall s | s in b.table.held :: s in prices && b.table.held[s].shares > 0
  }

  /** Prices are positive and slippage keeps the cost of a share positive, which the candle walk and
      the schema guarantee; under it no division by zero arises. */
  predicate Market(prices: map<string, real>, capital: Capital) {
    (forall s | s in prices :: prices[s] > 0.0) && capital.slippagePct > -1.0
  }

  /** Cash plus the market value of the positions at `prices`. */
  function Equity(b: Book, prices: map<string, real>): real {
    Holdings(b.table, prices) + b.cash
  }

  /** What selling shares worth `gross` brings in after commission and slippage. */
  function Proceeds(gross: real, capital: Capital): real {
    gross - capital.commission - gross * capital.slippagePct
  }

  /** What one share costs to buy with slippage. */
  function CostPerShare(price: real, capital: Capital): (c: real)
    requires price > 0.0 && capital.slippagePct > -1.0
    ensures c > 0.0
  {
    price * (1.0 + capital.slippagePct)
  }

  /** Adds a closed trade's profit to the counters of `s`, creating them if absent. */
  function Tally(stats: map<string, Stats>, s: string, pnl: real): (r: map<string, Stats>)
    ensures r.Keys == stats.Keys + {s}
    ensures r[s].trades == (if s in stats then stats[s].trades else 0) + 1
    ensures r[s].pnl == (if s in stats then stats[s].pnl else 0.0) + pnl
    ensures r[s].exposureDays == if s in stats then stats[s].exposureDays else 0
    ensures forall x | x in stats && x != s :: r[x] == stats[x]
  {
    var per := if s in stats then stats[s] else NoStats;
    stats[s := Stats(per.pnl + pnl, per.trades + 1, per.exposureDays)]
  }

  // -----------------------------------------------------------------------------------------------
  // Closings (lib/sim.ts:380-399)

  /** Liquidates the whole position in `s` at its price, if `s` is held. */
  function Close(b: Book, s: string, date: string, capital: Capital, prices: map<string, real>): (r: Book)
    requires Sound(b, prices)
    ensures Sound(r, prices)
    ensures r.table.held == b.table.held - {s}
  {
    if s !in b.table.held then b
    else
      var pos := b.table.held[s];
      var gross := Scale(pos.shares, prices[s]);
      var proceeds := Proceeds(gross, capital);
      var pnl := proceeds - pos.costBasis;
      b.(cash := b.cash + proceeds,
         table := Delete(b.table, s),
         log := b.log + [Metrics.Trade(s, date, pnl)],
         stats := Tally(b.stats, s, pnl),
         turnover := b.turnover + Abs(gross))
  }

  /** Closing a held symbol removes the whole position, adds its proceeds to cash and appends one
      trade whose profit is the proceeds less the cost basis, leaving the other positions as they
      were; closing a symbol not held changes nothing. */
  lemma CloseAccounts(b: Book, s: string, date: string, capital: Capital, prices: map<string, real>)
    requires Sound(b, prices)
    ensures var r := Close(b, s, date, capital, prices);
      if s in b.table.held then
        var pos := b.table.held[s];
        var proceeds := Proceeds(Value(b.table.held, prices, s), capital);
        && s !in r.table.held
        && (forall x | x in r.table.held :: r.table.held[x] == b.table.held[x])
        && r.cash == b.cash + proceeds
        && r.log == b.log + [Metrics.Trade(s, date, proceeds - pos.costBasis)]
        && r.stats[s].trades == (if s in b.stats then b.stats[s].trades else 0) + 1
      else r == b
  {
  }

  /** Closing converts the position's market value into cash less commission and slippage. */
  lemma CloseCost(b: Book, s: string, date: string, capital: Capital, prices: map<string, real>)
    requires Sound(b, prices) && s in b.table.held
    ensures Equity(Close(b, s, date, capital, prices), prices)
         == Equity(b, prices) - capital.commission - Value(b.table.held, prices, s) * capital.slippagePct
  {
    HoldingsDelete(b.table, prices, s);
  }

  /** The closing pass: each listed symbol in turn. */
  function Liquidate(b: Book, closings: seq<string>, date: string, capital: Capital, prices: map<string, real>)
    : (r: Book)
    requires Sound(b, prices)
    ensures Sound(r, prices)
    ensures r.warnings == b.warnings
  {
    if closings == [] then b
    else
      var n := |closings| - 1;
      Close(Liquidate(b, closings[..n], date, capital, prices), closings[n], date, capital, prices)
  }

  /** After the closing pass exactly the positions not listed are left, each as it was. */
  lemma {:induction false} LiquidateHeld(b: Book, closings: seq<string>, date: string, capital: Capital,
                                         prices: map<string, real>)
    requires Sound(b, prices)
    ensures var r := Liquidate(b, closings, date, capital, prices);
      && (forall s :: s in r.table.held <==> s in b.table.held && s !in closings)
      && (forall s | s in r.table.held :: r.table.held[s] == b.table.held[s])
  {
    if closings != [] {
      LiquidateHeld(b, closings[..|closings| - 1], date, capital, prices);
    }
  }

  /** The closing loop of `simulate`. */
  method ApplyClosings(book: Book, closings: seq<string>, date: string, capital: Capital, prices: map<string, real>)
    returns (b: Book)
    requires Sound(book, prices)
    ensures b == Liquidate(book, closings, date, capital, prices)
  {
    b := book;
    for i := 0 to |closings|
      invariant Sound(b, prices)
      invariant b == Liquidate(book, closings[..i], date, capital, prices)
    {
      assert closings[..i + 1][..i] == closings[..i];
      b := CloseOne(b, closings[i], date, capital, prices);
    }
    assert closings[..|closings|] == closings;
  }

  /** The body of the closing loop. */
  method CloseOne(book: Book, symbol: string, date: string, capital: Capital, prices: map<string, real>)
    returns (b: Book)
    requires Sound(book, prices)
    ensures b == Close(book, symbol, date, capital, prices)
  {
    b := book;
    if symbol !in b.table.held {
      return;
    }
    var position := b.table.held[symbol];
    var price := prices[symbol];
    var gross := Scale(position.shares, price);
    var proceeds := Proceeds(gross, capital);
    var pnl := proceeds - position.costBasis;
    b := b.(cash := b.cash + proceeds,
            table := Delete(b.table, symbol),
            log := b.log + [Metrics.Trade(symbol, date, pnl)],
            stats := Tally(b.stats, symbol, pnl),
            turnover := b.turnover + Abs(gross));
  }

  // -----------------------------------------------------------------------------------------------
  // Buys (lib/sim.ts:437-498). The sizing `switch` at lib/sim.ts:459-472 lacks its closing brace;
  // the model reads it as ending after line 472, so that lines 473-498 are the buy path of every
  // sizing mode.

  /** The warning pushed when a buy of an unheld symbol meets the position cap. */
  function CapWarning(symbol: string, date: string): string {
    "Max positions reached, skipped " + symbol + " on " + date
  }

  /** The cap on one position's value: a share of equity, or an equal split over the position cap. */
  function AllocationCap(equity: real, risk: Risk): real {
    if risk.maxAllocationPct > 0.0 then equity * risk.maxAllocationPct
    else equity / Max(1.0, risk.maxPositions as real)
  }

  /** What a buy may spend: room under the cap for `equal_weight`, a share of cash (10% unless given)
      for `fixed_pct_cash`, and all the cash for `all_in_single`. */
  function Budget(sizing: Sizing, cap: real, currentValue: real, cash: real): (budget: real)
    ensures sizing.kind == EqualWeight ==> budget == Max(0.0, cap - currentValue)
    ensures sizing.kind == FixedPctCash ==> budget == cash * (if sizing.pct.Some? then sizing.pct.value else 0.1)
    ensures sizing.kind == AllInSingle ==> budget == cash
  {
    match sizing.kind
    case EqualWeight => Positive(cap - currentValue)
    case FixedPctCash => cash * sizing.pct.GetOr(0.1)
    case AllInSingle => cash
  }

  /** An equal-weight buy tops the position up to the cap and no further (nothing once the position
      is over it); with cash not negative and a percentage within [0, 1], the other modes never
      plan to spend more cash than there is, nor a negative amount. */
  lemma BudgetWithin(sizing: Sizing, cap: real, currentValue: real, cash: real)
    ensures sizing.kind == EqualWeight && currentValue <= cap ==> currentValue + Budget(sizing, cap, currentValue, cash) == cap
    ensures sizing.kind == EqualWeight && currentValue > cap ==> Budget(sizing, cap, currentValue, cash) == 0.0
    ensures sizing.kind != EqualWeight && cash >= 0.0 && (sizing.pct.Some? ==> 0.0 <= sizing.pct.value <= 1.0) ==>
      0.0 <= Budget(sizing, cap, currentValue, cash) <= cash
  {
    if sizing.kind == FixedPctCash && cash >= 0.0 && (sizing.pct.Some? ==> 0.0 <= sizing.pct.value <= 1.0) {
      var pct := if sizing.pct.Some? then sizing.pct.value else 0.1;
      assert 0.0 <= pct <= 1.0;
      assert 0.0 <= cash * pct <= cash by {
        assert cash * (1.0 - pct) >= 0.0;
      }
    }
  }

  /** What a pending buy comes to. */
  datatype Decision = Skip | Capped | Fill(shares: int, tradeCost: real)

  /** The checks of the buy loop, in order: the symbol must be in the universe, an unheld symbol
      must fit under the position cap (else a warning), its price must be finite, and the budget,
      the whole number of shares it buys and their cost must be positive and within cash. */
  function Decide(b: Book, p: Pending, universe: seq<string>, capital: Capital, risk: Risk,
                  prices: map<string, real>): (d: Decision)
    requires Market(prices, capital)
    ensures d == Capped <==> p.symbol in universe && Size(b.table) >= risk.maxPositions && p.symbol !in b.table.held
    ensures d.Fill? ==>
      && p.symbol in universe && p.symbol in prices
      && (Size(b.table) < risk.maxPositions || p.symbol in b.table.held)
      && d.shares > 0
      && d.tradeCost == Scale(d.shares, CostPerShare(prices[p.symbol], capital)) + capital.commission
      && d.tradeCost <= b.cash
  {
    if p.symbol !in universe then Skip
    else if Size(b.table) >= risk.maxPositions && p.symbol !in b.table.held then Capped
    else if p.symbol !in prices then Skip
    else
      var price := prices[p.symbol];
      var cap := AllocationCap(Equity(b, prices), risk);
      var currentValue := if p.symbol in b.table.held then Scale(b.table.held[p.symbol].shares, price) else 0.0;
      var budget := Budget(p.sizing, cap, currentValue, b.cash);
      if budget <= 0.0 then Skip
      else
        var costPerShare := CostPerShare(price, capital);
        var shares := (budget / costPerShare).Floor;
        if shares <= 0 then Skip
        else
          var tradeCost := Scale(shares, costPerShare) + capital.commission;
          if tradeCost > b.cash then Skip else Fill(shares, tradeCost)
  }

  /** The position after buying `shares` more for `tradeCost`: a top-up keeps the entry date and
      averages the entry price over all shares. */
  function Bought(existing: Option<Position>, shares: int, tradeCost: real, date: string): (pos: Position)
    requires shares > 0 && (existing.Some? ==> existing.value.shares > 0)
    ensures pos.shares > 0 && pos.entryPrice == pos.costBasis / pos.shares as real
    ensures existing.Some? ==>
      && pos.shares == existing.value.shares + shares
      && pos.costBasis == existing.value.costBasis + tradeCost
      && pos.entryDate == existing.value.entryDate
    ensures existing.None? ==> pos.shares == shares && pos.costBasis == tradeCost && pos.entryDate == date
  {
    match existing
    case None => Position(shares, tradeCost, tradeCost / shares as real, date)
    case Some(e) =>
      var totalShares := e.shares + shares;
      var newCostBasis := e.costBasis + tradeCost;
      Position(totalShares, newCostBasis, newCostBasis / totalShares as real, e.entryDate)
  }

  /** `positions.get(s)` */
  function Lookup(t: Table, s: string): (r: Option<Position>)
    ensures r.Some? <==> s in t.held
    ensures r.Some? ==> r.value == t.held[s]
  {
    if s in t.held then Some(t.held[s]) else None
  }

  /** One pending buy. */
  function Buy(b: Book, p: Pending, universe: seq<string>, date: string, capital: Capital, risk: Risk,
               prices: map<string, real>): (r: Book)
    requires Sound(b, prices) && Market(prices, capital)
    ensures Sound(r, prices)
    ensures r.table.held.Keys == b.table.held.Keys + (if r.table == b.table then {} else {p.symbol})
    ensures Size(r.table) <= Size(b.table) + 1
    ensures Size(r.table) > Size(b.table) ==> Size(b.table) < risk.maxPositions
    ensures r.cash == b.cash || 0.0 <= r.cash
    ensures r.log == b.log && r.stats == b.stats
  {
    match Decide(b, p, universe, capital, risk, prices)
    case Skip => b
    case Capped => b.(warnings := b.warnings + [CapWarning(p.symbol, date)])
    case Fill(shares, tradeCost) =>
      var pos := Bought(Lookup(b.table, p.symbol), shares, tradeCost, date);
      b.(cash := b.cash - tradeCost,
         table := Put(b.table, p.symbol, pos),
         turnover := b.turnover + tradeCost)
  }

  /** A buy that executes moves its cost from cash into the position: the book loses the commission
      and what the shares cost beyond their value, which `SlippedCost` shows is the slippage on
      them. */
  lemma BuyCost(b: Book, p: Pending, universe: seq<string>, date: string, capital: Capital, risk: Risk,
                prices: map<string, real>)
    requires Sound(b, prices) && Market(prices, capital)
    requires Decide(b, p, universe, capital, risk, prices).Fill?
    ensures var n := Decide(b, p, universe, capital, risk, prices).shares;
      var price := prices[p.symbol];
      Equity(Buy(b, p, universe, date, capital, risk, prices), prices)
        == Equity(b, prices) - capital.commission - (Scale(n, CostPerShare(price, capital)) - Scale(n, price))
  {
    var d := Decide(b, p, universe, capital, risk, prices);
    var existing := Lookup(b.table, p.symbol);
    var pos := Bought(existing, d.shares, d.tradeCost, date);
    BuyParts(b, p, universe, date, capital, risk, prices);
    HoldingsPut(b.table, prices, p.symbol, pos);
    if existing.Some? {
      ScaleAdd(existing.value.shares, d.shares, prices[p.symbol]);
    }
  }

  /** The cash and the positions after a buy that executes. */
  lemma BuyParts(b: Book, p: Pending, universe: seq<string>, date: string, capital: Capital, risk: Risk,
                 prices: map<string, real>)
    requires Sound(b, prices) && Market(prices, capital)
    requires Decide(b, p, universe, capital, risk, prices).Fill?
    ensures var d := Decide(b, p, universe, capital, risk, prices);
      var r := Buy(b, p, universe, date, capital, risk, prices);
      && r.cash == b.cash - d.tradeCost
      && r.table == Put(b.table, p.symbol, Bought(Lookup(b.table, p.symbol), d.shares, d.tradeCost, date))
  {
  }

  /** A buy of an unheld symbol at the position cap is skipped with the cap warning. */
  lemma BuyCapped(b: Book, p: Pending, universe: seq<string>, date: string, capital: Capital, risk: Risk,
                  prices: map<string, real>)
    requires Sound(b, prices) && Market(prices, capital)
    requires p.symbol in universe && Size(b.table) >= risk.maxPositions && p.symbol !in b.table.held
    ensures Buy(b, p, universe, date, capital, risk, prices)
         == b.(warnings := b.warnings + ["Max positions reached, skipped " + p.symbol + " on " + date])
  {
  }

  /** The buy pass over the sorted pending buys. */
  function BuyAll(b: Book, buys: seq<Pending>, universe: seq<string>, date: string, capital: Capital, risk: Risk,
                  prices: map<string, real>): (r: Book)
    requires Sound(b, prices) && Market(prices, capital)
    ensures Sound(r, prices)
    ensures Size(b.table) <= risk.maxPositions ==> Size(r.table) <= risk.maxPositions
    ensures b.table.held.Keys <= r.table.held.Keys
    ensures b.cash >= 0.0 ==> r.cash >= 0.0
    ensures r.log == b.log && r.stats == b.stats
  {
    if buys == [] then b
    else
      var n := |buys| - 1;
      Buy(BuyAll(b, buys[..n], universe, date, capital, risk, prices), buys[n], universe, date, capital, risk, prices)
  }

  /** The buy loop of `simulate`. */
  method ExecuteBuys(book: Book, buys: seq<Pending>, universe: seq<string>, date: string, capital: Capital,
                     risk: Risk, prices: map<string, real>) returns (b: Book)
    requires Sound(book, prices) && Market(prices, capital)
    ensures b == BuyAll(book, buys, universe, date, capital, risk, prices)
  {
    b := book;
    for i := 0 to |buys|
      invariant Sound(b, prices)
      invariant b == BuyAll(book, buys[..i], universe, date, capital, risk, prices)
    {
      assert buys[..i + 1][..i] == buys[..i];
      b := BuyStep(b, buys[i], universe, date, capital, risk, prices);
    }
    assert buys[..|buys|] == buys;
  }

  /** The body of the buy loop, with its early `continue`s. */
  method BuyStep(b: Book, pending: Pending, universe: seq<string>, date: string, capital: Capital, risk: Risk,
                 prices: map<string, real>) returns (r: Book)
    requires Sound(b, prices) && Market(prices, capital)
    ensures r == Buy(b, pending, universe, date, capital, risk, prices)
  {
    r := b;
    if pending.symbol !in universe {
      return;
    }
    if Size(r.table) >= risk.maxPositions && pending.symbol !in r.table.held {
      r := r.(warnings := r.warnings + [CapWarning(pending.symbol, date)]);
      return;
    }
    if pending.symbol !in prices {
      return;
    }
    var price := prices[pending.symbol];
    var existing := Lookup(r.table, pending.symbol);
    var equityValue := Holdings(r.table, prices) + r.cash;
    var allocationCap := AllocationCap(equityValue, risk);
    var currentValue := if existing.Some? then Scale(existing.value.shares, price) else 0.0;
    var budget := Budget(pending.sizing, allocationCap, currentValue, r.cash);
    if budget <= 0.0 {
      return;
    }
    var costPerShare := CostPerShare(price, capital);
    var shares := (budget / costPerShare).Floor;
    if shares <= 0 {
      return;
    }
    var tradeCost := Scale(shares, costPerShare) + capital.commission;
    if tradeCost > r.cash {
      return;
    }
    r := r.(cash := r.cash - tradeCost);
    var position := Bought(existing, shares, tradeCost, date);
    r := r.(table := Put(r.table, pending.symbol, position), turnover := r.turnover + tradeCost);
  }

  // -----------------------------------------------------------------------------------------------
  // Rebalancing (lib/sim.ts:500-546)

  /** The value each position is brought towards: a share of equity, or an equal split over the
      positions held. */
  function TargetValue(equity: real, risk: Risk, size: nat): real {
    if risk.maxAllocationPct > 0.0 then equity * risk.maxAllocationPct
    else equity / Max(1.0, size as real)
  }

  /** Brings the position in `s` to the whole number of shares worth `target`: buys the shortfall if
      cash covers it, or sells the excess, closing the position with a trade once no shares remain. */
  function Adjust(b: Book, s: string, target: real, date: string, capital: Capital, prices: map<string, real>)
    : (r: Book)
    requires Sound(b, prices) && Market(prices, capital)
    ensures Sound(r, prices)
    ensures r.table.held.Keys <= b.table.held.Keys
    ensures s in r.table.held && r.table.held[s].shares > b.table.held[s].shares ==> 0.0 <= r.cash
    ensures r.warnings == b.warnings
  {
    if s !in b.table.held || s !in prices then b
    else
      var position := b.table.held[s];
      var price := prices[s];
      var costPerShare := CostPerShare(price, capital);
      var desiredShares := (target / costPerShare).Floor;
      var deltaShares := desiredShares - position.shares;
      if deltaShares == 0 then b
      else if deltaShares > 0 then
        var tradeCost := Scale(deltaShares, costPerShare) + capital.commission;
        if tradeCost <= b.cash then
          var shares := position.shares + deltaShares;
          var costBasis := position.costBasis + tradeCost;
          b.(cash := b.cash - tradeCost,
             table := Put(b.table, s, Position(shares, costBasis, costBasis / shares as real, position.entryDate)),
             turnover := b.turnover + tradeCost)
        else b
      else
        var sellShares := -deltaShares;
        var gross := Scale(sellShares, price);
        var proceeds := Proceeds(gross, capital);
        var shares := position.shares - sellShares;
        var costBasis := Scale(shares, position.entryPrice);
        var sold := b.(cash := b.cash + proceeds, turnover := b.turnover + Abs(gross));
        if shares <= 0 then
          var pnl := proceeds - costBasis;
          sold.(table := Delete(b.table, s),
                log := b.log + [Metrics.Trade(s, date, pnl)],
                stats := Tally(b.stats, s, pnl))
        else
          sold.(table := Put(b.table, s, Position(shares, costBasis, position.entryPrice, position.entryDate)))
  }

  /** With a non-negative target, rebalancing moves value between cash and a position at the day's
      prices, less commission and slippage: it never adds value. */
  lemma AdjustCost(b: Book, s: string, target: real, date: string, capital: Capital, prices: map<string, real>)
    requires Sound(b, prices) && Market(prices, capital)
    requires capital.commission >= 0.0 && capital.slippagePct >= 0.0 && target >= 0.0
    ensures Equity(Adjust(b, s, target, date, capital, prices), prices) <= Equity(b, prices)
  {
    if s in b.table.held && s in prices {
      var position := b.table.held[s];
      var costPerShare := CostPerShare(prices[s], capital);
      var deltaShares := (target / costPerShare).Floor - position.shares;
      if deltaShares > 0 {
        AdjustBuyCost(b, s, target, date, capital, prices);
      } else if deltaShares < 0 {
        AdjustSellCost(b, s, target, date, capital, prices);
      }
    }
  }

  lemma AdjustBuyCost(b: Book, s: string, target: real, date: string, capital: Capital, prices: map<string, real>)
    requires Sound(b, prices) && Market(prices, capital)
    requires capital.commission >= 0.0 && capital.slippagePct >= 0.0
    requires s in b.table.held && s in prices
    requires (target / CostPerShare(prices[s], capital)).Floor > b.table.held[s].shares
    ensures Equity(Adjust(b, s, target, date, capital, prices), prices) <= Equity(b, prices)
  {
    var position := b.table.held[s];
    var price := prices[s];
    var costPerShare := CostPerShare(price, capital);
    var deltaShares := (target / costPerShare).Floor - position.shares;
    var tradeCost := Scale(deltaShares, costPerShare) + capital.commission;
    if tradeCost <= b.cash {
      var shares := position.shares + deltaShares;
      var costBasis := position.costBasis + tradeCost;
      var pos := Position(shares, costBasis, costBasis / shares as real, position.entryDate);
      HoldingsPut(b.table, prices, s, pos);
      ScaleAdd(position.shares, deltaShares, price);
      SlippedCost(deltaShares, price, capital);
      NonNegProduct(price, capital.slippagePct);
      ScaleSign(deltaShares, price * capital.slippagePct);
    }
  }

  lemma AdjustSellCost(b: Book, s: string, target: real, date: string, capital: Capital, prices: map<string, real>)
    requires Sound(b, prices) && Market(prices, capital)
    requires capital.commission >= 0.0 && capital.slippagePct >= 0.0 && target >= 0.0
    requires s in b.table.held && s in prices
    requires (target / CostPerShare(prices[s], capital)).Floor < b.table.held[s].shares
    ensures Equity(Adjust(b, s, target, date, capital, prices), prices) <= Equity(b, prices)
  {
    var position := b.table.held[s];
    var desiredShares := (target / CostPerShare(prices[s], capital)).Floor;
    NonNegQuotient(target, CostPerShare(prices[s], capital));
    var sellShares := position.shares - desiredShares;
    AdjustSold(b, s, target, date, capital, prices);
    ScaleSign(sellShares, prices[s]);
    NonNegProduct(Scale(sellShares, prices[s]), capital.slippagePct);
    ScaleAdd(desiredShares, sellShares, prices[s]);
    if desiredShares <= 0 {
      HoldingsDelete(b.table, prices, s);
    } else {
      var pos := Position(desiredShares, Scale(desiredShares, position.entryPrice), position.entryPrice, position.entryDate);
      HoldingsPut(b.table, prices, s, pos);
    }
  }

  /** The cash and the positions after a rebalancing sale. */
  lemma AdjustSold(b: Book, s: string, target: real, date: string, capital: Capital, prices: map<string, real>)
    requires Sound(b, prices) && Market(prices, capital)
    requires s in b.table.held && s in prices
    requires (target / CostPerShare(prices[s], capital)).Floor < b.table.held[s].shares
    ensures var position := b.table.held[s];
      var shares := (target / CostPerShare(prices[s], capital)).Floor;
      var r := Adjust(b, s, target, date, capital, prices);
      && r.cash == b.cash + Proceeds(Scale(position.shares - shares, prices[s]), capital)
      && r.table == if shares <= 0 then Delete(b.table, s)
                    else Put(b.table, s, Position(shares, Scale(shares, position.entryPrice), position.entryPrice, position.entryDate))
  {
  }

  /** What `n` shares cost with slippage beyond their value is the slippage on each. */
  lemma SlippedCost(n: int, price: real, capital: Capital)
    requires price > 0.0 && capital.slippagePct > -1.0
    ensures Scale(n, CostPerShare(price, capital)) - Scale(n, price) == Scale(n, price * capital.slippagePct)
  {
    assert CostPerShare(price, capital) == price + price * capital.slippagePct;
    ScaleSum(n, price, price * capital.slippagePct);
  }

  lemma NonNegProduct(a: real, b: real)
    requires a >= 0.0 && b >= 0.0
    ensures a * b >= 0.0
  {
  }

  lemma NonNegQuotient(a: real, b: real)
    requires a >= 0.0 && b > 0.0
    ensures (a / b).Floor >= 0
  {
  }

  /** The rebalancing pass over the symbols held when it starts, in insertion order. */
  function AdjustAll(b: Book, symbols: seq<string>, target: real, date: string, capital: Capital,
                     prices: map<string, real>): (r: Book)
    requires Sound(b, prices) && Market(prices, capital)
    ensures Sound(r, prices)
    ensures r.table.held.Keys <= b.table.held.Keys
    ensures r.warnings == b.warnings
  {
    if symbols == [] then b
    else
      var n := |symbols| - 1;
      Adjust(AdjustAll(b, symbols[..n], target, date, capital, prices), symbols[n], target, date, capital, prices)
  }

  /** Rebalancing runs when it was requested and a position is open. */
  function Rebalance(b: Book, requested: bool, date: string, capital: Capital, risk: Risk,
                     prices: map<string, real>): (r: Book)
    requires Sound(b, prices) && Market(prices, capital)
    ensures Sound(r, prices)
    ensures r.table.held.Keys <= b.table.held.Keys
    ensures r.warnings == b.warnings
    ensures !requested || Size(b.table) == 0 ==> r == b
  {
    if requested && Size(b.table) > 0 then
      var target := TargetValue(Equity(b, prices), risk, Size(b.table));
      AdjustAll(b, b.table.order, target, date, capital, prices)
    else b
  }

  /** The rebalancing loop of `simulate`. */
  method RebalancePositions(book: Book, requested: bool, date: string, capital: Capital, risk: Risk,
                            prices: map<string, real>) returns (b: Book)
    requires Sound(book, prices) && Market(prices, capital)
    ensures b == Rebalance(book, requested, date, capital, risk, prices)
  {
    b := book;
    if !(requested && Size(b.table) > 0) {
      return;
    }
    var equityValue := Holdings(b.table, prices) + b.cash;
    var targetValue := TargetValue(equityValue, risk, Size(b.table));
    var symbols := b.table.order;
    for i := 0 to |symbols|
      invariant Sound(b, prices)
      invariant b == AdjustAll(book, symbols[..i], targetValue, date, capital, prices)
    {
      assert symbols[..i + 1][..i] == symbols[..i];
      b := AdjustStep(b, symbols[i], targetValue, date, capital, prices);
    }
    assert symbols[..|symbols|] == symbols;
  }

  /** The body of the rebalancing loop, with its early `return`s. */
  method AdjustStep(book: Book, symbol: string, targetValue: real, date: string, capital: Capital,
                    prices: map<string, real>) returns (b: Book)
    requires Sound(book, prices) && Market(prices, capital)
    ensures b == Adjust(book, symbol, targetValue, date, capital, prices)
  {
    b := book;
    if symbol !in b.table.held || symbol !in prices {
      return;
    }
    var position := b.table.held[symbol];
    var price := prices[symbol];
    var costPerShare := CostPerShare(price, capital);
    var desiredShares := (targetValue / costPerShare).Floor;
    var deltaShares := desiredShares - position.shares;
    if deltaShares == 0 {
      return;
    }
    if deltaShares > 0 {
      b := TopUp(book, symbol, targetValue, date, capital, prices);
    } else {
      b := SellDown(book, symbol, targetValue, date, capital, prices);
    }
  }

  /** The buying branch of the rebalancing loop. */
  method TopUp(book: Book, symbol: string, targetValue: real, date: string, capital: Capital,
               prices: map<string, real>) returns (b: Book)
    requires Sound(book, prices) && Market(prices, capital)
    requires symbol in book.table.held && symbol in prices
    requires (targetValue / CostPerShare(prices[symbol], capital)).Floor > book.table.held[symbol].shares
    ensures b == Adjust(book, symbol, targetValue, date, capital, prices)
  {
    b := book;
    var position := b.table.held[symbol];
    var costPerShare := CostPerShare(prices[symbol], capital);
    var deltaShares := (targetValue / costPerShare).Floor - position.shares;
    var tradeCost := Scale(deltaShares, costPerShare) + capital.commission;
    if tradeCost <= b.cash {
      var shares := position.shares + deltaShares;
      var costBasis := position.costBasis + tradeCost;
      b := b.(cash := b.cash - tradeCost,
              table := Put(b.table, symbol, Position(shares, costBasis, costBasis / shares as real, position.entryDate)),
              turnover := b.turnover + tradeCost);
    }
  }

  /** The selling branch of the rebalancing loop. */
  method SellDown(book: Book, symbol: string, targetValue: real, date: string, capital: Capital,
                  prices: map<string, real>) returns (b: Book)
    requires Sound(book, prices) && Market(prices, capital)
    requires symbol in book.table.held && symbol in prices
    requires (targetValue / CostPerShare(prices[symbol], capital)).Floor < book.table.held[symbol].shares
    ensures b == Adjust(book, symbol, targetValue, date, capital, prices)
  {
    var position := book.table.held[symbol];
    var price := prices[symbol];
    var deltaShares := (targetValue / CostPerShare(price, capital)).Floor - position.shares;
    var sellShares := -deltaShares;
    var gross := Scale(sellShares, price);
    var proceeds := Proceeds(gross, capital);
    var shares := position.shares - sellShares;
    var costBasis := Scale(shares, position.entryPrice);
    b := book.(cash := book.cash + proceeds, turnover := book.turnover + Abs(gross));
    if shares <= 0 {
      var pnl := proceeds - costBasis;
      b := b.(table := Delete(book.table, symbol),
              log := book.log + [Metrics.Trade(symbol, date, pnl)],
              stats := Tally(book.stats, symbol, pnl));
    } else {
      b := b.(table := Put(book.table, symbol, Position(shares, costBasis, position.entryPrice, position.entryDate)));
    }
  }
}
