/** The documents the engine reads and writes (lib/types.ts). */
module Types {
  import opened Numeric

  datatype IndicatorFn = SMA | EMA | RSI | ROC | ATR

  /** The name under which a strategy writes the indicator function. */
  function FnName(fn: IndicatorFn): string {
    match fn
    case SMA => "SMA"
    case EMA => "EMA"
    case RSI => "RSI"
    case ROC => "ROC"
    case ATR => "ATR"
  }

  /** An indicator definition. Of its `args` record the engine reads only `period`. Its `source` is
      always the close, so it is not a field here. */
  datatype IndicatorDef = IndicatorDef(id: string, fn: IndicatorFn, period: Option<int>)

  /** The ids of the definitions. */
  function Ids(defs: seq<IndicatorDef>): set<string> {
    if defs == [] then {} else Ids(defs[..|defs| - 1]) + {defs[|defs| - 1].id}
  }

  lemma {:induction false} IdsMembers(defs: seq<IndicatorDef>)
    ensures forall x :: x in Ids(defs) <==> exists i | 0 <= i < |defs| :: defs[i].id == x
  {
    if defs != [] {
      var init := defs[..|defs| - 1];
      IdsMembers(init);
      forall x | x in Ids(defs)
        ensures exists i | 0 <= i < |defs| :: defs[i].id == x
      {
        if x != defs[|defs| - 1].id {
          assert x in Ids(init);
          var i :| 0 <= i < |init| && init[i].id == x;
          assert defs[i].id == x;
        }
      }
      forall x, i | 0 <= i < |defs| && defs[i].id == x
        ensures x in Ids(defs)
      {
        if i < |init| {
          assert init[i].id == x;
        }
      }
    }
  }

  /** An operand: a literal number or a reference to an indicator id (`"@..."`). */
  datatype Operand = Lit(value: real) | Ref(name: string)

  /** A boolean rule expression. `Unrecognised` is an object with none of the known keys, such as `{}`,
      which the optional risk-flag shapes of the schema admit. */
  datatype BoolExpr =
    | All(children: seq<BoolExpr>)
    | Any(children: seq<BoolExpr>)
    | Gt(left: Operand, right: Operand)
    | Lt(left: Operand, right: Operand)
    | CrossOver(left: Operand, right: Operand)
    | CrossUnder(left: Operand, right: Operand)
    | RiskStop
    | RiskTake
    | Unrecognised

  datatype SizingType = EqualWeight | FixedPctCash | AllInSingle

  datatype Sizing = Sizing(kind: SizingType, pct: Option<real>)

  /** `ticker` is `"*"` (the symbol the rule is evaluated for) or a symbol. */
  datatype ActionBuy = ActionBuy(ticker: string, sizing: Sizing)

  datatype ActionClose = ActionClose(ticker: string)

  /** The `then` part of an entry rule; `rebalance` says whether `{ mode: "equal_weight" }` is present. */
  datatype EntryAction = EntryAction(buy: Option<ActionBuy>, rebalance: bool, close: Option<ActionClose>)

  datatype ExitAction = ExitAction(close: Option<ActionClose>)

  /** A rule: a condition and what to do when it holds. */
  datatype Rule<A> = Rule(when: BoolExpr, act: A)

  type EntryRule = Rule<EntryAction>

  type ExitRule = Rule<ExitAction>

  datatype Meta = Meta(name: string, version: int)

  datatype Window = Window(start: string, end: string)

  datatype Capital = Capital(startingCash: real, commission: real, slippagePct: real)

  /** `schedule.rebalance`; `schedule.time_anchor` is always `"close"`, so it is not a field here. */
  datatype Cadence = NoRebalance | Weekly | Monthly | Quarterly

  datatype Risk = Risk(maxAllocationPct: real, maxPositions: int, stopLossPct: Option<real>, takeProfitPct: Option<real>)

  datatype Strategy = Strategy(
    meta: Meta,
    universe: seq<string>,
    window: Window,
    capital: Capital,
    rebalance: Cadence,
    risk: Risk,
    indicators: seq<IndicatorDef>,
    entries: seq<EntryRule>,
    exits: seq<ExitRule>)

  datatype Candle = Candle(date: string, open: real, high: real, low: real, close: real, volume: real)

  datatype BacktestMetrics = BacktestMetrics(
    cagr: real,
    stdev: real,
    maxDrawdown: real,
    calmar: real,
    hitRate: real,
    avgWin: real,
    avgLoss: real,
    exposure: real,
    turnover: real)

  datatype EquityCurve = EquityCurve(dates: seq<string>, values: seq<real>)

  datatype PerAssetStats = PerAssetStats(symbol: string, trades: int, pnl: real, exposure: real)

  datatype BacktestResult = BacktestResult(
    trainMetrics: BacktestMetrics,
    validateMetrics: BacktestMetrics,
    trainEquity: EquityCurve,
    validateEquity: EquityCurve,
    perAsset: map<string, PerAssetStats>,
    warnings: seq<string>)
}
