/** Performance metrics of an equity curve and a trade log (lib/sim.ts:213-287). */
module Metrics {
  import opened Numeric
  import opened Types
  import Host

  /** A closed trade: the day it closed and its profit or loss. */
  datatype Trade = Trade(symbol: string, date: string, pnl: real)

  /** The metrics of an empty curve. */
  const NoMetrics := BacktestMetrics(0.0, 0.0, 0.0, 0.0, 0.0, 0.0, 0.0, 0.0, 0.0)

  /** One daily return; a zero previous value counts as a zero return. */
  function DailyReturn(prev: real, cur: real): real {
    if prev == 0.0 then 0.0 else cur / prev - 1.0
  }

  /** The daily returns of the first `n` values of the curve. */
  function Returns(equity: seq<real>, n: nat): (r: seq<real>)
    requires n <= |equity|
    ensures |r| == if n == 0 then 0 else n - 1
  {
    if n <= 1 then [] else Returns(equity, n - 1) + [DailyReturn(equity[n - 2], equity[n - 1])]
  }

  /** The running peak of the first `n` values: the largest of them. */
  function Peak(equity: seq<real>, n: nat): real
    requires 1 <= n <= |equity|
  {
    if n == 1 then equity[0]
    else
      var p := Peak(equity, n - 1);
      if equity[n - 1] > p then equity[n - 1] else p
  }

  /** The fall, relative to the running peak, of the value at index `i`; 0 under a zero peak. */
  function Loss(equity: seq<real>, i: nat): real
    requires i < |equity|
  {
    var peak := Peak(equity, i + 1);
    if peak == 0.0 then 0.0 else (equity[i] - peak) / peak
  }

  /** The deepest loss among the first `n` values, starting from 0. */
  function Drawdown(equity: seq<real>, n: nat): (d: real)
    requires n <= |equity|
    ensures d <= 0.0
  {
    if n == 0 then 0.0
    else
      var d := Drawdown(equity, n - 1);
      var dd := Loss(equity, n - 1);
      if dd < d then dd else d
  }

  /** `Math.pow(val - mean, 2)` for each return. */
  function SquaredDeviations(rets: seq<real>, mean: real, pow: (real, real) -> real): (s: seq<real>)
    ensures |s| == |rets|
  {
    seq(|rets|, i requires 0 <= i < |rets| => pow(rets[i] - mean, 2.0))
  }

  /** `computeMetrics`: CAGR, standard deviation of the daily returns, maximum drawdown and Calmar
      ratio; the trade-based fields are left 0 for `Finalize`. */
  function BaseMetrics(equity: seq<real>, rt: Host.Runtime): (m: BacktestMetrics)
    ensures |equity| == 0 ==> m == NoMetrics
    ensures m.maxDrawdown <= 0.0
    ensures |equity| > 0 ==> m.maxDrawdown == Drawdown(equity, |equity|)
    ensures m.maxDrawdown == 0.0 ==> m.calmar == 0.0
    ensures m.hitRate == 0.0 && m.avgWin == 0.0 && m.avgLoss == 0.0 && m.exposure == 0.0 && m.turnover == 0.0
  {
    if |equity| == 0 then NoMetrics
    else
      var rets := Returns(equity, |equity|);
      var totalYears := |equity| as real / 252.0;
      var endingValue := equity[|equity| - 1];
      var startValue := if equity[0] == 0.0 then 1.0 else equity[0];
      var cagr := if totalYears > 0.0 then rt.pow(endingValue / startValue, 1.0 / totalYears) - 1.0 else 0.0;
      var mean := Sum(rets) / Max(1.0, |rets| as real);
      var stdev := rt.sqrt(Sum(SquaredDeviations(rets, mean, rt.pow)) / Max(1.0, |rets| as real - 1.0));
      var maxDrawdown := Drawdown(equity, |equity|);
      var calmar := if maxDrawdown != 0.0 then cagr / Abs(maxDrawdown) else 0.0;
      BacktestMetrics(cagr, stdev, maxDrawdown, calmar, 0.0, 0.0, 0.0, 0.0, 0.0)
  }

  method ComputeMetrics(equity: seq<real>, rt: Host.Runtime) returns (m: BacktestMetrics)
    ensures m == BaseMetrics(equity, rt)
  {
    if |equity| == 0 {
      return NoMetrics;
    }
    var dailyReturns := DailyReturns(equity);
    var totalDays := |equity|;
    var totalYears := totalDays as real / 252.0;
    var endingValue := equity[|equity| - 1];
    var startValue := if equity[0] == 0.0 then 1.0 else equity[0];
    var cagr := if totalYears > 0.0 then rt.pow(endingValue / startValue, 1.0 / totalYears) - 1.0 else 0.0;
    var mean := Sum(dailyReturns) / Max(1.0, |dailyReturns| as real);
    var stdev := rt.sqrt(Sum(SquaredDeviations(dailyReturns, mean, rt.pow)) / Max(1.0, |dailyReturns| as real - 1.0));
    var maxDrawdown := MaxDrawdown(equity);
    var calmar := if maxDrawdown != 0.0 then cagr / Abs(maxDrawdown) else 0.0;
    m := BacktestMetrics(cagr, stdev, maxDrawdown, calmar, 0.0, 0.0, 0.0, 0.0, 0.0);
  }

  /** The loop of `computeMetrics` that collects the daily returns. */
  method DailyReturns(equity: seq<real>) returns (dailyReturns: seq<real>)
    requires |equity| > 0
    ensures dailyReturns == Returns(equity, |equity|)
  {
    dailyReturns := [];
    for i := 1 to |equity|
      invariant dailyReturns == Returns(equity, i)
    {
      var prev := equity[i - 1];
      if prev == 0.0 {
        dailyReturns := dailyReturns + [0.0];
      } else {
        dailyReturns := dailyReturns + [equity[i] / prev - 1.0];
      }
    }
  }

  /** The loop of `computeMetrics` that tracks the running peak and the deepest drawdown. */
  method MaxDrawdown(equity: seq<real>) returns (maxDrawdown: real)
    requires |equity| > 0
    ensures maxDrawdown == Drawdown(equity, |equity|)
  {
    var peak := equity[0];
    maxDrawdown := 0.0;
    for i := 0 to |equity|
      invariant peak == Peak(equity, if i == 0 then 1 else i)
      invariant maxDrawdown == Drawdown(equity, i)
    {
      var value := equity[i];
      if value > peak {
        peak := value;
      }
      var dd := if peak == 0.0 then 0.0 else (value - peak) / peak;
      if dd < maxDrawdown {
        maxDrawdown := dd;
      }
    }
  }

  /** The running peak is the largest of the values so far, and is one of them. */
  lemma {:induction false} PeakIsMaximum(equity: seq<real>, n: nat)
    requires 1 <= n <= |equity|
    ensures forall i | 0 <= i < n :: equity[i] <= Peak(equity, n)
    ensures exists i | 0 <= i < n :: equity[i] == Peak(equity, n)
  {
    if n > 1 {
      PeakIsMaximum(equity, n - 1);
      if equity[n - 1] <= Peak(equity, n - 1) {
        var j :| 0 <= j < n - 1 && equity[j] == Peak(equity, n - 1);
        assert equity[j] == Peak(equity, n);
      } else {
        assert equity[n - 1] == Peak(equity, n);
      }
    } else {
      assert equity[0] == Peak(equity, 1);
    }
  }

  /** The maximum drawdown is the deepest loss of any value below its running peak, or 0 when no
      value is below it. */
  lemma {:induction false} DrawdownIsDeepestLoss(equity: seq<real>, n: nat)
    requires n <= |equity|
    ensures forall i | 0 <= i < n :: Drawdown(equity, n) <= Loss(equity, i)
    ensures Drawdown(equity, n) == 0.0 || exists i | 0 <= i < n :: Drawdown(equity, n) == Loss(equity, i)
  {
    if n > 0 {
      DrawdownIsDeepestLoss(equity, n - 1);
    }
  }

  /** A curve that never falls has no drawdown, and so a Calmar ratio of 0. */
  lemma {:induction false} RisingHasNoDrawdown(equity: seq<real>, n: nat)
    requires n <= |equity|
    requires forall i | 0 < i < |equity| :: equity[i - 1] <= equity[i]
    ensures Drawdown(equity, n) == 0.0
  {
    if n > 0 {
      RisingHasNoDrawdown(equity, n - 1);
      RisingPeak(equity, n);
    }
  }

  lemma {:induction false} RisingPeak(equity: seq<real>, n: nat)
    requires 1 <= n <= |equity|
    requires forall i | 0 < i < |equity| :: equity[i - 1] <= equity[i]
    ensures Peak(equity, n) == equity[n - 1]
  {
    if n > 1 {
      RisingPeak(equity, n - 1);
    }
  }

  /** When the curve never goes below 0, no drawdown is deeper than -100%. */
  lemma {:induction false} DrawdownAtLeastTotalLoss(equity: seq<real>, n: nat)
    requires n <= |equity|
    requires forall i | 0 <= i < |equity| :: equity[i] >= 0.0
    ensures Drawdown(equity, n) >= -1.0
  {
    if n > 0 {
      DrawdownAtLeastTotalLoss(equity, n - 1);
      var peak := Peak(equity, n);
      if peak != 0.0 {
        var v := equity[n - 1];
        PeakIsMaximum(equity, n);
        assert peak >= v;
        RelativeFall(v, peak);
      }
    }
  }

  lemma RelativeFall(v: real, peak: real)
    requires 0.0 <= v && peak > 0.0
    ensures (v - peak) / peak >= -1.0
  {
    var q := (v - peak) / peak;
    assert q * peak == v - peak;
    NegativeProduct(q + 1.0, peak);
  }

  lemma NegativeProduct(r: real, p: real)
    requires p > 0.0
    ensures r < 0.0 ==> r * p < 0.0
  {
  }

  /** The profits of the winning trades and the losses of the losing ones, in log order. */
  function Gains(log: seq<Trade>): (g: seq<real>)
    ensures |g| <= |log|
    ensures forall i | 0 <= i < |g| :: g[i] > 0.0
    ensures |g| > 0 <==> exists i | 0 <= i < |log| :: log[i].pnl > 0.0
  {
    if log == [] then []
    else Gains(log[..|log| - 1]) + (if log[|log| - 1].pnl > 0.0 then [log[|log| - 1].pnl] else [])
  }

  function Losses(log: seq<Trade>): (l: seq<real>)
    ensures |l| <= |log|
    ensures forall i | 0 <= i < |l| :: l[i] < 0.0
    ensures |l| > 0 <==> exists i | 0 <= i < |log| :: log[i].pnl < 0.0
  {
    if log == [] then []
    else Losses(log[..|log| - 1]) + (if log[|log| - 1].pnl < 0.0 then [log[|log| - 1].pnl] else [])
  }

  /** No trade both wins and loses: the winners and losers together are at most the whole log. */
  lemma {:induction false} WinsAndLossesDisjoint(log: seq<Trade>)
    ensures |Gains(log)| + |Losses(log)| <= |log|
  {
    if log != [] {
      WinsAndLossesDisjoint(log[..|log| - 1]);
    }
  }

  /** The share of trades that won; 0 without trades. */
  function HitRate(log: seq<Trade>): (h: real)
    ensures 0.0 <= h <= 1.0
    ensures h > 0.0 <==> exists i | 0 <= i < |log| :: log[i].pnl > 0.0
  {
    if |log| > 0 then |Gains(log)| as real / |log| as real else 0.0
  }

  /** The mean of a sequence; 0 when it is empty. */
  function Average(xs: seq<real>): real {
    if |xs| > 0 then Sum(xs) / |xs| as real else 0.0
  }

  /** The mean profit of the winning trades: positive exactly when some trade won. */
  function AverageWin(log: seq<Trade>): (a: real)
    ensures a >= 0.0
    ensures a > 0.0 <==> exists i | 0 <= i < |log| :: log[i].pnl > 0.0
  {
    var wins := Gains(log);
    if |wins| > 0 then SumPositive(wins); PositiveAverage(wins); Average(wins) else Average(wins)
  }

  /** The mean loss of the losing trades: negative exactly when some trade lost. */
  function AverageLoss(log: seq<Trade>): (a: real)
    ensures a <= 0.0
    ensures a < 0.0 <==> exists i | 0 <= i < |log| :: log[i].pnl < 0.0
  {
    var losses := Losses(log);
    if |losses| > 0 then SumNegative(losses); NegativeAverage(losses); Average(losses) else Average(losses)
  }

  lemma NegativeAverage(xs: seq<real>)
    requires |xs| > 0 && Sum(xs) < 0.0
    ensures Average(xs) < 0.0
  {
    var n := |xs| as real;
    var a := Sum(xs) / n;
    assert a * n == Sum(xs);
  }

  lemma PositiveAverage(xs: seq<real>)
    requires |xs| > 0 && Sum(xs) > 0.0
    ensures Average(xs) > 0.0
  {
    var n := |xs| as real;
    var a := Sum(xs) / n;
    assert a * n == Sum(xs);
  }

  /** The share of sessions with at least one open position; 0 for no sessions. */
  function Exposure(exposureDays: int, totalDays: int): (e: real)
    ensures totalDays <= 0 ==> e == 0.0
    ensures 0 <= exposureDays <= totalDays ==> 0.0 <= e <= 1.0
  {
    if totalDays > 0 then exposureDays as real / totalDays as real else 0.0
  }

  /** `finalizeMetrics`: hit rate, average win and loss, exposure and turnover on top of the curve
      metrics, which are kept. */
  function Finalize(base: BacktestMetrics, log: seq<Trade>, exposureDays: int, totalDays: int, turnover: real)
    : (m: BacktestMetrics)
    ensures m.cagr == base.cagr && m.stdev == base.stdev && m.maxDrawdown == base.maxDrawdown
         && m.calmar == base.calmar && m.turnover == turnover
    ensures m.hitRate == HitRate(log) && m.avgWin == AverageWin(log) && m.avgLoss == AverageLoss(log)
    ensures m.exposure == Exposure(exposureDays, totalDays)
  {
    base.(hitRate := HitRate(log), avgWin := AverageWin(log), avgLoss := AverageLoss(log),
          exposure := Exposure(exposureDays, totalDays), turnover := turnover)
  }
}
