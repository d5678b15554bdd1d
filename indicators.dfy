/** The indicator library of lib/indicators.ts. Each indicator is a loop that fills a result array
    pre-set to NaN; here the loop is a method proved equal to a function that says, index by index,
    what the array ends up holding, and the lemmas say what those values mean. */
module Indicators {
  import opened Numeric
  import T = Types

  /** Every entry is a finite number. */
  predicate AllFinite(series: seq<Num>) {
    forall i | 0 <= i < |series| :: series[i].Some?
  }

  /** The numbers of a series that has no non-finite entry. */
  function Values(series: seq<Num>): (v: seq<real>)
    requires AllFinite(series)
    ensures |v| == |series|
    ensures forall i | 0 <= i < |series| :: series[i] == Some(v[i])
  {
    seq(|series|, i requires 0 <= i < |series| => series[i].value)
  }

  /** The series a list of numbers makes. */
  function Finite(xs: seq<real>): (s: seq<Num>)
    ensures |s| == |xs|
  {
    seq(|xs|, i requires 0 <= i < |xs| => Some(xs[i]))
  }

  // ---------------------------------------------------------------------------------------------
  // SMA (lib/indicators.ts:5-24)

  /** The running `sum` after the first `n` iterations of the SMA loop: a non-finite entry resets
      it to 0; otherwise the entry is added and, once the index reaches `p`, the entry `p` places
      back is subtracted. */
  function SmaSum(series: seq<Num>, p: nat, n: nat): Num
    requires p >= 1 && n <= |series|
    decreases n
  {
    if n == 0 then Some(0.0)
    else
      var i := n - 1;
      if !IsFinite(series[i]) then Some(0.0)
      else
        var s := Add(SmaSum(series, p, i), series[i]);
        if i >= p then Sub(s, series[i - p]) else s
  }

  /** What the SMA loop leaves at index `i`. */
  function SmaAt(series: seq<Num>, p: nat, i: nat): Num
    requires p >= 1 && i < |series|
  {
    if !IsFinite(series[i]) then None
    else if i >= p - 1 then Div(SmaSum(series, p, i + 1), Some(p as real))
    else None
  }

  /** `SMA(series, period)`. */
  function MovingAverage(series: seq<Num>, period: int): (r: seq<Num>)
    ensures |r| == |series|
  {
    if period <= 0 then seq(|series|, _ => None)
    else seq(|series|, i requires 0 <= i < |series| => SmaAt(series, period, i))
  }

  method SMA(series: seq<Num>, period: int) returns (result: seq<Num>)
    ensures result == MovingAverage(series, period)
  {
    var out := new Num[|series|](_ => None);
    if period <= 0 {
      return out[..];
    }
    var sum: Num := Some(0.0);
    for i := 0 to |series|
      invariant sum == SmaSum(series, period, i)
      invariant forall k | 0 <= k < i :: out[k] == SmaAt(series, period, k)
      invariant forall k | i <= k < |series| :: out[k] == None
    {
      var value := series[i];
      if !IsFinite(value) {
        sum := Some(0.0);
        continue;
      }
      sum := Add(sum, value);
      if i >= period {
        sum := Sub(sum, series[i - period]);
      }
      if i >= period - 1 {
        out[i] := Div(sum, Some(period as real));
      }
    }
    result := out[..];
  }

  /** On a series of finite numbers the running sum is the sum of the last `p` entries. */
  lemma {:induction false} SmaSumWindow(series: seq<Num>, p: nat, n: nat)
    requires AllFinite(series) && p >= 1 && n <= |series|
    ensures SmaSum(series, p, n) == Some(Sum(Values(series)[WindowStart(n, p)..n]))
    decreases n
  {
    if n > 0 {
      SmaSumWindow(series, p, n - 1);
      WindowStep(Values(series), p, n - 1);
    }
  }

  /** On a series of finite numbers, SMA is NaN for the first `period - 1` indices and from then on the
      mean of the last `period` entries. */
  lemma SmaMean(series: seq<Num>, period: int, i: nat)
    requires AllFinite(series) && period >= 1 && i < |series|
    ensures i < period - 1 ==> MovingAverage(series, period)[i] == None
    ensures i >= period - 1 ==>
      MovingAverage(series, period)[i] == Some(Sum(Values(series)[i + 1 - period..i + 1]) / period as real)
  {
    SmaSumWindow(series, period, i + 1);
  }

  /** The reset on a non-finite entry does not clear the window: with period 2, the series
      `1, NaN, 1, 1` gives `NaN, NaN, 0, NaN`, where the window at index 2 holds NaN and 1 and the one
      at index 3 holds 1 and 1. */
  lemma SmaAfterGap()
    ensures MovingAverage([Some(1.0), None, Some(1.0), Some(1.0)], 2) == [None, None, Some(0.0), None]
  {
    var s: seq<Num> := [Some(1.0), None, Some(1.0), Some(1.0)];
    assert SmaSum(s, 2, 2) == Some(0.0);
    assert SmaSum(s, 2, 3) == Some(0.0);
    assert SmaSum(s, 2, 4) == None;
  }

  // ---------------------------------------------------------------------------------------------
  // EMA (lib/indicators.ts:26-46)

  /** The smoothing factor `2 / (period + 1)`. */
  function Multiplier(p: nat): (k: real)
    requires p >= 1
    ensures 0.0 < k <= 1.0
  {
    2.0 / (p as real + 1.0)
  }

  /** The loop variables `ema` and `initialized`. */
  datatype EmaState = EmaState(ema: real, initialized: bool)

  /** The EMA state after the first `n` iterations: a non-finite entry is skipped, the first finite
      one seeds the average and each later one moves it by `k` of the distance to the entry. */
  function EmaAfter(series: seq<Num>, k: real, n: nat): EmaState
    requires n <= |series|
    decreases n
  {
    if n == 0 then EmaState(0.0, false)
    else
      var st := EmaAfter(series, k, n - 1);
      var v := series[n - 1];
      if !IsFinite(v) then st
      else if !st.initialized then EmaState(v.value, true)
      else EmaState((v.value - st.ema) * k + st.ema, true)
  }

  function EmaAt(series: seq<Num>, p: nat, i: nat): Num
    requires p >= 1 && i < |series|
  {
    if !IsFinite(series[i]) then None
    else if i >= p - 1 then Some(EmaAfter(series, Multiplier(p), i + 1).ema)
    else None
  }

  /** `EMA(series, period)`. */
  function ExponentialAverage(series: seq<Num>, period: int): (r: seq<Num>)
    ensures |r| == |series|
    ensures forall i | 0 <= i < |series| :: r[i].Some? <==> period >= 1 && i >= period - 1 && series[i].Some?
  {
    if period <= 0 then seq(|series|, _ => None)
    else seq(|series|, i requires 0 <= i < |series| => EmaAt(series, period, i))
  }

  method EMA(series: seq<Num>, period: int) returns (result: seq<Num>)
    ensures result == ExponentialAverage(series, period)
  {
    var out := new Num[|series|](_ => None);
    if period <= 0 {
      return out[..];
    }
    var multiplier := 2.0 / (period as real + 1.0);
    var ema := 0.0;
    var initialized := false;
    for i := 0 to |series|
      invariant EmaState(ema, initialized) == EmaAfter(series, multiplier, i)
      invariant forall k | 0 <= k < i :: out[k] == EmaAt(series, period, k)
      invariant forall k | i <= k < |series| :: out[k] == None
    {
      var value := series[i];
      if !IsFinite(value) {
        assert EmaAfter(series, multiplier, i + 1) == EmaAfter(series, multiplier, i);
        continue;
      }
      if !initialized {
        ema := value.value;
        initialized := true;
      } else {
        ema := (value.value - ema) * multiplier + ema;
      }
      assert EmaState(ema, initialized) == EmaAfter(series, multiplier, i + 1);
      if i >= period - 1 {
        out[i] := Some(ema);
      }
    }
    result := out[..];
  }

  /** A step of the average stays between the bounds that hold the old average and the entry. */
  lemma Between(e: real, v: real, k: real, lo: real, hi: real)
    requires 0.0 < k <= 1.0 && lo <= e <= hi && lo <= v <= hi
    ensures lo <= (v - e) * k + e <= hi
  {
    var r := (v - e) * k + e;
    assert r - lo == (v - lo) * k + (e - lo) * (1.0 - k);
    assert hi - r == (hi - v) * k + (hi - e) * (1.0 - k);
    NonNegProduct(v - lo, k);
    NonNegProduct(e - lo, 1.0 - k);
    NonNegProduct(hi - v, k);
    NonNegProduct(hi - e, 1.0 - k);
  }

  lemma NonNegProduct(a: real, b: real)
    requires a >= 0.0 && b >= 0.0
    ensures a * b >= 0.0
  {
  }

  /** Once seeded, the average lies within any bounds that hold every finite entry seen so far. */
  lemma {:induction false} EmaStateBounded(series: seq<Num>, k: real, n: nat, lo: real, hi: real)
    requires 0.0 < k <= 1.0 && n <= |series|
    requires forall j | 0 <= j < n && series[j].Some? :: lo <= series[j].value <= hi
    ensures EmaAfter(series, k, n).initialized ==> lo <= EmaAfter(series, k, n).ema <= hi
    decreases n
  {
    if n > 0 {
      EmaStateBounded(series, k, n - 1, lo, hi);
      var st := EmaAfter(series, k, n - 1);
      var v := series[n - 1];
      if IsFinite(v) && st.initialized {
        Between(st.ema, v.value, k, lo, hi);
      }
    }
  }

  /** EMA is never outside the range of the finite entries: every value it gives lies within any
      bounds that hold all of them (so a constant series has itself as its EMA). */
  lemma EmaBounded(series: seq<Num>, period: int, lo: real, hi: real)
    requires forall j | 0 <= j < |series| && series[j].Some? :: lo <= series[j].value <= hi
    ensures forall i | 0 <= i < |series| && ExponentialAverage(series, period)[i].Some? ::
      lo <= ExponentialAverage(series, period)[i].value <= hi
  {
    if period >= 1 {
      forall i | 0 <= i < |series| && ExponentialAverage(series, period)[i].Some?
        ensures lo <= ExponentialAverage(series, period)[i].value <= hi
      {
        EmaStateBounded(series, Multiplier(period), i + 1, lo, hi);
        EmaSeeded(series, Multiplier(period), i + 1);
      }
    }
  }

  /** Once a finite entry has been seen the average is seeded. */
  lemma {:induction false} EmaSeeded(series: seq<Num>, k: real, n: nat)
    requires 0 < n <= |series| && series[n - 1].Some?
    ensures EmaAfter(series, k, n).initialized
  {
  }

  /** The first finite entry seeds the average with itself. */
  lemma EmaFirst(series: seq<Num>, period: int, i: nat)
    requires period >= 1 && period - 1 <= i < |series| && series[i].Some?
    requires forall j | 0 <= j < i :: series[j].None?
    ensures ExponentialAverage(series, period)[i] == series[i]
  {
    EmaUnseeded(series, Multiplier(period), i);
  }

  lemma {:induction false} EmaUnseeded(series: seq<Num>, k: real, n: nat)
    requires n <= |series|
    requires forall j | 0 <= j < n :: series[j].None?
    ensures !EmaAfter(series, k, n).initialized
    decreases n
  {
    if n > 0 {
      EmaUnseeded(series, k, n - 1);
    }
  }

  // ---------------------------------------------------------------------------------------------
  // RSI (lib/indicators.ts:48-70)

  /** `series[i] - series[i - 1]` */
  function Change(series: seq<Num>, i: nat): Num
    requires 1 <= i < |series|
  {
    Sub(series[i], series[i - 1])
  }

  /** The clamped move into each index, `Math.max(0, change)` for gains and `Math.max(0, -change)` for
      losses; index 0, where the loop does not run, counts as no move. */
  function Moves(series: seq<Num>, down: bool): (m: seq<Num>)
    ensures |m| == |series|
  {
    seq(|series|, i requires 0 <= i < |series| =>
      if i == 0 then Some(0.0)
      else if down then MaxZero(Neg(Change(series, i)))
      else MaxZero(Change(series, i)))
  }

  /** One RSI accumulator after the iterations for indices `1 .. n - 1`: each adds the move into its
      index and, past `p`, takes off the move into the index `p` places back. */
  function Accumulated(moves: seq<Num>, p: nat, n: nat): Num
    requires p >= 1 && 1 <= n <= |moves|
    decreases n
  {
    if n == 1 then Some(0.0)
    else
      var i := n - 1;
      var s := Add(Accumulated(moves, p, i), moves[i]);
      if i > p then Sub(s, moves[i - p]) else s
  }

  /** The loop variables `gain` and `loss`. */
  datatype RsiState = RsiState(gain: Num, loss: Num)

  function RsiAfter(series: seq<Num>, p: nat, n: nat): RsiState
    requires p >= 1 && 1 <= n <= |series|
  {
    RsiState(Accumulated(Moves(series, false), p, n), Accumulated(Moves(series, true), p, n))
  }

  /** `100 - 100 / (1 + rs)` from the accumulated gain and loss, with `rs` taken as 100 when the
      average loss is exactly 0. */
  function RsiValue(gain: Num, loss: Num, p: nat): Num
    requires p >= 1
  {
    var avgGain := Div(gain, Some(p as real));
    var avgLoss := Div(loss, Some(p as real));
    var rs := if avgLoss == Some(0.0) then Some(100.0) else Div(avgGain, avgLoss);
    Sub(Some(100.0), Div(Some(100.0), Add(Some(1.0), rs)))
  }

  function RsiAt(series: seq<Num>, p: nat, i: nat): Num
    requires p >= 1 && i < |series|
  {
    if i >= p then
      var st := RsiAfter(series, p, i + 1);
      RsiValue(st.gain, st.loss, p)
    else None
  }

  /** `RSI(series, period)`. */
  function StrengthIndex(series: seq<Num>, period: int): (r: seq<Num>)
    ensures |r| == |series|
    ensures forall i | 0 <= i < |series| && r[i].Some? :: period >= 1 && i >= period
  {
    if period <= 0 then seq(|series|, _ => None)
    else seq(|series|, i requires 0 <= i < |series| => RsiAt(series, period, i))
  }

  method RSI(series: seq<Num>, period: int) returns (result: seq<Num>)
    ensures result == StrengthIndex(series, period)
  {
    var out := new Num[|series|](_ => None);
    if period <= 0 {
      return out[..];
    }
    var gain: Num := Some(0.0);
    var loss: Num := Some(0.0);
    if |series| == 0 {
      return out[..];
    }
    for i := 1 to |series|
      invariant RsiState(gain, loss) == RsiAfter(series, period, i)
      invariant forall k | 0 <= k < i :: out[k] == RsiAt(series, period, k)
      invariant forall k | i <= k < |series| :: out[k] == None
    {
      gain, loss := RsiStep(series, period, i, gain, loss);
      if i >= period {
        out[i] := RsiValue(gain, loss, period);
      }
    }
    result := out[..];
  }

  /** One iteration of the RSI loop on the accumulators: add the moves into index `i` and, past
      `period`, take off those into index `i - period`. */
  method RsiStep(series: seq<Num>, period: nat, i: nat, gain0: Num, loss0: Num) returns (gain: Num, loss: Num)
    requires 1 <= period && 1 <= i < |series| && RsiState(gain0, loss0) == RsiAfter(series, period, i)
    ensures RsiState(gain, loss) == RsiAfter(series, period, i + 1)
  {
    var change := Sub(series[i], series[i - 1]);
    gain := Add(gain0, MaxZero(change));
    loss := Add(loss0, MaxZero(Neg(change)));
    if i > period {
      var prevChange := Sub(series[i - period], series[i - period - 1]);
      gain := Sub(gain, MaxZero(prevChange));
      loss := Sub(loss, MaxZero(Neg(prevChange)));
    }
  }

  /** The up move into each index of a list of numbers (0 at index 0). */
  function Ups(xs: seq<real>): (u: seq<real>)
    ensures |u| == |xs|
  {
    seq(|xs|, i requires 0 <= i < |xs| => if i == 0 then 0.0 else Positive(xs[i] - xs[i - 1]))
  }

  /** The down move into each index of a list of numbers (0 at index 0). */
  function Downs(xs: seq<real>): (d: seq<real>)
    ensures |d| == |xs|
  {
    seq(|xs|, i requires 0 <= i < |xs| => if i == 0 then 0.0 else Positive(-(xs[i] - xs[i - 1])))
  }

  /** The moves over any stretch add up to a non-negative amount. */
  lemma MovesNonNegative(xs: seq<real>, lo: nat, hi: nat)
    requires lo <= hi <= |xs|
    ensures Sum(Ups(xs)[lo..hi]) >= 0.0 && Sum(Downs(xs)[lo..hi]) >= 0.0
  {
    var u := Ups(xs)[lo..hi];
    var d := Downs(xs)[lo..hi];
    forall k | 0 <= k < |u|
      ensures u[k] >= 0.0 && d[k] >= 0.0
    {
      assert u[k] == Ups(xs)[lo + k] && d[k] == Downs(xs)[lo + k];
    }
    SumNonNegative(u);
    SumNonNegative(d);
  }

  /** On finite entries the clamped moves are the up and down moves. */
  lemma MovesOfFinite(xs: seq<real>)
    ensures Moves(Finite(xs), false) == Finite(Ups(xs))
    ensures Moves(Finite(xs), true) == Finite(Downs(xs))
  {
    forall i | 1 <= i < |xs|
      ensures Moves(Finite(xs), false)[i] == Finite(Ups(xs))[i]
      ensures Moves(Finite(xs), true)[i] == Finite(Downs(xs))[i]
    {
      var d := xs[i] - xs[i - 1];
      assert Change(Finite(xs), i) == Some(d);
      assert Ups(xs)[i] == Positive(d);
      assert Downs(xs)[i] == Positive(-d);
    }
  }

  /** On finite moves starting with no move, an accumulator holds the sum of the moves into the last
      `p` indices. */
  lemma {:induction false} AccumulatedWindow(ys: seq<real>, p: nat, n: nat)
    requires p >= 1 && 1 <= n <= |ys| && ys[0] == 0.0
    ensures Accumulated(Finite(ys), p, n) == Some(Sum(ys[WindowStart(n, p)..n]))
    decreases n
  {
    if n == 1 {
      assert ys[0..1] == [0.0];
      assert [0.0][..0] == [];
    } else {
      AccumulatedWindow(ys, p, n - 1);
      WindowStep(ys, p, n - 1);
    }
  }

  /** On finite numbers the accumulators hold the sums of the up and down moves into the last `p`
      indices. */
  lemma RsiWindow(xs: seq<real>, p: nat, n: nat)
    requires p >= 1 && 1 <= n <= |xs|
    ensures RsiAfter(Finite(xs), p, n).gain == Some(Sum(Ups(xs)[WindowStart(n, p)..n]))
    ensures RsiAfter(Finite(xs), p, n).loss == Some(Sum(Downs(xs)[WindowStart(n, p)..n]))
  {
    MovesOfFinite(xs);
    AccumulatedWindow(Ups(xs), p, n);
    AccumulatedWindow(Downs(xs), p, n);
  }

  /** The RSI of a window whose up moves sum to `g` and down moves to `l`. */
  function StrengthOf(g: real, l: real): (r: real)
    requires g >= 0.0 && l >= 0.0
    ensures 0.0 <= r < 100.0
    ensures l == 0.0 ==> r == 100.0 - 100.0 / 101.0
  {
    if l == 0.0 then 100.0 - 100.0 / 101.0
    else
      UnitFraction(g / l);
      100.0 - 100.0 / (1.0 + g / l)
  }

  /** On finite numbers, RSI is NaN up to index `period` and from then on `100 - 100 / (1 + G / L)`
      for the sums `G` and `L` of the up and down moves over the last `period` indices, or
      `100 - 100 / 101` when there was no down move; so it always lies in [0, 100). */
  lemma RsiFormula(xs: seq<real>, period: int, i: nat)
    requires period >= 1 && i < |xs|
    ensures i < period ==> StrengthIndex(Finite(xs), period)[i] == None
    ensures i >= period ==>
      var g := Sum(Ups(xs)[i + 1 - period..i + 1]);
      var l := Sum(Downs(xs)[i + 1 - period..i + 1]);
      && g >= 0.0 && l >= 0.0
      && StrengthIndex(Finite(xs), period)[i] == Some(StrengthOf(g, l))
  {
    if i >= period {
      RsiOfSums(xs, period, i, Sum(Ups(xs)[i + 1 - period..i + 1]), Sum(Downs(xs)[i + 1 - period..i + 1]));
    }
  }

  /** From index `period` on, RSI is that of the sums `g` and `l` of the up and down moves over the
      last `period` indices. */
  lemma RsiOfSums(xs: seq<real>, period: int, i: nat, g: real, l: real)
    requires 1 <= period <= i < |xs|
    requires g == Sum(Ups(xs)[i + 1 - period..i + 1]) && l == Sum(Downs(xs)[i + 1 - period..i + 1])
    ensures g >= 0.0 && l >= 0.0 && StrengthIndex(Finite(xs), period)[i] == Some(StrengthOf(g, l))
  {
    RsiSums(xs, period, i);
    MovesNonNegative(xs, i + 1 - period, i + 1);
    StrengthOfSums(Finite(xs), period, i, g, l);
  }

  /** The accumulators at index `i` hold the sums of the moves over the last `period` indices. */
  lemma RsiSums(xs: seq<real>, period: int, i: nat)
    requires 1 <= period <= i < |xs|
    ensures RsiAfter(Finite(xs), period, i + 1) ==
      RsiState(Some(Sum(Ups(xs)[i + 1 - period..i + 1])), Some(Sum(Downs(xs)[i + 1 - period..i + 1])))
  {
    assert WindowStart(i + 1, period) == i + 1 - period;
    RsiWindow(xs, period, i + 1);
  }

  /** The RSI at an index whose accumulated gain and loss are the finite sums `g` and `l`. */
  lemma StrengthOfSums(series: seq<Num>, period: int, i: nat, g: real, l: real)
    requires 1 <= period <= i < |series| && g >= 0.0 && l >= 0.0
    requires RsiAfter(series, period, i + 1) == RsiState(Some(g), Some(l))
    ensures StrengthIndex(series, period)[i] == Some(StrengthOf(g, l))
  {
    StrengthIndexAt(series, period, i);
    RsiValueOf(g, l, period);
  }

  /** From index `period` on, RSI is `RsiValue` of the sums accumulated up to that index. */
  lemma StrengthIndexAt(series: seq<Num>, period: int, i: nat)
    requires 1 <= period <= i < |series|
    ensures StrengthIndex(series, period)[i] ==
      RsiValue(RsiAfter(series, period, i + 1).gain, RsiAfter(series, period, i + 1).loss, period)
  {
  }

  /** `RsiValue` on finite sums. */
  lemma RsiValueOf(g: real, l: real, p: nat)
    requires p >= 1 && g >= 0.0 && l >= 0.0
    ensures RsiValue(Some(g), Some(l), p) == Some(StrengthOf(g, l))
  {
    var pr := p as real;
    assert (l / pr == 0.0) == (l == 0.0);
    if l != 0.0 {
      assert (g / pr) / (l / pr) == g / l;
      assert g / l >= 0.0;
    }
  }

  /** `100 - 100 / (1 + x)` lies in [0, 100) for `x >= 0`. */
  lemma UnitFraction(x: real)
    requires x >= 0.0
    ensures 0.0 <= 100.0 - 100.0 / (1.0 + x) < 100.0
  {
    assert 100.0 / (1.0 + x) <= 100.0;
  }

  // ---------------------------------------------------------------------------------------------
  // ROC (lib/indicators.ts:72-81)

  function RocAt(series: seq<Num>, p: nat, i: nat): Num
    requires p >= 1 && i < |series|
  {
    if i < p then None
    else
      var base := series[i - p];
      if !IsFinite(base) || base.value == 0.0 then None
      else Mul(Div(Sub(series[i], base), base), Some(100.0))
  }

  /** `ROC(series, period)`: a value exactly where the entry and the entry `period` places back are
      finite and the latter is not 0. */
  function RateOfChange(series: seq<Num>, period: int): (r: seq<Num>)
    ensures |r| == |series|
    ensures forall i | 0 <= i < |series| ::
      r[i].Some? <==> period >= 1 && i >= period && series[i].Some? && series[i - period].Some?
                      && series[i - period].value != 0.0
  {
    if period <= 0 then seq(|series|, _ => None)
    else seq(|series|, i requires 0 <= i < |series| => RocAt(series, period, i))
  }

  method ROC(series: seq<Num>, period: int) returns (result: seq<Num>)
    ensures result == RateOfChange(series, period)
  {
    var out := new Num[|series|](_ => None);
    if period <= 0 {
      return out[..];
    }
    var i := period;
    while i < |series|
      invariant period <= i
      invariant forall k | 0 <= k < |series| && (k < i || k < period) :: out[k] == RocAt(series, period, k)
      invariant forall k | i <= k < |series| && k >= period :: out[k] == None
    {
      var base := series[i - period];
      if !IsFinite(base) || base.value == 0.0 {
        i := i + 1;
        continue;
      }
      out[i] := Mul(Div(Sub(series[i], base), base), Some(100.0));
      i := i + 1;
    }
    result := out[..];
  }

  /** ROC is the percentage change that turns the earlier entry into the current one. */
  lemma RocInverse(series: seq<Num>, period: int, i: nat)
    requires i < |series| && RateOfChange(series, period)[i].Some?
    ensures i >= period >= 1 && series[i - period].Some? && series[i].Some?
    ensures series[i].value == series[i - period].value * (1.0 + RateOfChange(series, period)[i].value / 100.0)
  {
    var base := series[i - period].value;
    var x := series[i].value;
    assert base != 0.0;
    var q := (x - base) / base;
    assert RateOfChange(series, period)[i].value == q * 100.0;
    assert q * 100.0 / 100.0 == q;
    assert base * q == x - base;
    assert base * (1.0 + q) == base + base * q;
    assert base * (1.0 + RateOfChange(series, period)[i].value / 100.0) == x;
    assert series[i] == Some(x);
  }

  // ---------------------------------------------------------------------------------------------
  // ATR (lib/indicators.ts:83-98)

  /** The true range of session `i`: the largest of its range and its distances from the previous
      close (its own close for the first session). */
  function TrueRange(candles: seq<T.Candle>, i: nat): real
    requires i < |candles|
  {
    var c := candles[i];
    var prevClose := if i > 0 then candles[i - 1].close else c.close;
    Max(Max(c.high - c.low, Abs(c.high - prevClose)), Abs(c.low - prevClose))
  }

  function TrueRanges(candles: seq<T.Candle>): (trs: seq<real>)
    ensures |trs| == |candles|
  {
    seq(|candles|, i requires 0 <= i < |candles| => TrueRange(candles, i))
  }

  /** `ATR(candles, period)`. */
  function AverageTrueRange(candles: seq<T.Candle>, period: int): (r: seq<Num>)
    ensures |r| == |candles|
  {
    if period <= 0 then seq(|candles|, _ => None)
    else MovingAverage(Finite(TrueRanges(candles)), period)
  }

  method ATR(candles: seq<T.Candle>, period: int) returns (result: seq<Num>)
    ensures result == AverageTrueRange(candles, period)
  {
    var out := new Num[|candles|](_ => None);
    if period <= 0 {
      return out[..];
    }
    var trs := PushTrueRanges(candles);
    var sma := SMA(trs, period);
    for i := 0 to |sma|
      invariant forall k | 0 <= k < i :: out[k] == sma[k]
      invariant forall k | i <= k < |candles| :: out[k] == None
    {
      out[i] := sma[i];
    }
    result := out[..];
  }

  /** The first loop of `ATR`: the true range of every session, in order. */
  method PushTrueRanges(candles: seq<T.Candle>) returns (trs: seq<Num>)
    ensures trs == Finite(TrueRanges(candles))
  {
    trs := [];
    for i := 0 to |candles|
      invariant |trs| == i && forall k | 0 <= k < i :: trs[k] == Some(TrueRange(candles, k))
    {
      var high, low := candles[i].high, candles[i].low;
      var prevClose := if i > 0 then candles[i - 1].close else candles[i].close;
      var tr := Max(Max(high - low, Abs(high - prevClose)), Abs(low - prevClose));
      trs := trs + [Some(tr)];
    }
  }

  lemma FiniteValues(xs: seq<real>)
    ensures AllFinite(Finite(xs)) && Values(Finite(xs)) == xs
  {
  }

  /** The true range covers the session's range and both distances from the previous close, and is
      one of them. */
  lemma TrueRangeCovers(candles: seq<T.Candle>, i: nat)
    requires i < |candles|
    ensures var c := candles[i];
      var prev := if i > 0 then candles[i - 1].close else c.close;
      var tr := TrueRange(candles, i);
      && tr >= c.high - c.low && tr >= Abs(c.high - prev) && tr >= Abs(c.low - prev)
      && (tr == c.high - c.low || tr == Abs(c.high - prev) || tr == Abs(c.low - prev))
  {
  }

  /** ATR is NaN for the first `period - 1` sessions and from then on the mean true range of the last
      `period` sessions. */
  lemma AtrMean(candles: seq<T.Candle>, period: int, i: nat)
    requires period >= 1 && i < |candles|
    ensures i < period - 1 ==> AverageTrueRange(candles, period)[i] == None
    ensures i >= period - 1 ==>
      AverageTrueRange(candles, period)[i] == Some(Sum(TrueRanges(candles)[i + 1 - period..i + 1]) / period as real)
  {
    FiniteValues(TrueRanges(candles));
    SmaMean(Finite(TrueRanges(candles)), period, i);
  }

  // ---------------------------------------------------------------------------------------------
  // indicatorMap and warmupPeriods (lib/indicators.ts:100-114)

  /** The closing prices of a candle series. */
  function Closes(candles: seq<T.Candle>): (cs: seq<real>)
    ensures |cs| == |candles|
  {
    seq(|candles|, i requires 0 <= i < |candles| => candles[i].close)
  }

  /** `warmupPeriods[fn](args)`: the history each indicator asks for, an omitted period counting
      as 1. */
  function Warmup(fn: T.IndicatorFn, period: Option<int>): int {
    var p := period.GetOr(1);
    match fn
    case SMA => p
    case EMA => p * 3
    case RSI => p + 1
    case ROC => p
    case ATR => p + 1
  }

  /** `indicatorMap[fn]` applied as the simulator applies it: ATR to the candles, the others to the
      closing prices. */
  function Apply(fn: T.IndicatorFn, candles: seq<T.Candle>, period: int): (r: seq<Num>)
    ensures |r| == |candles|
  {
    var closes := Finite(Closes(candles));
    match fn
    case SMA => MovingAverage(closes, period)
    case EMA => ExponentialAverage(closes, period)
    case RSI => StrengthIndex(closes, period)
    case ROC => RateOfChange(closes, period)
    case ATR => AverageTrueRange(candles, period)
  }

  method Compute(fn: T.IndicatorFn, candles: seq<T.Candle>, period: int) returns (r: seq<Num>)
    ensures r == Apply(fn, candles, period)
  {
    var closes := Finite(Closes(candles));
    match fn {
      case SMA => r := SMA(closes, period);
      case EMA => r := EMA(closes, period);
      case RSI => r := RSI(closes, period);
      case ROC => r := ROC(closes, period);
      case ATR => r := ATR(candles, period);
    }
  }

  /** With an explicit period and positive closes, every indicator has a finite value at each
      session from its warmup on. */
  lemma DefinedAfterWarmup(fn: T.IndicatorFn, candles: seq<T.Candle>, p: int, i: nat)
    requires p >= 1 && Warmup(fn, Some(p)) <= i < |candles|
    requires forall k | 0 <= k < |candles| :: candles[k].close > 0.0
    ensures Apply(fn, candles, p)[i].Some?
  {
    var xs := Closes(candles);
    FiniteValues(xs);
    match fn
    case SMA => SmaMean(Finite(xs), p, i);
    case EMA =>
    case RSI => RsiFormula(xs, p, i);
    case ROC => assert xs[i - p] == candles[i - p].close;
    case ATR => AtrMean(candles, p, i);
  }

  /** When no period is given, the warmup is measured with period 1 but the indicator is computed
      with period 14: a series of 6 to 13 sessions passes the warmup test of `computeIndicators`
      (lib/sim.ts:198) and yet yields no simple moving average at all. */
  lemma DefaultPeriodGap(candles: seq<T.Candle>)
    requires Warmup(T.SMA, None) + 5 <= |candles| < 14
    ensures forall i | 0 <= i < |candles| :: Apply(T.SMA, candles, 14)[i] == None
  {
    forall i | 0 <= i < |candles|
      ensures Apply(T.SMA, candles, 14)[i] == None
    {
      SmaMean(Finite(Closes(candles)), 14, i);
    }
  }
}
