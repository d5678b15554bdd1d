/** `generateCandles` (lib/sim.ts:43-72): a multiplicative log-return walk driven by the seeded stream.
    The weekday calendar and `Math.exp` come from the runtime. */
module Candles {
  import opened Numeric
  import opened Types
  import opened Random
  import Host
  import Text

  const Drift: real := 0.0004
  const Vol: real := 0.02

  /** The symmetric shock `(rand() - 0.5) * 2` of a draw `r` in [0, 1). */
  function Shock(r: Unit): (s: real)
    ensures -1.0 <= s < 1.0
  {
    (r - 0.5) * 2.0
  }

  /** One session opened at `price` with the given shock. */
  function MakeCandle(date: string, price: real, shock: real, exp: real -> real): Candle {
    var ret := exp(Drift + Vol * shock);
    var open := price;
    var close := Max(1.0, price * ret);
    var high := Max(open, close) * (1.0 + Abs(shock) * 0.3);
    var low := Min(open, close) * (1.0 - Abs(shock) * 0.3);
    var volume := 1000000.0 * (1.0 + Abs(shock) * 10.0);
    Candle(date, open, high, low, close, volume)
  }

  /** The next `n` draws of the mulberry32 stream whose state is `seed`. */
  function Draws(seed: bv32, n: nat): (d: seq<Unit>)
    ensures |d| == n
    decreases n
  {
    if n == 0 then [] else [Output(Advance(seed))] + Draws(Advance(seed), n - 1)
  }

  /** The walk over `dates` from `price`, drawing one shock per date from `rands`. */
  function Walk(price: real, rands: seq<Unit>, dates: seq<string>, exp: real -> real): (w: seq<Candle>)
    requires |rands| == |dates|
    ensures |w| == |dates|
    decreases |dates|
  {
    if dates == [] then []
    else
      var c := MakeCandle(dates[0], price, Shock(rands[0]), exp);
      [c] + Walk(c.close, rands[1..], dates[1..], exp)
  }

  /** The string the seed is hashed from. */
  function SeedKey(symbol: string, start: string, end: string): string {
    symbol + ":" + start + ":" + end
  }

  /** The state of the stream once it has been seeded from `symbol`, `start` and `end` and the
      starting-price draw has been taken. */
  function Seeded(symbol: string, start: string, end: string): bv32 {
    Advance(Hash(Text.Utf16(SeedKey(symbol, start, end))))
  }

  /** The candles `generateCandles(symbol, start, end)` returns. */
  function CandlesFor(symbol: string, start: string, end: string, rt: Host.Runtime): seq<Candle> {
    var state := Seeded(symbol, start, end);
    var dates := rt.businessDays(start, end);
    Walk(50.0 + Output(state) * 50.0, Draws(state, |dates|), dates, rt.exp)
  }

  /** The shape every generated session has. */
  predicate WellShaped(c: Candle) {
    && c.close >= 1.0
    && c.high >= Max(c.open, c.close)
    && 0.0 < c.low <= Min(c.open, c.close)
  }

  lemma ScaleUp(a: real, f: real)
    requires a >= 0.0 && f >= 1.0
    ensures a * f >= a
  {
    assert a * f - a == a * (f - 1.0);
  }

  lemma ScaleDown(a: real, f: real)
    requires a > 0.0 && 0.0 < f <= 1.0
    ensures 0.0 < a * f <= a
  {
    assert a - a * f == a * (1.0 - f);
  }

  /** A session opened at a price of at least 1 with a shock in [-1, 1] is well shaped. */
  lemma MakeCandleShape(date: string, price: real, shock: real, exp: real -> real)
    requires price >= 1.0 && -1.0 <= shock <= 1.0
    ensures WellShaped(MakeCandle(date, price, shock, exp))
  {
    var c := MakeCandle(date, price, shock, exp);
    var a := Abs(shock);
    assert 0.0 <= a <= 1.0;
    assert a * 0.3 <= 0.3;
    ScaleUp(Max(c.open, c.close), 1.0 + a * 0.3);
    ScaleDown(Min(c.open, c.close), 1.0 - a * 0.3);
  }

  /** `w` is a series over `dates` opening at `price`: one candle per date, dated in order, each well
      shaped, the first opening at `price` and each later one at the previous close. */
  predicate Series(w: seq<Candle>, dates: seq<string>, price: real) {
    && |w| == |dates|
    && (forall k | 0 <= k < |w| :: w[k].date == dates[k] && WellShaped(w[k]))
    && (|w| > 0 ==> w[0].open == price)
    && (forall k | 0 < k < |w| :: w[k].open == w[k - 1].close)
  }

  lemma {:induction false} WalkShape(price: real, rands: seq<Unit>, dates: seq<string>, exp: real -> real)
    requires price >= 1.0
    requires |rands| == |dates|
    ensures Series(Walk(price, rands, dates, exp), dates, price)
    decreases |dates|
  {
    if dates != [] {
      var c := MakeCandle(dates[0], price, Shock(rands[0]), exp);
      MakeCandleShape(dates[0], price, Shock(rands[0]), exp);
      var rest := Walk(c.close, rands[1..], dates[1..], exp);
      WalkShape(c.close, rands[1..], dates[1..], exp);
      var w := [c] + rest;
      assert w == Walk(price, rands, dates, exp);
      forall k | 0 <= k < |w|
        ensures w[k].date == dates[k] && WellShaped(w[k])
      {
        if k > 0 {
          assert w[k] == rest[k - 1];
        }
      }
      forall k | 0 < k < |w|
        ensures w[k].open == w[k - 1].close
      {
        if k > 1 {
          assert w[k] == rest[k - 1] && w[k - 1] == rest[k - 2];
        }
      }
    }
  }

  /** Whatever the runtime's calendar and `Math.exp`, the generated candles form a series over the
      business days of the window, opening somewhere in [50, 100). */
  lemma GeneratedShape(symbol: string, start: string, end: string, rt: Host.Runtime)
    ensures exists p | 50.0 <= p < 100.0 :: Series(CandlesFor(symbol, start, end, rt), rt.businessDays(start, end), p)
  {
    var state := Seeded(symbol, start, end);
    var dates := rt.businessDays(start, end);
    var p := 50.0 + Output(state) * 50.0;
    WalkShape(p, Draws(state, |dates|), dates, rt.exp);
    assert 50.0 <= p < 100.0 && Series(CandlesFor(symbol, start, end, rt), dates, p);
  }

  /** Taking one draw and one candle moves the walk one date on. */
  lemma WalkStep(whole: seq<Candle>, dates: seq<string>, i: nat, price: real, seed: bv32, exp: real -> real)
    requires i < |dates| == |whole|
    requires whole[i..] == Walk(price, Draws(seed, |dates| - i), dates[i..], exp)
    ensures whole[..i + 1] == whole[..i] + [MakeCandle(dates[i], price, Shock(Output(Advance(seed))), exp)]
    ensures whole[i + 1..] == Walk(MakeCandle(dates[i], price, Shock(Output(Advance(seed))), exp).close,
                                   Draws(Advance(seed), |dates| - (i + 1)), dates[i + 1..], exp)
  {
    var ds := Draws(seed, |dates| - i);
    assert ds[1..] == Draws(Advance(seed), |dates| - (i + 1));
    assert dates[i..][1..] == dates[i + 1..];
    assert whole[i + 1..] == whole[i..][1..];
    assert whole[i] == whole[i..][0];
  }

  /** The generation loop: one draw and one candle per date, starting from `price`. */
  method WalkDates(rand: Mulberry32, price: real, dates: seq<string>, exp: real -> real) returns (candles: seq<Candle>)
    modifies rand
    ensures candles == Walk(price, Draws(old(rand.seed), |dates|), dates, exp)
  {
    ghost var whole := Walk(price, Draws(rand.seed, |dates|), dates, exp);
    var p := price;
    candles := [];
    var i := 0;
    while i < |dates|
      invariant 0 <= i <= |dates| && |whole| == |dates|
      invariant candles == whole[..i]
      invariant whole[i..] == Walk(p, Draws(rand.seed, |dates| - i), dates[i..], exp)
    {
      WalkStep(whole, dates, i, p, rand.seed, exp);
      var draw := rand.Next();
      var c := MakeCandle(dates[i], p, Shock(draw), exp);
      candles := candles + [c];
      p := c.close;
      i := i + 1;
    }
    assert whole[..i] == whole;
  }

  method GenerateCandles(symbol: string, start: string, end: string, rt: Host.Runtime) returns (candles: seq<Candle>)
    ensures candles == CandlesFor(symbol, start, end, rt)
  {
    var dates := rt.businessDays(start, end);
    var seed := HashString(SeedKey(symbol, start, end));
    var rand := new Mulberry32(seed);
    var first := rand.Next();
    assert rand.seed == Seeded(symbol, start, end);
    var price := 50.0 + (first as real) * 50.0;
    candles := WalkDates(rand, price, dates, rt.exp);
  }
}
