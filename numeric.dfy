/** Numbers as the engine sees them: prices and money are reals; a JavaScript number that may be
    NaN or infinite is a `Num`. Integer widths are not an issue here except in `Random`, which works
    on 32-bit words. */
module Numeric {

  datatype Option<+T> = None | Some(value: T) {
    /** `x ?? default` */
    function GetOr(default: T): T {
      if Some? then value else default
    }
  }

  /** The outcome of a call that may throw: its value, or the message of the `Error`. */
  datatype Result<+T> = Ok(value: T) | Err(error: string)

  /** A JavaScript number that may be non-finite: `None` stands for NaN (and for the infinities, which
      the engine only produces where it also treats the value as "not available"). */
  type Num = Option<real>

  /** `Number.isFinite(x)` */
  predicate IsFinite(x: Num) {
    x.Some?
  }

  /** IEEE addition, subtraction and multiplication as seen by the engine: non-finite is absorbing. */
  function Add(a: Num, b: Num): Num {
    if a.Some? && b.Some? then Some(a.value + b.value) else None
  }

  function Sub(a: Num, b: Num): Num {
    if a.Some? && b.Some? then Some(a.value - b.value) else None
  }

  function Mul(a: Num, b: Num): Num {
    if a.Some? && b.Some? then Some(a.value * b.value) else None
  }

  function Neg(a: Num): Num {
    if a.Some? then Some(-a.value) else None
  }

  /** Division; a zero divisor yields NaN or an infinity, both non-finite. */
  function Div(a: Num, b: Num): Num {
    if a.Some? && b.Some? && b.value != 0.0 then Some(a.value / b.value) else None
  }

  /** `Math.max(0, x)` on a finite number. */
  function Positive(x: real): (r: real)
    ensures r >= 0.0 && r >= x
  {
    if x > 0.0 then x else 0.0
  }

  /** `Math.max(0, x)`: a NaN argument makes the result NaN. */
  function MaxZero(a: Num): (r: Num)
    ensures r.Some? <==> a.Some?
  {
    if a.Some? then Some(Positive(a.value)) else None
  }

  function Max(a: real, b: real): real {
    if a >= b then a else b
  }

  function Min(a: real, b: real): real {
    if a <= b then a else b
  }

  function Abs(a: real): real {
    if a >= 0.0 then a else -a
  }

  /** The sum of a sequence, accumulated left to right as `reduce` does. */
  function Sum(s: seq<real>): real {
    if s == [] then 0.0 else Sum(s[..|s| - 1]) + s[|s| - 1]
  }

  lemma {:induction false} SumAppend(s: seq<real>, t: seq<real>)
    ensures Sum(s + t) == Sum(s) + Sum(t)
    decreases |t|
  {
    if t == [] {
      assert s + t == s;
    } else {
      assert (s + t)[..|s + t| - 1] == s + t[..|t| - 1];
      SumAppend(s, t[..|t| - 1]);
    }
  }

  lemma {:induction false} SumFront(s: seq<real>)
    requires s != []
    ensures Sum(s) == s[0] + Sum(s[1..])
  {
    assert s == [s[0]] + s[1..];
    SumAppend([s[0]], s[1..]);
    assert [s[0]][..0] == [];
  }

  lemma {:induction false} SumNonNegative(s: seq<real>)
    requires forall i | 0 <= i < |s| :: s[i] >= 0.0
    ensures Sum(s) >= 0.0
    decreases |s|
  {
    if s != [] {
      SumNonNegative(s[..|s| - 1]);
    }
  }

  lemma {:induction false} SumPositive(s: seq<real>)
    requires s != []
    requires forall i | 0 <= i < |s| :: s[i] > 0.0
    ensures Sum(s) > 0.0
    decreases |s|
  {
    SumNonNegative(s[..|s| - 1]);
  }

  lemma {:induction false} SumNegative(s: seq<real>)
    requires s != []
    requires forall i | 0 <= i < |s| :: s[i] < 0.0
    ensures Sum(s) < 0.0
    decreases |s|
  {
    if |s| > 1 {
      SumNegative(s[..|s| - 1]);
    }
  }

  /** Where the window of the last `p` entries before position `n` starts. */
  function WindowStart(n: nat, p: nat): nat {
    if n >= p then n - p else 0
  }

  /** Moving the end of a window of width `p` one place on adds the new entry and drops the one that
      falls out of the window. */
  lemma WindowStep(xs: seq<real>, p: nat, n: nat)
    requires p >= 1 && n < |xs|
    ensures Sum(xs[WindowStart(n + 1, p)..n + 1])
         == Sum(xs[WindowStart(n, p)..n]) + xs[n] - (if n >= p then xs[n - p] else 0.0)
  {
    var lo := WindowStart(n, p);
    assert xs[lo..n + 1] == xs[lo..n] + [xs[n]];
    SumAppend(xs[lo..n], [xs[n]]);
    assert Sum([xs[n]]) == xs[n] by {
      assert [xs[n]][..0] == [];
    }
    if n >= p {
      assert xs[lo..n + 1] == [xs[lo]] + xs[lo + 1..n + 1];
      SumFront(xs[lo..n + 1]);
      assert xs[lo..n + 1][1..] == xs[lo + 1..n + 1];
    }
  }

  /** `n * x` for a whole number `n`, such as a count of shares at a price. It is defined as a
      repeated sum, so that amounts of money stay linear terms for the verifier; `ScaleIsProduct`
      states that it is the product. */
  function Scale(n: int, x: real): real
    decreases if n < 0 then -n else n
  {
    if n == 0 then 0.0
    else if n > 0 then Scale(n - 1, x) + x
    else Scale(n + 1, x) - x
  }

  lemma {:induction false} ScaleIsProduct(n: int, x: real)
    ensures Scale(n, x) == n as real * x
    decreases if n < 0 then -n else n
  {
    if n > 0 {
      ScaleIsProduct(n - 1, x);
    } else if n < 0 {
      ScaleIsProduct(n + 1, x);
    }
  }

  /** Scaling distributes over a sum of counts and over a sum of prices. */
  lemma ScaleAdd(m: int, n: int, x: real)
    ensures Scale(m + n, x) == Scale(m, x) + Scale(n, x)
  {
    ScaleIsProduct(m + n, x);
    ScaleIsProduct(m, x);
    ScaleIsProduct(n, x);
    assert (m + n) as real * x == m as real * x + n as real * x;
  }

  lemma ScaleSum(n: int, x: real, y: real)
    ensures Scale(n, x + y) == Scale(n, x) + Scale(n, y)
  {
    ScaleIsProduct(n, x + y);
    ScaleIsProduct(n, x);
    ScaleIsProduct(n, y);
    assert n as real * (x + y) == n as real * x + n as real * y;
  }

  /** A non-negative count at a non-negative price is worth something non-negative, and a positive
      count at a positive price something positive. */
  lemma ScaleSign(n: int, x: real)
    ensures n >= 0 && x >= 0.0 ==> Scale(n, x) >= 0.0
    ensures n > 0 && x > 0.0 ==> Scale(n, x) > 0.0
  {
    ScaleIsProduct(n, x);
  }
}
