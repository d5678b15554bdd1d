/** The open positions of a simulation: a JavaScript `Map<string, PortfolioPosition>`, which keeps
    its keys in insertion order (lib/sim.ts:82-87, 323), and the mark-to-market sum that the
    simulator takes over it with `Array.from(positions.entries()).reduce(...)`. */
module Positions {
  import opened Numeric

  /** A held position; `shares` is a whole number. */
  datatype Position = Position(shares: int, costBasis: real, entryPrice: real, entryDate: string)

  /** The map: its keys in insertion order and its entries. */
  datatype Table = Table(order: seq<string>, held: map<string, Position>)

  predicate Distinct(xs: seq<string>) {
    forall i, j | 0 <= i < j < |xs| :: xs[i] != xs[j]
  }

  /** The set of listed strings. */
  function Elems(xs: seq<string>): set<string> {
    if xs == [] then {} else Elems(xs[..|xs| - 1]) + {xs[|xs| - 1]}
  }

  lemma {:induction false} ElemsMembers(xs: seq<string>)
    ensures forall x :: x in Elems(xs) <==> x in xs
  {
    if xs != [] {
      ElemsMembers(xs[..|xs| - 1]);
      assert xs == xs[..|xs| - 1] + [xs[|xs| - 1]];
    }
  }

  /** The keys are listed once each, and exactly the keys are listed. */
  predicate Valid(t: Table) {
    Distinct(t.order) && t.held.Keys == Elems(t.order)
  }

  /** `positions.size` */
  function Size(t: Table): nat {
    |t.order|
  }

  const Empty := Table([], map[])

  lemma EmptyValid()
    ensures Valid(Empty) && Size(Empty) == 0
  {
  }

  /** Appending a string adds it to the set. */
  lemma ElemsSnoc(xs: seq<string>, x: string)
    ensures Elems(xs + [x]) == Elems(xs) + {x}
  {
    assert (xs + [x])[..|xs|] == xs;
  }

  /** The last element of a distinct sequence is not among the others, which are distinct. */
  lemma DistinctInit(xs: seq<string>)
    requires Distinct(xs) && xs != []
    ensures Distinct(xs[..|xs| - 1])
    ensures xs[|xs| - 1] !in Elems(xs[..|xs| - 1])
  {
    ElemsMembers(xs[..|xs| - 1]);
  }

  /** Appending a string not yet listed keeps the sequence distinct. */
  lemma DistinctSnoc(xs: seq<string>, x: string)
    requires Distinct(xs) && x !in Elems(xs)
    ensures Distinct(xs + [x])
  {
    ElemsMembers(xs);
    var ys := xs + [x];
    forall i, j | 0 <= i < j < |ys|
      ensures ys[i] != ys[j]
    {
      if j < |xs| {
        assert ys[i] == xs[i] && ys[j] == xs[j];
      } else {
        assert ys[i] == xs[i];
      }
    }
  }

  /** A distinct sequence lists as many strings as its set holds. */
  lemma {:induction false} ElemsCard(xs: seq<string>)
    requires Distinct(xs)
    ensures |Elems(xs)| == |xs|
  {
    if xs != [] {
      DistinctInit(xs);
      ElemsCard(xs[..|xs| - 1]);
    }
  }

  /** The size of a well-formed map is the number of its keys. */
  lemma SizeIsKeys(t: Table)
    requires Valid(t)
    ensures Size(t) == |t.held.Keys|
  {
    ElemsCard(t.order);
  }

  /** A well-formed map whose keys are among another's is no larger. */
  lemma SizeSubset(t: Table, u: Table)
    requires Valid(t) && Valid(u) && t.held.Keys <= u.held.Keys
    ensures Size(t) <= Size(u)
  {
    SizeIsKeys(t);
    SizeIsKeys(u);
    SubsetCard(t.held.Keys, u.held.Keys);
  }

  lemma {:induction false} SubsetCard(a: set<string>, b: set<string>)
    requires a <= b
    ensures |a| <= |b|
    decreases |b|
  {
    if a != {} {
      var x :| x in a;
      SubsetCard(a - {x}, b - {x});
    }
  }

  /** `xs` without `s`, the others kept in order. */
  function Without(xs: seq<string>, s: string): (r: seq<string>)
    ensures Elems(r) == Elems(xs) - {s}
    ensures |r| <= |xs|
  {
    if xs == [] then []
    else
      var w := Without(xs[..|xs| - 1], s);
      var last := xs[|xs| - 1];
      if last == s then w
      else
        ElemsSnoc(w, last);
        w + [last]
  }

  lemma {:induction false} WithoutDistinct(xs: seq<string>, s: string)
    requires Distinct(xs)
    ensures Distinct(Without(xs, s))
    ensures |Without(xs, s)| == if s in Elems(xs) then |xs| - 1 else |xs|
    ensures s !in Elems(xs) ==> Without(xs, s) == xs
  {
    if xs != [] {
      var init := xs[..|xs| - 1];
      var last := xs[|xs| - 1];
      DistinctInit(xs);
      WithoutDistinct(init, s);
      assert xs == init + [last];
      if last != s {
        DistinctSnoc(Without(init, s), last);
      }
    }
  }

  /** Removing a string that is not listed changes nothing. */
  lemma {:induction false} WithoutAbsent(xs: seq<string>, s: string)
    requires s !in Elems(xs)
    ensures Without(xs, s) == xs
  {
    if xs != [] {
      assert xs[..|xs| - 1] + [xs[|xs| - 1]] == xs;
      WithoutAbsent(xs[..|xs| - 1], s);
    }
  }

  /** Removing a string listed once, between `a` and `b`, leaves `a` followed by `b`: the other keys
      keep their insertion order. */
  lemma {:induction false} WithoutSplit(a: seq<string>, s: string, b: seq<string>)
    requires s !in Elems(a) && s !in Elems(b)
    ensures Without(a + [s] + b, s) == a + b
    decreases |b|
  {
    var xs := a + [s] + b;
    if b == [] {
      assert xs[..|xs| - 1] == a;
      WithoutAbsent(a, s);
    } else {
      var init := b[..|b| - 1];
      assert b == init + [b[|b| - 1]];
      ElemsSnoc(init, b[|b| - 1]);
      assert xs[..|xs| - 1] == a + [s] + init;
      WithoutSplit(a, s, init);
      assert a + init + [b[|b| - 1]] == a + b;
    }
  }

  /** `positions.set(s, p)`: a new key goes last, an existing one keeps its place. */
  function Put(t: Table, s: string, p: Position): (r: Table)
    requires Valid(t)
    ensures Valid(r)
    ensures r.held == t.held[s := p]
    ensures r.order == if s in t.held then t.order else t.order + [s]
    ensures Size(r) == if s in t.held then Size(t) else Size(t) + 1
  {
    if s in t.held then Table(t.order, t.held[s := p])
    else
      DistinctSnoc(t.order, s);
      ElemsSnoc(t.order, s);
      Table(t.order + [s], t.held[s := p])
  }

  /** `positions.delete(s)` */
  function Delete(t: Table, s: string): (r: Table)
    requires Valid(t)
    ensures Valid(r)
    ensures r.held == t.held - {s}
    ensures r.order == Without(t.order, s)
    ensures Size(r) == if s in t.held then Size(t) - 1 else Size(t)
  {
    WithoutDistinct(t.order, s);
    Table(Without(t.order, s), t.held - {s})
  }

  /** The market value of the position in `s`; 0 when it is not held or has no finite price. */
  function Value(held: map<string, Position>, prices: map<string, real>, s: string): real {
    if s in held && s in prices then Scale(held[s].shares, prices[s]) else 0.0
  }

  /** The market value of the positions listed in `order`, summed left to right. */
  function HoldingsOf(order: seq<string>, held: map<string, Position>, prices: map<string, real>): real {
    if order == [] then 0.0
    else HoldingsOf(order[..|order| - 1], held, prices) + Value(held, prices, order[|order| - 1])
  }

  /** The market value of all open positions at `prices`. */
  function Holdings(t: Table, prices: map<string, real>): real {
    HoldingsOf(t.order, t.held, prices)
  }

  /** The sum reads the entries of the listed keys only. */
  lemma {:induction false} HoldingsFrame(order: seq<string>, h1: map<string, Position>, h2: map<string, Position>,
                                          prices: map<string, real>)
    requires forall x | x in order :: (x in h1 <==> x in h2) && (x in h1 ==> h1[x] == h2[x])
    ensures HoldingsOf(order, h1, prices) == HoldingsOf(order, h2, prices)
  {
    if order != [] {
      var last := order[|order| - 1];
      HoldingsFrame(order[..|order| - 1], h1, h2, prices);
      assert Value(h1, prices, last) == Value(h2, prices, last);
    }
  }

  /** Removing a listed key removes its value from the sum. */
  lemma {:induction false} HoldingsWithout(order: seq<string>, held: map<string, Position>,
                                            prices: map<string, real>, s: string)
    requires Distinct(order) && s in order
    ensures HoldingsOf(Without(order, s), held - {s}, prices) == HoldingsOf(order, held, prices) - Value(held, prices, s)
  {
    var init := order[..|order| - 1];
    var last := order[|order| - 1];
    assert order == init + [last];
    assert Distinct(init);
    if last == s {
      HoldingsWithoutLast(order, held, prices, s);
    } else {
      HoldingsWithout(init, held, prices, s);
      var w := Without(order, s);
      assert w == Without(init, s) + [last];
      assert w[..|w| - 1] == Without(init, s) && w[|w| - 1] == last;
      assert HoldingsOf(w, held - {s}, prices)
          == HoldingsOf(Without(init, s), held - {s}, prices) + Value(held - {s}, prices, last);
      assert Value(held - {s}, prices, last) == Value(held, prices, last);
    }
  }

  lemma HoldingsWithoutLast(order: seq<string>, held: map<string, Position>, prices: map<string, real>, s: string)
    requires Distinct(order) && order != [] && order[|order| - 1] == s
    ensures HoldingsOf(Without(order, s), held - {s}, prices) == HoldingsOf(order, held, prices) - Value(held, prices, s)
  {
    var init := order[..|order| - 1];
    DistinctInit(order);
    WithoutDistinct(init, s);
    assert Without(order, s) == init;
    HoldingsFrame(init, held - {s}, held, prices);
  }

  /** Replacing or adding the entry of `s` changes the sum by the change in its value. */
  lemma HoldingsPut(t: Table, prices: map<string, real>, s: string, p: Position)
    requires Valid(t)
    ensures Holdings(Put(t, s, p), prices) == Holdings(t, prices) - Value(t.held, prices, s) + Value(t.held[s := p], prices, s)
  {
    if s in t.held {
      ElemsMembers(t.order);
      HoldingsReplace(t.order, t.held, prices, s, p);
    } else {
      ElemsMembers(t.order);
      HoldingsFrame(t.order, t.held[s := p], t.held, prices);
      assert (t.order + [s])[..|t.order|] == t.order;
    }
  }

  lemma {:induction false} HoldingsReplace(order: seq<string>, held: map<string, Position>,
                                            prices: map<string, real>, s: string, p: Position)
    requires Distinct(order) && s in order
    ensures HoldingsOf(order, held[s := p], prices)
         == HoldingsOf(order, held, prices) - Value(held, prices, s) + Value(held[s := p], prices, s)
  {
    var init := order[..|order| - 1];
    var last := order[|order| - 1];
    assert order == init + [last];
    assert Distinct(init);
    if last == s {
      assert s !in init;
      HoldingsFrame(init, held[s := p], held, prices);
    } else {
      HoldingsReplace(init, held, prices, s, p);
    }
  }

  /** Removing a position removes its value from the sum. */
  lemma HoldingsDelete(t: Table, prices: map<string, real>, s: string)
    requires Valid(t)
    ensures Holdings(Delete(t, s), prices) == Holdings(t, prices) - Value(t.held, prices, s)
  {
    ElemsMembers(t.order);
    if s in t.held {
      HoldingsWithout(t.order, t.held, prices, s);
    } else {
      WithoutDistinct(t.order, s);
      assert Delete(t, s).order == t.order;
      HoldingsFrame(t.order, t.held - {s}, t.held, prices);
      assert Holdings(Delete(t, s), prices) == HoldingsOf(t.order, t.held - {s}, prices);
    }
  }
}
