/** The order in which the simulator executes pending buys: `buys.sort((a, b) =>
    a.symbol.localeCompare(b.symbol))` (lib/sim.ts:438). `localeCompare` is taken as the
    lexicographic order of Unicode code points (Dafny characters), and `Array.prototype.sort` is stable. */
module Order {

  /** Lexicographic order on strings: a prefix comes first, then the first differing character
      decides. */
  predicate Le(a: string, b: string)
    decreases |a|
  {
    a == [] || (b != [] && (a[0] < b[0] || (a[0] == b[0] && Le(a[1..], b[1..]))))
  }

  lemma {:induction false} LeReflexive(a: string)
    ensures Le(a, a)
    decreases |a|
  {
    if a != [] {
      LeReflexive(a[1..]);
    }
  }

  lemma {:induction false} LeTotal(a: string, b: string)
    ensures Le(a, b) || Le(b, a)
    decreases |a|
  {
    if a != [] && b != [] && a[0] == b[0] {
      LeTotal(a[1..], b[1..]);
    }
  }

  lemma {:induction false} LeTransitive(a: string, b: string, c: string)
    requires Le(a, b) && Le(b, c)
    ensures Le(a, c)
    decreases |a|
  {
    if a != [] && a[0] == b[0] && b[0] == c[0] {
      LeTransitive(a[1..], b[1..], c[1..]);
    }
  }

  lemma {:induction false} LeAntisymmetric(a: string, b: string)
    requires Le(a, b) && Le(b, a)
    ensures a == b
    decreases |a|
  {
    if a != [] {
      LeAntisymmetric(a[1..], b[1..]);
      assert a == [a[0]] + a[1..] && b == [b[0]] + b[1..];
    }
  }

  /** `s` is in ascending order of its keys. */
  predicate Sorted<T>(s: seq<T>, key: T -> string) {
    forall i, j | 0 <= i < j < |s| :: Le(key(s[i]), key(s[j]))
  }

  /** The elements of `s` whose key is `k`, in order. */
  function WithKey<T>(s: seq<T>, key: T -> string, k: string): (r: seq<T>)
    ensures |r| <= |s|
  {
    if s == [] then []
    else (if key(s[0]) == k then [s[0]] else []) + WithKey(s[1..], key, k)
  }

  /** Puts `x` after every element of the sorted `s` whose key is not greater than its own. */
  function Insert<T>(x: T, s: seq<T>, key: T -> string): (r: seq<T>)
    ensures |r| == |s| + 1
  {
    if s == [] then [x]
    else if Le(key(s[0]), key(x)) then [s[0]] + Insert(x, s[1..], key)
    else [x] + s
  }

  /** A stable sort by key: each element is inserted, in input order, after the equal keys. */
  function SortBy<T>(xs: seq<T>, key: T -> string): (r: seq<T>)
    ensures |r| == |xs|
  {
    if xs == [] then [] else Insert(xs[|xs| - 1], SortBy(xs[..|xs| - 1], key), key)
  }

  /** A lower bound of `x` and of every key of `s` bounds every key of `Insert(x, s)`. */
  lemma {:induction false} InsertBounded<T>(x: T, s: seq<T>, key: T -> string, b: string)
    requires Le(b, key(x)) && forall i | 0 <= i < |s| :: Le(b, key(s[i]))
    ensures forall j | 0 <= j < |Insert(x, s, key)| :: Le(b, key(Insert(x, s, key)[j]))
    decreases |s|
  {
    if s != [] && Le(key(s[0]), key(x)) {
      InsertBounded(x, s[1..], key, b);
      var r := Insert(x, s, key);
      forall j | 0 <= j < |r|
        ensures Le(b, key(r[j]))
      {
        if j > 0 {
          assert r[j] == Insert(x, s[1..], key)[j - 1];
        }
      }
    }
  }

  lemma {:induction false} InsertSorted<T>(x: T, s: seq<T>, key: T -> string)
    requires Sorted(s, key)
    ensures Sorted(Insert(x, s, key), key)
    decreases |s|
  {
    if s != [] {
      if Le(key(s[0]), key(x)) {
        var rest := Insert(x, s[1..], key);
        InsertSorted(x, s[1..], key);
        InsertBounded(x, s[1..], key, key(s[0]));
        var r := [s[0]] + rest;
        forall i, j | 0 <= i < j < |r|
          ensures Le(key(r[i]), key(r[j]))
        {
          if i > 0 {
            assert r[i] == rest[i - 1] && r[j] == rest[j - 1];
          } else {
            assert r[j] == rest[j - 1];
          }
        }
      } else {
        var r := [x] + s;
        LeTotal(key(s[0]), key(x));
        forall i, j | 0 <= i < j < |r|
          ensures Le(key(r[i]), key(r[j]))
        {
          if i == 0 {
            assert r[j] == s[j - 1];
            if j > 1 {
              LeTransitive(key(x), key(s[0]), key(s[j - 1]));
            }
          } else {
            assert r[i] == s[i - 1] && r[j] == s[j - 1];
          }
        }
      }
    }
  }

  lemma {:induction false} InsertPermutes<T>(x: T, s: seq<T>, key: T -> string)
    ensures multiset(Insert(x, s, key)) == multiset(s) + multiset{x}
    decreases |s|
  {
    if s != [] && Le(key(s[0]), key(x)) {
      InsertPermutes(x, s[1..], key);
      assert s == [s[0]] + s[1..];
    }
  }

  /** The sort is ordered by key and a permutation of its input. */
  lemma {:induction false} SortBySorted<T>(xs: seq<T>, key: T -> string)
    ensures Sorted(SortBy(xs, key), key)
    ensures multiset(SortBy(xs, key)) == multiset(xs)
    decreases |xs|
  {
    if xs != [] {
      var init := xs[..|xs| - 1];
      SortBySorted(init, key);
      InsertSorted(xs[|xs| - 1], SortBy(init, key), key);
      InsertPermutes(xs[|xs| - 1], SortBy(init, key), key);
      assert xs == init + [xs[|xs| - 1]];
    }
  }

  lemma {:induction false} WithKeyAppend<T>(s: seq<T>, t: seq<T>, key: T -> string, k: string)
    ensures WithKey(s + t, key, k) == WithKey(s, key, k) + WithKey(t, key, k)
    decreases |s|
  {
    if s != [] {
      assert (s + t)[1..] == s[1..] + t;
      WithKeyAppend(s[1..], t, key, k);
    } else {
      assert s + t == t;
    }
  }

  /** Inserting `x` into a sorted sequence keeps the order of the elements of each key and puts `x`
      last among its own. */
  lemma {:induction false} InsertStable<T>(x: T, s: seq<T>, key: T -> string, k: string)
    requires Sorted(s, key)
    ensures WithKey(Insert(x, s, key), key, k) == WithKey(s, key, k) + WithKey([x], key, k)
    decreases |s|
  {
    if s == [] {
      WithKeyCons(x, [], key, k);
    } else if Le(key(s[0]), key(x)) {
      SortedTail(s, key);
      InsertStable(x, s[1..], key, k);
      InsertBehindStable(x, s, key, k);
    } else {
      forall i | 0 <= i < |s|
        ensures Le(key(s[0]), key(s[i]))
      {
        if i == 0 {
          LeReflexive(key(s[0]));
        }
      }
      InsertFrontStable(x, s, key, k);
    }
  }

  /** `x` goes behind the first element of `s` when its key is not below that element's. */
  lemma InsertBehindStable<T>(x: T, s: seq<T>, key: T -> string, k: string)
    requires s != [] && Le(key(s[0]), key(x))
    requires WithKey(Insert(x, s[1..], key), key, k) == WithKey(s[1..], key, k) + WithKey([x], key, k)
    ensures WithKey(Insert(x, s, key), key, k) == WithKey(s, key, k) + WithKey([x], key, k)
  {
    var rest := Insert(x, s[1..], key);
    assert Insert(x, s, key) == [s[0]] + rest;
    assert [s[0]] + s[1..] == s;
    WithKeyCons(s[0], rest, key, k);
    WithKeyCons(s[0], s[1..], key, k);
    AppendAssociates(if key(s[0]) == k then [s[0]] else [], WithKey(s[1..], key, k), WithKey([x], key, k));
  }

  lemma AppendAssociates<T>(a: seq<T>, b: seq<T>, c: seq<T>)
    ensures a + (b + c) == (a + b) + c
  {
  }

  /** `x` goes in front of `s` when its key is below the least key of `s`. */
  lemma InsertFrontStable<T>(x: T, s: seq<T>, key: T -> string, k: string)
    requires s != [] && !Le(key(s[0]), key(x))
    requires forall i | 0 <= i < |s| :: Le(key(s[0]), key(s[i]))
    ensures WithKey([x] + s, key, k) == WithKey(s, key, k) + WithKey([x], key, k)
  {
    WithKeyCons(x, s, key, k);
    WithKeyCons(x, [], key, k);
    if key(x) == k {
      // Every key of `s` is at least `key(s[0])`, which exceeds `k`, so none equals `k`.
      NoneWithKey(s, key, k);
    }
  }

  /** The first element's contribution, then the rest's. */
  lemma WithKeyCons<T>(y: T, t: seq<T>, key: T -> string, k: string)
    ensures WithKey([y] + t, key, k) == (if key(y) == k then [y] else []) + WithKey(t, key, k)
  {
    assert ([y] + t)[0] == y && ([y] + t)[1..] == t;
  }

  lemma SortedTail<T>(s: seq<T>, key: T -> string)
    requires s != [] && Sorted(s, key)
    ensures Sorted(s[1..], key)
  {
    forall i, j | 0 <= i < j < |s| - 1
      ensures Le(key(s[1..][i]), key(s[1..][j]))
    {
      assert s[1..][i] == s[i + 1] && s[1..][j] == s[j + 1];
    }
  }

  lemma {:induction false} NoneWithKey<T>(s: seq<T>, key: T -> string, k: string)
    requires forall i | 0 <= i < |s| :: key(s[i]) != k
    ensures WithKey(s, key, k) == []
    decreases |s|
  {
    if s != [] {
      NoneWithKey(s[1..], key, k);
    }
  }

  /** The sort is stable: the elements of each key keep their input order. */
  lemma {:induction false} SortByStable<T>(xs: seq<T>, key: T -> string, k: string)
    ensures WithKey(SortBy(xs, key), key, k) == WithKey(xs, key, k)
    decreases |xs|
  {
    if xs != [] {
      var init := xs[..|xs| - 1];
      SortByStable(init, key, k);
      SortBySorted(init, key);
      InsertStable(xs[|xs| - 1], SortBy(init, key), key, k);
      assert xs == init + [xs[|xs| - 1]];
      WithKeyAppend(init, [xs[|xs| - 1]], key, k);
    }
  }
}
