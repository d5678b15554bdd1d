/** Strings: decimal rendering of integers, `Array.prototype.join`, prefixes and UTF-16 code units. */
module Text {

  function DigitChar(d: nat): (c: char)
    requires d < 10
    ensures '0' <= c <= '9' && c as int - '0' as int == d
  {
    "0123456789"[d]
  }

  predicate AllDigits(s: string) {
    forall i | 0 <= i < |s| :: '0' <= s[i] <= '9'
  }

  /** `n.toString()` for a non-negative integer. */
  function NatToString(n: nat): (s: string)
    ensures |s| >= 1 && AllDigits(s)
    ensures (s[0] == '0') <==> n == 0
  {
    if n < 10 then [DigitChar(n)] else NatToString(n / 10) + [DigitChar(n % 10)]
  }

  /** The value of a string of decimal digits. */
  function DigitsValue(s: string): nat
    requires AllDigits(s)
  {
    if s == [] then 0 else DigitsValue(s[..|s| - 1]) * 10 + (s[|s| - 1] as int - '0' as int)
  }

  /** Reading the decimal rendering back gives the number, so distinct numbers render differently. */
  lemma {:induction false} NatToStringRoundTrip(n: nat)
    ensures DigitsValue(NatToString(n)) == n
  {
    if n >= 10 {
      NatToStringRoundTrip(n / 10);
      var s := NatToString(n);
      assert s[..|s| - 1] == NatToString(n / 10);
    }
  }

  lemma NatToStringInjective(m: nat, n: nat)
    requires NatToString(m) == NatToString(n)
    ensures m == n
  {
    NatToStringRoundTrip(m);
    NatToStringRoundTrip(n);
  }

  /** `n.toString()` for an integer. */
  function IntToString(i: int): string {
    if i < 0 then "-" + NatToString(-i) else NatToString(i)
  }

  /** `parts.join(sep)` */
  function Join(parts: seq<string>, sep: string): string {
    if parts == [] then ""
    else if |parts| == 1 then parts[0]
    else Join(parts[..|parts| - 1], sep) + sep + parts[|parts| - 1]
  }

  /** `parts.join(sep)` read from the front: the first part, the separator, then the rest joined. */
  lemma {:induction false} JoinCons(first: string, rest: seq<string>, sep: string)
    requires rest != []
    ensures Join([first] + rest, sep) == first + sep + Join(rest, sep)
    decreases |rest|
  {
    var all := [first] + rest;
    if |rest| == 1 {
      assert all[..|all| - 1] == [first];
    } else {
      var init := rest[..|rest| - 1];
      var last := rest[|rest| - 1];
      JoinCons(first, init, sep);
      assert all[..|all| - 1] == [first] + init;
      assert Join(all, sep) == Join([first] + init, sep) + sep + last;
      assert Join(rest, sep) == Join(init, sep) + sep + last;
    }
  }

  /** `parts.join(sep)` read from the back. */
  lemma JoinSnoc(init: seq<string>, last: string, sep: string)
    requires init != []
    ensures Join(init + [last], sep) == Join(init, sep) + sep + last
  {
    assert (init + [last])[..|init|] == init;
  }

  /** The pieces with one more character on the last. */
  function Extend(p: seq<string>, c: char): (q: seq<string>)
    requires p != []
    ensures |q| == |p| && q[..|q| - 1] == p[..|p| - 1] && q[|q| - 1] == p[|p| - 1] + [c]
  {
    p[..|p| - 1] + [p[|p| - 1] + [c]]
  }

  lemma ExtendAppend(p: seq<string>, q: seq<string>, c: char)
    requires q != []
    ensures Extend(p + q, c) == p + Extend(q, c)
  {
    assert (p + q)[..|p + q| - 1] == p + q[..|q| - 1];
  }

  /** One more character on the last piece is one more character at the end of the join. */
  lemma JoinExtend(p: seq<string>, c: char, sep: string)
    requires p != []
    ensures Join(Extend(p, c), sep) == Join(p, sep) + [c]
  {
    var q := Extend(p, c);
    if |p| > 1 {
      assert Join(q, sep) == Join(p[..|p| - 1], sep) + sep + (p[|p| - 1] + [c]);
      assert Join(p, sep) == Join(p[..|p| - 1], sep) + sep + p[|p| - 1];
    }
  }

  /** `s.split(sep)` for a one-character separator: the pieces between the separators, left to
      right; the empty string splits into one empty piece. */
  function Split(s: string, sep: char): (parts: seq<string>)
    ensures |parts| >= 1
  {
    if s == [] then [""]
    else
      var p := Split(s[..|s| - 1], sep);
      var c := s[|s| - 1];
      if c == sep then p + [""] else Extend(p, c)
  }

  /** One more character either starts a new piece or lengthens the last. */
  lemma SplitSnoc(s: string, c: char, sep: char)
    ensures Split(s + [c], sep) == if c == sep then Split(s, sep) + [""] else Extend(Split(s, sep), c)
  {
    assert (s + [c])[..|s|] == s;
  }

  /** No piece holds the separator. */
  lemma {:induction false} SplitFree(s: string, sep: char)
    ensures forall k | 0 <= k < |Split(s, sep)| :: sep !in Split(s, sep)[k]
  {
    if s != [] {
      var init := s[..|s| - 1];
      var c := s[|s| - 1];
      assert s == init + [c];
      SplitFree(init, sep);
      SplitSnoc(init, c, sep);
      var p := Split(init, sep);
      if c != sep {
        assert sep !in p[|p| - 1] + [c];
      }
    }
  }

  /** Joining the pieces with the separator gives back the string. */
  lemma {:induction false} SplitJoin(s: string, sep: char)
    ensures Join(Split(s, sep), [sep]) == s
  {
    if s != [] {
      var init := s[..|s| - 1];
      var c := s[|s| - 1];
      assert s == init + [c];
      SplitJoin(init, sep);
      SplitSnoc(init, c, sep);
      var p := Split(init, sep);
      if c == sep {
        JoinSnoc(p, "", [sep]);
        assert Join(p, [sep]) + [sep] + "" == init + [c];
      } else {
        JoinExtend(p, c, [sep]);
      }
    }
  }

  /** A string without the separator is one piece. */
  lemma {:induction false} SplitNone(s: string, sep: char)
    requires sep !in s
    ensures Split(s, sep) == [s]
  {
    if s != [] {
      var init := s[..|s| - 1];
      var c := s[|s| - 1];
      assert s == init + [c];
      SplitNone(init, sep);
      SplitSnoc(init, c, sep);
    }
  }

  /** Splitting at a separator splits the pieces: those before it, then those after it. */
  lemma {:induction false} SplitAppend(a: string, b: string, sep: char)
    ensures Split(a + [sep] + b, sep) == Split(a, sep) + Split(b, sep)
    decreases |b|
  {
    if b == [] {
      assert a + [sep] + b == a + [sep];
      SplitSnoc(a, sep, sep);
    } else {
      var init := b[..|b| - 1];
      var c := b[|b| - 1];
      var front := a + [sep] + init;
      assert a + [sep] + b == front + [c];
      SplitAppend(a, init, sep);
      SplitSnoc(front, c, sep);
      SplitSnoc(init, c, sep);
      var p, q := Split(a, sep), Split(init, sep);
      if c == sep {
        assert p + q + [""] == p + (q + [""]);
      } else {
        ExtendAppend(p, q, c);
      }
    }
  }

  /** The characters `String.prototype.trim` removes: white space and line terminators. */
  predicate IsSpace(c: char) {
    c == '\t' || c == '\n' || c == '\U{B}' || c == '\U{C}' || c == '\r' || c == ' '
    || c == '\U{A0}' || c == '\U{1680}' || '\U{2000}' <= c <= '\U{200A}'
    || c == '\U{2028}' || c == '\U{2029}' || c == '\U{202F}' || c == '\U{205F}'
    || c == '\U{3000}' || c == '\U{FEFF}'
  }

  /** The string with its leading white space removed: a suffix that does not start with white
      space. */
  function TrimStart(s: string): (r: string)
    ensures |r| <= |s| && r == s[|s| - |r|..]
    ensures r != [] ==> !IsSpace(r[0])
  {
    if s != [] && IsSpace(s[0]) then TrimStart(s[1..]) else s
  }

  /** Only white space is cut off at the start. */
  lemma {:induction false} TrimStartSpaces(s: string)
    ensures forall k | 0 <= k < |s| - |TrimStart(s)| :: IsSpace(s[k])
  {
    if s != [] && IsSpace(s[0]) {
      TrimStartSpaces(s[1..]);
      assert forall k | 1 <= k < |s| :: s[1..][k - 1] == s[k];
    }
  }

  /** The string with its trailing white space removed: a prefix that does not end with white
      space. */
  function TrimEnd(s: string): (r: string)
    ensures |r| <= |s| && r == s[..|r|]
    ensures r != [] ==> !IsSpace(r[|r| - 1])
  {
    if s != [] && IsSpace(s[|s| - 1]) then TrimEnd(s[..|s| - 1]) else s
  }

  /** Only white space is cut off at the end. */
  lemma {:induction false} TrimEndSpaces(s: string)
    ensures forall k | |TrimEnd(s)| <= k < |s| :: IsSpace(s[k])
  {
    if s != [] && IsSpace(s[|s| - 1]) {
      TrimEndSpaces(s[..|s| - 1]);
    }
  }

  /** A string with no white space at either end. */
  predicate Trimmed(s: string) {
    s == [] || (!IsSpace(s[0]) && !IsSpace(s[|s| - 1]))
  }

  /** `s.trim()`. */
  function Trim(s: string): (r: string)
    ensures Trimmed(r)
    ensures |r| <= |s|
  {
    TrimEnd(TrimStart(s))
  }

  /** `trim` only removes characters. */
  lemma TrimKeeps(s: string, c: char)
    requires c !in s
    ensures c !in Trim(s)
  {
    var u := TrimStart(s);
    assert c !in u by {
      assert u == s[|s| - |u|..];
    }
    assert Trim(s) == u[..|Trim(s)|];
  }

  lemma TrimTrimmed(s: string)
    requires Trimmed(s)
    ensures Trim(s) == s
  {
    assert TrimStart(s) == s;
  }

  /** Leading white space does not reach past `trim`. */
  lemma TrimSpace(c: char, s: string)
    requires IsSpace(c)
    ensures Trim([c] + s) == Trim(s)
  {
    assert ([c] + s)[1..] == s;
  }

  /** ASCII upper-casing of one character. */
  function UpperChar(c: char): (u: char)
    ensures 'a' <= c <= 'z' ==> u as int == c as int - 32
    ensures !('a' <= c <= 'z') ==> u == c
  {
    if 'a' <= c <= 'z' then (c as int - 32) as char else c
  }

  /** White space is not a letter: upper-casing neither makes nor removes it. */
  lemma UpperSpace(c: char)
    ensures IsSpace(UpperChar(c)) == IsSpace(c)
  {
  }

  /** `s.toUpperCase()` on the ASCII letters. */
  function ToUpper(s: string): (r: string)
    ensures |r| == |s|
    ensures forall k | 0 <= k < |r| :: !('a' <= r[k] <= 'z') && r[k] == UpperChar(s[k])
  {
    seq(|s|, k requires 0 <= k < |s| => UpperChar(s[k]))
  }

  /** Upper-casing neither makes nor removes a comma. */
  lemma UpperComma(s: string)
    requires ',' !in s
    ensures ',' !in ToUpper(s)
  {
    var t := ToUpper(s);
    forall k | 0 <= k < |t|
      ensures t[k] != ','
    {
      assert t[k] == UpperChar(s[k]);
    }
  }

  /** A string without ASCII lower-case letters. */
  predicate NoLower(s: string) {
    forall k | 0 <= k < |s| :: !('a' <= s[k] <= 'z')
  }

  lemma UpperNoLower(s: string)
    requires NoLower(s)
    ensures ToUpper(s) == s
  {
  }

  predicate StartsWith(s: string, prefix: string) {
    |prefix| <= |s| && s[..|prefix|] == prefix
  }

  /** The UTF-16 code units of one character, as `charCodeAt` sees them. */
  function CodeUnits(c: char): (u: seq<bv16>)
    ensures 1 <= |u| <= 2
  {
    var v := c as int;
    if v < 0x1_0000 then [v as bv16]
    else
      var w := v - 0x1_0000;
      [(0xD800 + w / 0x400) as bv16, (0xDC00 + w % 0x400) as bv16]
  }

  /** The UTF-16 code units of a string: what `s.length` counts and `s.charCodeAt(i)` returns. */
  function Utf16(s: string): (u: seq<bv16>)
    ensures |u| >= |s|
  {
    if s == [] then [] else CodeUnits(s[0]) + Utf16(s[1..])
  }
}
