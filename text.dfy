/**
 * String helpers the rebuildbot modules rely on from Python itself:
 * `str()` of an integer, `str.startswith`, the ordering of `str` values,
 * `sorted()` of a list of strings and iteration over the keys of a dict
 * in sorted order.
 */
module Text {
  import opened Wrappers

  // ----- decimal rendering of integers (Python `str(n)` / `'%s' % n`) -----

  predicate IsDigit(c: char) {
    '0' <= c <= '9'
  }

  predicate AllDigits(s: string) {
    forall i :: 0 <= i < |s| ==> IsDigit(s[i])
  }

  function DigitChar(d: nat): (c: char)
    requires d < 10
    ensures IsDigit(c)
  {
    ('0' as int + d) as char
  }

  function DigitValue(c: char): (d: nat)
    requires IsDigit(c)
    ensures d < 10
  {
    c as int - '0' as int
  }

  /** The decimal digits of `n`, most significant first, without leading zeros. */
  function NatToString(n: nat): (s: string)
    ensures |s| > 0 && AllDigits(s)
    ensures |s| > 1 ==> s[0] != '0'
    decreases n
  {
    if n < 10 then [DigitChar(n)] else NatToString(n / 10) + [DigitChar(n % 10)]
  }

  /** The value of a string of decimal digits. */
  function DigitsValue(s: string): nat
    requires AllDigits(s)
    decreases |s|
  {
    if s == [] then 0 else DigitsValue(s[..|s| - 1]) * 10 + DigitValue(s[|s| - 1])
  }

  /** Python's `str(n)` for an `int`: an optional minus sign, then the digits. */
  function IntToString(n: int): string {
    if n < 0 then "-" + NatToString(-n) else NatToString(n)
  }

  /** Reads back an optionally signed decimal integer; `None` for anything else. */
  function ParseInt(s: string): Option<int> {
    if |s| > 1 && s[0] == '-' && AllDigits(s[1..]) then Some(-(DigitsValue(s[1..]) as int))
    else if |s| > 0 && AllDigits(s) then Some(DigitsValue(s))
    else None
  }

  lemma {:induction false} NatToStringValue(n: nat)
    ensures DigitsValue(NatToString(n)) == n
    decreases n
  {
    if n >= 10 {
      var s := NatToString(n);
      assert s[..|s| - 1] == NatToString(n / 10);
      NatToStringValue(n / 10);
    }
  }

  /** `str()` of an integer reads back as the same integer. */
  lemma IntToStringRoundTrip(n: int)
    ensures ParseInt(IntToString(n)) == Some(n)
  {
    if n < 0 {
      var d := NatToString(-n);
      assert IntToString(n) == "-" + d;
      assert ("-" + d)[1..] == d;
      NatToStringValue(-n);
    } else {
      var d := NatToString(n);
      assert IsDigit(d[0]);
      NatToStringValue(n);
    }
  }

  /** Distinct integers render as distinct strings. */
  lemma IntToStringInjective(m: int, n: int)
    requires IntToString(m) == IntToString(n)
    ensures m == n
  {
    IntToStringRoundTrip(m);
    IntToStringRoundTrip(n);
  }

  // ----- prefixes (Python `str.startswith`) -----

  predicate StartsWith(s: string, prefix: string) {
    |prefix| <= |s| && s[..|prefix|] == prefix
  }

  /** Strings that agree around their middles agree in the middle. */
  lemma CancelAround(p: string, a: string, b: string, q: string)
    requires p + a + q == p + b + q
    ensures a == b
  {
    var s, t := p + a + q, p + b + q;
    assert |a| == |b|;
    assert a == s[|p|..|p| + |a|];
    assert b == t[|p|..|p| + |b|];
  }

  predicate EndsWith(s: string, suffix: string) {
    |suffix| <= |s| && s[|s| - |suffix|..] == suffix
  }

  predicate OccursAt(s: string, sub: string, i: int) {
    0 <= i <= |s| - |sub| && s[i..i + |sub|] == sub
  }

  /** `sub in s` for Python strings. */
  predicate Contains(s: string, sub: string) {
    exists i | 0 <= i <= |s| - |sub| :: OccursAt(s, sub, i)
  }

  /** `y` occurs right after `x` in `x + y + z`. */
  lemma OccursAfter(x: string, y: string, z: string)
    ensures OccursAt(x + y + z, y, |x|)
  {
    assert (x + y + z)[|x|..|x| + |y|] == y;
  }

  /** An occurrence survives appending more text. */
  lemma OccursExtended(s: string, sub: string, i: int, t: string)
    requires OccursAt(s, sub, i)
    ensures OccursAt(s + t, sub, i)
  {
    assert (s + t)[i..i + |sub|] == s[i..i + |sub|];
  }

  // ----- fields: the text before the first separator, or after the last one -----

  function FirstField(s: string, sep: char): (w: string)
    ensures sep !in w && StartsWith(s, w)
    decreases |s|
  {
    if s == [] || s[0] == sep then [] else [s[0]] + FirstField(s[1..], sep)
  }

  function LastField(s: string, sep: char): (w: string)
    ensures sep !in w && EndsWith(s, w)
    decreases |s|
  {
    if s == [] || s[|s| - 1] == sep then [] else LastField(s[..|s| - 1], sep) + [s[|s| - 1]]
  }

  lemma {:induction false} FirstFieldOf(w: string, sep: char, rest: string)
    requires sep !in w
    ensures FirstField(w + [sep] + rest, sep) == w
    decreases |w|
  {
    if w != [] {
      assert (w + [sep] + rest)[1..] == w[1..] + [sep] + rest;
      FirstFieldOf(w[1..], sep, rest);
      assert w == [w[0]] + w[1..];
    }
  }

  lemma {:induction false} LastFieldOf(front: string, sep: char, w: string)
    requires sep !in w
    ensures LastField(front + [sep] + w, sep) == w
    decreases |w|
  {
    var s := front + [sep] + w;
    if w != [] {
      var init := w[..|w| - 1];
      assert s[|s| - 1] == w[|w| - 1] != sep;
      assert s[..|s| - 1] == front + [sep] + init;
      LastFieldOf(front, sep, init);
      assert w == init + [w[|w| - 1]];
    } else {
      assert s[|s| - 1] == sep;
    }
  }

  /** The decimal rendering of an integer holds only digits and a leading minus. */
  lemma IntToStringHasNo(n: int, c: char)
    requires c != '-' && !IsDigit(c)
    ensures c !in IntToString(n)
  {
  }

  // ----- the ordering of Python `str` values: lexicographic by code point -----

  /** `a <= b` for Python strings: a proper prefix comes first. */
  predicate LessEq(a: string, b: string)
    decreases |a|
  {
    a == [] || (b != [] && (a[0] < b[0] || (a[0] == b[0] && LessEq(a[1..], b[1..]))))
  }

  lemma {:induction false} LessEqReflexive(a: string)
    ensures LessEq(a, a)
    decreases |a|
  {
    if a != [] { LessEqReflexive(a[1..]); }
  }

  lemma {:induction false} LessEqAntisymmetric(a: string, b: string)
    requires LessEq(a, b) && LessEq(b, a)
    ensures a == b
    decreases |a|
  {
    if a != [] && b != [] {
      LessEqAntisymmetric(a[1..], b[1..]);
      assert a == [a[0]] + a[1..] && b == [b[0]] + b[1..];
    }
  }

  lemma {:induction false} LessEqTransitive(a: string, b: string, c: string)
    requires LessEq(a, b) && LessEq(b, c)
    ensures LessEq(a, c)
    decreases |a|
  {
    if a != [] && b != [] && c != [] && a[0] == b[0] && b[0] == c[0] {
      LessEqTransitive(a[1..], b[1..], c[1..]);
    }
  }

  lemma {:induction false} LessEqTotal(a: string, b: string)
    ensures LessEq(a, b) || LessEq(b, a)
    decreases |a|
  {
    if a != [] && b != [] && a[0] == b[0] { LessEqTotal(a[1..], b[1..]); }
  }

  // ----- Python `sorted()` of a list of strings -----

  predicate Sorted(xs: seq<string>) {
    forall i, j :: 0 <= i < j < |xs| ==> LessEq(xs[i], xs[j])
  }

  function Insert(x: string, s: seq<string>): (r: seq<string>)
    requires Sorted(s)
    ensures Sorted(r) && multiset(r) == multiset(s) + multiset{x}
    decreases |s|
  {
    if s == [] then [x]
    else if LessEq(x, s[0]) then
      InsertFront(x, s);
      [x] + s
    else
      var rest := Insert(x, s[1..]);
      InsertBehind(x, s, rest);
      [s[0]] + rest
  }

  /** A string no greater than the head of a sorted list keeps it sorted in front. */
  lemma InsertFront(x: string, s: seq<string>)
    requires Sorted(s) && s != [] && LessEq(x, s[0])
    ensures Sorted([x] + s)
  {
    forall j | 0 < j < |s| ensures LessEq(x, s[j]) { LessEqTransitive(x, s[0], s[j]); }
    ConsSorted(x, s);
  }

  /** The head of a sorted list stays in front of the rest with a greater string inserted. */
  lemma InsertBehind(x: string, s: seq<string>, rest: seq<string>)
    requires Sorted(s) && s != [] && !LessEq(x, s[0])
    requires Sorted(rest) && multiset(rest) == multiset(s[1..]) + multiset{x}
    ensures Sorted([s[0]] + rest) && multiset([s[0]] + rest) == multiset(s) + multiset{x}
  {
    LessEqTotal(x, s[0]);
    assert s == [s[0]] + s[1..];
    forall j | 0 <= j < |rest| ensures LessEq(s[0], rest[j]) {
      assert rest[j] in multiset(rest);
      assert rest[j] == x || rest[j] in s[1..];
    }
    ConsSorted(s[0], rest);
  }

  lemma ConsSorted(h: string, t: seq<string>)
    requires Sorted(t) && forall j | 0 <= j < |t| :: LessEq(h, t[j])
    ensures Sorted([h] + t)
  {
    var u := [h] + t;
    forall i, j | 0 <= i < j < |u| ensures LessEq(u[i], u[j]) {
      assert u[j] == t[j - 1];
      if i > 0 { assert u[i] == t[i - 1]; }
    }
  }

  /** Python's `sorted()` on a list of strings (insertion sort; the result is unique). */
  function Sort(xs: seq<string>): (r: seq<string>)
    ensures Sorted(r) && multiset(r) == multiset(xs)
    decreases |xs|
  {
    if xs == [] then []
    else
      assert xs == [xs[0]] + xs[1..];
      Insert(xs[0], Sort(xs[1..]))
  }

  lemma HeadIsLeast(a: seq<string>, x: string)
    requires Sorted(a) && x in a
    ensures LessEq(a[0], x)
  {
    var i :| 0 <= i < |a| && a[i] == x;
    if i == 0 { LessEqReflexive(x); }
  }

  lemma TailMultiset(a: seq<string>)
    requires a != []
    ensures multiset(a[1..]) == multiset(a) - multiset{a[0]}
  {
    assert a == [a[0]] + a[1..];
  }

  /** Any two sorted orderings of the same strings are equal, so `Sort` is Python's `sorted`. */
  lemma {:induction false} SortedUnique(a: seq<string>, b: seq<string>)
    requires Sorted(a) && Sorted(b) && multiset(a) == multiset(b)
    ensures a == b
    decreases |a|
  {
    assert |a| == |b| by { assert |multiset(a)| == |multiset(b)|; }
    if a != [] {
      var a0, b0 := a[0], b[0];
      assert a0 in b by { assert a0 in multiset(a); }
      assert b0 in a by { assert b0 in multiset(b); }
      HeadIsLeast(b, a0);
      HeadIsLeast(a, b0);
      LessEqAntisymmetric(a0, b0);
      TailMultiset(a);
      TailMultiset(b);
      SortedUnique(a[1..], b[1..]);
    }
  }

  // ----- iteration over the keys of a dict in sorted order -----

  predicate IsLeast(m: string, s: set<string>) {
    m in s && forall x :: x in s ==> LessEq(m, x)
  }

  lemma {:induction false} LeastExists(s: set<string>)
    requires s != {}
    ensures exists m :: IsLeast(m, s)
    decreases |s|
  {
    var x :| x in s;
    if s == {x} {
      LessEqReflexive(x);
      assert IsLeast(x, s);
    } else {
      LeastExists(s - {x});
      var m :| IsLeast(m, s - {x});
      LessEqTotal(m, x);
      if LessEq(m, x) {
        assert IsLeast(m, s);
      } else {
        forall y | y in s ensures LessEq(x, y) {
          if y == x { LessEqReflexive(x); } else { LessEqTransitive(x, m, y); }
        }
        assert IsLeast(x, s);
      }
    }
  }

  lemma LeastUnique(s: set<string>)
    ensures forall a, b :: IsLeast(a, s) && IsLeast(b, s) ==> a == b
  {
    forall a, b | IsLeast(a, s) && IsLeast(b, s) ensures a == b {
      LessEqAntisymmetric(a, b);
    }
  }

  /** Strictly increasing: sorted and without repeats. */
  predicate Increasing(xs: seq<string>) {
    forall i, j :: 0 <= i < j < |xs| ==> LessEq(xs[i], xs[j]) && xs[i] != xs[j]
  }

  /** The keys of a dict in the order `sorted(d.keys())` visits them. */
  function SlugOrder(keys: set<string>): (r: seq<string>)
    ensures |r| == |keys|
    ensures forall i | 0 <= i < |r| :: r[i] in keys
    decreases keys
  {
    if keys == {} then []
    else
      LeastExists(keys);
      LeastUnique(keys);
      var m :| IsLeast(m, keys);
      [m] + SlugOrder(keys - {m})
  }

  /** `sorted` gives each key once, in increasing order. */
  lemma {:induction false} SlugOrderIncreasing(keys: set<string>)
    ensures Increasing(SlugOrder(keys))
    decreases keys
  {
    if keys != {} {
      LeastExists(keys);
      LeastUnique(keys);
      var m :| IsLeast(m, keys);
      var rest := SlugOrder(keys - {m});
      assert SlugOrder(keys) == [m] + rest;
      SlugOrderIncreasing(keys - {m});
      var xs := [m] + rest;
      forall i, j | 0 <= i < j < |xs| ensures LessEq(xs[i], xs[j]) && xs[i] != xs[j] {
        assert xs[j] == rest[j - 1];
        if i > 0 {
          assert xs[i] == rest[i - 1];
        }
      }
    }
  }

  /** `sorted` leaves no key out. */
  lemma {:induction false} SlugOrderCovers(keys: set<string>)
    ensures forall x | x in keys :: x in SlugOrder(keys)
    decreases keys
  {
    if keys != {} {
      LeastExists(keys);
      LeastUnique(keys);
      var m :| IsLeast(m, keys);
      var rest := SlugOrder(keys - {m});
      assert SlugOrder(keys) == [m] + rest;
      SlugOrderCovers(keys - {m});
    }
  }

  /** Where a key sits in `sorted(keys)`. */
  lemma SlugOrderIndex(keys: set<string>, x: string) returns (o: nat)
    requires x in keys
    ensures o < |SlugOrder(keys)| && SlugOrder(keys)[o] == x
  {
    SlugOrderCovers(keys);
    o :| 0 <= o < |SlugOrder(keys)| && SlugOrder(keys)[o] == x;
  }

  /** A key visited earlier is the smaller one. */
  lemma SlugOrderLess(keys: set<string>, i: nat, j: nat)
    requires i < j < |SlugOrder(keys)|
    ensures LessEq(SlugOrder(keys)[i], SlugOrder(keys)[j])
  {
    SlugOrderIncreasing(keys);
  }

  /** No key comes up twice: the one visited at `i` was not visited before. */
  lemma SlugOrderNoRepeat(keys: set<string>, i: nat)
    requires i < |SlugOrder(keys)|
    ensures SlugOrder(keys)[i] !in SlugOrder(keys)[..i]
  {
    var xs := SlugOrder(keys);
    SlugOrderIncreasing(keys);
    forall j | 0 <= j < i ensures xs[..i][j] != xs[i] {
      assert xs[..i][j] == xs[j];
    }
  }
}
