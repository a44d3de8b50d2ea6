/** Option and Result, used wherever the services return None or raise. */
module Common {
  datatype Option<+T> = None | Some(value: T)

  datatype Result<+T, +E> = Ok(value: T) | Err(error: E)

  function Max(x: int, y: int): int {
    if x < y then y else x
  }
}

/** Decimal rendering of integers, as the services' f-strings and str() produce it. */
module DecimalText {
  function Digit(d: nat): (c: char)
    requires d < 10
  {
    ['0', '1', '2', '3', '4', '5', '6', '7', '8', '9'][d]
  }

  function DigitValue(c: char): nat {
    if '0' <= c <= '9' then c as int - '0' as int else 0
  }

  predicate IsDigit(c: char) {
    '0' <= c <= '9'
  }

  function NatText(n: nat): string {
    if n < 10 then [Digit(n)] else NatText(n / 10) + [Digit(n % 10)]
  }

  /** str(n) for an int */
  function IntText(n: int): string {
    if n < 0 then ['-'] + NatText(-n) else NatText(n)
  }

  lemma {:induction false} NatTextDigits(n: nat)
    ensures NatText(n) != [] && forall i :: 0 <= i < |NatText(n)| ==> IsDigit(NatText(n)[i])
  {
    if n >= 10 {
      NatTextDigits(n / 10);
    }
  }

  lemma IntTextNoColon(n: int)
    ensures ':' !in IntText(n)
  {
    NatTextDigits(if n < 0 then -n else n);
    var t := NatText(if n < 0 then -n else n);
    assert forall c :: c in t ==> IsDigit(c);
  }

  function NatOf(s: string): nat {
    if s == [] then 0 else 10 * NatOf(s[..|s| - 1]) + DigitValue(s[|s| - 1])
  }

  function IntOf(s: string): int {
    if s != [] && s[0] == '-' then 0 - NatOf(s[1..]) else NatOf(s)
  }

  lemma {:induction false} NatTextRoundTrip(n: nat)
    ensures NatOf(NatText(n)) == n
  {
    var s := NatText(n);
    if n < 10 {
      assert s[..|s| - 1] == [];
    } else {
      assert s[..|s| - 1] == NatText(n / 10);
      NatTextRoundTrip(n / 10);
    }
  }

  lemma SignedText(t: string)
    requires t != [] && t[0] != '-'
    ensures IntOf(t) == NatOf(t) && IntOf(['-'] + t) == 0 - NatOf(t)
  {
    assert (['-'] + t)[1..] == t;
  }

  lemma IntTextRoundTrip(n: int)
    ensures IntOf(IntText(n)) == n
  {
    var k: nat := if n < 0 then -n else n;
    NatTextDigits(k);
    NatTextRoundTrip(k);
    SignedText(NatText(k));
  }

  lemma IntTextInjective(m: int, n: int)
    requires IntText(m) == IntText(n)
    ensures m == n
  {
    IntTextRoundTrip(m);
    IntTextRoundTrip(n);
  }
}

/** Python's int() on ASCII text: surrounding white space, a sign, and digits with single underscores between them. */
module PythonInt {
  import opened Common
  import opened DecimalText

  predicate IsSpace(c: char) {
    c == ' ' || 9 <= c as int <= 13
  }

  function StripLeft(s: string): string {
    if s != [] && IsSpace(s[0]) then StripLeft(s[1..]) else s
  }

  function StripRight(s: string): string {
    if s != [] && IsSpace(s[|s| - 1]) then StripRight(s[..|s| - 1]) else s
  }

  predicate DigitAt(s: string, i: int) {
    0 <= i < |s| && IsDigit(s[i])
  }

  predicate NumeralAt(s: string, i: int) {
    DigitAt(s, i) || (0 <= i < |s| && s[i] == '_' && DigitAt(s, i - 1) && DigitAt(s, i + 1))
  }

  predicate Numeral(s: string) {
    s != [] && forall i :: 0 <= i < |s| ==> NumeralAt(s, i)
  }

  function ValueOf(s: string): nat {
    if s == [] then 0
    else if s[|s| - 1] == '_' then ValueOf(s[..|s| - 1])
    else 10 * ValueOf(s[..|s| - 1]) + DigitValue(s[|s| - 1])
  }

  function Unsigned(s: string): string {
    if s != [] && (s[0] == '-' || s[0] == '+') then s[1..] else s
  }

  function ParseInt(text: string): Option<int> {
    var s := StripRight(StripLeft(text));
    if !Numeral(Unsigned(s)) then None
    else if s[0] == '-' then Some(0 - ValueOf(Unsigned(s)))
    else Some(ValueOf(Unsigned(s)))
  }

  predicate Blank(s: string) {
    forall i :: 0 <= i < |s| ==> IsSpace(s[i])
  }

  lemma {:induction false} StripsLeft(a: string, t: string)
    requires Blank(a) && (t != [] ==> !IsSpace(t[0]))
    ensures StripLeft(a + t) == t
    decreases |a|
  {
    if a == [] {
      assert a + t == t;
    } else {
      assert (a + t)[1..] == a[1..] + t;
      StripsLeft(a[1..], t);
    }
  }

  lemma {:induction false} StripsRight(t: string, b: string)
    requires Blank(b) && (t != [] ==> !IsSpace(t[|t| - 1]))
    ensures StripRight(t + b) == t
    decreases |b|
  {
    if b == [] {
      assert t + b == t;
    } else {
      assert (t + b)[..|t + b| - 1] == t + b[..|b| - 1];
      StripsRight(t, b[..|b| - 1]);
    }
  }

  lemma {:induction false} ValueOfDigits(s: string)
    requires forall i :: 0 <= i < |s| ==> IsDigit(s[i])
    ensures ValueOf(s) == NatOf(s)
  {
    if s != [] {
      ValueOfDigits(s[..|s| - 1]);
    }
  }

  lemma PlainNumeral(k: nat)
    ensures Numeral(NatText(k)) && ValueOf(NatText(k)) == k && IsDigit(NatText(k)[0])
    ensures IsDigit(NatText(k)[|NatText(k)| - 1])
  {
    NatTextDigits(k);
    NatTextRoundTrip(k);
    ValueOfDigits(NatText(k));
  }

  /** A number's own text, however padded, is read as that number. */
  lemma PaddedRoundTrip(a: string, n: int, b: string)
    requires Blank(a) && Blank(b)
    ensures ParseInt(a + IntText(n) + b) == Some(n)
  {
    var t, digits := IntText(n), NatText(if n < 0 then -n else n);
    PlainNumeral(if n < 0 then -n else n);
    assert t != [] && !IsSpace(t[0]) && !IsSpace(t[|t| - 1]);
    assert a + t + b == a + (t + b);
    StripsLeft(a, t + b);
    StripsRight(t, b);
    assert Unsigned(t) == digits;
  }
}

/** Texts joined by colons fall apart in one way only, if the part before the colon has none. */
module ColonText {
  predicate NoColon(s: string) {
    ':' !in s
  }

  lemma ColonSplit(a: string, x: string, b: string, y: string)
    requires NoColon(a) && NoColon(b) && a + ":" + x == b + ":" + y
    ensures a == b && x == y
  {
    var s := a + ":" + x;
    assert s[|a|] == ':' && s[|b|] == ':';
    assert a == s[..|a|] && b == s[..|b|];
    assert x == s[|a| + 1..] && y == s[|b| + 1..];
  }

  lemma ColonPrefix(a: string, b: string, y: string)
    requires NoColon(a) && NoColon(b) && a + ":" <= b + ":" + y
    ensures a == b
  {
    var s := b + ":" + y;
    var x := s[|a| + 1..];
    assert a + ":" + x == s;
    ColonSplit(a, x, b, y);
  }
}

/** Sums, filters and maps over sequences, with the rearrangement laws the cost proofs need. */
module Sums {
  function SumBy<T>(f: T -> real, s: seq<T>): real {
    if s == [] then 0.0 else SumBy(f, s[..|s| - 1]) + f(s[|s| - 1])
  }

  function CountBy<T>(f: T -> int, s: seq<T>): int {
    if s == [] then 0 else CountBy(f, s[..|s| - 1]) + f(s[|s| - 1])
  }

  function Filter<T>(p: T -> bool, s: seq<T>): (r: seq<T>) {
    if s == [] then []
    else
      var r := Filter(p, s[..|s| - 1]);
      if p(s[|s| - 1]) then r + [s[|s| - 1]] else r
  }

  lemma {:induction false} FilterMembers<T(!new)>(p: T -> bool, s: seq<T>)
    ensures |Filter(p, s)| <= |s|
    ensures forall x :: x in Filter(p, s) <==> x in s && p(x)
  {
    if s != [] {
      assert s == s[..|s| - 1] + [s[|s| - 1]];
      FilterMembers(p, s[..|s| - 1]);
    }
  }

  lemma {:induction false} FilterCongruence<T>(p: T -> bool, q: T -> bool, s: seq<T>)
    requires forall x <- s :: p(x) == q(x)
    ensures Filter(p, s) == Filter(q, s)
  {
    if s != [] {
      FilterCongruence(p, q, s[..|s| - 1]);
    }
  }

  lemma FilterOfOne<T>(p: T -> bool, x: T)
    ensures Filter(p, [x]) == if p(x) then [x] else []
  {
    assert [x][..0] == [];
  }

  function MapSeq<T, U>(f: T -> U, s: seq<T>): (r: seq<U>)
    ensures |r| == |s| && forall i :: 0 <= i < |s| ==> r[i] == f(s[i])
  {
    seq(|s|, i requires 0 <= i < |s| => f(s[i]))
  }

  function FlatMap<T, U>(f: T -> seq<U>, s: seq<T>): seq<U> {
    if s == [] then [] else FlatMap(f, s[..|s| - 1]) + f(s[|s| - 1])
  }

  lemma {:induction false} FlatMapCongruence<T, U>(f: T -> seq<U>, g: T -> seq<U>, s: seq<T>)
    requires forall x <- s :: f(x) == g(x)
    ensures FlatMap(f, s) == FlatMap(g, s)
  {
    if s != [] {
      FlatMapCongruence(f, g, s[..|s| - 1]);
    }
  }

  lemma {:induction false} FlatMapMembers<T, U>(f: T -> seq<U>, s: seq<T>, y: U)
    ensures y in FlatMap(f, s) <==> exists x <- s :: y in f(x)
  {
    if s != [] {
      FlatMapMembers(f, s[..|s| - 1], y);
      assert s == s[..|s| - 1] + [s[|s| - 1]];
    }
  }

  /** A loop that appends what f reports for each element. */
  method Collect<T, U>(f: T -> seq<U>, s: seq<T>) returns (r: seq<U>)
    ensures r == FlatMap(f, s)
  {
    r := [];
    for i := 0 to |s|
      invariant r == FlatMap(f, s[..i])
    {
      r := r + f(s[i]);
      assert s[..i + 1][..i] == s[..i];
    }
    assert s[..|s|] == s;
  }

  lemma {:induction false} FilterConcat<T>(p: T -> bool, s: seq<T>, t: seq<T>)
    ensures Filter(p, s + t) == Filter(p, s) + Filter(p, t)
  {
    if t == [] {
      assert s + t == s;
    } else {
      var t' := t[..|t| - 1];
      assert (s + t)[..|s + t| - 1] == s + t';
      FilterConcat(p, s, t');
    }
  }

  predicate Distinct<T(==)>(s: seq<T>) {
    forall i, j :: 0 <= i < j < |s| ==> s[i] != s[j]
  }

  lemma SumSnoc<T>(f: T -> real, s: seq<T>, x: T)
    ensures SumBy(f, s + [x]) == SumBy(f, s) + f(x)
  {
    assert (s + [x])[..|s|] == s;
  }

  lemma CountSnoc<T>(f: T -> int, s: seq<T>, x: T)
    ensures CountBy(f, s + [x]) == CountBy(f, s) + f(x)
  {
    assert (s + [x])[..|s|] == s;
  }

  lemma {:induction false} SumConcat<T>(f: T -> real, s: seq<T>, t: seq<T>)
    ensures SumBy(f, s + t) == SumBy(f, s) + SumBy(f, t)
  {
    if t == [] {
      assert s + t == s;
    } else {
      var t' := t[..|t| - 1];
      assert s + t == (s + t') + [t[|t| - 1]];
      SumSnoc(f, s + t', t[|t| - 1]);
      SumConcat(f, s, t');
    }
  }

  lemma SplitAt<T>(s: seq<T>, i: nat)
    requires i < |s|
    ensures s == s[..i] + [s[i]] + s[i + 1..]
  {
  }

  lemma SumMiddle<T>(f: T -> real, before: seq<T>, x: T, after: seq<T>)
    ensures SumBy(f, before + [x] + after) == SumBy(f, before + after) + f(x)
  {
    SumConcat(f, before + [x], after);
    SumSnoc(f, before, x);
    SumConcat(f, before, after);
  }

  /** Taking one element out of the middle. */
  lemma SumWithout<T>(f: T -> real, s: seq<T>, i: nat)
    requires i < |s|
    ensures SumBy(f, s) == SumBy(f, s[..i] + s[i + 1..]) + f(s[i])
  {
    var before, x, after := s[..i], s[i], s[i + 1..];
    SplitAt(s, i);
    SumMiddle(f, before, x, after);
  }

  lemma {:induction false} SumCongruence<T>(f: T -> real, g: T -> real, s: seq<T>)
    requires forall x <- s :: f(x) == g(x)
    ensures SumBy(f, s) == SumBy(g, s)
  {
    if s != [] {
      SumCongruence(f, g, s[..|s| - 1]);
    }
  }

  lemma {:induction false} CountCongruence<T>(f: T -> int, g: T -> int, s: seq<T>)
    requires forall x <- s :: f(x) == g(x)
    ensures CountBy(f, s) == CountBy(g, s)
  {
    if s != [] {
      CountCongruence(f, g, s[..|s| - 1]);
    }
  }

  lemma {:induction false} SumNonNegative<T>(f: T -> real, s: seq<T>)
    requires forall x <- s :: f(x) >= 0.0
    ensures SumBy(f, s) >= 0.0
  {
    if s != [] {
      SumNonNegative(f, s[..|s| - 1]);
    }
  }

  /** An integer sum is the real sum of the same terms. */
  lemma {:induction false} CountAsSum<T>(f: T -> int, g: T -> real, s: seq<T>)
    requires forall x <- s :: g(x) == f(x) as real
    ensures CountBy(f, s) as real == SumBy(g, s)
  {
    if s != [] {
      CountAsSum(f, g, s[..|s| - 1]);
    }
  }

  lemma MultisetWithout<T>(s: seq<T>, i: nat)
    requires i < |s|
    ensures multiset(s) == multiset(s[..i] + s[i + 1..]) + multiset{s[i]}
  {
    assert s == s[..i] + ([s[i]] + s[i + 1..]);
  }

  /** The general rearrangement law: s is contained in t, every element of s weighs no more under f
      than under g, and what t has on top of s weighs at least nothing. */
  lemma {:induction false} SumContained<T>(f: T -> real, g: T -> real, s: seq<T>, t: seq<T>)
    requires multiset(s) <= multiset(t)
    requires forall x <- s :: f(x) <= g(x)
    requires forall x :: x in multiset(t) - multiset(s) ==> g(x) >= 0.0
    ensures SumBy(f, s) <= SumBy(g, t)
  {
    if s == [] {
      assert multiset(t) - multiset(s) == multiset(t);
      forall x | x in t ensures g(x) >= 0.0 {
        assert x in multiset(t);
      }
      SumNonNegative(g, t);
    } else {
      var last := s[|s| - 1];
      var s' := s[..|s| - 1];
      assert s == s' + [last];
      assert last in multiset(s);
      assert last in t;
      var i :| 0 <= i < |t| && t[i] == last;
      var t' := t[..i] + t[i + 1..];
      MultisetWithout(t, i);
      assert multiset(s) == multiset(s') + multiset{last};
      assert multiset(t') - multiset(s') == multiset(t) - multiset(s);
      SumContained(f, g, s', t');
      SumWithout(g, t, i);
    }
  }

  lemma SumPermutation<T>(f: T -> real, s: seq<T>, t: seq<T>)
    requires multiset(s) == multiset(t)
    ensures SumBy(f, s) == SumBy(f, t)
  {
    SumContained(f, f, s, t);
    SumContained(f, f, t, s);
  }

  lemma DistinctContained<T>(s: seq<T>, t: seq<T>)
    requires Distinct(s) && forall x <- s :: x in t
    ensures multiset(s) <= multiset(t)
  {
    DistinctOnce(s);
    forall x ensures multiset(s)[x] <= multiset(t)[x] {
      if multiset(s)[x] > 0 {
        assert x in t;
      }
    }
  }

  lemma {:induction false} DistinctOnce<T>(s: seq<T>)
    requires Distinct(s)
    ensures forall x :: multiset(s)[x] <= 1
  {
    if s != [] {
      var s' := s[..|s| - 1];
      var last := s[|s| - 1];
      DistinctOnce(s');
      assert s == s' + [last];
      assert last !in s';
    }
  }

  lemma {:induction false} OnceMeansApart<T>(s: seq<T>, i: nat, j: nat)
    requires i < j < |s| && forall x :: multiset(s)[x] <= 1
    ensures s[i] != s[j]
  {
    assert s == s[..j] + [s[j]] + s[j + 1..];
    assert s[i] in s[..j];
    assert s[i] in multiset(s[..j]);
    assert multiset(s) == multiset(s[..j]) + multiset{s[j]} + multiset(s[j + 1..]);
    assert multiset(s)[s[j]] <= 1;
  }

  lemma {:induction false} SumOfMapped<T, U>(f: U -> real, g: T -> U, h: T -> real, s: seq<T>)
    requires forall x <- s :: h(x) == f(g(x))
    ensures SumBy(f, MapSeq(g, s)) == SumBy(h, s)
  {
    if s != [] {
      var s' := s[..|s| - 1];
      assert MapSeq(g, s)[..|s| - 1] == MapSeq(g, s');
      SumOfMapped(f, g, h, s');
    }
  }

  lemma {:induction false} SumOfFiltered<T>(f: T -> real, p: T -> bool, h: T -> real, s: seq<T>)
    requires forall x <- s :: h(x) == if p(x) then f(x) else 0.0
    ensures SumBy(f, Filter(p, s)) == SumBy(h, s)
  {
    if s != [] {
      var s' := s[..|s| - 1];
      SumOfFiltered(f, p, h, s');
      if p(s[|s| - 1]) {
        SumSnoc(f, Filter(p, s'), s[|s| - 1]);
      }
    }
  }
}

/** Stable sorting by descending weight, as sorted(..., key=weight, reverse=True) gives it. */
module Sorting {
  import opened Sums

  predicate Descending<T>(weight: T -> real, s: seq<T>) {
    forall i, j :: 0 <= i < j < |s| ==> weight(s[i]) >= weight(s[j])
  }

  function Insert<T>(weight: T -> real, s: seq<T>, x: T): seq<T> {
    if s == [] || weight(s[|s| - 1]) >= weight(x) then s + [x]
    else Insert(weight, s[..|s| - 1], x) + [s[|s| - 1]]
  }

  function SortDescending<T>(weight: T -> real, s: seq<T>): seq<T> {
    if s == [] then [] else Insert(weight, SortDescending(weight, s[..|s| - 1]), s[|s| - 1])
  }

  lemma {:induction false} InsertPermutes<T>(weight: T -> real, s: seq<T>, x: T)
    ensures multiset(Insert(weight, s, x)) == multiset(s) + multiset{x}
  {
    if s != [] && weight(s[|s| - 1]) < weight(x) {
      assert s == s[..|s| - 1] + [s[|s| - 1]];
      InsertPermutes(weight, s[..|s| - 1], x);
    }
  }

  lemma {:induction false} InsertOrders<T>(weight: T -> real, s: seq<T>, x: T)
    requires Descending(weight, s)
    ensures Descending(weight, Insert(weight, s, x))
  {
    if s != [] && weight(s[|s| - 1]) < weight(x) {
      var s', last := s[..|s| - 1], s[|s| - 1];
      InsertOrders(weight, s', x);
      InsertPermutes(weight, s', x);
      var r := Insert(weight, s', x);
      forall i | 0 <= i < |r| ensures weight(r[i]) >= weight(last) {
        assert r[i] in multiset(r);
        assert r[i] in s' || r[i] == x;
      }
    }
  }

  /** Sorting rearranges, and orders by weight. */
  lemma {:induction false} SortLaws<T>(weight: T -> real, s: seq<T>)
    ensures multiset(SortDescending(weight, s)) == multiset(s)
    ensures Descending(weight, SortDescending(weight, s))
    ensures |SortDescending(weight, s)| == |s|
    ensures forall x <- SortDescending(weight, s) :: x in s
  {
    if s != [] {
      assert s == s[..|s| - 1] + [s[|s| - 1]];
      SortLaws(weight, s[..|s| - 1]);
      InsertPermutes(weight, SortDescending(weight, s[..|s| - 1]), s[|s| - 1]);
      InsertOrders(weight, SortDescending(weight, s[..|s| - 1]), s[|s| - 1]);
    }
    var r := SortDescending(weight, s);
    assert |multiset(r)| == |multiset(s)|;
    forall x | x in r ensures x in s {
      assert x in multiset(r);
    }
  }

  function SameWeight<T>(weight: T -> real, w: real): T -> bool {
    x => weight(x) == w
  }

  lemma {:induction false} InsertStable<T>(weight: T -> real, s: seq<T>, x: T, w: real)
    ensures Filter(SameWeight(weight, w), Insert(weight, s, x)) == Filter(SameWeight(weight, w), s + [x])
  {
    var p := SameWeight(weight, w);
    assert (s + [x])[..|s|] == s;
    if s != [] && weight(s[|s| - 1]) < weight(x) {
      var s', last := s[..|s| - 1], s[|s| - 1];
      InsertStable(weight, s', x, w);
      var r := Insert(weight, s', x);
      assert (r + [last])[..|r|] == r && (s' + [x])[..|s'|] == s';
    }
  }

  /** Entries of equal weight keep their order. */
  lemma {:induction false} SortStable<T>(weight: T -> real, s: seq<T>, w: real)
    ensures Filter(SameWeight(weight, w), SortDescending(weight, s)) == Filter(SameWeight(weight, w), s)
  {
    if s != [] {
      var s', last := s[..|s| - 1], s[|s| - 1];
      var r := SortDescending(weight, s');
      SortStable(weight, s', w);
      InsertStable(weight, r, last, w);
      assert (r + [last])[..|r|] == r;
    }
  }
}

/** Grouping a list by a key, in first-occurrence order of the keys, as a Python dict of lists does. */
module Partition {
  import opened Sums

  function Keys<T, K(==)>(key: T -> K, s: seq<T>): seq<K> {
    if s == [] then []
    else
      var ks := Keys(key, s[..|s| - 1]);
      if key(s[|s| - 1]) in ks then ks else ks + [key(s[|s| - 1])]
  }

  function Group<T, K(==)>(key: T -> K, s: seq<T>, k: K): seq<T> {
    Filter(x => key(x) == k, s)
  }

  lemma {:induction false} KeysMembers<T(!new), K(!new)>(key: T -> K, s: seq<T>)
    ensures Distinct(Keys(key, s))
    ensures forall k :: k in Keys(key, s) <==> exists x <- s :: key(x) == k
  {
    if s != [] {
      assert s == s[..|s| - 1] + [s[|s| - 1]];
      KeysMembers(key, s[..|s| - 1]);
    }
  }

  lemma GroupMembers<T(!new), K>(key: T -> K, s: seq<T>, k: K)
    ensures forall x :: x in Group(key, s, k) <==> x in s && key(x) == k
  {
    FilterMembers(x => key(x) == k, s);
  }

  /** The sum of f over the group of a key. */
  function GroupSum<T, K(==)>(key: T -> K, f: T -> real, s: seq<T>): K -> real {
    k => SumBy(f, Group(key, s, k))
  }

  function GroupCount<T, K(==)>(key: T -> K, f: T -> int, s: seq<T>): K -> int {
    k => CountBy(f, Group(key, s, k))
  }

  lemma GroupSnoc<T, K>(key: T -> K, s: seq<T>, x: T, k: K)
    ensures Group(key, s + [x], k) == if key(x) == k then Group(key, s, k) + [x] else Group(key, s, k)
  {
    assert (s + [x])[..|s|] == s;
  }

  lemma {:induction false} GroupIs<T, K>(key: T -> K, s: seq<T>, k: K, q: T -> bool)
    requires forall x <- s :: q(x) <==> key(x) == k
    ensures Group(key, s, k) == Filter(q, s)
  {
    if s != [] {
      var init, x := s[..|s| - 1], s[|s| - 1];
      assert s == init + [x];
      GroupSnoc(key, init, x, k);
      GroupIs(key, init, k, q);
    }
  }

  lemma KeysSnoc<T, K>(key: T -> K, s: seq<T>, x: T)
    ensures Keys(key, s + [x]) == if key(x) in Keys(key, s) then Keys(key, s) else Keys(key, s) + [key(x)]
  {
    assert (s + [x])[..|s|] == s;
  }

  lemma {:induction false} GroupAbsent<T, K>(key: T -> K, s: seq<T>, k: K)
    requires k !in Keys(key, s)
    ensures Group(key, s, k) == []
  {
    if s != [] {
      var init, x := s[..|s| - 1], s[|s| - 1];
      assert s == init + [x];
      KeysSnoc(key, init, x);
      GroupSnoc(key, init, x, k);
      GroupAbsent(key, init, k);
    }
  }

  /** One turn of a grouping loop: the row joins its own group and no other. */
  lemma GroupLoopStep<T, K(!new)>(key: T -> K, s: seq<T>, i: nat)
    requires i < |s|
    ensures Keys(key, s[..i + 1])
         == if key(s[i]) in Keys(key, s[..i]) then Keys(key, s[..i]) else Keys(key, s[..i]) + [key(s[i])]
    ensures key(s[i]) !in Keys(key, s[..i]) ==> Group(key, s[..i], key(s[i])) == []
    ensures Group(key, s[..i + 1], key(s[i])) == Group(key, s[..i], key(s[i])) + [s[i]]
    ensures forall k :: k != key(s[i]) ==> Group(key, s[..i + 1], k) == Group(key, s[..i], k)
  {
    assert s[..i + 1] == s[..i] + [s[i]];
    KeysSnoc(key, s[..i], s[i]);
    GroupSnoc(key, s[..i], s[i], key(s[i]));
    if key(s[i]) !in Keys(key, s[..i]) {
      GroupAbsent(key, s[..i], key(s[i]));
    }
    forall k | k != key(s[i]) ensures Group(key, s[..i + 1], k) == Group(key, s[..i], k) {
      GroupSnoc(key, s[..i], s[i], k);
    }
  }

  /** What the two dicts hold for a key: its group, and the caption that the last row of the group decides. */
  ghost predicate TalliedKey<T, K, L>(key: T -> K, caption: T -> L, t: seq<T>,
                                      grouped: map<K, seq<T>>, captions: map<K, L>, k: K) {
    if k in Keys(key, t) then
      && k in grouped && k in captions && Group(key, t, k) != []
      && grouped[k] == Group(key, t, k) && captions[k] == caption(Group(key, t, k)[|Group(key, t, k)| - 1])
    else k !in grouped
  }

  ghost predicate Tallied<T, K(!new), L>(key: T -> K, caption: T -> L, t: seq<T>,
                                         grouped: map<K, seq<T>>, captions: map<K, L>) {
    forall k :: TalliedKey(key, caption, t, grouped, captions, k)
  }

  lemma TallyStep<T, K, L>(key: T -> K, caption: T -> L, t: seq<T>, x: T,
                           grouped: map<K, seq<T>>, captions: map<K, L>, k: K)
    requires TalliedKey(key, caption, t, grouped, captions, k) && TalliedKey(key, caption, t, grouped, captions, key(x))
    ensures var list := (if key(x) in grouped then grouped[key(x)] else []) + [x];
      TalliedKey(key, caption, t + [x], grouped[key(x) := list], captions[key(x) := caption(x)], k)
  {
    KeysSnoc(key, t, x);
    GroupSnoc(key, t, x, k);
    if key(x) !in Keys(key, t) {
      GroupAbsent(key, t, key(x));
    }
  }

  /** The grouping loop over two insertion-ordered dicts. */
  method GroupLoop<T, K(==,!new), L>(key: T -> K, caption: T -> L, s: seq<T>)
    returns (order: seq<K>, grouped: map<K, seq<T>>, captions: map<K, L>)
    ensures order == Keys(key, s) && Tallied(key, caption, s, grouped, captions)
  {
    order, grouped, captions := [], map[], map[];
    for i := 0 to |s|
      invariant order == Keys(key, s[..i]) && Tallied(key, caption, s[..i], grouped, captions)
    {
      var k := key(s[i]);
      var list := (if k in grouped then grouped[k] else []) + [s[i]];
      var newGrouped, newCaptions := grouped[k := list], captions[k := caption(s[i])];
      ghost var done := s[..i + 1];
      assert done == s[..i] + [s[i]];
      KeysSnoc(key, s[..i], s[i]);
      assert TalliedKey(key, caption, s[..i], grouped, captions, k);
      forall j ensures TalliedKey(key, caption, done, newGrouped, newCaptions, j) {
        TallyStep(key, caption, s[..i], s[i], grouped, captions, j);
      }
      if k !in grouped {
        order := order + [k];
      }
      grouped, captions := newGrouped, newCaptions;
    }
    assert s[..|s|] == s;
  }

  /** One key's term grows by c: so does the sum. */
  lemma {:induction false} SumBump<K>(g: K -> real, h: K -> real, ks: seq<K>, k0: K, c: real)
    requires Distinct(ks)
    requires forall k <- ks :: h(k) == g(k) + if k == k0 then c else 0.0
    ensures SumBy(h, ks) == SumBy(g, ks) + if k0 in ks then c else 0.0
  {
    if ks != [] {
      var ks' := ks[..|ks| - 1];
      assert ks == ks' + [ks[|ks| - 1]];
      SumBump(g, h, ks', k0, c);
    }
  }

  lemma GroupSumSnoc<T, K>(key: T -> K, f: T -> real, s: seq<T>, x: T, k: K)
    ensures GroupSum(key, f, s + [x])(k) == GroupSum(key, f, s)(k) + if k == key(x) then f(x) else 0.0
  {
    GroupSnoc(key, s, x, k);
    if k == key(x) {
      SumSnoc(f, Group(key, s, k), x);
    }
  }

  lemma SumStep<T(!new), K(!new)>(key: T -> K, f: T -> real, init: seq<T>, x: T)
    ensures SumBy(GroupSum(key, f, init + [x]), Keys(key, init + [x]))
         == SumBy(GroupSum(key, f, init), Keys(key, init)) + f(x)
  {
    var g := GroupSum(key, f, init);
    var h := GroupSum(key, f, init + [x]);
    forall k ensures h(k) == g(k) + if k == key(x) then f(x) else 0.0 {
      GroupSumSnoc(key, f, init, x, k);
    }
    KeysSnoc(key, init, x);
    KeysMembers(key, init);
    SumBump(g, h, Keys(key, init), key(x), f(x));
    if key(x) !in Keys(key, init) {
      GroupAbsent(key, init, key(x));
      assert g(key(x)) == 0.0;
      SumSnoc(h, Keys(key, init), key(x));
    }
  }

  /** Grouping loses and duplicates nothing: group sums add up to the overall sum. */
  lemma {:induction false} PartitionSum<T(!new), K(!new)>(key: T -> K, f: T -> real, s: seq<T>)
    ensures SumBy(GroupSum(key, f, s), Keys(key, s)) == SumBy(f, s)
  {
    if s != [] {
      var init, x := s[..|s| - 1], s[|s| - 1];
      assert s == init + [x];
      PartitionSum(key, f, init);
      SumStep(key, f, init, x);
    }
  }

  lemma PartitionCount<T(!new), K(!new)>(key: T -> K, f: T -> int, s: seq<T>)
    ensures CountBy(GroupCount(key, f, s), Keys(key, s)) == CountBy(f, s)
  {
    var g := (x: T) => f(x) as real;
    var ci := GroupCount(key, f, s);
    var cr := GroupSum(key, g, s);
    forall k ensures cr(k) == ci(k) as real {
      CountAsSum(f, g, Group(key, s, k));
    }
    CountAsSum(ci, cr, Keys(key, s));
    CountAsSum(f, g, s);
    PartitionSum(key, g, s);
  }

  /** The distinct tags (run ids, say) of the elements that satisfy p. */
  function Tags<T(==), U(==)>(p: T -> bool, tag: T -> U, s: seq<T>): set<U> {
    set x | x in s && p(x) :: tag(x)
  }

  lemma TagsSnoc<T, U>(p: T -> bool, tag: T -> U, s: seq<T>, x: T)
    ensures Tags(p, tag, s + [x]) == if p(x) then Tags(p, tag, s) + {tag(x)} else Tags(p, tag, s)
    ensures |Tags(p, tag, s + [x])| == |Tags(p, tag, s)| + if p(x) && tag(x) !in Tags(p, tag, s) then 1 else 0
  {
    assert forall y :: y in s + [x] <==> y in s || y == x;
    if p(x) && tag(x) in Tags(p, tag, s) {
      assert Tags(p, tag, s) + {tag(x)} == Tags(p, tag, s);
    }
  }

  /** No tag is shared between two groups. */
  ghost predicate OneGroupPerTag<T(!new), K, U>(p: T -> bool, tag: T -> U, key: T -> K, s: seq<T>) {
    forall x, y :: x in s && y in s && p(x) && p(y) && tag(x) == tag(y) ==> key(x) == key(y)
  }

  lemma {:induction false} CountBump<K>(g: K -> int, h: K -> int, ks: seq<K>, k0: K, c: int)
    requires Distinct(ks)
    requires forall k <- ks :: h(k) == g(k) + if k == k0 then c else 0
    ensures CountBy(h, ks) == CountBy(g, ks) + if k0 in ks then c else 0
  {
    if ks != [] {
      var ks' := ks[..|ks| - 1];
      assert ks == ks' + [ks[|ks| - 1]];
      CountBump(g, h, ks', k0, c);
    }
  }

  ghost predicate SharedBefore<T(!new), K, U>(p: T -> bool, tag: T -> U, key: T -> K, s: seq<T>, x: T) {
    p(x) && tag(x) in Tags(p, tag, s) && tag(x) !in Tags(p, tag, Group(key, s, key(x)))
  }

  /** How many distinct tags the group of a key has. */
  function GroupTags<T(==), K(==), U(==)>(p: T -> bool, tag: T -> U, key: T -> K, s: seq<T>): K -> int {
    k => |Tags(p, tag, Group(key, s, k))|
  }

  /** 1 if the new element brings a tag its group did not have. */
  function NewTag<T(==), K(==), U(==)>(p: T -> bool, tag: T -> U, key: T -> K, s: seq<T>, x: T): nat {
    if p(x) && tag(x) !in Tags(p, tag, Group(key, s, key(x))) then 1 else 0
  }

  lemma GroupTagsSnoc<T(!new), K, U>(p: T -> bool, tag: T -> U, key: T -> K, s: seq<T>, x: T, k: K)
    ensures GroupTags(p, tag, key, s + [x])(k)
         == GroupTags(p, tag, key, s)(k) + if k == key(x) then NewTag(p, tag, key, s, x) else 0
  {
    GroupSnoc(key, s, x, k);
    if k == key(x) {
      TagsSnoc(p, tag, Group(key, s, k), x);
    }
  }

  lemma DistinctStep<T(!new), K(!new), U>(p: T -> bool, tag: T -> U, key: T -> K, init: seq<T>, x: T)
    ensures CountBy(GroupTags(p, tag, key, init + [x]), Keys(key, init + [x]))
         == CountBy(GroupTags(p, tag, key, init), Keys(key, init)) + NewTag(p, tag, key, init, x)
  {
    var g := GroupTags(p, tag, key, init);
    var h := GroupTags(p, tag, key, init + [x]);
    var c := NewTag(p, tag, key, init, x);
    forall k ensures h(k) == g(k) + if k == key(x) then c else 0 {
      GroupTagsSnoc(p, tag, key, init, x, k);
    }
    KeysSnoc(key, init, x);
    KeysMembers(key, init);
    CountBump(g, h, Keys(key, init), key(x), c);
    if key(x) !in Keys(key, init) {
      GroupAbsent(key, init, key(x));
      assert g(key(x)) == 0;
      CountSnoc(h, Keys(key, init), key(x));
    }
  }

  lemma TotalTagsStep<T(!new), K, U>(p: T -> bool, tag: T -> U, key: T -> K, init: seq<T>, x: T)
    ensures |Tags(p, tag, init + [x])|
         == |Tags(p, tag, init)| + NewTag(p, tag, key, init, x) - if SharedBefore(p, tag, key, init, x) then 1 else 0
  {
    TagsSnoc(p, tag, init, x);
    GroupMembers(key, init, key(x));
    assert Tags(p, tag, Group(key, init, key(x))) <= Tags(p, tag, init);
  }

  /** A new element keeps tags unshared exactly when its tag was not already used only elsewhere. */
  lemma OneGroupStep<T(!new), K, U>(p: T -> bool, tag: T -> U, key: T -> K, init: seq<T>, x: T)
    ensures OneGroupPerTag(p, tag, key, init + [x])
       <==> OneGroupPerTag(p, tag, key, init) && !SharedBefore(p, tag, key, init, x)
  {
    var s := init + [x];
    assert forall y :: y in s <==> y in init || y == x;
    GroupMembers(key, init, key(x));
    if OneGroupPerTag(p, tag, key, s) && p(x) && tag(x) in Tags(p, tag, init) {
      var y :| y in init && p(y) && tag(y) == tag(x);
      assert y in s && x in s;
      assert y in Group(key, init, key(x));
    }
    if OneGroupPerTag(p, tag, key, init) && !SharedBefore(p, tag, key, init, x) && p(x) {
      forall y | y in init && p(y) && tag(y) == tag(x) ensures key(y) == key(x) {
        assert tag(x) in Tags(p, tag, init);
        var z :| z in Group(key, init, key(x)) && p(z) && tag(z) == tag(x);
        assert z in init && key(z) == key(x);
      }
    }
  }

  /** Distinct-tag counts of the groups never add up to less than the overall count, and they add up
      exactly when no tag is shared between groups. */
  lemma {:induction false} PartitionDistinct<T(!new), K(!new), U>(p: T -> bool, tag: T -> U, key: T -> K, s: seq<T>)
    ensures CountBy(GroupTags(p, tag, key, s), Keys(key, s)) >= |Tags(p, tag, s)|
    ensures CountBy(GroupTags(p, tag, key, s), Keys(key, s)) == |Tags(p, tag, s)|
       <==> OneGroupPerTag(p, tag, key, s)
  {
    if s != [] {
      var init, x := s[..|s| - 1], s[|s| - 1];
      assert s == init + [x];
      PartitionDistinct(p, tag, key, init);
      DistinctStep(p, tag, key, init, x);
      OneGroupStep(p, tag, key, init, x);
      TotalTagsStep(p, tag, key, init, x);
    }
  }

  lemma {:induction false} FilterMultiset<T>(p: T -> bool, s: seq<T>, x: T)
    ensures multiset(Filter(p, s))[x] == if p(x) then multiset(s)[x] else 0
  {
    if s != [] {
      FilterMultiset(p, s[..|s| - 1], x);
      assert s == s[..|s| - 1] + [s[|s| - 1]];
    }
  }

  lemma GroupMultiset<T, K>(key: T -> K, s: seq<T>, k: K, x: T)
    ensures multiset(Group(key, s, k))[x] == if key(x) == k then multiset(s)[x] else 0
  {
    FilterMultiset(y => key(y) == k, s, x);
  }

  /** t holds every element of s, and nothing but elements of non-negative weight on top. */
  ghost predicate Grows<T(!new)>(weight: T -> real, s: seq<T>, t: seq<T>) {
    && multiset(s) <= multiset(t)
    && forall x :: x in multiset(t) - multiset(s) ==> weight(x) >= 0.0
  }

  /** When the whole list grows, so does every group, and its sum with it. */
  lemma GroupGrows<T(!new), K>(weight: T -> real, key: T -> K, s: seq<T>, t: seq<T>, k: K)
    requires Grows(weight, s, t)
    ensures Grows(weight, Group(key, s, k), Group(key, t, k))
    ensures GroupSum(key, weight, s)(k) <= GroupSum(key, weight, t)(k)
  {
    var a, b := Group(key, s, k), Group(key, t, k);
    forall x ensures multiset(a)[x] == if key(x) == k then multiset(s)[x] else 0 {
      GroupMultiset(key, s, k, x);
    }
    forall x ensures multiset(b)[x] == if key(x) == k then multiset(t)[x] else 0 {
      GroupMultiset(key, t, k, x);
    }
    forall x | x in multiset(b) - multiset(a) ensures weight(x) >= 0.0 {
      assert x in multiset(t) - multiset(s);
    }
    SumContained(weight, weight, a, b);
  }
}
