/** Small helpers shared by every other module: options, position lookup in a
    duplicate-free pool, and the string order both evaluators sort keys by. */
module Basics {

  datatype Option<+T> = None | Some(value: T)

  /** Position of the first occurrence of `x`, or the length when there is none
      (the source's `std::distance(begin, std::find(...))`). */
  function IndexOf<T(==)>(s: seq<T>, x: T): (i: nat)
    ensures i <= |s|
    ensures i < |s| ==> s[i] == x
    ensures i < |s| <==> x in s
    ensures x !in s[..i]
  {
    if s == [] then 0
    else if s[0] == x then 0
    else
      var j := IndexOf(s[1..], x);
      assert s[1..][..j] == s[1..j + 1];
      assert s[..j + 1] == [s[0]] + s[1..][..j];
      j + 1
  }

  /** The first occurrence is the only one in a duplicate-free pool. */
  lemma IndexOfUnique<T>(s: seq<T>, i: nat)
    requires i < |s| && NoDuplicates(s)
    ensures IndexOf(s, s[i]) == i
  {
    var j := IndexOf(s, s[i]);
    assert s[j] == s[i];
  }

  ghost predicate NoDuplicates<T>(s: seq<T>) {
    forall i, j :: 0 <= i < j < |s| ==> s[i] != s[j]
  }

  lemma PrefixMember<T>(s: seq<T>, t: seq<T>, x: T)
    requires s <= t && x in s
    ensures x in t
  {
    var i := IndexOf(s, x);
    assert t[i] == s[i];
  }

  /** An index handed out by a pool still denotes the same item after the pool grew. */
  lemma {:induction false} IndexOfStable<T>(s: seq<T>, t: seq<T>, x: T)
    requires s <= t && x in s
    ensures IndexOf(t, x) == IndexOf(s, x)
  {
    if s[0] != x {
      IndexOfStable(s[1..], t[1..], x);
    }
  }

  /** Append unless already present (the source's `add*` members). */
  function AddUnique<T(==,!new)>(s: seq<T>, x: T): (t: seq<T>)
    ensures x in t && s <= t
    ensures forall y :: y in t <==> y in s || y == x
  {
    if x in s then s else s + [x]
  }

  lemma AddUniqueKeepsPool<T(!new)>(s: seq<T>, x: T)
    ensures NoDuplicates(s) ==> NoDuplicates(AddUnique(s, x))
    ensures s <= AddUnique(s, x)
  {}

  // ---------------------------------------------------------------- string order

  /** Lexicographic order on strings: the order of `std::less<std::string>`. */
  predicate Leq(a: string, b: string) {
    if a == [] then true
    else if b == [] then false
    else if a[0] == b[0] then Leq(a[1..], b[1..])
    else a[0] < b[0]
  }

  lemma LeqTotal(a: string, b: string)
    ensures Leq(a, b) || Leq(b, a)
  {}

  lemma {:induction false} LeqAntisymmetric(a: string, b: string)
    requires Leq(a, b) && Leq(b, a)
    ensures a == b
  {
    if a != [] && b != [] {
      LeqAntisymmetric(a[1..], b[1..]);
      assert a == [a[0]] + a[1..] && b == [b[0]] + b[1..];
    }
  }

  lemma {:induction false} LeqTransitive(a: string, b: string, c: string)
    requires Leq(a, b) && Leq(b, c)
    ensures Leq(a, c)
  {
    if a != [] && b != [] && c != [] && a[0] == b[0] == c[0] {
      LeqTransitive(a[1..], b[1..], c[1..]);
    }
  }

  /** The strings agree up to position `k`, where `a` has the smaller character. */
  ghost predicate SmallerAt(a: string, b: string, k: nat) {
    k < |a| && k < |b| && a[..k] == b[..k] && a[k] < b[k]
  }

  /** Alphabetical order: a prefix comes first, and otherwise the first difference decides. */
  lemma {:induction false} LeqIff(a: string, b: string)
    ensures Leq(a, b) <==> a <= b || exists k: nat :: SmallerAt(a, b, k)
  {
    if a != [] && b != [] && a[0] == b[0] {
      LeqIff(a[1..], b[1..]);
      assert a == [a[0]] + a[1..] && b == [b[0]] + b[1..];
      if k: nat :| SmallerAt(a, b, k) {
        assert a[..k][1..] == a[1..][..k - 1] && b[..k][1..] == b[1..][..k - 1];
        assert SmallerAt(a[1..], b[1..], k - 1);
      }
      if k: nat :| SmallerAt(a[1..], b[1..], k) {
        assert a[..k + 1] == [a[0]] + a[1..][..k] && b[..k + 1] == [b[0]] + b[1..][..k];
        assert SmallerAt(a, b, k + 1);
      }
    } else if a != [] && b != [] {
      if a[0] < b[0] { assert SmallerAt(a, b, 0); }
    }
  }

  ghost predicate Sorted(s: seq<string>) {
    forall i, j :: 0 <= i < j < |s| ==> Leq(s[i], s[j])
  }

  ghost predicate IsLeast(k: string, keys: set<string>) {
    k in keys && forall x :: x in keys ==> Leq(k, x)
  }

  lemma LeastExists(keys: set<string>) returns (k: string)
    requires keys != {}
    ensures IsLeast(k, keys)
  {
    k :| k in keys;
    if keys != {k} {
      var rest := keys - {k};
      assert keys == {k} + rest;
      var l := LeastExists(rest);
      LeqTotal(k, l);
      if Leq(k, l) {
        forall x | x in keys ensures Leq(k, x) {
          if x == k { LeqTotal(k, k); } else { LeqTransitive(k, l, x); }
        }
      } else {
        forall x | x in keys ensures Leq(l, x) {}
        k := l;
      }
    } else {
      LeqTotal(k, k);
    }
  }

  lemma LeastIsUnique(k: string, l: string, keys: set<string>)
    requires IsLeast(k, keys) && IsLeast(l, keys)
    ensures k == l
  {
    LeqAntisymmetric(k, l);
  }

  /** The keys of an ordered map, in iteration order. */
  ghost function KeysInOrder(keys: set<string>): (s: seq<string>)
    ensures Sorted(s) && NoDuplicates(s)
    ensures forall x :: x in s <==> x in keys
    decreases keys
  {
    if keys == {} then []
    else
      LeastNonempty(keys);
      var k :| IsLeast(k, keys);
      [k] + KeysInOrder(keys - {k})
  }

  lemma LeastNonempty(keys: set<string>)
    requires keys != {}
    ensures exists k :: IsLeast(k, keys)
  {
    var k := LeastExists(keys);
  }

  /** A sorted enumeration without repetition is the only one: any way of
      sorting the keys of a hash map yields the ordered map's iteration order. */
  lemma {:induction false} SortedEnumerationIsUnique(s: seq<string>, keys: set<string>)
    requires Sorted(s) && NoDuplicates(s)
    requires forall x :: x in s <==> x in keys
    ensures s == KeysInOrder(keys)
    decreases |s|
  {
    if s == [] {
      assert forall x :: x in keys ==> x in s;
      assert keys == {};
    } else {
      assert s[0] in keys;
      forall x | x in keys ensures Leq(s[0], x) {
        var i := IndexOf(s, x);
        if i == 0 { LeqTotal(x, x); }
      }
      assert IsLeast(s[0], keys);
      var t := KeysInOrder(keys);
      assert t[0] == s[0] by {
        assert IsLeast(t[0], keys);
        LeastIsUnique(t[0], s[0], keys);
      }
      forall x ensures x in s[1..] <==> x in keys - {s[0]} {
        if x in s[1..] { var i := IndexOf(s[1..], x); assert s[i + 1] == x; }
        if x in keys && x != s[0] { var i := IndexOf(s, x); assert s[1..][i - 1] == x; }
      }
      SortedEnumerationIsUnique(s[1..], keys - {s[0]});
    }
  }

  // ---------------------------------------------------------------- numbers

  /** The first `n` natural numbers. */
  function Below(n: nat): (s: set<nat>)
    ensures forall i: nat :: i in s <==> i < n
  {
    if n == 0 then {} else Below(n - 1) + {n - 1}
  }

  /** C++ integer division truncates toward zero. */
  function TruncatedQuotient(a: int, b: int): int
    requires b != 0
  {
    if a >= 0 then a / b else -((-a) / b)
  }

  /** What truncation means: the remainder is smaller than the divisor and has the
      dividend's sign. */
  predicate Truncates(a: int, b: int, q: int)
    requires b != 0
  {
    var r := a - b * q;
    r < Abs(b) && -r < Abs(b) && (a >= 0 ==> r >= 0) && (a <= 0 ==> r <= 0)
  }

  function Abs(i: int): nat {
    if i < 0 then -i else i
  }

  lemma {:induction false} TruncatedQuotientIff(a: int, b: int, q: int)
    requires b != 0
    ensures q == TruncatedQuotient(a, b) <==> Truncates(a, b, q)
  {
    var p := TruncatedQuotient(a, b);
    assert Truncates(a, b, p);
    if Truncates(a, b, q) && q != p {
      assert b * (q - p) == (a - b * p) - (a - b * q);
      AtLeastOnce(b, q - p);
    }
  }

  lemma {:induction false} AtLeastOnce(b: int, d: int)
    requires d != 0
    ensures Abs(b * d) >= Abs(b)
  {}

  function Digits(n: nat): (s: string)
    ensures s != []
  {
    var d := [['0', '1', '2', '3', '4', '5', '6', '7', '8', '9'][n % 10]];
    if n < 10 then d else Digits(n / 10) + d
  }

  /** `std::to_string(int)`. */
  function IntToString(i: int): string {
    if i < 0 then "-" + Digits(-i) else Digits(i)
  }

  predicate IsDigit(c: char) { '0' <= c <= '9' }

  function DigitValue(c: char): nat
    requires IsDigit(c)
  {
    var value: int := c as int - 48; // the code of 0
    value
  }

  /** The number some digits stand for, most significant first. */
  function NumberOf(s: string): nat
    requires forall c :: c in s ==> IsDigit(c)
  {
    if s == [] then 0
    else 10 * NumberOf(s[..|s| - 1]) + DigitValue(s[|s| - 1])
  }

  /** The shortest decimal numeral of `n`. */
  lemma {:induction false} DigitsOf(n: nat)
    ensures forall c :: c in Digits(n) ==> IsDigit(c)
    ensures NumberOf(Digits(n)) == n
    ensures Digits(n)[0] == '0' ==> n == 0
  {
    if n >= 10 {
      DigitsOf(n / 10);
      var s := Digits(n);
      assert s[..|s| - 1] == Digits(n / 10);
    }
  }

  /** A sign exactly on negative numbers, and the numeral of the magnitude. */
  lemma {:induction false} DecimalText(i: int)
    ensures var s := IntToString(i);
      && (s[0] == '-' <==> i < 0)
      && var digits := if i < 0 then s[1..] else s;
      && (forall c :: c in digits ==> IsDigit(c)) && NumberOf(digits) == Abs(i) && (digits[0] == '0' ==> i == 0)
  {
    DigitsOf(Abs(i));
    assert Digits(Abs(i))[0] in Digits(Abs(i));
  }
}
