/** Values shared by every component: options, results, list helpers and decimal numerals. */
module Prelude {

  datatype Option<+T> = None | Some(value: T) {
    predicate IsFailure() { None? }
    function PropagateFailure<U>(): Option<U> requires None? { None }
    function Extract(): T requires Some? { value }
  }

  datatype Result<+T, +E> = Success(value: T) | Failure(error: E) {
    predicate IsFailure() { Failure? }
    function PropagateFailure<U>(): Result<U, E> requires Failure? { Failure(error) }
    function Extract(): T requires Success? { value }
  }

  function Min(a: int, b: int): int { if a <= b then a else b }

  function Last<T>(s: seq<T>): T
    requires s != []
  {
    s[|s| - 1]
  }

  function DropLast<T>(s: seq<T>): seq<T>
    requires s != []
  {
    s[..|s| - 1]
  }

  /** `s.map(f)` */
  function Map<A, B>(s: seq<A>, f: A -> B): (r: seq<B>)
    ensures |r| == |s|
    ensures forall i :: 0 <= i < |s| ==> r[i] == f(s[i])
  {
    seq(|s|, i requires 0 <= i < |s| => f(s[i]))
  }

  /** `s.filter(p)`, defined from the right so that loops which push can follow it. */
  function Filter<T>(s: seq<T>, p: T -> bool): seq<T> {
    if s == [] then []
    else if p(Last(s)) then Filter(DropLast(s), p) + [Last(s)]
    else Filter(DropLast(s), p)
  }

  /** The places at which `s` has the property. */
  ghost function Places<T>(s: seq<T>, p: T -> bool): set<nat> {
    set i: nat | i < |s| && p(s[i])
  }

  lemma {:induction false} FilterIsPlaces<T>(s: seq<T>, p: T -> bool)
    ensures |Filter(s, p)| == |Places(s, p)|
  {
    if s != [] {
      var d := DropLast(s);
      FilterIsPlaces(d, p);
      if p(Last(s)) {
        assert Places(s, p) == Places(d, p) + {|d|};
      } else {
        assert Places(s, p) == Places(d, p);
      }
    } else {
      assert Places(s, p) == {};
    }
  }

  /** A set has as many elements as its image, when no two elements have the same image. */
  lemma ImageCount<A, B>(s: set<A>, f: A -> B, t: set<B>)
    requires forall x, y :: x in s && y in s && f(x) == f(y) ==> x == y
    requires forall x :: x in s ==> f(x) in t
    requires forall b :: b in t ==> exists x :: x in s && f(x) == b
    ensures |s| == |t|
  {
    if s == {} {
      assert t == {};
    } else {
      var x :| x in s;
      forall b | b in t - {f(x)}
        ensures exists y :: y in s - {x} && f(y) == b
      {
        var y :| y in s && f(y) == b;
      }
      ImageCount(s - {x}, f, t - {f(x)});
    }
  }

  predicate Distinct<T(==)>(s: seq<T>) {
    forall i, j :: 0 <= i < j < |s| ==> s[i] != s[j]
  }

  /** `new Set(s)` */
  function Elements<T(==)>(s: seq<T>): set<T> {
    set x | x in s
  }

  /** `[...new Set(s)]`: first occurrences, in order. */
  function Unique<T(==)>(s: seq<T>): seq<T> {
    if s == [] then []
    else if Last(s) in DropLast(s) then Unique(DropLast(s))
    else Unique(DropLast(s)) + [Last(s)]
  }

  lemma {:induction false} FilterMembers<T>(s: seq<T>, p: T -> bool)
    ensures forall x :: x in Filter(s, p) <==> x in s && p(x)
  {
    if s != [] {
      FilterMembers(DropLast(s), p);
      assert s == DropLast(s) + [Last(s)];
    }
  }

  lemma {:induction false} FilterAppend<T>(a: seq<T>, b: seq<T>, p: T -> bool)
    ensures Filter(a + b, p) == Filter(a, p) + Filter(b, p)
  {
    if b == [] {
      assert a + b == a;
    } else {
      assert DropLast(a + b) == a + DropLast(b);
      FilterAppend(a, DropLast(b), p);
    }
  }

  lemma {:induction false} FilterDistinct<T>(s: seq<T>, p: T -> bool)
    requires Distinct(s)
    ensures Distinct(Filter(s, p))
  {
    if s != [] {
      FilterDistinct(DropLast(s), p);
      FilterMembers(DropLast(s), p);
      forall x | x in DropLast(s)
        ensures x != Last(s)
      {
        var i :| 0 <= i < |s| - 1 && s[i] == x;
      }
    }
  }

  /** A filter and a map commute when the map decides the predicate. */
  lemma {:induction false} FilterMap<A, B>(s: seq<A>, f: A -> B, p: A -> bool, q: B -> bool)
    requires forall x :: x in s ==> (p(x) <==> q(f(x)))
    ensures Filter(Map(s, f), q) == Map(Filter(s, p), f)
  {
    if s != [] {
      assert DropLast(Map(s, f)) == Map(DropLast(s), f);
      FilterMap(DropLast(s), f, p, q);
    }
  }

  lemma {:induction false} FilterSame<T>(s: seq<T>, p: T -> bool, q: T -> bool)
    requires forall x :: x in s ==> (p(x) <==> q(x))
    ensures Filter(s, p) == Filter(s, q)
  {
    if s != [] {
      FilterSame(DropLast(s), p, q);
    }
  }

  lemma {:induction false} FilterAll<T>(s: seq<T>, p: T -> bool)
    requires forall x :: x in s ==> p(x)
    ensures Filter(s, p) == s
  {
    if s != [] {
      var d := DropLast(s);
      assert p(Last(s));
      forall x | x in d
        ensures p(x)
      {
        var i :| 0 <= i < |d| && d[i] == x;
        assert s[i] == x;
      }
      FilterAll(d, p);
      assert s == d + [Last(s)];
    }
  }

  lemma {:induction false} FilterNone<T>(s: seq<T>, p: T -> bool)
    requires forall x :: x in s ==> !p(x)
    ensures Filter(s, p) == []
  {
    if s != [] {
      FilterNone(DropLast(s), p);
    }
  }

  lemma {:induction false} FilterNoLonger<T>(s: seq<T>, p: T -> bool)
    ensures |Filter(s, p)| <= |s|
  {
    if s != [] {
      FilterNoLonger(DropLast(s), p);
    }
  }

  lemma {:induction false} UniqueIsSet<T>(s: seq<T>)
    ensures Distinct(Unique(s))
    ensures forall x :: x in Unique(s) <==> x in s
  {
    if s != [] {
      UniqueIsSet(DropLast(s));
      assert s == DropLast(s) + [Last(s)];
    }
  }

  lemma {:induction false} DistinctCount<T>(s: seq<T>)
    ensures |Elements(s)| <= |s|
    ensures |Elements(s)| == |s| <==> Distinct(s)
  {
    if s != [] {
      var d, x := DropLast(s), Last(s);
      DistinctCount(d);
      assert s == d + [x];
      assert Elements(s) == Elements(d) + {x};
      if x in d {
        var i :| 0 <= i < |d| && d[i] == x;
        assert s[i] == s[|s| - 1];
        assert Elements(s) == Elements(d);
      } else if Distinct(d) {
        forall i, j | 0 <= i < j < |s|
          ensures s[i] != s[j]
        {
          if j == |s| - 1 {
            assert s[i] == d[i];
          }
        }
      } else {
        var i, j :| 0 <= i < j < |d| && d[i] == d[j];
        assert s[i] == s[j];
      }
    }
  }

  lemma SameSize<T>(a: seq<T>, b: seq<T>)
    requires multiset(a) == multiset(b)
    ensures |a| == |b|
  {
    assert |multiset(a)| == |a| && |multiset(b)| == |b|;
  }

  lemma LastIsNew<T>(s: seq<T>)
    requires Distinct(s) && s != []
    ensures Last(s) !in DropLast(s)
  {
    forall x | x in DropLast(s)
      ensures x != Last(s)
    {
      var i :| 0 <= i < |s| - 1 && s[i] == x;
    }
  }

  lemma {:induction false} DistinctMultiset<T>(s: seq<T>)
    ensures Distinct(s) <==> forall x :: multiset(s)[x] <= 1
  {
    if s != [] {
      var d, x := DropLast(s), Last(s);
      DistinctMultiset(d);
      assert s == d + [x];
      if Distinct(s) {
        LastIsNew(s);
      } else if x in d {
        assert multiset(s)[x] >= 2;
      } else {
        assert !Distinct(d);
        var y :| multiset(d)[y] > 1;
        assert multiset(s)[y] > 1;
      }
    }
  }

  lemma SameMultiset<T>(a: seq<T>, b: seq<T>)
    requires multiset(a) == multiset(b)
    ensures |a| == |b| && (Distinct(a) <==> Distinct(b)) && forall x :: x in a <==> x in b
  {
    SameSize(a, b);
    DistinctMultiset(a);
    DistinctMultiset(b);
    assert forall x :: x in a <==> x in multiset(a);
  }

  lemma PrefixDistinct<T>(a: seq<T>, b: seq<T>)
    requires a <= b && Distinct(b)
    ensures Distinct(a) && forall x :: x in a ==> x in b
  {
    assert forall i :: 0 <= i < |a| ==> a[i] == b[i];
  }

  lemma {:induction false} SubsetCount<T>(a: set<T>, b: set<T>)
    requires a <= b
    ensures |a| <= |b|
    ensures |a| == |b| <==> a == b
  {
    if a == {} {
      assert b == {} || |b| > 0;
    } else {
      var x :| x in a;
      SubsetCount(a - {x}, b - {x});
      assert a == (a - {x}) + {x} && b == (b - {x}) + {x};
    }
  }

  /** Multiplying by a positive number keeps the order. */
  lemma Scale(x: real, y: real, b: real)
    requires b > 0.0
    ensures x < y <==> x * b < y * b
  {
    if x < y {
      assert (y - x) * b > 0.0;
    } else {
      assert (x - y) * b >= 0.0;
    }
  }

  lemma QuotientWithin(a: real, b: real, low: real, high: real)
    requires b > 0.0 && low * b <= a <= high * b
    ensures low <= a / b <= high
  {
    assert a / b * b == a;
    Scale(a / b, low, b);
    Scale(high, a / b, b);
  }

  function Sum(s: seq<nat>): nat {
    if s == [] then 0 else Sum(DropLast(s)) + Last(s)
  }

  /** `String(n)` for a natural number. */
  function Decimal(n: nat): string {
    if n < 10 then [DIGITS[n]] else Decimal(n / 10) + [DIGITS[n % 10]]
  }

  const DIGITS: string := "0123456789"

  lemma {:induction false} DecimalInjective(m: nat, n: nat)
    requires Decimal(m) == Decimal(n)
    ensures m == n
  {
    DecimalDigits(m);
    DecimalDigits(n);
    if m >= 10 && n >= 10 {
      var a, b := Decimal(m / 10), Decimal(n / 10);
      assert Decimal(m)[..|a|] == a && Decimal(n)[..|b|] == b;
      DecimalInjective(m / 10, n / 10);
      assert Last(Decimal(m)) == DIGITS[m % 10] && Last(Decimal(n)) == DIGITS[n % 10];
    } else if m >= 10 {
      DecimalDigits(m / 10);
    } else if n >= 10 {
      DecimalDigits(n / 10);
    } else {
      assert Decimal(m)[0] == Decimal(n)[0];
    }
  }

  lemma {:induction false} DecimalDigits(n: nat)
    ensures |Decimal(n)| >= 1
    ensures forall i :: 0 <= i < |Decimal(n)| ==> '0' <= Decimal(n)[i] <= '9'
  {
    if n >= 10 {
      DecimalDigits(n / 10);
    }
  }
}
