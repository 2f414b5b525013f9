/** How many records of each kind the generator makes: closed forms for every record count. */
module Census {
  import opened Prelude
  import opened Corpus
  import opened Updates
  import opened Generator
  import opened Bodies
  import opened Monitor

  // ---- Counting positions

  function CountBelow(n: nat, p: nat -> bool): nat {
    if n == 0 then 0 else CountBelow(n - 1, p) + if p(n - 1) then 1 else 0
  }

  function By(a: nat): nat -> bool
    requires a > 0
  {
    (i: nat) => i % a == 0
  }

  function Either(p: nat -> bool, q: nat -> bool): nat -> bool { (i: nat) => p(i) || q(i) }
  function Both(p: nat -> bool, q: nat -> bool): nat -> bool { (i: nat) => p(i) && q(i) }

  /** How many multiples of `a` are below `n`: one in `a`, rounded up. */
  function Multiples(n: nat, a: nat): nat
    requires a > 0
  {
    (n + a - 1) / a
  }

  lemma {:induction false} CountsMultiples(n: nat, a: nat)
    requires a > 0
    ensures CountBelow(n, By(a)) == DeletionCount(n, a)
  {
    if n > 0 {
      CountsMultiples(n - 1, a);
    }
  }

  lemma MultiplesCounted(n: nat, a: nat)
    requires a > 0
    ensures CountBelow(n, By(a)) == Multiples(n, a)
  {
    CountsMultiples(n, a);
    DeletionCountIsCeiling(n, a);
  }

  lemma {:induction false} CountSame(n: nat, p: nat -> bool, q: nat -> bool)
    requires forall i :: 0 <= i < n ==> (p(i) <==> q(i))
    ensures CountBelow(n, p) == CountBelow(n, q)
  {
    if n > 0 {
      CountSame(n - 1, p, q);
    }
  }

  /** Inclusion and exclusion. */
  lemma {:induction false} CountEither(n: nat, p: nat -> bool, q: nat -> bool)
    ensures CountBelow(n, Either(p, q)) + CountBelow(n, Both(p, q)) == CountBelow(n, p) + CountBelow(n, q)
  {
    if n > 0 {
      CountEither(n - 1, p, q);
    }
  }

  /** Records with the property. */
  function CountWhere(rs: seq<Record>, p: Record -> bool): nat { |Filter(rs, p)| }

  lemma {:induction false} CountPositions(o: CorpusOptions, n: nat, p: Record -> bool, q: nat -> bool)
    requires ValidOptions(o) && forall i :: 0 <= i < n ==> (p(RecordAt(o, i)) <==> q(i))
    ensures CountWhere(RecordsOf(o, n), p) == CountBelow(n, q)
  {
    hide RecordAt;
    if n > 0 {
      CountPositions(o, n - 1, p, q);
      assert DropLast(RecordsOf(o, n)) == RecordsOf(o, n - 1);
    }
  }

  // ---- The marks of a record

  lemma Marks(o: CorpusOptions, i: nat)
    requires ValidOptions(o)
    ensures var r := RecordAt(o, i);
            && (r.deleted <==> i % 41 == 0) && (r.ambiguousAlias <==> i % 37 == 0)
            && r.duplicateOf == DuplicateAt(o.seed, i) && |r.versions| == VersionCountAt(i)
  {
    hide SourceReference, BuildVersion, ClientName, ProjectName, SystemAt, VisibilityAt, IssueAt, DuplicateAt, CycleAt,
      ProjectIndexAt, ClientIndexAt, OrdinalAt, VersionCountAt;
  }

  /** Divisibility by two numbers without a common divisor is divisibility by their product. */
  lemma ByBoth(i: nat, a: nat, b: nat, x: int, y: int)
    requires a > 0 && b > 0 && x * a + y * b == 1
    ensures a * b > 0
    ensures i % a == 0 && i % b == 0 <==> i % (a * b) == 0
  {
    var ab := a * b;
    assert ab > 0 by { TimesPositive(a, b); }
    if i % a == 0 && i % b == 0 {
      var j, k := i / a, i / b;
      var m := x * k + y * j;
      calc {
        i;
      == { Spread(i, x * a, y * b); }
        i * (x * a) + i * (y * b);
      == { assert i == b * k && i == a * j; Swap(b, k, x, a); Swap(a, j, y, b); }
        ab * (x * k) + ab * (y * j);
      == { Spread(ab, x * k, y * j); }
        ab * m;
      }
      NoRemainder(i, ab, m);
    }
    if i % ab == 0 {
      var q := i / ab;
      assert i == ab * q;
      assert i == a * (b * q) by { Swap(a, 1, b, q); }
      assert i == b * (a * q) by { Swap(b, 1, a, q); }
      NoRemainder(i, a, b * q);
      NoRemainder(i, b, a * q);
    }
  }

  lemma TimesPositive(a: int, b: int)
    requires a > 0 && b > 0
    ensures a * b > 0
  {
  }

  lemma Spread(i: int, u: int, v: int)
    ensures i * (u + v) == i * u + i * v
  {
  }

  lemma Swap(a: int, b: int, c: int, d: int)
    ensures a * b * (c * d) == a * d * (c * b)
    ensures a * (c * d) == a * c * d
  {
  }

  lemma NoRemainder(i: int, a: int, q: int)
    requires a > 0 && i == a * q
    ensures i % a == 0
  {
    DivideExactly(i, a, q, 0);
  }

  lemma ByTwo(i: nat)
    ensures i % 7 == 0 && i % 19 == 0 <==> i % 133 == 0
    ensures i % 23 == 0 && i % 7 == 0 <==> i % 161 == 0
    ensures i % 23 == 0 && i % 19 == 0 <==> i % 437 == 0
    ensures i % 161 == 0 && i % 437 == 0 <==> i % 3059 == 0
  {
    ByBoth(i, 7, 19, -8, 3);
    ByBoth(i, 23, 7, -3, 10);
    ByBoth(i, 23, 19, 5, -6);
    ByBoth(i, 161, 19, -2, 17);
  }

  lemma StanceMark(o: CorpusOptions, i: nat)
    requires ValidOptions(o)
    ensures StanceChanged(RecordAt(o, i)) <==> i % 23 == 0 && (i % 7 == 0 || i % 19 == 0)
  {
    hide RecordAt, Body, BodyTail, IssueAt, DuplicateMarkerAt, SystemAt;
    GeneratedVersion(o, i, 0);
    GeneratedVersion(o, i, VersionCountAt(i) - 1);
  }

  lemma DuplicateMark(seed: int, i: nat)
    ensures DuplicateAt(seed, i).Some? <==> i > 0 && i % 11 == 0
  {
  }

  // ---- Versions

  lemma {:induction false} CountSum(n: nat, p: nat -> bool, q: nat -> bool, w: nat -> nat)
    requires forall i :: 0 <= i < n ==> w(i) == 1 + (if p(i) then 1 else 0) + (if q(i) then 2 else 0)
                                                - (if p(i) && q(i) then 1 else 0)
    ensures SumBelow(n, w) == n + CountBelow(n, p) + 2 * CountBelow(n, q) - CountBelow(n, Both(p, q))
  {
    if n > 0 {
      CountSum(n - 1, p, q, w);
    }
  }

  function SumBelow(n: nat, w: nat -> nat): nat {
    if n == 0 then 0 else SumBelow(n - 1, w) + w(n - 1)
  }

  lemma {:induction false} VersionsSum(o: CorpusOptions, n: nat)
    requires ValidOptions(o)
    ensures VersionTotal(RecordsOf(o, n)) == SumBelow(n, VersionCountAt)
  {
    hide RecordAt;
    if n > 0 {
      VersionsSum(o, n - 1);
      Marks(o, n - 1);
      assert DropLast(RecordsOf(o, n)) == RecordsOf(o, n - 1);
    }
  }

  // ---- The census

  predicate IsAmbiguous(r: Record) { r.ambiguousAlias }
  predicate HasVersions(r: Record) { |r.versions| > 1 }

  lemma MarksCounted(o: CorpusOptions, n: nat)
    requires ValidOptions(o)
    ensures var rs := RecordsOf(o, n);
            && CountWhere(rs, IsDeleted) == Multiples(n, 41) && CountWhere(rs, IsAmbiguous) == Multiples(n, 37)
  {
    hide RecordAt;
    forall i | 0 <= i < n
      ensures IsDeleted(RecordAt(o, i)) <==> By(41)(i)
      ensures IsAmbiguous(RecordAt(o, i)) <==> By(37)(i)
    {
      Marks(o, i);
    }
    CountPositions(o, n, IsDeleted, By(41));
    CountPositions(o, n, IsAmbiguous, By(37));
    MultiplesCounted(n, 41);
    MultiplesCounted(n, 37);
  }

  lemma {:induction false} CountButFirst(n: nat, p: nat -> bool, q: nat -> bool)
    requires q(0) && !p(0) && forall i :: 0 < i < n ==> (p(i) <==> q(i))
    ensures n > 0 ==> CountBelow(n, p) == CountBelow(n, q) - 1
  {
    if n > 1 {
      CountButFirst(n - 1, p, q);
    }
  }

  lemma DuplicatesCounted(o: CorpusOptions, n: nat)
    requires ValidOptions(o) && n > 0
    ensures CountWhere(RecordsOf(o, n), IsDuplicate) == (n - 1) / 11
  {
    hide RecordAt, DuplicateAt;
    var p := (i: nat) => i > 0 && i % 11 == 0;
    forall i | 0 <= i < n
      ensures IsDuplicate(RecordAt(o, i)) <==> p(i)
    {
      Marks(o, i);
      DuplicateMark(o.seed, i);
    }
    CountPositions(o, n, IsDuplicate, p);
    CountButFirst(n, p, By(11));
    MultiplesCounted(n, 11);
  }

  /** How many positions either number divides, when `c` is their least common multiple. */
  lemma EitherCounted(n: nat, a: nat, b: nat, c: nat)
    requires a > 0 && b > 0 && c > 0
    requires forall i: nat :: i < n ==> (By(a)(i) && By(b)(i) <==> By(c)(i))
    ensures CountBelow(n, Either(By(a), By(b))) == Multiples(n, a) + Multiples(n, b) - Multiples(n, c)
    ensures CountBelow(n, Both(By(a), By(b))) == Multiples(n, c)
  {
    hide CountBelow, Multiples;
    CountEither(n, By(a), By(b));
    CountSame(n, Both(By(a), By(b)), By(c));
    MultiplesCounted(n, a);
    MultiplesCounted(n, b);
    MultiplesCounted(n, c);
  }

  lemma VersionsCounted(o: CorpusOptions, n: nat)
    requires ValidOptions(o)
    ensures VersionTotal(RecordsOf(o, n)) ==
            n + Multiples(n, 7) + 2 * Multiples(n, 19) - Multiples(n, 133)
    ensures CountWhere(RecordsOf(o, n), HasVersions) ==
            Multiples(n, 7) + Multiples(n, 19) - Multiples(n, 133)
  {
    hide RecordAt, CountBelow, SumBelow, CountWhere, Multiples, VersionTotal;
    forall i: nat | i < n
      ensures By(7)(i) && By(19)(i) <==> By(133)(i)
      ensures HasVersions(RecordAt(o, i)) <==> Either(By(7), By(19))(i)
    {
      Marks(o, i);
      ByTwo(i);
    }
    VersionsSum(o, n);
    EitherCounted(n, 7, 19, 133);
    CountSum(n, By(7), By(19), VersionCountAt);
    CountPositions(o, n, HasVersions, Either(By(7), By(19)));
    MultiplesCounted(n, 7);
    MultiplesCounted(n, 19);
  }

  lemma StancesCounted(o: CorpusOptions, n: nat)
    requires ValidOptions(o)
    ensures CountWhere(RecordsOf(o, n), StanceChanged) ==
            Multiples(n, 161) + Multiples(n, 437) - Multiples(n, 3059)
  {
    hide RecordAt, StanceChanged, CountBelow, CountWhere, Multiples;
    forall i: nat | i < n
      ensures By(161)(i) && By(437)(i) <==> By(3059)(i)
      ensures StanceChanged(RecordAt(o, i)) <==> Either(By(161), By(437))(i)
    {
      StanceMark(o, i);
      ByTwo(i);
    }
    EitherCounted(n, 161, 437, 3059);
    CountPositions(o, n, StanceChanged, Either(By(161), By(437)));
  }

  /** The failure modes that a generated corpus has, for every record count: deleted records, ambiguous aliases,
      duplicates, versions, records with several, and records whose stance changes. */
  lemma GeneratedCensus(o: CorpusOptions)
    requires ValidOptions(o)
    ensures var n, rs := o.recordCount, RecordsOf(o, o.recordCount);
            && CountWhere(rs, IsDeleted) == Multiples(n, 41)
            && CountWhere(rs, IsAmbiguous) == Multiples(n, 37)
            && CountWhere(rs, IsDuplicate) == (n - 1) / 11
            && VersionTotal(rs) == n + Multiples(n, 7) + 2 * Multiples(n, 19) - Multiples(n, 133)
            && CountWhere(rs, HasVersions) == Multiples(n, 7) + Multiples(n, 19) - Multiples(n, 133)
            && CountWhere(rs, StanceChanged) == Multiples(n, 161) + Multiples(n, 437) - Multiples(n, 3059)
  {
    hide RecordAt, CountWhere, VersionTotal;
    MarksCounted(o, o.recordCount);
    DuplicatesCounted(o, o.recordCount);
    VersionsCounted(o, o.recordCount);
    StancesCounted(o, o.recordCount);
  }
}
