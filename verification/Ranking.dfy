/** Sorting, percentiles, and the fusion of two rankings. */
module Ranking {
  import opened Prelude
  import opened Corpus

  // ---- Sorting by a comparison

  ghost predicate TotalOrder<T(!new)>(atMost: (T, T) -> bool) {
    && (forall x, y :: atMost(x, y) || atMost(y, x))
    && (forall x, y, z :: atMost(x, y) && atMost(y, z) ==> atMost(x, z))
  }

  ghost predicate Ordered<T>(s: seq<T>, atMost: (T, T) -> bool) {
    forall i, j :: 0 <= i < j < |s| ==> atMost(s[i], s[j])
  }

  function Insert<T>(s: seq<T>, x: T, atMost: (T, T) -> bool): seq<T> {
    if s == [] then [x]
    else if atMost(Last(s), x) then s + [x]
    else Insert(DropLast(s), x, atMost) + [Last(s)]
  }

  /** `[...s].sort(..)`, for the order in which `x` may stand before `y`. */
  function Sorted<T>(s: seq<T>, atMost: (T, T) -> bool): seq<T> {
    if s == [] then [] else Insert(Sorted(DropLast(s), atMost), Last(s), atMost)
  }

  lemma {:induction false} InsertMembers<T>(s: seq<T>, x: T, atMost: (T, T) -> bool)
    ensures multiset(Insert(s, x, atMost)) == multiset(s) + multiset{x}
    ensures forall y :: y in Insert(s, x, atMost) <==> y in s || y == x
  {
    if s != [] {
      InsertMembers(DropLast(s), x, atMost);
      assert s == DropLast(s) + [Last(s)];
    }
    var inserted := Insert(s, x, atMost);
    assert multiset(inserted) == multiset(s) + multiset{x};
    forall y
      ensures y in inserted <==> y in s || y == x
    {
      assert y in inserted <==> y in multiset(inserted);
    }
  }

  lemma {:induction false} AppendOrdered<T>(s: seq<T>, x: T, atMost: (T, T) -> bool)
    requires Ordered(s, atMost) && forall y :: y in s ==> atMost(y, x)
    ensures Ordered(s + [x], atMost)
  {
  }

  lemma {:induction false} InsertOrdered<T(!new)>(s: seq<T>, x: T, atMost: (T, T) -> bool)
    requires TotalOrder(atMost) && Ordered(s, atMost)
    ensures Ordered(Insert(s, x, atMost), atMost)
  {
    if s != [] {
      var d, l := DropLast(s), Last(s);
      forall y | y in s
        ensures atMost(y, l)
      {
        var i :| 0 <= i < |s| && s[i] == y;
        assert i == |s| - 1 || atMost(s[i], s[|s| - 1]);
      }
      if atMost(l, x) {
        AppendOrdered(s, x, atMost);
      } else {
        InsertOrdered(d, x, atMost);
        InsertMembers(d, x, atMost);
        AppendOrdered(Insert(d, x, atMost), l, atMost);
      }
    }
  }

  lemma {:induction false} SortedIsSorted<T(!new)>(s: seq<T>, atMost: (T, T) -> bool)
    requires TotalOrder(atMost)
    ensures Ordered(Sorted(s, atMost), atMost) && multiset(Sorted(s, atMost)) == multiset(s)
    ensures |Sorted(s, atMost)| == |s|
  {
    hide Insert, TotalOrder;
    if s != [] {
      SortedIsSorted(DropLast(s), atMost);
      InsertOrdered(Sorted(DropLast(s), atMost), Last(s), atMost);
      InsertMembers(Sorted(DropLast(s), atMost), Last(s), atMost);
      assert s == DropLast(s) + [Last(s)];
    }
    SameSize(Sorted(s, atMost), s);
  }

  // ---- Percentiles

  function AtMost(): (real, real) -> bool { (x: real, y: real) => x <= y }

  /** `percentile`, with 0 for no values. */
  function Percentile(values: seq<real>, fraction: real): real
    requires 0.0 <= fraction
  {
    if values == [] then 0.0
    else
      PlaceInRange(|values|, fraction);
      SortedLength(values);
      Sorted(values, AtMost())[Min(|values| - 1, (|values| as real * fraction).Floor)]
  }

  lemma PlaceInRange(n: nat, fraction: real)
    requires 0.0 <= fraction
    ensures 0 <= (n as real * fraction).Floor
  {
    assert 0.0 <= n as real * fraction;
  }

  lemma SortedLength(values: seq<real>)
    ensures |Sorted(values, AtMost())| == |values|
  {
    SortedIsSorted(values, AtMost());
  }

  /** How many values are at most `x`. */
  function CountAtMost(values: seq<real>, x: real): nat {
    if values == [] then 0 else CountAtMost(DropLast(values), x) + if Last(values) <= x then 1 else 0
  }

  lemma {:induction false} InsertCount(s: seq<real>, v: real, x: real)
    ensures CountAtMost(Insert(s, v, AtMost()), x) == CountAtMost(s, x) + if v <= x then 1 else 0
  {
    if s != [] {
      InsertCount(DropLast(s), v, x);
    }
  }

  lemma {:induction false} SortedCount(values: seq<real>, x: real)
    ensures CountAtMost(Sorted(values, AtMost()), x) == CountAtMost(values, x)
  {
    if values != [] {
      SortedCount(DropLast(values), x);
      InsertCount(Sorted(DropLast(values), AtMost()), Last(values), x);
    }
  }

  lemma {:induction false} CountPrefix(s: seq<real>, k: nat)
    requires Ordered(s, AtMost()) && k < |s|
    ensures CountAtMost(s, s[k]) > k
  {
    if k == |s| - 1 {
      AllCounted(s, s[k]);
    } else {
      CountPrefix(DropLast(s), k);
    }
  }

  lemma {:induction false} AllCounted(s: seq<real>, x: real)
    requires forall i :: 0 <= i < |s| ==> s[i] <= x
    ensures CountAtMost(s, x) == |s|
  {
    if s != [] {
      AllCounted(DropLast(s), x);
    }
  }

  /** How many values are below `x`. */
  function CountBelow(values: seq<real>, x: real): nat {
    if values == [] then 0 else CountBelow(DropLast(values), x) + if Last(values) < x then 1 else 0
  }

  lemma {:induction false} InsertBelow(s: seq<real>, v: real, x: real)
    ensures CountBelow(Insert(s, v, AtMost()), x) == CountBelow(s, x) + if v < x then 1 else 0
  {
    if s != [] {
      InsertBelow(DropLast(s), v, x);
    }
  }

  lemma {:induction false} SortedBelow(values: seq<real>, x: real)
    ensures CountBelow(Sorted(values, AtMost()), x) == CountBelow(values, x)
  {
    if values != [] {
      SortedBelow(DropLast(values), x);
      InsertBelow(Sorted(DropLast(values), AtMost()), Last(values), x);
    }
  }

  lemma {:induction false} BelowPrefix(s: seq<real>, k: nat)
    requires Ordered(s, AtMost()) && k < |s|
    ensures CountBelow(s, s[k]) <= k
  {
    if k == |s| - 1 {
      NoMoreBelow(DropLast(s), s[k]);
    } else {
      BelowPrefix(DropLast(s), k);
      assert AtMost()(s[k], s[|s| - 1]);
    }
  }

  lemma {:induction false} NoMoreBelow(s: seq<real>, x: real)
    ensures CountBelow(s, x) <= |s|
  {
    if s != [] {
      NoMoreBelow(DropLast(s), x);
    }
  }

  /** A percentile is one of the values; more of them than that fraction of their number, rounded down, are at most it,
      and no more than that are below it. */
  lemma PercentileIsRank(values: seq<real>, fraction: real)
    requires values != [] && 0.0 <= fraction
    ensures Percentile(values, fraction) in values
    ensures CountBelow(values, Percentile(values, fraction)) <= Min(|values| - 1, (|values| as real * fraction).Floor)
    ensures CountAtMost(values, Percentile(values, fraction)) > Min(|values| - 1, (|values| as real * fraction).Floor)
  {
    hide Sorted, CountAtMost, CountBelow;
    var sorted := Sorted(values, AtMost());
    SortedIsSorted(values, AtMost());
    PlaceInRange(|values|, fraction);
    var k := Min(|values| - 1, (|values| as real * fraction).Floor);
    CountPrefix(sorted, k);
    SortedCount(values, sorted[k]);
    BelowPrefix(sorted, k);
    SortedBelow(values, sorted[k]);
    assert sorted[k] in multiset(sorted);
  }

  // ---- Reciprocal rank fusion

  const RECIPROCAL_RANK_CONSTANT := 60

  function Contribution(rank: Option<nat>): real {
    if rank.Some? && rank.value != 0 then 1.0 / (RECIPROCAL_RANK_CONSTANT + rank.value) as real else 0.0
  }

  /** The score of `reciprocalRankFusion` with both rankings available. */
  function FusionScore(lexical: Option<nat>, semantic: Option<nat>): real {
    (Contribution(lexical) + Contribution(semantic)) / (2.0 / 61.0)
  }

  lemma ContributionBound(rank: Option<nat>)
    ensures 0.0 <= Contribution(rank) <= 1.0 / 61.0
    ensures Contribution(rank) == 1.0 / 61.0 <==> rank == Some(1)
  {
    if rank.Some? && rank.value != 0 {
      var n := (RECIPROCAL_RANK_CONSTANT + rank.value) as real;
      assert Contribution(rank) * n == 1.0;
      assert 61.0 <= n;
      if rank.value > 1 {
        assert 62.0 <= n;
        assert Contribution(rank) * 62.0 <= 1.0;
      }
    }
  }

  /** Scores lie in [0, 1]; only a record that leads both rankings scores 1, and only one in neither scores 0. */
  lemma FusionScoreInUnit(lexical: Option<nat>, semantic: Option<nat>)
    ensures 0.0 <= FusionScore(lexical, semantic) <= 1.0
    ensures FusionScore(lexical, semantic) == 1.0 <==> lexical == Some(1) && semantic == Some(1)
  {
    ContributionBound(lexical);
    ContributionBound(semantic);
    var sum := Contribution(lexical) + Contribution(semantic);
    assert FusionScore(lexical, semantic) == sum * 30.5;
  }

  /** `new Map(ids.map((id, index) => [id, index + 1])).get(id)` */
  function RankOf(ids: seq<Id>, id: Id): Option<nat> {
    if ids == [] then None else if Last(ids) == id then Some(|ids|) else RankOf(DropLast(ids), id)
  }

  function ScoreOf(lexical: seq<Id>, semantic: seq<Id>, id: Id): real {
    FusionScore(RankOf(lexical, id), RankOf(semantic, id))
  }

  /** Higher scores first, and equal scores in the locale's order of identifiers. */
  function ByScore(lexical: seq<Id>, semantic: seq<Id>, localeAtMost: (Id, Id) -> bool): (Id, Id) -> bool {
    (x: Id, y: Id) =>
      var a, b := ScoreOf(lexical, semantic, x), ScoreOf(lexical, semantic, y);
      a > b || (a == b && localeAtMost(x, y))
  }

  function HybridRecords(lexical: seq<Id>, semantic: seq<Id>, localeAtMost: (Id, Id) -> bool, limit: nat): seq<Id> {
    var ranked := Sorted(Unique(lexical + semantic), ByScore(lexical, semantic, localeAtMost));
    ranked[..Min(limit, |ranked|)]
  }

  lemma ByScoreIsOrder(lexical: seq<Id>, semantic: seq<Id>, localeAtMost: (Id, Id) -> bool)
    requires TotalOrder(localeAtMost)
    ensures TotalOrder(ByScore(lexical, semantic, localeAtMost))
  {
    hide ScoreOf;
  }

  lemma SetSize(s: seq<Id>)
    ensures |Unique(s)| == |Elements(s)|
  {
    UniqueIsSet(s);
    DistinctCount(Unique(s));
    assert Elements(Unique(s)) == Elements(s);
  }

  /** The hybrid list has no repeats, `limit` records if there are as many, all from one of the two lists, and leaves
      out only records that score no better than every record it keeps. */
  lemma HybridKeepsTheBest(lexical: seq<Id>, semantic: seq<Id>, localeAtMost: (Id, Id) -> bool, limit: nat)
    requires TotalOrder(localeAtMost)
    ensures var hybrid := HybridRecords(lexical, semantic, localeAtMost, limit);
            && Distinct(hybrid) && |hybrid| == Min(limit, |Elements(lexical + semantic)|)
            && (forall x :: x in hybrid ==> x in lexical || x in semantic)
            && (forall x, y :: x in hybrid && (y in lexical || y in semantic) && y !in hybrid ==>
                                 ScoreOf(lexical, semantic, x) >= ScoreOf(lexical, semantic, y))
  {
    hide ScoreOf, Sorted;
    var union, order := Unique(lexical + semantic), ByScore(lexical, semantic, localeAtMost);
    var ranked, hybrid := Sorted(union, order), HybridRecords(lexical, semantic, localeAtMost, limit);
    ByScoreIsOrder(lexical, semantic, localeAtMost);
    SortedIsSorted(union, order);
    UniqueIsSet(lexical + semantic);
    SameMultiset(ranked, union);
    PrefixDistinct(hybrid, ranked);
    SetSize(lexical + semantic);
    forall x | x in hybrid
      ensures x in lexical || x in semantic
    {
      assert x in union && x in lexical + semantic;
    }
    forall x, y | x in hybrid && (y in lexical || y in semantic) && y !in hybrid
      ensures ScoreOf(lexical, semantic, x) >= ScoreOf(lexical, semantic, y)
    {
      assert y in lexical + semantic && y in ranked;
      var i :| 0 <= i < |hybrid| && hybrid[i] == x;
      var j :| 0 <= j < |ranked| && ranked[j] == y;
      assert forall k :: 0 <= k < |hybrid| ==> ranked[k] == hybrid[k] && hybrid[k] in hybrid;
      assert order(ranked[i], ranked[j]);
    }
  }
}
